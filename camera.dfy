/**
 * The photo-capture component: its three pieces of state (`photo`, `stream`,
 * `isCameraActive`) and the handlers that change them. The camera itself
 * (`getUserMedia`), the clock and the JPEG encoder are outside the model:
 * their results come in as parameters.
 */
module Camera {
  import opened Wrappers
  import opened Overlay
  import opened Canvas

  datatype TrackState = Live | Ended

  /** One track of a media stream; `stop()` ends it, and ending an ended track changes nothing. */
  class MediaTrack {
    var readyState: TrackState

    constructor ()
      ensures readyState == Live
    {
      readyState := Live;
    }

    method Stop()
      modifies this
      ensures readyState == Ended
    {
      readyState := Ended;
    }
  }

  /** A stream from the camera; `getTracks()` always lists the same tracks. */
  class MediaStream {
    const tracks: seq<MediaTrack>

    constructor (tracks: seq<MediaTrack>)
      ensures this.tracks == tracks
    {
      this.tracks := tracks;
    }

    ghost function TrackSet(): set<object> {
      set t | t in tracks
    }
  }

  /** The `<video>` element showing the preview; its size is that of the frames the stream delivers. */
  class VideoElement {
    var srcObject: MediaStream?
    var videoWidth: nat
    var videoHeight: nat

    constructor ()
      ensures srcObject == null && videoWidth == 0 && videoHeight == 0
    {
      srcObject, videoWidth, videoHeight := null, 0, 0;
    }
  }

  /** A download link: the file name it suggests and the data it points to. */
  datatype Download = Download(filename: string, href: DataUrl)

  /** The suggested file name for a photo downloaded at the given ISO-8601 time. */
  function DownloadName(isoTimestamp: string): (name: string)
    ensures |name| == |isoTimestamp| + 9
    ensures name[..5] == "foto-" && name[|name| - 4..] == ".jpg"
    // the timestamp can be read back from the name
    ensures name[5..|name| - 4] == isoTimestamp
  {
    "foto-" + isoTimestamp + ".jpg"
  }

  /** `drawRoundedRect`: traces the rounded outline call by call, then fills it in the current style. */
  method DrawRoundedRect(context: Context2D, x: real, y: real, width: real, height: real, radius: real)
    modifies context
    ensures context.commands == old(context.commands) + RoundedRectPath(x, y, width, height, radius, old(context.fillStyle))
    ensures context.font == old(context.font) && context.fillStyle == old(context.fillStyle)
  {
    context.BeginPath();
    context.MoveTo(x + radius, y);
    context.LineTo(x + width - radius, y);
    context.QuadraticCurveTo(x + width, y, x + width, y + radius);
    context.LineTo(x + width, y + height - radius);
    context.QuadraticCurveTo(x + width, y + height, x + width - radius, y + height);
    context.LineTo(x + radius, y + height);
    context.QuadraticCurveTo(x, y + height, x, y + height - radius);
    context.LineTo(x, y + radius);
    context.QuadraticCurveTo(x, y, x + radius, y);
    context.ClosePath();
    context.Fill();
  }

  /** The timestamp label (font, measurement, box, text), drawn on a context in any state. */
  method DrawTimestampLabel(context: Context2D, timestamp: string)
    modifies context
    ensures context.commands == old(context.commands)
      + LabelCmds(TimestampLabel(timestamp, context.metrics(TimestampFont, timestamp)), TimestampFont)
    ensures context.font == TimestampFont && context.fillStyle == Foreground
  {
    context.SetFont(TimestampFont);
    var textWidth := context.MeasureText(timestamp);
    context.SetFillStyle(Background);
    DrawRoundedRect(context, LabelLeft, TimestampTop, textWidth + PaddingX * 2.0, TimestampBoxHeight, Radius);
    context.SetFillStyle(Foreground);
    context.FillText(timestamp, LabelLeft + PaddingX, TimestampBaseline);
  }

  /** The app-name label, placed from the canvas height. */
  method DrawAppNameLabel(context: Context2D, canvasHeight: real)
    modifies context
    ensures context.commands == old(context.commands)
      + LabelCmds(AppNameLabel(canvasHeight, context.metrics(AppNameFont, AppName)), AppNameFont)
    ensures context.font == AppNameFont && context.fillStyle == Foreground
  {
    context.SetFont(AppNameFont);
    var appNameWidth := context.MeasureText(AppName);
    var bottomY := canvasHeight - AppNameHeight - BottomPadding;
    context.SetFillStyle(Background);
    DrawRoundedRect(context, LabelLeft, bottomY, appNameWidth + PaddingX * 2.0, AppNameHeight, Radius);
    context.SetFillStyle(Foreground);
    context.FillText(AppName, LabelLeft + PaddingX, bottomY + AppNameBaselineOffset);
  }

  /** Sizes the canvas to the video frame, which clears it, then paints the frame and both labels. */
  method PaintPhoto(canvas: CanvasElement, context: Context2D, width: nat, height: nat, timestamp: string)
    requires canvas.context == context
    modifies canvas, context
    ensures canvas.width == width && canvas.height == height
    ensures context.commands == PhotoDrawing(width, height, timestamp, context.metrics)
    ensures context.font == AppNameFont && context.fillStyle == Foreground
  {
    canvas.SetWidth(width);
    canvas.SetHeight(height);
    context.DrawVideoFrame(0.0, 0.0, canvas.width as real, canvas.height as real);
    DrawTimestampLabel(context, timestamp);
    DrawAppNameLabel(context, canvas.height as real);
  }

  class CameraCapture {
    var photo: Option<DataUrl>
    var stream: MediaStream?
    var isCameraActive: bool

    /**
     * A stream is only ever held while the camera is marked active. So when
     * the start button is shown (the camera is inactive) no stream is held,
     * and starting never leaks a previous one.
     */
    ghost predicate Valid()
      reads this
    {
      stream != null ==> isCameraActive
    }

    ghost function StreamTracks(): set<object>
      reads this
    {
      if stream == null then {} else stream.TrackSet()
    }

    constructor ()
      ensures Valid() && photo == None && stream == null && !isCameraActive
    {
      photo, stream, isCameraActive := None, null, false;
    }

    /**
     * `startCamera`: marks the camera active first, then asks for a stream.
     * `acquired` is what `getUserMedia` delivered, None when it was refused or
     * failed; a failure is only logged, so the camera stays marked active
     * without a stream.
     */
    method StartCamera(video: VideoElement?, acquired: Option<MediaStream>)
      requires Valid()
      modifies this, video
      ensures Valid() && isCameraActive && photo == old(photo)
      // the start button is shown only while the camera is inactive, and then no stream is held to leak
      ensures !old(isCameraActive) ==> old(stream) == null
      ensures acquired.Some? ==> stream == acquired.value && (video != null ==> video.srcObject == acquired.value)
      ensures acquired.None? ==> stream == old(stream) && (video != null ==> video.srcObject == old(video.srcObject))
      ensures video != null ==> video.videoWidth == old(video.videoWidth) && video.videoHeight == old(video.videoHeight)
    {
      isCameraActive := true;
      if acquired.Some? {
        if video != null {
          video.srcObject := acquired.value;
        }
        stream := acquired.value;
      }
    }

    /**
     * `stopCamera`: stops every track of the current stream and drops it. With
     * no stream it does nothing; in particular it leaves `isCameraActive` alone.
     */
    method StopCamera()
      requires Valid()
      modifies this, StreamTracks()
      ensures Valid() && stream == null && isCameraActive == old(isCameraActive) && photo == old(photo)
      ensures old(stream) != null ==> forall t :: t in old(stream).tracks ==> t.readyState == Ended
      ensures old(stream) == null ==> unchanged(this)
    {
      if stream != null {
        var tracks := stream.tracks;
        for i := 0 to |tracks|
          invariant forall j :: 0 <= j < i ==> tracks[j].readyState == Ended
          invariant stream == old(stream) && isCameraActive == old(isCameraActive) && photo == old(photo)
        {
          tracks[i].Stop();
        }
        stream := null;
      }
    }

    /**
     * Stopping twice has the effect of stopping once: the second call finds
     * no stream and changes nothing.
     */
    method StopCameraTwice()
      requires Valid()
      modifies this, StreamTracks()
      ensures Valid() && stream == null && isCameraActive == old(isCameraActive) && photo == old(photo)
      ensures old(stream) != null ==> forall t :: t in old(stream).tracks ==> t.readyState == Ended
      ensures old(stream) == null ==> unchanged(this)
    {
      StopCamera();
      label once:
      StopCamera();
      assert unchanged@once(this);
    }

    /**
     * `takePhoto`: does nothing unless the video element, the canvas and its 2D
     * context all exist. Otherwise it sizes the canvas to the video frame,
     * draws the frame and the two labels, keeps the JPEG as `photo`, releases
     * the camera and marks it inactive. `timestamp` is the locale-formatted
     * current time.
     */
    method TakePhoto(video: VideoElement?, canvas: CanvasElement?, timestamp: string)
      requires Valid()
      modifies this, StreamTracks(), if canvas == null then {} else canvas.Footprint()
      ensures Valid()
      ensures video == null || canvas == null || canvas.context == null ==>
        unchanged(this) && unchanged(StreamTracks()) && (canvas != null ==> unchanged(canvas.Footprint()))
      ensures video != null && canvas != null && canvas.context != null ==>
        && canvas.width == video.videoWidth && canvas.height == video.videoHeight
        && canvas.context.commands == PhotoDrawing(canvas.width, canvas.height, timestamp, canvas.context.metrics)
        && canvas.context.font == AppNameFont && canvas.context.fillStyle == Foreground
        && photo == Some(JpegOf(canvas.width, canvas.height, canvas.context.commands))
        && stream == null && !isCameraActive
        && (old(stream) != null ==> forall t :: t in old(stream).tracks ==> t.readyState == Ended)
    {
      if video == null || canvas == null {
        return;
      }
      var context := canvas.context;
      if context == null {
        return;
      }

      PaintPhoto(canvas, context, video.videoWidth, video.videoHeight, timestamp);
      var photoUrl := canvas.ToDataURL();
      photo := Some(photoUrl);
      StopCamera();
      isCameraActive := false;
    }

    /**
     * `downloadPhoto`: with no photo, nothing; otherwise a link to the photo
     * named after `isoNow`, the current time in ISO-8601 form.
     */
    method DownloadPhoto(isoNow: string) returns (link: Option<Download>)
      ensures link.None? <==> photo.None?
      ensures link.Some? ==> link.value.href == photo.value && link.value.filename == DownloadName(isoNow)
    {
      if photo.None? {
        return None;
      }
      link := Some(Download(DownloadName(isoNow), photo.value));
    }
  }
}
