# BadalaCam photo capture and feed, modelled in Dafny

This project models the two components of the BadalaCam web app that hold
its logic:

- **Photo capture** (`src/app/components/CameraCapture.tsx`). The component
  keeps three pieces of state: `photo`, `stream` and `isCameraActive`.
  `startCamera`, `stopCamera`, `takePhoto` and `downloadPhoto` change them.
  `takePhoto` sizes a canvas to the video frame and draws the frame. It then
  draws two watermark labels, each a filled rounded rectangle with text on
  it. The timestamp label sits at the top left. The app name "BadalaCam"
  sits at the bottom left.
- **Photo feed** (`src/app/components/PhotoFeed.tsx`). `fetchPhotos` maps
  the storage listing to `Photo` records and sorts them newest first.
  `groupPhotosByDay` folds the sorted list into an object keyed by calendar day.

The modules are:

- `Overlay` (overlay.dfy): the canvas calls as a `Cmd` datatype, the
  rounded-rectangle path, the label layout and the whole drawing of a photo.
  These are pure functions.
- `Canvas` (canvas.dfy): a 2D context class that records each drawing call,
  and a canvas element class. Assigning the canvas width or height clears the
  recorded picture and resets the font and fill style, as it does in a browser.
- `Camera` (camera.dfy): the capture component as a class, plus media-track,
  stream and video-element objects.
- `Feed` (feed.dfy): mapping the listing, a stable newest-first sort, and the
  feed component's `photos` and `loading` state.
- `Grouping` (grouping.dfy): the group-by-day fold as a loop. It is proved
  against a specification by day (`Days`, `ByDay`).
- `Wrappers` (wrappers.dfy): `Option` and `Result`.

Coordinates and text widths are reals. A text width comes from an abstract
`metrics(font, text)` function held by the context. A creation time is an
integer instant. The day of an instant is an abstract function `dayOf`. A
JPEG data URL is modelled as the canvas size plus the recorded picture (`JpegOf`).

Two behaviours of the code are worth knowing:

- The two labels are placed independently. With non-negative text widths
  their boxes overlap exactly when the canvas is more than 25 and less than
  100 units high (`Overlay.LabelsOverlapIff`).
- The stop button calls only `stopCamera`, which leaves `isCameraActive`
  true. A failed `getUserMedia` also leaves `isCameraActive` true with no
  stream. In that state the start button is hidden, the photo button is
  disabled and stop does nothing. Rendering is not modelled; the model states
  the state part of this exactly (`StartCamera`, `StopCamera`).

## Model

| member | source | states |
|---|---|---|
| `Overlay.RoundedRectPath` | src/app/components/CameraCapture.tsx:53-77 | The path is begin, move to (x+r, y), then four line/quadratic-curve pairs, then close and fill, with no stroke. The curves' control points are the four corners, clockwise from the top right. Each straight edge is axis-parallel. The last curve ends where the path began. When 0 ≤ r, 2r ≤ width and 2r ≤ height, every point lies in the rectangle. |
| `Overlay.TimestampLabel` | src/app/components/CameraCapture.tsx:79-91 | The box is at (5, 5) with height 40 and radius 8. The text starts 20 in from the box's left edge and leaves 20 free on its right. The baseline lies inside the box. With a non-negative text width the radius fits the box. |
| `Overlay.AppNameLabel` | src/app/components/CameraCapture.tsx:93-112 | The box is at x = 5 with height 35, and its bottom edge is exactly 20 above the canvas bottom. The text "BadalaCam" has the same 20/20 inset. The baseline lies inside the box. |
| `Overlay.LabelsOverlapIff` | src/app/components/CameraCapture.tsx:85-112 | With non-negative text widths, the two label boxes overlap if and only if 25 < canvas height < 100. |
| `Overlay.PhotoDrawingLayout` | src/app/components/CameraCapture.tsx:41-112 | The photo's drawing has 27 commands: the video frame at (0, 0, w, h); the timestamp box (5, 5, tw+40, 40, r=8) in black; the timestamp text at (25, 35) in bold 32px white; the app box (5, h−55, aw+40, 35, r=8) in black; "BadalaCam" at (25, h−30) in bold 24px white. |
| `Overlay.PhotoDrawingOnCanvas` | src/app/components/CameraCapture.tsx:42-112 | When both texts plus 45 fit the width and the height is at least 55, every outline point of both labels lies on the canvas. |
| `Canvas.Context2D.MeasureText` | src/app/components/CameraCapture.tsx:81 | The width reported is the metric of the text in the context's current font. |
| `Canvas.CanvasElement.SetWidth` | src/app/components/CameraCapture.tsx:42 | Sets the width and keeps the height. It clears the picture and resets font and fill style to their defaults. |
| `Canvas.CanvasElement.SetHeight` | src/app/components/CameraCapture.tsx:43 | Sets the height and keeps the width. It clears the picture and resets font and fill style. |
| `Canvas.CanvasElement.ToDataURL` | src/app/components/CameraCapture.tsx:115 | The data URL encodes the canvas's current size and picture. |
| `Camera.MediaTrack.Stop` | src/app/components/CameraCapture.tsx:124 | A stopped track is ended. |
| `Camera.DownloadName` | src/app/components/CameraCapture.tsx:134 | The name is "foto-" + timestamp + ".jpg". It is 9 characters longer than the timestamp, and the timestamp is read back from between prefix and suffix. |
| `Camera.DrawRoundedRect` | src/app/components/CameraCapture.tsx:53-77 | The context's log grows by exactly `RoundedRectPath` in the fill style in force. Font and fill style are unchanged. |
| `Camera.DrawTimestampLabel` | src/app/components/CameraCapture.tsx:79-91 | The log grows by the timestamp label's box and text. The label is sized from the width measured in "bold 32px Arial". It leaves the context in that font with a white fill. |
| `Camera.DrawAppNameLabel` | src/app/components/CameraCapture.tsx:93-112 | The log grows by the app-name label's box and text. The label is placed from the canvas height and sized from the width measured in "bold 24px Arial". It leaves the context in that font with a white fill. |
| `Camera.PaintPhoto` | src/app/components/CameraCapture.tsx:41-112 | The canvas takes the given size. Its picture is exactly `PhotoDrawing` for that size, the timestamp and the context's metrics. The context is left in "bold 24px Arial" with a white fill. |
| `Camera.CameraCapture.constructor` | src/app/components/CameraCapture.tsx:10-12 | The component starts with no photo, no stream and the camera inactive. |
| `Camera.CameraCapture.StartCamera` | src/app/components/CameraCapture.tsx:15-29 | Afterwards the camera is always marked active and the photo is kept. On success the stream is the acquired one and is bound to the video element if there is one. On failure the stream and the video binding are unchanged. A stream is never held while the camera is inactive, so when start is reachable (camera inactive) no earlier stream is held that could leak. |
| `Camera.CameraCapture.StopCamera` | src/app/components/CameraCapture.tsx:122-127 | With a stream, every one of its tracks is ended and the stream is dropped. With no stream, nothing changes. `isCameraActive` and `photo` are untouched either way. |
| `Camera.CameraCapture.StopCameraTwice` | src/app/components/CameraCapture.tsx:122-127 | Two stops in a row have exactly the postcondition of one stop, so releasing is idempotent. |
| `Camera.CameraCapture.TakePhoto` | src/app/components/CameraCapture.tsx:32-119 | If the video, the canvas or its 2D context is missing, nothing changes. Otherwise the canvas takes the video frame's size and its picture is `PhotoDrawing`, and its context is left in "bold 24px Arial" with a white fill. The photo becomes that picture's JPEG. Every track of the old stream is ended, the stream is dropped and the camera is marked inactive. |
| `Camera.CameraCapture.DownloadPhoto` | src/app/components/CameraCapture.tsx:130-137 | There is a link if and only if there is a photo. The link points to the photo and is named `DownloadName` of the current ISO time. |
| `Feed.ToPhotos` | src/app/components/PhotoFeed.tsx:63-75 | There is one photo per listing entry, in listing order. Each photo keeps its entry's name and creation time and carries the entry's public URL. |
| `Feed.Insert` | src/app/components/PhotoFeed.tsx:77-82 | Inserting adds exactly the one photo to the multiset. It puts it first or keeps the old head. |
| `Feed.InsertNewestFirst` | src/app/components/PhotoFeed.tsx:77-82 | Inserting into a newest-first list keeps it newest first. |
| `Feed.SortNewestFirst` | src/app/components/PhotoFeed.tsx:77-82 | The result is newest first (non-increasing creation time) and is a permutation of the input. |
| `Feed.InsertTakenAt` | src/app/components/PhotoFeed.tsx:77-82 | Insertion puts the new photo ahead of all photos with the same creation time and leaves their order alone. |
| `Feed.SortIsStable` | src/app/components/PhotoFeed.tsx:77-82 | For every instant, the photos taken at that instant appear in the sorted list in their listing order. |
| `Feed.PhotoFeed.constructor` | src/app/components/PhotoFeed.tsx:24-25 | The feed starts with no photos and loading. |
| `Feed.PhotoFeed.FetchPhotos` | src/app/components/PhotoFeed.tsx:52-88 | Loading always ends. On a listing error the photos are unchanged. On success they are the stable newest-first sort of the mapped listing, so they are newest first and a permutation of the mapped listing. |
| `Grouping.GroupPhotosByDay` | src/app/components/PhotoFeed.tsx:90-99 | The keys are the distinct days in order of first occurrence, and every key has a group. Each group is exactly the photos of that day in input order. Empty input gives no keys and no groups. |
| `Grouping.DaysExactly` | src/app/components/PhotoFeed.tsx:92-95 | A day is a key if and only if some photo falls on it. |
| `Grouping.DaysDistinct` | src/app/components/PhotoFeed.tsx:93-95 | No day is a key twice. |
| `Grouping.DaysGrowByPrefix` | src/app/components/PhotoFeed.tsx:93-95 | The keys of any prefix of the feed are a prefix of the keys of the whole feed, so keys appear in order of first occurrence. |
| `Grouping.ByDayCounts` | src/app/components/PhotoFeed.tsx:92-96 | A group holds each photo of its day as often as the feed does, and no photo of another day. So each photo lands in exactly one group. |
| `Grouping.ByDayNonEmpty` | src/app/components/PhotoFeed.tsx:93-96 | A day's group is non-empty if and only if the day is a key, so no group is empty. |
| `Grouping.ByDayNewestFirst` | src/app/components/PhotoFeed.tsx:96 | A newest-first feed gives newest-first groups. |
| `Grouping.GroupSizesSum` | src/app/components/PhotoFeed.tsx:90-99 | The sizes of the groups of all keys add up to the number of photos. |

## Left out

- Video recording, countdown, per-frame compositing and muxing: `CameraCapture` captures still photos only, and neither `CameraCapture` nor `PhotoFeed` calls `getFFmpeg` (`ffmpeg-config.js`).
- `getUserMedia`: its outcome is a parameter of `StartCamera`. Permission prompts, devices and the `facingMode`/`audio` constraints are not modelled.
- Pixels: `drawImage`, `fillText` and `fill` are recorded as commands, not rasterised. JPEG encoding is the `JpegOf` value, which keeps the drawing even for a canvas with a zero side (before the video's metadata has loaded `videoWidth` is 0), where a browser yields "data:,".
- `measureText`: text widths come from an abstract metrics function. Real arithmetic stands in for JavaScript floating point.
- Dates: `toLocaleString`, `toISOString` and `toLocaleDateString("pt-BR")` are inputs (timestamp strings) or the abstract `dayOf`. Parsing `created_at` is taken to give an integer instant, so an unparsable date (NaN in the comparator) is not modelled.
- `formatDate` and `formatDateHeader`: locale display formatting only. `formatDateHeader` re-parses the day key with `new Date`, and what that gives depends on the engine.
- Feed.PhotoFeed.FetchPhotos: an exception thrown during the fetch takes the same path as a returned listing error (photos unchanged, loading ends), so only the returned error is modelled.
- Grouping.GroupPhotosByDay: day keys are taken never to clash with `Object.prototype` names or look like array indices. Locale date strings never do, so keys keep insertion order and `!groups[date]` means "no key yet".
- Supabase: the storage listing is a `Result` parameter and `getPublicUrl` is an abstract function. `src/app/components/Auth.tsx` (sign-in/sign-up) is not part of this model.
- React: rendering, state-update batching, effects, and the order in which async callbacks interleave. Handlers are modelled as running to completion one at a time on the current state.
- Page chrome (`src/app/page.tsx`, `src/app/feed/page.tsx`, `src/app/auth/page.tsx`, `src/app/layout.tsx`), `next.config.js` and `ffmpeg-config.js`: configuration and layout only.
