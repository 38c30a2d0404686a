/**
 * The photo feed: turning the storage listing into `Photo` records, ordering
 * them newest first, and the component state that `fetchPhotos` sets.
 * Timestamps are the instants `new Date(created_at).getTime()` yields.
 */
module Feed {
  import opened Wrappers

  /** One entry of the storage bucket's listing. */
  datatype FileObject = FileObject(name: string, createdAt: int)

  datatype Photo = Photo(name: string, url: string, createdAt: int)

  /**
   * The listing mapped to photos, in listing order; `publicUrl` stands for the
   * storage client's `getPublicUrl`.
   */
  function ToPhotos(files: seq<FileObject>, publicUrl: string -> string): (photos: seq<Photo>)
    ensures |photos| == |files|
    ensures forall i :: 0 <= i < |files| ==>
      photos[i].name == files[i].name && photos[i].createdAt == files[i].createdAt
      && photos[i].url == publicUrl(files[i].name)
  {
    if files == [] then []
    else [Photo(files[0].name, publicUrl(files[0].name), files[0].createdAt)] + ToPhotos(files[1..], publicUrl)
  }

  /** Non-increasing creation times: newest first. */
  predicate NewestFirst(s: seq<Photo>) {
    forall i, j :: 0 <= i < j < |s| ==> s[i].createdAt >= s[j].createdAt
  }

  /** A photo at least as new as the head of a newest-first list can go in front of it. */
  lemma ConsNewestFirst(x: Photo, rest: seq<Photo>)
    requires NewestFirst(rest)
    requires rest != [] ==> x.createdAt >= rest[0].createdAt
    ensures NewestFirst([x] + rest)
  {
    var r := [x] + rest;
    forall i, j | 0 <= i < j < |r| ensures r[i].createdAt >= r[j].createdAt {
      if i == 0 {
        assert r[j] == rest[j - 1];
      } else {
        assert r[i] == rest[i - 1] && r[j] == rest[j - 1];
      }
    }
  }

  /**
   * Puts `p` in front of the first photo that is not newer than it, so that
   * among photos of equal time the one inserted later comes first.
   */
  function Insert(p: Photo, s: seq<Photo>): (r: seq<Photo>)
    ensures multiset(r) == multiset(s) + multiset{p}
    ensures r[0] == p || (s != [] && r[0] == s[0])
  {
    if s == [] || s[0].createdAt <= p.createdAt then [p] + s
    else
      assert s == [s[0]] + s[1..];
      [s[0]] + Insert(p, s[1..])
  }

  /** Inserting into a newest-first list keeps it newest first. */
  lemma {:induction false} InsertNewestFirst(p: Photo, s: seq<Photo>)
    requires NewestFirst(s)
    ensures NewestFirst(Insert(p, s))
  {
    if s == [] || s[0].createdAt <= p.createdAt {
      ConsNewestFirst(p, s);
    } else {
      var rest := Insert(p, s[1..]);
      assert NewestFirst(s[1..]);
      InsertNewestFirst(p, s[1..]);
      ConsNewestFirst(s[0], rest);
      assert Insert(p, s) == [s[0]] + rest;
    }
  }

  /**
   * `sort((a, b) => time(b) - time(a))`: the stable sort (as JavaScript's
   * `Array.prototype.sort` is) into newest-first order.
   */
  function SortNewestFirst(s: seq<Photo>): (r: seq<Photo>)
    ensures NewestFirst(r)
    ensures multiset(r) == multiset(s)
  {
    if s == [] then []
    else
      assert s == [s[0]] + s[1..];
      InsertNewestFirst(s[0], SortNewestFirst(s[1..]));
      Insert(s[0], SortNewestFirst(s[1..]))
  }

  /** The photos of `s` taken at instant `t`, in their order in `s`. */
  function TakenAt(s: seq<Photo>, t: int): seq<Photo> {
    if s == [] then []
    else (if s[0].createdAt == t then [s[0]] else []) + TakenAt(s[1..], t)
  }

  lemma TakenAtCons(x: Photo, rest: seq<Photo>, t: int)
    ensures TakenAt([x] + rest, t) == (if x.createdAt == t then [x] else []) + TakenAt(rest, t)
  {
  }

  /** Inserting ahead of a head that is not newer: the new photo leads its ties. */
  lemma InsertAtFrontTakenAt(p: Photo, s: seq<Photo>, t: int)
    requires s == [] || s[0].createdAt <= p.createdAt
    ensures TakenAt(Insert(p, s), t) == (if p.createdAt == t then [p] else []) + TakenAt(s, t)
  {
    TakenAtCons(p, s, t);
  }

  /** A newer photo put in front of a sequence is no tie of `p`, so it leaves `p`'s ties as they were. */
  lemma NewerHeadTakenAt(x: Photo, rest: seq<Photo>, tail: seq<Photo>, p: Photo, t: int)
    requires x.createdAt > p.createdAt
    requires TakenAt(rest, t) == (if p.createdAt == t then [p] else []) + TakenAt(tail, t)
    ensures TakenAt([x] + rest, t) == (if p.createdAt == t then [p] else []) + TakenAt([x] + tail, t)
  {
    TakenAtCons(x, rest, t);
    TakenAtCons(x, tail, t);
  }

  lemma {:induction false} InsertTakenAt(p: Photo, s: seq<Photo>, t: int)
    ensures TakenAt(Insert(p, s), t) == (if p.createdAt == t then [p] else []) + TakenAt(s, t)
  {
    if s == [] || s[0].createdAt <= p.createdAt {
      InsertAtFrontTakenAt(p, s, t);
    } else {
      InsertTakenAt(p, s[1..], t);
      NewerHeadTakenAt(s[0], Insert(p, s[1..]), s[1..], p, t);
      assert [s[0]] + s[1..] == s;
    }
  }

  /** The sort is stable: photos with the same creation time keep their listing order. */
  lemma {:induction false} SortIsStable(s: seq<Photo>, t: int)
    ensures TakenAt(SortNewestFirst(s), t) == TakenAt(s, t)
  {
    if s != [] {
      SortIsStable(s[1..], t);
      InsertTakenAt(s[0], SortNewestFirst(s[1..]), t);
    }
  }

  /** The component's state: the photos shown and whether the spinner is up. */
  class PhotoFeed {
    var photos: seq<Photo>
    var loading: bool

    constructor ()
      ensures photos == [] && loading
    {
      photos, loading := [], true;
    }

    /**
     * `fetchPhotos`, given what the listing call returned. On an error the
     * photos are left as they were; either way loading ends.
     */
    method FetchPhotos(listing: Result<seq<FileObject>, string>, publicUrl: string -> string)
      modifies this
      ensures !loading
      ensures listing.Err? ==> photos == old(photos)
      ensures listing.Ok? ==> photos == SortNewestFirst(ToPhotos(listing.value, publicUrl))
      ensures listing.Ok? ==>
        NewestFirst(photos) && multiset(photos) == multiset(ToPhotos(listing.value, publicUrl))
    {
      if listing.Ok? {
        var photoUrls := ToPhotos(listing.value, publicUrl);
        photos := SortNewestFirst(photoUrls);
      }
      loading := false;
    }
  }
}
