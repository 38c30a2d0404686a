/**
 * `groupPhotosByDay`: the feed's photos folded into an object keyed by
 * calendar day. `dayOf` stands for `new Date(t).toLocaleDateString("pt-BR")`
 * applied to a creation time. The object is modelled as its keys in
 * insertion order (the order `Object.entries` lists them in) and a map from
 * each key to its array.
 */
module Grouping {
  import opened Feed

  type Day = string

  datatype Grouped = Grouped(days: seq<Day>, groups: map<Day, seq<Photo>>)

  /** The distinct days of `ps`, in the order each first occurs. */
  function Days(ps: seq<Photo>, dayOf: int -> Day): seq<Day> {
    if ps == [] then []
    else
      var prev := Days(ps[..|ps| - 1], dayOf);
      var d := dayOf(ps[|ps| - 1].createdAt);
      if d in prev then prev else prev + [d]
  }

  /** The photos of `ps` that fall on day `d`, in their order in `ps`. */
  function ByDay(ps: seq<Photo>, dayOf: int -> Day, d: Day): seq<Photo> {
    if ps == [] then []
    else
      var last := ps[|ps| - 1];
      ByDay(ps[..|ps| - 1], dayOf, d) + (if dayOf(last.createdAt) == d then [last] else [])
  }

  /**
   * The fold: for each photo, create its day's array on first sight, then
   * push the photo onto it.
   */
  method GroupPhotosByDay(photos: seq<Photo>, dayOf: int -> Day) returns (g: Grouped)
    ensures g.days == Days(photos, dayOf)
    ensures forall d :: d in g.groups <==> d in g.days
    ensures forall d :: d in g.groups ==> g.groups[d] == ByDay(photos, dayOf, d)
    ensures photos == [] ==> g.days == [] && g.groups == map[]
  {
    var days: seq<Day> := [];
    var groups: map<Day, seq<Photo>> := map[];
    for i := 0 to |photos|
      invariant days == Days(photos[..i], dayOf)
      invariant forall d :: d in groups <==> d in days
      invariant forall d :: d in groups ==> groups[d] == ByDay(photos[..i], dayOf, d)
    {
      var date := dayOf(photos[i].createdAt);
      if date !in groups {
        ByDayNonEmpty(photos[..i], dayOf, date);
        groups := groups[date := []];
        days := days + [date];
      }
      groups := groups[date := groups[date] + [photos[i]]];
      assert photos[..i + 1][..i] == photos[..i];
      assert forall d :: (ByDay(photos[..i + 1], dayOf, d)
                          == ByDay(photos[..i], dayOf, d) + (if date == d then [photos[i]] else []));
    }
    assert photos[..|photos|] == photos;
    g := Grouped(days, groups);
  }

  /** A day is a key exactly when some photo falls on it. */
  lemma {:induction false} DaysExactly(ps: seq<Photo>, dayOf: int -> Day, d: Day)
    ensures d in Days(ps, dayOf) <==> exists i :: 0 <= i < |ps| && dayOf(ps[i].createdAt) == d
  {
    if ps != [] {
      var init := ps[..|ps| - 1];
      DaysExactly(init, dayOf, d);
      if exists i :: 0 <= i < |init| && dayOf(init[i].createdAt) == d {
        var i :| 0 <= i < |init| && dayOf(init[i].createdAt) == d;
        assert ps[i] == init[i];
      }
      if exists i :: 0 <= i < |ps| && dayOf(ps[i].createdAt) == d {
        var i :| 0 <= i < |ps| && dayOf(ps[i].createdAt) == d;
        if i < |init| {
          assert init[i] == ps[i];
        }
      }
    }
  }

  /** No day is a key twice. */
  lemma {:induction false} DaysDistinct(ps: seq<Photo>, dayOf: int -> Day)
    ensures forall i, j :: 0 <= i < j < |Days(ps, dayOf)| ==> Days(ps, dayOf)[i] != Days(ps, dayOf)[j]
  {
    if ps != [] {
      DaysDistinct(ps[..|ps| - 1], dayOf);
    }
  }

  /**
   * Keys appear in order of first occurrence: the keys of any prefix of the
   * feed are a prefix of the keys of the whole feed.
   */
  lemma {:induction false} DaysGrowByPrefix(ps: seq<Photo>, dayOf: int -> Day, n: nat)
    requires n <= |ps|
    ensures Days(ps[..n], dayOf) <= Days(ps, dayOf)
  {
    if n < |ps| {
      var init := ps[..|ps| - 1];
      assert ps[..n] == init[..n];
      DaysGrowByPrefix(init, dayOf, n);
    } else {
      assert ps[..n] == ps;
    }
  }

  /**
   * Each photo lands in the group of its own day and in no other: a group
   * holds each photo of its day as many times as the feed does, and nothing else.
   */
  lemma {:induction false} ByDayCounts(ps: seq<Photo>, dayOf: int -> Day, d: Day, p: Photo)
    ensures multiset(ByDay(ps, dayOf, d))[p] == if dayOf(p.createdAt) == d then multiset(ps)[p] else 0
  {
    if ps != [] {
      var init := ps[..|ps| - 1];
      ByDayCounts(init, dayOf, d, p);
      assert ps == init + [ps[|ps| - 1]];
    }
  }

  /** Groups are never empty: a day has photos exactly when it is a key. */
  lemma {:induction false} ByDayNonEmpty(ps: seq<Photo>, dayOf: int -> Day, d: Day)
    ensures |ByDay(ps, dayOf, d)| > 0 <==> d in Days(ps, dayOf)
  {
    if ps != [] {
      ByDayNonEmpty(ps[..|ps| - 1], dayOf, d);
    }
  }

  /** The photos of a group keep their feed order, so a newest-first feed gives newest-first groups. */
  lemma {:induction false} ByDayNewestFirst(ps: seq<Photo>, dayOf: int -> Day, d: Day)
    requires NewestFirst(ps)
    ensures NewestFirst(ByDay(ps, dayOf, d))
  {
    if ps != [] {
      var init := ps[..|ps| - 1];
      var last := ps[|ps| - 1];
      assert NewestFirst(init);
      ByDayNewestFirst(init, dayOf, d);
      var g := ByDay(init, dayOf, d);
      forall q | q in g ensures q.createdAt >= last.createdAt {
        ByDayCounts(init, dayOf, d, q);
        assert q in multiset(init);
      }
    }
  }

  /** The total size of the groups of the given keys. */
  function SumSizes(keys: seq<Day>, ps: seq<Photo>, dayOf: int -> Day): nat {
    if keys == [] then 0 else |ByDay(ps, dayOf, keys[0])| + SumSizes(keys[1..], ps, dayOf)
  }

  lemma {:induction false} SumSizesAppendKey(keys: seq<Day>, e: Day, ps: seq<Photo>, dayOf: int -> Day)
    ensures SumSizes(keys + [e], ps, dayOf) == SumSizes(keys, ps, dayOf) + |ByDay(ps, dayOf, e)|
  {
    if keys != [] {
      assert (keys + [e])[1..] == keys[1..] + [e];
      SumSizesAppendKey(keys[1..], e, ps, dayOf);
    }
  }

  lemma {:induction false} SumSizesAppendPhoto(keys: seq<Day>, ps: seq<Photo>, p: Photo, dayOf: int -> Day)
    requires forall i, j :: 0 <= i < j < |keys| ==> keys[i] != keys[j]
    ensures SumSizes(keys, ps + [p], dayOf) == SumSizes(keys, ps, dayOf) + (if dayOf(p.createdAt) in keys then 1 else 0)
  {
    if keys != [] {
      assert (ps + [p])[..|ps|] == ps;
      SumSizesAppendPhoto(keys[1..], ps, p, dayOf);
      assert dayOf(p.createdAt) == keys[0] ==> dayOf(p.createdAt) !in keys[1..];
      assert dayOf(p.createdAt) in keys <==> dayOf(p.createdAt) == keys[0] || dayOf(p.createdAt) in keys[1..];
    }
  }

  /** The grouping partitions the feed: the group sizes add up to the number of photos. */
  lemma {:induction false} GroupSizesSum(ps: seq<Photo>, dayOf: int -> Day)
    ensures SumSizes(Days(ps, dayOf), ps, dayOf) == |ps|
  {
    if ps != [] {
      var init, last := ps[..|ps| - 1], ps[|ps| - 1];
      var e := dayOf(last.createdAt);
      var keys := Days(init, dayOf);
      assert ps == init + [last];
      GroupSizesSum(init, dayOf);
      DaysDistinct(init, dayOf);
      SumSizesAppendPhoto(keys, init, last, dayOf);
      if e !in keys {
        SumSizesAppendKey(keys, e, ps, dayOf);
        ByDayNonEmpty(init, dayOf, e);
      }
    }
  }
}
