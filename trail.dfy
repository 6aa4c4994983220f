/**
 The pointer trail (script.js, lines 90-93, 164-168 and 366-389): a list of
 timestamped pointer positions, purged of expired points every frame and
 painted with an opacity that fades linearly with age.
 */
module Trail {
  /** How long a point stays on screen, in milliseconds. */
  const PointLifetime: int := 1000

  /** One recorded pointer position; `timestamp` is a millisecond clock reading. */
  datatype Point = Point(x: real, y: real, timestamp: int)

  function Age(p: Point, now: int): int
  {
    now - p.timestamp
  }

  /** The filter predicate of the purge: a point survives while its age is below the lifetime. */
  predicate Live(p: Point, now: int)
  {
    Age(p, now) < PointLifetime
  }

  /** The trail after the purge at time `now`: the live points, in their original order. */
  function Purged(s: seq<Point>, now: int): (r: seq<Point>)
    ensures |r| <= |s|
    ensures forall i :: 0 <= i < |r| ==> Live(r[i], now)
  {
    if s == [] then []
    else Purged(s[..|s| - 1], now) + (if Live(s[|s| - 1], now) then [s[|s| - 1]] else [])
  }

  /** The fill alpha a point is painted with at time `now`. */
  function Opacity(p: Point, now: int): (r: real)
    ensures r > 0.0 <==> Live(p, now)
    ensures r <= 1.0 <==> p.timestamp <= now
    ensures r == 1.0 <==> Age(p, now) == 0
  {
    1.0 - (Age(p, now) as real) / (PointLifetime as real)
  }

  lemma PurgedSingleton(p: Point, now: int)
    ensures Purged([p], now) == if Live(p, now) then [p] else []
  {
  }

  /** Purging distributes over concatenation, so it keeps the relative order of the points. */
  lemma {:induction false} PurgedAppend(a: seq<Point>, b: seq<Point>, now: int)
    ensures Purged(a + b, now) == Purged(a, now) + Purged(b, now)
    decreases |b|
  {
    if b == [] {
      assert a + b == a;
    } else {
      var front := b[..|b| - 1];
      assert (a + b)[..|a + b| - 1] == a + front;
      assert (a + b)[|a + b| - 1] == b[|b| - 1];
      PurgedAppend(a, front, now);
    }
  }

  /** A point is kept exactly when it was in the trail and is not expired: no expired point
      is retained and no live point is lost. */
  lemma {:induction false} PurgedMembers(s: seq<Point>, now: int, p: Point)
    ensures p in Purged(s, now) <==> p in s && Live(p, now)
    decreases |s|
  {
    if s != [] {
      var front := s[..|s| - 1];
      assert s == front + [s[|s| - 1]];
      PurgedMembers(front, now, p);
    }
  }

  /** A trail whose points are all live is left as it is. */
  lemma {:induction false} PurgedAllLive(s: seq<Point>, now: int)
    requires forall i :: 0 <= i < |s| ==> Live(s[i], now)
    ensures Purged(s, now) == s
    decreases |s|
  {
    if s != [] {
      var front := s[..|s| - 1];
      PurgedAllLive(front, now);
      assert s == front + [s[|s| - 1]];
    }
  }

  /** Purging twice at the same time removes nothing more. */
  lemma PurgedIdempotent(s: seq<Point>, now: int)
    ensures Purged(Purged(s, now), now) == Purged(s, now)
  {
    PurgedAllLive(Purged(s, now), now);
  }

  /** Expiry is monotonic in time: a later purge subsumes an earlier one. */
  lemma {:induction false} PurgedLater(s: seq<Point>, earlier: int, later: int)
    requires earlier <= later
    ensures Purged(Purged(s, earlier), later) == Purged(s, later)
    decreases |s|
  {
    if s != [] {
      var front, last := s[..|s| - 1], s[|s| - 1];
      var kept := if Live(last, earlier) then [last] else [];
      PurgedLater(front, earlier, later);
      PurgedAppend(Purged(front, earlier), kept, later);
      PurgedSingleton(last, later);
    }
  }

  /** A point recorded at time 0 is fully opaque at 0, half transparent at 500 and gone from 1000 on. */
  lemma FadeScenario(s: seq<Point>, x: real, y: real, now: int)
    requires now >= PointLifetime
    ensures Opacity(Point(x, y, 0), 0) == 1.0
    ensures Opacity(Point(x, y, 0), 500) == 0.5
    ensures Point(x, y, 0) !in Purged(s + [Point(x, y, 0)], now)
  {
    PurgedMembers(s + [Point(x, y, 0)], now, Point(x, y, 0));
  }
}
