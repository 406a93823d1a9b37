/**
 * Which hand a pointer grabs: the hit test of `handAt` and the count kept by
 * `assignPointersToHands`.
 */
module HitTest {

  datatype Option<T> = None | Some(value: T)

  /** A position in canvas pixels. */
  datatype Point = Point(x: int, y: int)

  /** The three hands, in the order `handAt` visits them. */
  datatype HandName = Hour | Minute | Duration

  const HandOrder: seq<HandName> := [Hour, Minute, Duration]

  /**
   * Where each hand's tip was last drawn. A hand that was never drawn has no
   * position (its coordinates are undefined, so every distance to it is NaN
   * and it is never hit).
   */
  datatype Tips = Tips(hour: Option<Point>, minute: Option<Point>, duration: Option<Point>)
  {
    function Of(k: HandName): Option<Point>
    {
      match k
      case Hour => hour
      case Minute => minute
      case Duration => duration
    }
  }

  function SquaredDistance(p: Point, q: Point): nat
  {
    (p.x - q.x) * (p.x - q.x) + (p.y - q.y) * (p.y - q.y)
  }

  /**
   * `d < radiusHandle` with d the Euclidean distance; for a non-negative
   * radius that is the same as comparing squares.
   */
  predicate Hits(tip: Option<Point>, p: Point, radius: nat)
  {
    tip.Some? && SquaredDistance(p, tip.value) < radius * radius
  }

  /** The first hand in `order` whose tip is within `radius` of `p`. */
  function FirstHit(order: seq<HandName>, tips: Tips, radius: nat, p: Point): Option<HandName>
  {
    if order == [] then None
    else if Hits(tips.Of(order[0]), p, radius) then Some(order[0])
    else FirstHit(order[1..], tips, radius, p)
  }

  /**
   * `FirstHit` is none exactly when no hand is hit, and otherwise names a hit
   * hand that comes before every other hit hand.
   */
  lemma {:induction false} FirstHitIsFirst(order: seq<HandName>, tips: Tips, radius: nat, p: Point)
    ensures FirstHit(order, tips, radius, p) == None <==>
            forall i :: 0 <= i < |order| ==> !Hits(tips.Of(order[i]), p, radius)
    ensures FirstHit(order, tips, radius, p).Some? ==>
            exists i :: 0 <= i < |order| && order[i] == FirstHit(order, tips, radius, p).value &&
                        Hits(tips.Of(order[i]), p, radius) &&
                        forall j :: 0 <= j < i ==> !Hits(tips.Of(order[j]), p, radius)
  {
    if order != [] && !Hits(tips.Of(order[0]), p, radius) {
      FirstHitIsFirst(order[1..], tips, radius, p);
      var r := FirstHit(order, tips, radius, p);
      if r.Some? {
        var i :| 0 <= i < |order[1..]| && order[1..][i] == r.value &&
                 Hits(tips.Of(order[1..][i]), p, radius) &&
                 forall j :: 0 <= j < i ==> !Hits(tips.Of(order[1..][j]), p, radius);
        assert order[i + 1] == r.value;
        forall j | 0 <= j < i + 1 ensures !Hits(tips.Of(order[j]), p, radius) {
          if j > 0 { assert order[j] == order[1..][j - 1]; }
        }
      } else {
        forall i | 0 <= i < |order| ensures !Hits(tips.Of(order[i]), p, radius) {
          if i > 0 { assert order[i] == order[1..][i - 1]; }
        }
      }
    }
  }

  /** The hand `handAt` returns for a pointer at `p` (`TouchClock.Clock.HandAt` computes it with a loop). */
  function HandUnder(tips: Tips, radius: nat, p: Point): Option<HandName>
  {
    FirstHit(HandOrder, tips, radius, p)
  }

  /** The hour hand wins over the minute hand, and both over the duration hand. */
  lemma {:induction false} HandUnderPriority(tips: Tips, radius: nat, p: Point)
    ensures Hits(tips.hour, p, radius) ==> HandUnder(tips, radius, p) == Some(Hour)
    ensures !Hits(tips.hour, p, radius) && Hits(tips.minute, p, radius) ==> HandUnder(tips, radius, p) == Some(Minute)
    ensures HandUnder(tips, radius, p) == Some(Duration) <==>
            !Hits(tips.hour, p, radius) && !Hits(tips.minute, p, radius) && Hits(tips.duration, p, radius)
    ensures HandUnder(tips, radius, p) == None <==>
            !Hits(tips.hour, p, radius) && !Hits(tips.minute, p, radius) && !Hits(tips.duration, p, radius)
  {
    var md: seq<HandName> := [Minute, Duration];
    var d: seq<HandName> := [Duration];
    assert HandOrder[1..] == md && md[1..] == d && d[1..] == [];
    assert FirstHit(HandOrder, tips, radius, p) ==
           if Hits(tips.hour, p, radius) then Some(Hour) else FirstHit(md, tips, radius, p);
    assert FirstHit(md, tips, radius, p) ==
           if Hits(tips.minute, p, radius) then Some(Minute) else FirstHit(d, tips, radius, p);
    assert FirstHit(d, tips, radius, p) ==
           if Hits(tips.duration, p, radius) then Some(Duration) else None;
  }

  /** How many of the pointers `ps` hit some hand. */
  function HitCount(tips: Tips, radius: nat, ps: seq<Point>): nat
  {
    if ps == [] then 0
    else (if HandUnder(tips, radius, ps[0]).Some? then 1 else 0) + HitCount(tips, radius, ps[1..])
  }

  /**
   * The count never exceeds the number of pointers; it is zero exactly when
   * no pointer hits a hand, and it is the number of pointers exactly when
   * every pointer hits one.
   */
  lemma {:induction false} HitCountBounds(tips: Tips, radius: nat, ps: seq<Point>)
    ensures HitCount(tips, radius, ps) <= |ps|
    ensures HitCount(tips, radius, ps) == 0 <==>
            forall i :: 0 <= i < |ps| ==> HandUnder(tips, radius, ps[i]) == None
    ensures HitCount(tips, radius, ps) == |ps| <==>
            forall i :: 0 <= i < |ps| ==> HandUnder(tips, radius, ps[i]).Some?
  {
    if ps != [] {
      HitCountBounds(tips, radius, ps[1..]);
      assert forall i :: 1 <= i < |ps| ==> ps[i] == ps[1..][i - 1];
      if HitCount(tips, radius, ps) == 0 {
        forall i | 0 <= i < |ps| ensures HandUnder(tips, radius, ps[i]) == None {
          if i > 0 { assert ps[i] == ps[1..][i - 1]; }
        }
      }
      if HitCount(tips, radius, ps) == |ps| {
        forall i | 0 <= i < |ps| ensures HandUnder(tips, radius, ps[i]).Some? {
          if i > 0 { assert ps[i] == ps[1..][i - 1]; }
        }
      }
    }
  }

  /** Two pointers on the same hand both grab it and both count. */
  lemma SameHandTwice(tips: Tips, radius: nat, p: Point)
    requires Hits(tips.hour, p, radius)
    ensures HandUnder(tips, radius, p) == Some(Hour)
    ensures HitCount(tips, radius, [p, p]) == 2
  {
    HandUnderPriority(tips, radius, p);
    var one: seq<Point> := [p];
    var two: seq<Point> := [p, p];
    assert two[1..] == one && one[1..] == [];
    assert HitCount(tips, radius, one) == 1 + HitCount(tips, radius, []);
    assert HitCount(tips, radius, two) == 1 + HitCount(tips, radius, one);
  }
}
