/**
 Wall clocks. A time zone is its first UTC offset and its later changes of offset, in order.
 Instants and wall times are integers (microseconds).
 */
module Zones {

  datatype Change = Change(at: int, offset: int)

  datatype ZoneTable = ZoneTable(first: int, changes: seq<Change>) {

    /** The offset in force after the first n changes. */
    function Offset(n: nat): int
      requires n <= |changes|
    {
      if n == 0 then first else changes[n - 1].offset
    }

    /** The wall time at which change n begins to matter: fold 0 waits for the later of the two clocks. */
    function WallStart(n: nat, fold: nat): int
      requires 1 <= n <= |changes|
    {
      var before, after := Offset(n - 1), Offset(n);
      changes[n - 1].at + if (fold == 0) == (before < after) then after else before
    }

    /** How many changes have happened at an instant, among the first n. */
    function Segment(u: int, n: nat): (k: nat)
      requires n <= |changes|
      ensures k <= n
    {
      if n == 0 then 0 else if changes[n - 1].at <= u then n else Segment(u, n - 1)
    }

    /** How many changes a wall time lies behind, among the first n, reading an unclear time with this fold. */
    function Lookup(wall: int, fold: nat, n: nat): (k: nat)
      requires n <= |changes|
      ensures k <= n
    {
      if n == 0 then 0 else if WallStart(n, fold) <= wall then n else Lookup(wall, fold, n - 1)
    }

    /** Changes come in order, and the unclear wall times around one end before those around the next begin. */
    predicate WellFormed() {
      forall n | 1 <= n < |changes| ::
        changes[n - 1].at < changes[n].at && WallStart(n, 0) <= WallStart(n + 1, 1)
    }
  }

  type Zone = z: ZoneTable | z.WellFormed() witness ZoneTable(0, [])

  /** What the clock on the wall shows at an instant. */
  function Wall(z: Zone, u: int): int {
    u + z.Offset(z.Segment(u, |z.changes|))
  }

  datatype Resolution = Unique(instant: int) | Nonexistent | Ambiguous

  /** A wall time names an instant exactly when the clock shows it once. */
  ghost function Resolve(z: Zone, wall: int): Resolution {
    if exists u, v :: u != v && Wall(z, u) == wall && Wall(z, v) == wall then Ambiguous
    else if exists u :: Wall(z, u) == wall then var u :| Wall(z, u) == wall; Unique(u)
    else Nonexistent
  }

  /** A wall time is resolved to the one instant at which the clock shows it; there may be none, or several. */
  lemma ResolvedExactly(z: Zone, wall: int, u: int)
    ensures Resolve(z, wall) == Unique(u) <==> Wall(z, u) == wall && forall v | Wall(z, v) == wall :: v == u
    ensures Resolve(z, wall) == Nonexistent <==> forall v :: Wall(z, v) != wall
    ensures Resolve(z, wall) == Ambiguous <==> exists v, w :: v != w && Wall(z, v) == wall && Wall(z, w) == wall
  {
    hide Wall;
  }

  lemma {:induction false} ChangesAreOrdered(z: Zone, a: nat, b: nat)
    requires 1 <= a < b <= |z.changes|
    ensures z.changes[a - 1].at < z.changes[b - 1].at && z.WallStart(a, 0) <= z.WallStart(b, 1)
    decreases b
  {
    if a < b - 1 {
      ChangesAreOrdered(z, a, b - 1);
      assert z.changes[b - 2].at < z.changes[b - 1].at && z.WallStart(b - 1, 0) <= z.WallStart(b, 1);
    }
  }

  lemma {:induction false} SegmentBrackets(z: Zone, u: int, n: nat)
    requires n <= |z.changes|
    ensures var k := z.Segment(u, n);
            (0 < k ==> z.changes[k - 1].at <= u) && (k < n ==> u < z.changes[k].at)
  {
    if 0 < n && u < z.changes[n - 1].at {
      SegmentBrackets(z, u, n - 1);
    }
  }

  lemma {:induction false} LookupBrackets(z: Zone, wall: int, fold: nat, n: nat)
    requires n <= |z.changes|
    ensures var k := z.Lookup(wall, fold, n);
            (0 < k ==> z.WallStart(k, fold) <= wall) && (k < n ==> wall < z.WallStart(k + 1, fold))
  {
    if 0 < n && wall < z.WallStart(n, fold) {
      LookupBrackets(z, wall, fold, n - 1);
    }
  }

  /** Only the k-th segment can show a wall time that lies clear of the changes on both its sides. */
  lemma ClearTimeCuts(z: Zone, wall: int, k: nat, u: int)
    requires k <= |z.changes|
    requires 0 < k ==> z.WallStart(k, 0) <= wall
    requires k < |z.changes| ==> wall < z.WallStart(k + 1, 1)
    ensures Wall(z, u) < wall <==> u < wall - z.Offset(k)
    ensures Wall(z, u) == wall <==> u == wall - z.Offset(k)
  {
    var s := z.Segment(u, |z.changes|);
    SegmentBrackets(z, u, |z.changes|);
    if s < k {
      if s + 1 < k {
        ChangesAreOrdered(z, s + 1, k);
      }
    } else if k < s {
      if k + 1 < s {
        ChangesAreOrdered(z, k + 1, s);
      }
    }
  }

  lemma ClearTimeResolves(z: Zone, wall: int, k: nat)
    requires k <= |z.changes|
    requires 0 < k ==> z.WallStart(k, 0) <= wall
    requires k < |z.changes| ==> wall < z.WallStart(k + 1, 1)
    ensures Resolve(z, wall) == Unique(wall - z.Offset(k))
  {
    forall u ensures Wall(z, u) == wall <==> u == wall - z.Offset(k) {
      ClearTimeCuts(z, wall, k, u);
    }
    assert Wall(z, wall - z.Offset(k)) == wall;
  }

  /** No clock shows a wall time skipped by change n. */
  lemma GapIsSkipped(z: Zone, wall: int, n: nat, u: int)
    requires 1 <= n <= |z.changes|
    requires z.Offset(n - 1) < z.Offset(n) && z.WallStart(n, 1) <= wall < z.WallStart(n, 0)
    ensures Wall(z, u) != wall
  {
    var s := z.Segment(u, |z.changes|);
    SegmentBrackets(z, u, |z.changes|);
    if s + 1 < n {
      ChangesAreOrdered(z, s + 1, n);
    } else if n < s {
      ChangesAreOrdered(z, n, s);
    }
  }

  lemma SegmentIsBracketed(z: Zone, u: int, k: nat)
    requires k <= |z.changes|
    requires 0 < k ==> z.changes[k - 1].at <= u
    requires k < |z.changes| ==> u < z.changes[k].at
    ensures Wall(z, u) == u + z.Offset(k)
  {
    var s := z.Segment(u, |z.changes|);
    SegmentBrackets(z, u, |z.changes|);
    if s + 1 < k {
      ChangesAreOrdered(z, s + 1, k);
    } else if k + 1 < s {
      ChangesAreOrdered(z, k + 1, s);
    }
  }

  /** A wall time repeated by change n is shown on both of its sides. */
  lemma FoldIsRepeated(z: Zone, wall: int, n: nat)
    requires 1 <= n <= |z.changes|
    requires z.Offset(n) < z.Offset(n - 1) && z.WallStart(n, 1) <= wall < z.WallStart(n, 0)
    ensures Wall(z, wall - z.Offset(n - 1)) == wall && Wall(z, wall - z.Offset(n)) == wall
  {
    if 1 < n {
      ChangesAreOrdered(z, n - 1, n);
    }
    SegmentIsBracketed(z, wall - z.Offset(n - 1), n - 1);
    if n < |z.changes| {
      ChangesAreOrdered(z, n, n + 1);
    }
    SegmentIsBracketed(z, wall - z.Offset(n), n);
  }

  lemma GapResolves(z: Zone, wall: int, n: nat)
    requires 1 <= n <= |z.changes|
    requires z.Offset(n - 1) < z.Offset(n) && z.WallStart(n, 1) <= wall < z.WallStart(n, 0)
    ensures Resolve(z, wall) == Nonexistent && forall u :: Wall(z, u) != wall
  {
    forall u ensures Wall(z, u) != wall {
      GapIsSkipped(z, wall, n, u);
    }
  }

  lemma FoldResolves(z: Zone, wall: int, n: nat)
    requires 1 <= n <= |z.changes|
    requires z.Offset(n) <= z.Offset(n - 1) && z.WallStart(n, 1) <= wall < z.WallStart(n, 0)
    ensures Resolve(z, wall) == Ambiguous && z.Offset(n) != z.Offset(n - 1)
    ensures Wall(z, wall - z.Offset(n - 1)) == wall && Wall(z, wall - z.Offset(n)) == wall
  {
    FoldIsRepeated(z, wall, n);
    var u, v := wall - z.Offset(n - 1), wall - z.Offset(n);
    assert u != v && Wall(z, u) == wall && Wall(z, v) == wall;
  }

  /** The readings k and n of a wall time with fold 0 and with fold 1. */
  ghost predicate Readings(z: Zone, wall: int, k: nat, n: nat) {
    k == z.Lookup(wall, 0, |z.changes|) && n == z.Lookup(wall, 1, |z.changes|)
  }

  /** Both readings agree, or they fall on the two sides of one change. */
  lemma ReadingsAreAdjacent(z: Zone, wall: int, k: nat, n: nat)
    requires Readings(z, wall, k, n)
    ensures k <= |z.changes| && n <= |z.changes|
    ensures 0 < k ==> z.WallStart(k, 0) <= wall
    ensures n < |z.changes| ==> wall < z.WallStart(n + 1, 1)
    ensures n == k || (n == k + 1 && z.WallStart(n, 1) <= wall < z.WallStart(n, 0))
  {
    LookupBrackets(z, wall, 0, |z.changes|);
    LookupBrackets(z, wall, 1, |z.changes|);
    if n + 1 < k {
      ChangesAreOrdered(z, n + 1, k);
    } else if k + 1 < n {
      ChangesAreOrdered(z, k + 1, n);
    }
  }

  /** What the two fold readings of a wall time say about the instants that show it. */
  lemma FoldReadings(z: Zone, wall: int, k: nat, n: nat)
    requires Readings(z, wall, k, n)
    ensures k <= |z.changes| && n <= |z.changes|
    ensures k == n ==> Resolve(z, wall) == Unique(wall - z.Offset(k)) && Wall(z, wall - z.Offset(k)) == wall
    ensures k != n && z.Offset(k) < z.Offset(n) ==>
      Resolve(z, wall) == Nonexistent && forall u :: Wall(z, u) != wall
    ensures k != n && z.Offset(n) <= z.Offset(k) ==>
      Resolve(z, wall) == Ambiguous && z.Offset(k) != z.Offset(n) &&
      Wall(z, wall - z.Offset(k)) == wall && Wall(z, wall - z.Offset(n)) == wall
  {
    ReadingsAreAdjacent(z, wall, k, n);
    if k == n {
      ClearTimeResolves(z, wall, k);
      ClearTimeCuts(z, wall, k, wall - z.Offset(k));
    } else if z.Offset(k) < z.Offset(n) {
      GapResolves(z, wall, n);
    } else {
      FoldResolves(z, wall, n);
    }
  }

  /** Between two changes the clock shows the instant plus the offset of the earlier one. */
  lemma ClockShows(z: Zone, u: int, k: nat)
    requires k <= |z.changes|
    requires k == 0 || z.changes[k - 1].at <= u
    requires k == |z.changes| || u < z.changes[k].at
    ensures Wall(z, u) == u + if k == 0 then z.first else z.changes[k - 1].offset
  {
    SegmentIsBracketed(z, u, k);
  }

  /**
   A wall time that names an instant cuts time in two: the clock shows an earlier time before that
   instant and a later one after it. So it is the only instant with that wall time, and later
   wall times name later instants.
   */
  lemma ResolvedTimeCuts(z: Zone, wall: int, c: int, u: int)
    requires Resolve(z, wall) == Unique(c)
    ensures Wall(z, u) < wall <==> u < c
    ensures Wall(z, u) == wall <==> u == c
  {
    var k, n := z.Lookup(wall, 0, |z.changes|), z.Lookup(wall, 1, |z.changes|);
    FoldReadings(z, wall, k, n);
    ReadingsAreAdjacent(z, wall, k, n);
    ClearTimeCuts(z, wall, k, u);
  }

  lemma ResolutionIsMonotone(z: Zone, w1: int, w2: int, c1: int, c2: int)
    requires Resolve(z, w1) == Unique(c1) && Resolve(z, w2) == Unique(c2)
    ensures w1 < w2 <==> c1 < c2
  {
    ResolvedTimeCuts(z, w1, c1, c1);
    ResolvedTimeCuts(z, w2, c2, c1);
  }

  /** The instant a wall time is read as with this fold. */
  function Reading(z: Zone, wall: int, fold: nat): int {
    wall - z.Offset(z.Lookup(wall, fold, |z.changes|))
  }

  /** That instant, if it survives the round trip through UTC. */
  ghost function Candidate(z: Zone, wall: int, fold: nat): set<int> {
    if Wall(z, Reading(z, wall, fold)) == wall then {Reading(z, wall, fold)} else {}
  }

  lemma CandidatesDecide(z: Zone, wall: int)
    ensures var c := Candidate(z, wall, 0) + Candidate(z, wall, 1);
            match Resolve(z, wall)
            case Unique(u) => c == {u}
            case Nonexistent => c == {}
            case Ambiguous => |c| == 2
  {
    var k, n := z.Lookup(wall, 0, |z.changes|), z.Lookup(wall, 1, |z.changes|);
    FoldReadings(z, wall, k, n);
    if k == n {
    } else if z.Offset(k) < z.Offset(n) {
    } else {
      assert Candidate(z, wall, 0) == {wall - z.Offset(k)} && Candidate(z, wall, 1) == {wall - z.Offset(n)};
    }
  }

  /** Reads the wall time with both folds and keeps the instants that survive the round trip through UTC. */
  method ResolveLocalTime(z: Zone, wall: int) returns (r: Resolution)
    ensures r == Resolve(z, wall)
  {
    var candidates: set<int> := {};
    for fold := 0 to 2
      invariant candidates == (if 0 < fold then Candidate(z, wall, 0) else {}) + (if 1 < fold
                then Candidate(z, wall, 1) else {})
    {
      var utc := Reading(z, wall, fold);
      if Wall(z, utc) == wall {
        candidates := candidates + {utc};
      }
    }
    CandidatesDecide(z, wall);
    if candidates == {} {
      return Nonexistent;
    }
    if |candidates| > 1 {
      return Ambiguous;
    }
    var c :| c in candidates;
    return Unique(c);
  }
}
