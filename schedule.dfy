/** Sorting components by phase before execution. The crate states the
    ordering requirement; this module gives one sort that meets it and proves
    that the result is phase-ordered and a permutation of its input. */
module Schedule {
  import opened Component

  /** Every component runs no later than any component of a later phase. */
  predicate PhaseOrdered(cs: seq<Installable>) {
    forall i, j :: 0 <= i < j < |cs| ==> LessEq(cs[i].phase, cs[j].phase)
  }

  /** The components of `cs` that run in phase `p`, in their order in `cs`. */
  function InPhase(cs: seq<Installable>, p: Phase): (r: seq<Installable>)
    ensures |r| <= |cs|
    ensures forall x :: x in r ==> x in cs && x.phase == p
  {
    if cs == [] then []
    else if cs[0].phase == p then [cs[0]] + InPhase(cs[1..], p)
    else InPhase(cs[1..], p)
  }

  /** Places `c` into the phase-ordered `cs`, in front of the first
      component whose phase is not earlier than its own. */
  function Insert(c: Installable, cs: seq<Installable>): (r: seq<Installable>)
    requires PhaseOrdered(cs)
    ensures PhaseOrdered(r)
    ensures multiset(r) == multiset(cs) + multiset{c}
    ensures forall x :: x in r ==> x == c || x in cs
  {
    if cs == [] || LessEq(c.phase, cs[0].phase) then
      [c] + cs
    else
      var rest := Insert(c, cs[1..]);
      assert cs == [cs[0]] + cs[1..];
      assert forall k :: 0 < k < |cs| ==> LessEq(cs[0].phase, cs[k].phase);
      assert forall x :: x in rest ==> LessEq(cs[0].phase, x.phase);
      [cs[0]] + rest
  }

  /** Components sorted by phase, earliest phase first. */
  function SortByPhase(cs: seq<Installable>): (r: seq<Installable>)
    ensures PhaseOrdered(r)
    ensures multiset(r) == multiset(cs)
    ensures |r| == |cs|
  {
    if cs == [] then []
    else
      assert cs == [cs[0]] + cs[1..];
      Insert(cs[0], SortByPhase(cs[1..]))
  }

  /** Whatever the registration order, a component of an earlier phase is
      scheduled before every component of a later phase (for example, a
      Filesystem component precedes a Binaries component). */
  lemma EarlierPhaseScheduledFirst(cs: seq<Installable>, i: int, j: int)
    requires 0 <= i < |SortByPhase(cs)| && 0 <= j < |SortByPhase(cs)|
    requires Less(SortByPhase(cs)[i].phase, SortByPhase(cs)[j].phase)
    ensures i < j
  {
    var r := SortByPhase(cs);
    assert j <= i ==> LessEq(r[j].phase, r[i].phase);
  }

  /** Sorting an already phase-ordered list changes nothing. */
  lemma {:induction false} SortOrderedIsIdentity(cs: seq<Installable>)
    requires PhaseOrdered(cs)
    ensures SortByPhase(cs) == cs
  {
    if cs != [] {
      SortOrderedIsIdentity(cs[1..]);
      if |cs| > 1 {
        assert LessEq(cs[0].phase, cs[1].phase);
      }
    }
  }

  /** Inserting `c` keeps the order of each phase's components and puts `c`
      first among the components of its own phase. */
  lemma {:induction false} InsertKeepsPhaseOrder(c: Installable, cs: seq<Installable>, p: Phase)
    requires PhaseOrdered(cs)
    ensures InPhase(Insert(c, cs), p) == (if c.phase == p then [c] else []) + InPhase(cs, p)
  {
    var pre := if c.phase == p then [c] else [];
    if cs == [] || LessEq(c.phase, cs[0].phase) {
      assert ([c] + cs)[1..] == cs;
    } else {
      var rest := Insert(c, cs[1..]);
      InsertKeepsPhaseOrder(c, cs[1..], p);
      assert InPhase(rest, p) == pre + InPhase(cs[1..], p);
      assert ([cs[0]] + rest)[1..] == rest;
      if cs[0].phase == p {
        assert c.phase != p;
        assert InPhase([cs[0]] + rest, p) == [cs[0]] + InPhase(rest, p);
      } else {
        assert InPhase([cs[0]] + rest, p) == InPhase(rest, p);
      }
    }
  }

  /** The sort is stable: within each phase, components keep the order in
      which they were registered. */
  lemma {:induction false} SortByPhaseIsStable(cs: seq<Installable>, p: Phase)
    ensures InPhase(SortByPhase(cs), p) == InPhase(cs, p)
  {
    if cs != [] {
      SortByPhaseIsStable(cs[1..], p);
      InsertKeepsPhaseOrder(cs[0], SortByPhase(cs[1..]), p);
    }
  }
}
