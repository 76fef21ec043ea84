/**
 Stable allocation snapshots: the planner's delta, the journal's independent
 successor check, and their agreement.
 */
module Allocations {
  import opened Types

  predicate Sorted(rs: seq<AllocationRecord>) {
    forall i, j :: 0 <= i < j < |rs| ==> rs[i].key < rs[j].key
  }

  /** What building a snapshot checks: capacity, canonical order, unique and
      bounded ordinals, unique identities, generation and high water. */
  predicate AllocationValid(a: Allocation) {
    && |a.records| <= MAX_ALLOCATION_RECORDS
    && Sorted(a.records)
    && (forall r :: r in a.records ==> 0 < r.ordinal <= a.highWater)
    && (forall r, q :: r in a.records && q in a.records && r != q ==>
          r.ordinal != q.ordinal && r.instance != q.instance && r.domain != q.domain)
    && (if a.records == [] then a.generation == 0 && a.highWater == 0
        else && 0 < a.generation && a.highWater <= a.generation
             && exists r :: r in a.records && r.ordinal == a.highWater)
  }

  predicate SameIdentity(r: AllocationRecord, q: AllocationRecord) {
    r.ordinal == q.ordinal && r.instance == q.instance && r.domain == q.domain
  }

  /** Merges key-sorted changes `cs` into key-sorted records `rs`. A change
      either tombstones an active row in place or activates a fresh ordinal for
      an absent or tombstoned key; `ordinal` is the last one handed out. */
  function Merge(rs: seq<AllocationRecord>, cs: seq<AllocationRecord>, ordinal: nat)
    : Option<(seq<AllocationRecord>, nat)>
    decreases |rs| + |cs|
  {
    if cs == [] then Some((rs, ordinal))
    else if rs != [] && rs[0].key < cs[0].key then
      match Merge(rs[1..], cs, ordinal)
      case None => None
      case Some((ms, o)) => Some(([rs[0]] + ms, o))
    else
      var known := rs != [] && rs[0].key == cs[0].key;
      var retires := known && SameIdentity(rs[0], cs[0]);
      var legal :=
        if retires then rs[0].state.Active? && cs[0].state.Tombstone?
        else && cs[0].state.Active? && cs[0].ordinal == ordinal + 1 <= U64_MAX
             && (known ==> rs[0].state.Tombstone?);
      if !legal then None
      else
        match Merge(if known then rs[1..] else rs, cs[1..], if retires then ordinal else ordinal + 1)
        case None => None
        case Some((ms, o)) => Some(([cs[0]] + ms, o))
  }

  function ApplyDelta(a: Allocation, d: Delta): Option<Allocation> {
    if d.base != a.generation || d.highWater < a.highWater || !Sorted(d.records) then None
    else
      match Merge(a.records, d.records, a.highWater)
      case None => None
      case Some((ms, ordinal)) =>
        var generation := if d.records == [] then a.generation else a.generation + 1;
        var b := Allocation(a.target, d.next, d.highWater, ms);
        if ordinal != d.highWater || (d.records != [] && generation > U64_MAX) || d.next != generation || !AllocationValid(b)
        then None else Some(b)
  }

  /** The rows of `rs` that `was` does not hold verbatim. */
  function Diff(rs: seq<AllocationRecord>, was: seq<AllocationRecord>): seq<AllocationRecord> {
    if rs == [] then []
    else (if rs[0] in was then [] else [rs[0]]) + Diff(rs[1..], was)
  }

  function Keys(rs: seq<AllocationRecord>): set<Id> { set r | r in rs :: r.key }

  /** The journal's own check that `b` is one legal step after `a`: it rebuilds
      the delta from the two snapshots alone and replays it. */
  predicate AllocationSuccessor(b: Allocation, a: Allocation) {
    && b.target == a.target
    && a.highWater <= b.highWater
    && Keys(a.records) <= Keys(b.records)
    && ApplyDelta(a, Delta(a.generation, b.generation, b.highWater, Diff(b.records, a.records))) == Some(b)
  }

  /** The replay test of a plan commit: `a` already shows the delta's result. */
  predicate MatchesDelta(a: Allocation, d: Delta) {
    && a.generation == d.next
    && a.highWater == d.highWater
    && forall c :: c in d.records ==> c in a.records
  }

  /** The arguments of the call `Merge` makes on a non-empty change list. */
  function MergeRest(rs: seq<AllocationRecord>, cs: seq<AllocationRecord>, ordinal: nat)
    : (seq<AllocationRecord>, seq<AllocationRecord>, nat)
    requires cs != []
  {
    if rs != [] && rs[0].key < cs[0].key then (rs[1..], cs, ordinal)
    else if rs != [] && rs[0].key == cs[0].key then
      (rs[1..], cs[1..], if SameIdentity(rs[0], cs[0]) then ordinal else ordinal + 1)
    else (rs, cs[1..], ordinal + 1)
  }

  lemma {:induction false} MergeSorted(rs: seq<AllocationRecord>, cs: seq<AllocationRecord>, ordinal: nat)
    requires Merge(rs, cs, ordinal).Some? && Sorted(rs) && Sorted(cs)
    ensures var ms := Merge(rs, cs, ordinal).value.0;
            Sorted(ms) && forall m :: m in ms ==> m in rs || m in cs
    decreases |rs| + |cs|
  {
    if cs != [] {
      var (rs', cs', o) := MergeRest(rs, cs, ordinal);
      MergeSorted(rs', cs', o);
      var ms, ms' := Merge(rs, cs, ordinal).value.0, Merge(rs', cs', o).value.0;
      assert ms == [ms[0]] + ms';
      forall j | 0 < j < |ms| ensures ms[0].key < ms[j].key {
        assert ms[j] in ms';
        assert ms[j] in rs' || ms[j] in cs';
      }
    }
  }

  lemma {:induction false} MergeChanges(rs: seq<AllocationRecord>, cs: seq<AllocationRecord>, ordinal: nat)
    requires Merge(rs, cs, ordinal).Some? && Sorted(rs) && Sorted(cs)
    ensures forall c :: c in cs ==> c in Merge(rs, cs, ordinal).value.0 && c !in rs
    decreases |rs| + |cs|
  {
    if cs != [] {
      var (rs', cs', o) := MergeRest(rs, cs, ordinal);
      MergeChanges(rs', cs', o);
      var ms, ms' := Merge(rs, cs, ordinal).value.0, Merge(rs', cs', o).value.0;
      assert ms == [ms[0]] + ms';
      forall c | c in cs ensures c in ms && c !in rs {
        var i :| 0 <= i < |cs| && cs[i] == c;
        assert c.key >= cs[0].key;
        if cs' == cs || i > 0 {
          assert c in cs' && c in ms' && c !in rs';
          assert rs' != rs ==> rs == [rs[0]] + rs' && c != rs[0];
        } else {
          assert ms[0] == c;
          assert forall k :: 0 <= k < |rs| ==> rs[k] != c;
        }
      }
    }
  }

  lemma {:induction false} MergeKeys(rs: seq<AllocationRecord>, cs: seq<AllocationRecord>, ordinal: nat)
    requires Merge(rs, cs, ordinal).Some?
    ensures Keys(rs) <= Keys(Merge(rs, cs, ordinal).value.0)
    decreases |rs| + |cs|
  {
    if cs != [] {
      var (rs', cs', o) := MergeRest(rs, cs, ordinal);
      MergeKeys(rs', cs', o);
      var ms, ms' := Merge(rs, cs, ordinal).value.0, Merge(rs', cs', o).value.0;
      assert ms == [ms[0]] + ms' && ms[0] in ms;
      forall k | k in Keys(rs) ensures k in Keys(ms) {
        var r :| r in rs && r.key == k;
        if r in rs' {
          assert k in Keys(rs');
          var m :| m in ms' && m.key == k;
          assert m in ms;
        }
      }
    }
  }

  lemma {:induction false} MergeDiff(rs: seq<AllocationRecord>, cs: seq<AllocationRecord>, ordinal: nat,
                                     was: seq<AllocationRecord>)
    requires Merge(rs, cs, ordinal).Some?
    requires (forall r :: r in rs ==> r in was) && (forall c :: c in cs ==> c !in was)
    ensures Diff(Merge(rs, cs, ordinal).value.0, was) == cs
    decreases |rs| + |cs|
  {
    if cs == [] {
      DiffOfSubset(rs, was);
    } else {
      var (rs', cs', o) := MergeRest(rs, cs, ordinal);
      MergeDiff(rs', cs', o, was);
    }
  }

  lemma {:induction false} DiffOfSubset(rs: seq<AllocationRecord>, was: seq<AllocationRecord>)
    requires forall r :: r in rs ==> r in was
    ensures Diff(rs, was) == []
  {
    if rs != [] { DiffOfSubset(rs[1..], was); }
  }

  /** The journal's rebuilt delta is exactly the planner's: a committed delta is
      always a legal successor, moves the generation by at most one, and is
      recognised as already applied. */
  lemma DeltaIsSuccessor(a: Allocation, d: Delta)
    requires AllocationValid(a) && ApplyDelta(a, d).Some?
    ensures var b := ApplyDelta(a, d).value;
            && AllocationValid(b)
            && AllocationSuccessor(b, a)
            && Diff(b.records, a.records) == d.records
            && MatchesDelta(b, d)
            && a.generation <= b.generation <= a.generation + 1
  {
    MergeSorted(a.records, d.records, a.highWater);
    MergeChanges(a.records, d.records, a.highWater);
    MergeKeys(a.records, d.records, a.highWater);
    MergeDiff(a.records, d.records, a.highWater, a.records);
  }

  /** One allocation step, as far as the operation ledger looks at it. */
  predicate StepsAllocation(b: Allocation, a: Allocation) {
    AllocationValid(b) && b.target == a.target && a.generation <= b.generation <= a.generation + 1
  }

  lemma DeltaSteps(a: Allocation, d: Delta, b: Allocation)
    requires AllocationValid(a) && ApplyDelta(a, d) == Some(b)
    ensures StepsAllocation(b, a)
  {
    DeltaIsSuccessor(a, d);
  }

  lemma DeltaFollows(a: Allocation, d: Delta, b: Allocation)
    requires AllocationValid(a) && ApplyDelta(a, d) == Some(b)
    ensures AllocationSuccessor(b, a)
  {
    DeltaIsSuccessor(a, d);
  }

  /** An applied delta is recognised as already applied. */
  lemma DeltaIsRecognised(a: Allocation, d: Delta, b: Allocation)
    requires AllocationValid(a) && ApplyDelta(a, d) == Some(b)
    ensures MatchesDelta(b, d) && b.target == a.target
  {
    DeltaIsSuccessor(a, d);
  }

  lemma UnchangedIsSuccessor(a: Allocation)
    requires AllocationValid(a)
    ensures AllocationSuccessor(a, a)
  {
    DiffOfSubset(a.records, a.records);
    assert Allocation(a.target, a.generation, a.highWater, a.records) == a;
  }
}
