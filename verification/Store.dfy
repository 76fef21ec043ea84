/**
 The Controller's store handle, and its commit with three outcomes.
 */
module Stores {
  import opened Types
  import opened Rollouts
  import opened Journal
  import J = Journal
  import opened Revalidation
  import opened Successors
  import opened Runs
  import opened Mutations
  import opened Worlds
  import Mutators

  /** What the filesystem does with a commit: publishes it, rejects it before
      publication, or publishes it and then leaves the caller uncertain. */
  datatype Fate = Done | RejectedBefore | LostAfter

  /** Nothing but the command itself can fail: the filesystem publishes, and there is a
      next sequence. */
  predicate Grants(x: Snapshot, fate: Fate) { fate.Done? && x.sequence < U64_MAX }

  /** `next` is what the store accepts after `x`. */
  ghost predicate NextSnapshot(next: Snapshot, x: Snapshot) {
    && next.store == x.store && next.owner == x.owner
    && x.sequence < U64_MAX && next.sequence == x.sequence + 1
    && Accepts(x.state, next.state)
  }

  method CheckNext(next: Snapshot, x: Snapshot) returns (ok: bool)
    ensures ok <==> NextSnapshot(next, x)
  {
    AcceptsSuccessors(x.state, next.state);
    var follows := Mutators.CheckSuccessor(next.state, x.state);
    ok := && follows && next.store == x.store && next.owner == x.owner
          && x.sequence < U64_MAX && next.sequence == x.sequence + 1;
  }

  method TryMutate(h: Hashes, s: State, c: Command) returns (r: Result<State>)
    ensures r.Ok? ==> Yields(h, s, c, r.value)
    ensures r.Err? ==> Fails(h, s, c, r.error) && forall n :: !Yields(h, s, c, n)
    ensures forall e :: Fails(h, s, c, e) ==> r == Err(e)
  {
    r := Mutators.Mutate(h, s, c);
    forall e | Fails(h, s, c, e) ensures r == Err(e) { FailsApply(h, s, c, e); }
    if r.Ok? { YieldsApply(h, s, c, r.value); }
    else {
      FailsApply(h, s, c, r.error);
      forall n ensures !Yields(h, s, c, n) { YieldsApply(h, s, c, n); }
    }
  }

  /** What a call yields can follow, and is not fresh unless the call was a rotation. */
  lemma YieldsFollows(h: Hashes, s: State, c: Command, n: State)
    requires J.Valid(s) && Yields(h, s, c, n)
    ensures Accepts(s, n) && (Fresh(n) ==> c.RotateAuth?)
  {
    YieldsApply(h, s, c, n);
    MutatorsSucceed(h, s, c);
    AcceptsSuccessors(s, n);
    FreshApply(h, s, c, n);
  }

  lemma YieldsOnce(h: Hashes, s: State, c: Command, n: State, m: State)
    requires Yields(h, s, c, n) && Yields(h, s, c, m)
    ensures n == m
  {
    YieldsApply(h, s, c, n);
    YieldsApply(h, s, c, m);
  }

  method TryNext(x: Snapshot, n: State) returns (r: Result<Snapshot>)
    requires SnapshotShape(x)
    ensures r.Ok? ==> NextSnapshot(r.value, x) && SnapshotShape(r.value) && r.value.state == n
    ensures r.Ok? <==> x.sequence < U64_MAX && Accepts(x.state, n) && !Fresh(n)
    ensures r.Err? && Accepts(x.state, n) ==>
              r == Err(if x.sequence < U64_MAX then FreshStateAfterInitialization else SnapshotSequenceExhausted)
  {
    AcceptsSuccessors(x.state, n);
    r := Mutators.Succeed(x, n);
  }

  /** A store handle. The ghost fields record the run so far: every change of the
      handle or of the disk is one event of a crash-prone world. */
  class Store {
    var disk: Snapshot
    var snapshot: Snapshot
    var operational: bool
    ghost var events: seq<Event>
    ghost var worlds: seq<World>

    ghost function Now(): World
      reads this
      requires |worlds| == |events| + 1
    {
      worlds[|events|]
    }

    ghost predicate Valid()
      reads this
    {
      var valid :=
        && SnapshotShape(disk)
        && (operational ==> snapshot == disk)
        && Trace(worlds, events)
        && Now().past != [] && Now().Disk() == disk.state && Now().live == operational;
      valid
    }

    /** The live state is valid: everything ever durable is. */
    lemma StateValid()
      requires Valid() && operational
      ensures J.Valid(snapshot.state)
    {
      TraceSound(worlds, events, |events|);
      var last: nat := |Now().past| - 1;
      ChainValid(Now().past, last);
    }

    lemma Followed(h: Hashes, c: Command, n: State)
      requires Valid() && operational && Yields(h, snapshot.state, c, n)
      ensures Accepts(snapshot.state, n) && (Fresh(n) ==> c.RotateAuth?)
    {
      StateValid();
      YieldsFollows(h, snapshot.state, c, n);
    }

    /** Whatever methods have been called on this store, in whatever order, with
        whatever crashes between them, no query was sent twice. */
    lemma SentOnce(i: nat, j: nat)
      requires Valid() && i < |Now().queries| && j < |Now().queries| && i != j
      ensures !SameQuery(Now().queries[i].query, Now().queries[j].query)
    {
      AtMostOnce(worlds, events, |events|, i, j);
    }

    /** Opening reads whatever is durable. */
    constructor (durable: Snapshot)
      requires SnapshotValid(durable)
      ensures Valid() && operational && snapshot == durable && disk == durable
      ensures events == []
    {
      disk, snapshot, operational := durable, durable, true;
      events := [];
      worlds := [OpenedWorld(durable.state)];
      TraceStarts(durable.state);
    }

    ghost method Log(e: Event)
      requires Trace(worlds, events) && Now().past != [] && Enabled(Now(), e)
      modifies this`events, this`worlds
      ensures Trace(worlds, events) && Now() == Do(old(Now()), e)
      ensures worlds[..|worlds| - 1] == old(worlds) && events == old(events) + [e]
    {
      TraceExtended(worlds, events, e);
      worlds := worlds + [Do(Now(), e)];
      events := events + [e];
    }

    /** Any ending of a process: the handle and everything in memory are gone. A
        new one starts from the disk. */
    method CrashAndReopen()
      requires Valid()
      modifies this
      ensures Valid() && operational && disk == old(disk) && snapshot == disk
      ensures events == old(events) + [Crash, Reopen]
    {
      Log(Crash);
      Log(Reopen);
      snapshot, operational := disk, true;
    }

    /** Publishes `next` if it may follow; whatever fails stops the handle. A
        successful commit mints the token of the query it made durable. */
    method Commit(next: Snapshot, fate: Fate, ghost minted: Option<QueryRequest>) returns (r: Result<()>)
      requires Valid() && SnapshotShape(next)
      requires operational && minted.Some? ==> Appends(next.state, snapshot.state, minted.value)
      modifies this
      ensures Valid()
      ensures snapshot.owner == old(snapshot).owner && snapshot.store == old(snapshot).store
      ensures r.Ok? <==> old(operational) && NextSnapshot(next, old(snapshot)) && fate.Done?
      ensures r.Ok? ==> operational && snapshot == next && Now() == Do(old(Now()), Publish(next.state, minted))
      ensures operational ==> disk == snapshot
      ensures r.Err? ==> && !operational && snapshot == old(snapshot)
                         && (disk == old(disk) || (disk == next && fate.LostAfter?))
                         && Now() == if !old(operational) then old(Now())
                                     else if NextSnapshot(next, old(snapshot)) && fate.LostAfter?
                                     then Do(old(Now()), PublishThenStop(next.state))
                                     else Do(old(Now()), Stop)
    {
      if !operational { return Err(StoreStopped); }
      var follows := CheckNext(next, snapshot);
      Log(if !follows || fate.RejectedBefore? then Stop
          else if fate.Done? then Publish(next.state, minted)
          else PublishThenStop(next.state));
      operational := follows && fate.Done?;
      if follows && !fate.RejectedBefore? { disk := next; }
      if operational { snapshot := next; }
      r := if operational then Ok(()) else if !follows then Err(InvalidSuccessor)
           else if fate.RejectedBefore? then Err(PublishRejected) else Err(PublishUncertain);
    }
  }
}
