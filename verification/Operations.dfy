/** The plan-operation ledger. */
module Operations {
  import opened Types
  import opened Tables

  function OpKey(o: Operation): nat { o.id }

  predicate OperationValid(o: Operation) {
    && ((o.phase.OpUncertain? || o.phase.OpTerminal?) == o.result.Some?)
    && (o.phase.OpCommitted? == o.generation.Some?)
    && (o.phase.OpCommitted? == o.planDigest.Some?)
  }

  /** An unresolved row belongs to the current revision, an abandoned one to
      that or an earlier revision. */
  predicate AtRevision(o: Operation, revision: nat) {
    && ((o.phase.OpPrepared? || o.phase.OpUncertain?) ==> o.expected == revision)
    && (o.phase.OpTerminal? ==> o.expected <= revision)
  }

  function Committed(ops: seq<Operation>): set<Operation> { set o | o in ops && o.phase.OpCommitted? }

  predicate CommitAt(commits: set<Operation>, r: nat) {
    exists o :: o in commits && o.expected == r
  }

  function Generation(o: Operation): nat { if o.generation.Some? then o.generation.value else 0 }

  /** The committed rows are one per revision, each once, with distinct plan
      digests and allocation generations that rise by at most one per commit. */
  predicate Ledger(commits: set<Operation>, revision: nat, generation: nat) {
    && (forall o :: o in commits ==> o.expected < revision)
    && (forall r :: 0 <= r < revision ==> CommitAt(commits, r))
    && (forall o, p :: o in commits && p in commits && o != p ==>
                         o.expected != p.expected && o.planDigest != p.planDigest)
    && (forall o, p :: o in commits && p in commits && p.expected == o.expected + 1 ==>
                         Generation(o) <= Generation(p) <= Generation(o) + 1)
    && (forall o :: o in commits && o.expected == 0 ==> Generation(o) <= 1)
    && (forall o :: o in commits && o.expected + 1 == revision ==> Generation(o) == generation)
    && (revision == 0 ==> generation == 0)
  }

  predicate OperationsValid(ops: seq<Operation>, revision: nat, generation: nat) {
    var valid :=
      && SortedBy(ops, OpKey)
      && (forall o :: o in ops ==> OperationValid(o) && AtRevision(o, revision))
      && Ledger(Committed(ops), revision, generation);
    valid
  }

  /** The revision whose plan carries `digest`, or zero when no commit does. */
  function RevisionOf(ops: seq<Operation>, digest: Digest): nat {
    if ops == [] then 0
    else if ops[0].phase.OpCommitted? && ops[0].planDigest == Some(digest) then ops[0].expected + 1
    else RevisionOf(ops[1..], digest)
  }

  lemma {:induction false} RevisionOfWitness(ops: seq<Operation>, digest: Digest)
    ensures RevisionOf(ops, digest) != 0 ==>
              exists o :: o in Committed(ops) && o.planDigest == Some(digest)
                          && o.expected + 1 == RevisionOf(ops, digest)
    ensures RevisionOf(ops, digest) == 0 ==>
              forall o :: o in Committed(ops) ==> o.planDigest != Some(digest)
  {
    if ops != [] {
      RevisionOfWitness(ops[1..], digest);
      assert ops[0] in ops;
      forall o | o in ops[1..] ensures o in ops { }
    }
  }

  /** With distinct plan digests, a committed row determines its revision. */
  lemma RevisionOfCommit(ops: seq<Operation>, revision: nat, generation: nat, o: Operation)
    requires OperationsValid(ops, revision, generation)
    requires o in Committed(ops)
    ensures RevisionOf(ops, o.planDigest.value) == o.expected + 1
  {
    RevisionOfWitness(ops, o.planDigest.value);
  }

  /** Two ledgers with the same commit for `digest` agree on its revision. */
  lemma RevisionOfKept(ops: seq<Operation>, revision: nat, generation: nat,
                       ops': seq<Operation>, revision': nat, generation': nat, digest: Digest)
    requires OperationsValid(ops, revision, generation) && OperationsValid(ops', revision', generation')
    requires forall o :: o in Committed(ops) ==> o in Committed(ops')
    requires RevisionOf(ops, digest) != 0
    ensures RevisionOf(ops', digest) == RevisionOf(ops, digest)
  {
    RevisionOfWitness(ops, digest);
    var o :| o in Committed(ops) && o.planDigest == Some(digest)
             && o.expected + 1 == RevisionOf(ops, digest);
    RevisionOfCommit(ops', revision', generation', o);
  }

  /** A new prepared row at the current revision keeps the ledger valid. */
  lemma InsertKeepsLedger(ops: seq<Operation>, revision: nat, generation: nat, o: Operation)
    requires OperationsValid(ops, revision, generation)
    requires o.phase.OpPrepared? && o.expected == revision && OperationValid(o)
    requires Find(ops, OpKey, o.id).None?
    ensures OperationsValid(Insert(ops, OpKey, o), revision, generation)
    ensures Committed(Insert(ops, OpKey, o)) == Committed(ops)
    ensures |Insert(ops, OpKey, o)| == |ops| + 1
  {
    InsertSorts(ops, OpKey, o);
    InsertMembers(ops, OpKey, o);
    assert Committed(Insert(ops, OpKey, o)) == Committed(ops);
  }

  /** Moving an uncommitted row to another uncommitted phase keeps the ledger. */
  lemma ResolveKeepsLedger(ops: seq<Operation>, revision: nat, generation: nat, k: nat, o: Operation)
    requires OperationsValid(ops, revision, generation) && k < |ops|
    requires ops[k].phase.OpCommitted? == o.phase.OpCommitted?
    requires o.phase.OpCommitted? ==> o == ops[k]
    requires ops[k].phase.Permits(o.phase)
    requires OperationValid(o) && o.id == ops[k].id && o.expected == ops[k].expected
    ensures OperationsValid(ops[k := o], revision, generation)
    ensures Committed(ops[k := o]) == Committed(ops)
  {
    UpdateMembers(ops, OpKey, k, o);
    assert ops[k] in ops;
    assert Committed(ops[k := o]) == Committed(ops);
  }

  predicate DigestFresh(commits: set<Operation>, digest: Digest) {
    forall o :: o in commits ==> o.planDigest != Some(digest)
  }

  lemma LedgerStep(commits: set<Operation>, revision: nat, generation: nat, o: Operation)
    requires Ledger(commits, revision, generation)
    requires o.expected == revision && o.generation.Some? && o.planDigest.Some?
    requires generation <= o.generation.value <= generation + 1
    ensures Ledger(commits + {o}, revision + 1, o.generation.value)
            <==> DigestFresh(commits, o.planDigest.value)
  {
    var commits' := commits + {o};
    forall r | 0 <= r < revision ensures CommitAt(commits', r) {
      assert CommitAt(commits, r);
      var c :| c in commits && c.expected == r;
      assert c in commits';
    }
    assert CommitAt(commits', revision) by { assert o in commits'; }
    if revision > 0 {
      assert CommitAt(commits, revision - 1);
    }
    if c :| c in commits && c.planDigest == o.planDigest {
      assert c in commits' && o in commits' && c != o;
    }
  }

  /** Committing the only unresolved row advances the revision by one; only a
      plan-digest collision can spoil the ledger. */
  lemma CommitAdvancesLedger(ops: seq<Operation>, revision: nat, generation: nat,
                             k: nat, next: nat, digest: Digest)
    requires OperationsValid(ops, revision, generation) && k < |ops|
    requires ops[k].phase.OpPrepared?
    requires forall o :: o in ops && o.id != ops[k].id ==> !o.phase.OpPrepared? && !o.phase.OpUncertain?
    requires generation <= next <= generation + 1
    ensures var o := ops[k].(phase := OpCommitted, generation := Some(next), planDigest := Some(digest));
            && (OperationsValid(ops[k := o], revision + 1, next) <==> DigestFresh(Committed(ops), digest))
            && Committed(ops[k := o]) == Committed(ops) + {o}
  {
    var o := ops[k].(phase := OpCommitted, generation := Some(next), planDigest := Some(digest));
    var ops' := ops[k := o];
    UpdateMembers(ops, OpKey, k, o);
    assert ops[k] in ops;
    LedgerStep(Committed(ops), revision, generation, o);
    assert Committed(ops') == Committed(ops) + {o};
    forall p | p in ops' ensures OperationValid(p) && AtRevision(p, revision + 1) {
      if p != o && p.id == ops[k].id { KeysAreUnique(ops, OpKey, p, ops[k]); }
    }
  }

  /** There are at least as many rows as revisions, and one more while any row
      is uncommitted. */
  lemma {:induction false} LedgerSize(ops: seq<Operation>, revision: nat)
    requires forall r :: 0 <= r < revision ==> CommitAt(Committed(ops), r)
    ensures |ops| >= revision
    ensures (exists o :: o in ops && !o.phase.OpCommitted?) ==> |ops| > revision
    decreases |ops|
  {
    if o :| o in ops && !o.phase.OpCommitted? {
      RemoveRow(ops, revision, o);
    } else if revision > 0 {
      assert CommitAt(Committed(ops), revision - 1);
      var o :| o in Committed(ops) && o.expected == revision - 1;
      RemoveRow(ops, revision - 1, o);
    }
  }

  lemma RemoveRow(ops: seq<Operation>, revision: nat, o: Operation)
    requires o in ops && (o.phase.OpCommitted? ==> o.expected >= revision)
    requires forall r :: 0 <= r < revision ==> CommitAt(Committed(ops), r)
    ensures |ops| > revision
    decreases |ops|, 0
  {
    var k :| 0 <= k < |ops| && ops[k] == o;
    var rest := ops[..k] + ops[k + 1..];
    forall r | 0 <= r < revision ensures CommitAt(Committed(rest), r) {
      assert CommitAt(Committed(ops), r);
      var c :| c in Committed(ops) && c.expected == r;
      var i :| 0 <= i < |ops| && ops[i] == c;
      assert rest[if i < k then i else i - 1] == c;
      assert c in Committed(rest);
    }
    LedgerSize(rest, revision);
  }
}
