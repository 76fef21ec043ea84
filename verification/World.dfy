/**
 One Controller over crashes and uncertain commits: what is durable, what is
 only in memory, and what has been handed to the network.
 */
module Worlds {
  import opened Types
  import opened Tables
  import Tenures
  import opened Rollouts
  import opened Journal
  import opened Successors
  import opened Runs

  /** A query, or the stored apply bytes, handed to the exchange while `past[at]`
      was the durable state. */
  datatype Sending = Sending(query: QueryRequest, at: nat)
  datatype ApplySending = ApplySending(bytes: Bytes, at: nat)
  datatype TenureSending = TenureSending(request: TenureRequest, at: nat)

  /** `past` lists every state ever durable, the present one last. `live` tells
      whether an operational store handle is open, `commits` counts the commits it
      attempted. `tokens` are the permissions to send a query held in memory. */
  datatype World = World(past: seq<State>, live: bool, commits: nat, tokens: multiset<QueryRequest>,
                         queries: seq<Sending>, applies: seq<ApplySending>, tenures: seq<TenureSending>)
  {
    function Disk(): State
      requires past != []
    {
      past[|past| - 1]
    }
  }

  /** A commit that succeeds may mint the token of the query it made durable; one
      that is lost after publication, or rejected before it, stops the handle. */
  datatype Event =
    | Publish(next: State, minted: Option<QueryRequest>)
    | PublishThenStop(next: State)
    | Stop
    | Crash
    | Reopen
    | SendQuery(query: QueryRequest)
    | DropToken(query: QueryRequest)
    | SendApply(bytes: Bytes)
    | SendTenure(request: TenureRequest)

  /** The step from `s` to `n` made `q` durable as a new, open attempt. */
  predicate Appends(n: State, s: State, q: QueryRequest) {
    && s.rollout.Some? && n.rollout.Some? && n.history == s.history
    && var was, now := s.rollout.value.attempts, n.rollout.value.attempts;
    && |now| == |was| + 1 && now[..|was|] == was
    && now[|was|].prepared.request == q && now[|was|].Open()
  }

  /** `q` is the current query and nothing has been recorded about it yet. */
  predicate OpenQuery(s: State, q: QueryRequest) {
    && s.rollout.Some? && s.rollout.value.Last().Some?
    && s.rollout.value.Last().value.prepared.request == q
    && s.rollout.value.Last().value.Open()
  }

  predicate ApplyOpen(s: State, bytes: Bytes) {
    && s.rollout.Some? && !IsTerminal(s.rollout.value)
    && s.rollout.value.intent.request.bytes == bytes
  }

  function TenureRow(s: State, operation: Id): Option<Tenure> {
    var k := Find(s.tenures, Tenures.TenureKey, operation);
    if k.None? then None else Some(s.tenures[k.value])
  }

  /** The exact tenure request is durable and still unanswered. */
  predicate TenureOpen(s: State, q: TenureRequest) {
    var t := TenureRow(s, q.operation);
    t.Some? && t.value.request.wire == q.wire && t.value.response.None?
  }

  predicate Allowed(w: World, e: Event)
    requires w.past != []
  {
    match e
    case Publish(n, minted) => w.live && (minted.Some? ==> Appends(n, w.Disk(), minted.value))
    case PublishThenStop(n) => w.live
    case Stop => w.live
    case Crash => true
    case Reopen => true
    case SendQuery(q) => w.live && w.tokens[q] > 0 && OpenQuery(w.Disk(), q)
    case DropToken(q) => w.tokens[q] > 0
    case SendApply(bytes) => w.live && ApplyOpen(w.Disk(), bytes)
    case SendTenure(q) => w.live && TenureOpen(w.Disk(), q)
  }

  /** Whatever is published must be a legal successor of what is durable. */
  ghost predicate Enabled(w: World, e: Event)
    requires w.past != []
  {
    Allowed(w, e) && (e.Publish? || e.PublishThenStop? ==> Accepts(w.Disk(), e.next))
  }

  function Do(w: World, e: Event): World
    requires w.past != []
  {
    match e
    case Publish(n, minted) =>
      w.(past := w.past + [n], commits := w.commits + 1,
         tokens := if minted.Some? then w.tokens + multiset{minted.value} else w.tokens)
    case PublishThenStop(n) => w.(past := w.past + [n], live := false, commits := w.commits + 1)
    case Stop => w.(live := false, commits := w.commits + 1)
    case Crash => w.(live := false, tokens := multiset{})
    case Reopen => w.(live := true)
    case SendQuery(q) => w.(tokens := w.tokens - multiset{q}, queries := w.queries + [Sending(q, |w.past| - 1)])
    case DropToken(q) => w.(tokens := w.tokens - multiset{q})
    case SendApply(bytes) => w.(applies := w.applies + [ApplySending(bytes, |w.past| - 1)])
    case SendTenure(q) => w.(tenures := w.tenures + [TenureSending(q, |w.past| - 1)])
  }

  /** A store just opened: one durable state, nothing in memory, nothing sent. */
  ghost predicate Opened(w: World) {
    |w.past| == 1 && Chain(w.past) && w.tokens == multiset{} && w.queries == [] && w.applies == [] && w.tenures == []
  }

  ghost predicate StepAt(ws: seq<World>, es: seq<Event>, i: nat)
    requires i < |es| && i + 1 < |ws|
  {
    ws[i].past != [] && Enabled(ws[i], es[i]) && ws[i + 1] == Do(ws[i], es[i])
  }

  /** The worlds that any sequence of enabled events goes through. */
  ghost predicate Trace(ws: seq<World>, es: seq<Event>) {
    var trace := |ws| == |es| + 1 && Opened(ws[0]) && forall i :: 0 <= i < |es| ==> StepAt(ws, es, i);
    trace
  }

  function OpenedWorld(s: State): World { World([s], true, 0, multiset{}, [], [], []) }

  lemma TraceStarts(s: State)
    requires Valid(s)
    ensures Trace([OpenedWorld(s)], [])
  {
    ChainStarts(s);
  }

  /** One more enabled event extends a trace. */
  lemma TraceExtended(ws: seq<World>, es: seq<Event>, e: Event)
    requires Trace(ws, es) && ws[|es|].past != [] && Enabled(ws[|es|], e)
    ensures Trace(ws + [Do(ws[|es|], e)], es + [e])
  {
    var ws', es' := ws + [Do(ws[|es|], e)], es + [e];
    forall i | 0 <= i < |es'| ensures StepAt(ws', es', i) {
      if i < |es| { assert StepAt(ws, es, i); }
    }
  }

  // --------------------------------------------------------------------- durability

  ghost predicate DurableAt(s: State, r: nat, i: nat, q: QueryRequest) {
    HasAttempt(s.Records(), r, i) && AttemptAt(s.Records(), r, i).prepared.request == q
  }

  ghost predicate Durable(s: State, q: QueryRequest) { exists r: nat, i: nat :: DurableAt(s, r, i, q) }

  /** A durable query stays durable, in its place. */
  lemma DurableKept(n: State, s: State, r: nat, i: nat, q: QueryRequest)
    requires Evolves(n, s) && DurableAt(s, r, i, q)
    ensures DurableAt(n, r, i, q)
  {
    if r == |s.history| && !PlanChanged(n, s) {
      assert n.rollout.value.attempts[i].prepared == s.rollout.value.attempts[i].prepared;
    }
  }

  lemma OneOccurrence(s: State, r: nat, i: nat, r': nat, i': nat, q: QueryRequest, q': QueryRequest)
    requires DistinctQueries(s.Records()) && DurableAt(s, r, i, q) && DurableAt(s, r', i', q') && SameQuery(q, q')
    ensures r == r' && i == i' && q == q'
  {
  }

  /** A step cannot append a query that was durable before. */
  lemma AppendsIsFresh(n: State, s: State, q: QueryRequest)
    requires Evolves(n, s) && DistinctQueries(n.Records()) && Appends(n, s, q)
    ensures !Durable(s, q) && Durable(n, q)
  {
    var last := |s.rollout.value.attempts|;
    assert DurableAt(n, |n.history|, last, q);
    if Durable(s, q) {
      var r: nat, i: nat :| DurableAt(s, r, i, q);
      DurableKept(n, s, r, i, q);
      OneOccurrence(n, r, i, |n.history|, last, q, q);
      assert false;
    }
  }

  /** Once closed, answered, superseded or archived, a query is not open again. */
  lemma NotReopened(n: State, s: State, q: QueryRequest)
    requires Evolves(n, s) && DistinctQueries(n.Records()) && Durable(s, q) && OpenQuery(n, q)
    ensures OpenQuery(s, q)
  {
    var r, r' := s.rollout, n.rollout.value;
    if r.Some? && |r'.attempts| == |r.value.attempts| + 1 {
      assert r'.attempts[..|r.value.attempts|] == r.value.attempts;
      AppendsIsFresh(n, s, q);
    }
  }

  // ------------------------------------------------------------ at most once, always

  function Sent(queries: seq<Sending>): multiset<QueryRequest> {
    if queries == [] then multiset{} else Sent(queries[..|queries| - 1]) + multiset{queries[|queries| - 1].query}
  }

  /** Permissions to send that exist or have been used. */
  function Issued(w: World): multiset<QueryRequest> { w.tokens + Sent(w.queries) }

  ghost predicate SendingsSound(w: World) {
    && (forall k :: 0 <= k < |w.queries| ==>
          w.queries[k].at < |w.past| && OpenQuery(w.past[w.queries[k].at], w.queries[k].query))
    && (forall k :: 0 <= k < |w.applies| ==>
          w.applies[k].at < |w.past| && ApplyOpen(w.past[w.applies[k].at], w.applies[k].bytes))
    && (forall k :: 0 <= k < |w.tenures| ==>
          w.tenures[k].at < |w.past| && TenureOpen(w.past[w.tenures[k].at], w.tenures[k].request))
  }

  /** At most one permission per query ever, and only for a durable query. */
  ghost predicate IssuedSound(issued: multiset<QueryRequest>, s: State) {
    forall q :: q in issued ==> issued[q] == 1 && Durable(s, q)
  }

  ghost predicate Sound(w: World) {
    var sound := w.past != [] && IssuedSound(Issued(w), w.Disk()) && SendingsSound(w);
    sound
  }

  /** What the theorems below need to know about a published state. */
  ghost predicate Extends(n: State, s: State) { Evolves(n, s) && DistinctQueries(n.Records()) }

  lemma SuccessorExtends(n: State, s: State)
    requires Valid(s) && Successor(n, s)
    ensures Extends(n, s)
  {
    StepEvolves(n, s);
  }

  lemma PublishIssued(n: State, s: State, issued: multiset<QueryRequest>, minted: Option<QueryRequest>)
    requires Extends(n, s) && IssuedSound(issued, s)
    requires minted.Some? ==> Appends(n, s, minted.value)
    ensures IssuedSound(if minted.Some? then issued + multiset{minted.value} else issued, n)
  {
    forall q | q in issued ensures Durable(n, q) {
      var r: nat, i: nat :| DurableAt(s, r, i, q);
      DurableKept(n, s, r, i, q);
    }
    if minted.Some? { AppendsIsFresh(n, s, minted.value); }
  }

  /** What was true of a past state stays true of it. */
  lemma SendingsKept(w: World, w': World, n: State)
    requires SendingsSound(w) && w'.past == w.past + [n]
    requires w'.queries == w.queries && w'.applies == w.applies && w'.tenures == w.tenures
    ensures SendingsSound(w')
  {
    assert forall k :: 0 <= k < |w.past| ==> w'.past[k] == w.past[k];
  }

  lemma PublishSound(w: World, e: Event)
    requires Sound(w) && Allowed(w, e) && (e.Publish? || e.PublishThenStop?) && Extends(e.next, w.Disk())
    ensures Sound(Do(w, e))
  {
    var w' := Do(w, e);
    var minted := if e.Publish? then e.minted else None;
    PublishIssued(e.next, w.Disk(), Issued(w), minted);
    assert Issued(w') == if minted.Some? then Issued(w) + multiset{minted.value} else Issued(w);
    SendingsKept(w, w', e.next);
  }

  /** Sending moves a permission from memory to the wire. */
  lemma SendKeepsIssued(w: World, q: QueryRequest)
    requires w.past != [] && w.tokens[q] > 0
    ensures Issued(Do(w, SendQuery(q))) == Issued(w)
  {
    var queries := w.queries + [Sending(q, |w.past| - 1)];
    assert queries[..|queries| - 1] == w.queries;
  }

  /** Giving up permissions, or stopping and reopening, keeps the rest sound. */
  lemma FewerTokens(w: World, w': World)
    requires Sound(w) && w'.past == w.past && w'.tokens <= w.tokens
    requires w'.queries == w.queries && w'.applies == w.applies && w'.tenures == w.tenures
    ensures Sound(w')
  {
    forall q | q in Issued(w') ensures q in Issued(w) && Issued(w')[q] <= Issued(w)[q] { }
  }

  lemma SendQuerySound(w: World, q: QueryRequest)
    requires Sound(w) && Allowed(w, SendQuery(q))
    ensures Sound(Do(w, SendQuery(q)))
  {
    SendKeepsIssued(w, q);
  }

  lemma SendApplySound(w: World, bytes: Bytes)
    requires Sound(w) && Allowed(w, SendApply(bytes))
    ensures Sound(Do(w, SendApply(bytes)))
  {
  }

  lemma SendTenureSound(w: World, q: TenureRequest)
    requires Sound(w) && Allowed(w, SendTenure(q))
    ensures Sound(Do(w, SendTenure(q)))
  {
  }

  lemma StepSound(w: World, e: Event)
    requires Sound(w) && Allowed(w, e)
    requires e.Publish? || e.PublishThenStop? ==> Extends(e.next, w.Disk())
    ensures Sound(Do(w, e))
  {
    if e.Publish? || e.PublishThenStop? { PublishSound(w, e); }
    else if e.SendQuery? { SendQuerySound(w, e.query); }
    else if e.SendApply? { SendApplySound(w, e.bytes); }
    else if e.SendTenure? { SendTenureSound(w, e.request); }
    else { FewerTokens(w, Do(w, e)); }
  }

  lemma PublishExtends(c: seq<State>, n: State)
    requires Chain(c) && Accepts(c[|c| - 1], n)
    ensures Extends(n, c[|c| - 1])
  {
    var last: nat := |c| - 1;
    AcceptsSuccessors(c[last], n);
    ChainValid(c, last);
    SuccessorExtends(n, c[last]);
  }

  lemma StepChain(w: World, e: Event)
    requires Chain(w.past) && Enabled(w, e)
    ensures Chain(Do(w, e).past)
    ensures e.Publish? || e.PublishThenStop? ==> Extends(e.next, w.Disk())
  {
    if e.Publish? || e.PublishThenStop? {
      ChainExtended(w.past, e.next);
      PublishExtends(w.past, e.next);
    }
  }

  lemma OpenedSound(w: World)
    requires Opened(w)
    ensures Chain(w.past) && Sound(w)
  {
  }

  lemma TraceStep(ws: seq<World>, es: seq<Event>, i: nat)
    requires Trace(ws, es) && i < |es| && Chain(ws[i].past) && Sound(ws[i])
    ensures Chain(ws[i + 1].past) && Sound(ws[i + 1])
  {
    assert StepAt(ws, es, i);
    StepChain(ws[i], es[i]);
    StepSound(ws[i], es[i]);
  }

  lemma {:induction false} TraceSound(ws: seq<World>, es: seq<Event>, k: nat)
    requires Trace(ws, es) && k <= |es|
    ensures Chain(ws[k].past) && Sound(ws[k])
  {
    if k == 0 {
      OpenedSound(ws[0]);
    } else {
      var i: nat := k - 1;
      TraceSound(ws, es, i);
      TraceStep(ws, es, i);
    }
  }

  lemma {:induction false} SentTwice(queries: seq<Sending>, i: nat, j: nat)
    requires i < j < |queries| && queries[i].query == queries[j].query
    ensures Sent(queries)[queries[i].query] >= 2
  {
    var rest := queries[..|queries| - 1];
    if j < |rest| { SentTwice(rest, i, j); } else { SentOnce(rest, i); }
  }

  lemma {:induction false} SentOnce(queries: seq<Sending>, i: nat)
    requires i < |queries|
    ensures queries[i].query in Sent(queries)
  {
    if i < |queries| - 1 { SentOnce(queries[..|queries| - 1], i); }
  }

  lemma SentDistinct(w: World, i: nat, j: nat)
    requires Sound(w) && DistinctQueries(w.Disk().Records()) && i < j < |w.queries|
    ensures !SameQuery(w.queries[i].query, w.queries[j].query)
  {
    var q, q' := w.queries[i].query, w.queries[j].query;
    SentOnce(w.queries, i);
    SentOnce(w.queries, j);
    assert q in Issued(w) && q' in Issued(w);
    if SameQuery(q, q') {
      var r: nat, k: nat :| DurableAt(w.Disk(), r, k, q);
      var r': nat, k': nat :| DurableAt(w.Disk(), r', k', q');
      OneOccurrence(w.Disk(), r, k, r', k', q, q');
      SentTwice(w.queries, i, j);
    }
  }

  lemma TraceDistinct(ws: seq<World>, es: seq<Event>, k: nat)
    requires Trace(ws, es) && k <= |es|
    ensures Chain(ws[k].past) && Sound(ws[k]) && DistinctQueries(ws[k].Disk().Records())
  {
    TraceSound(ws, es, k);
    var last: nat := |ws[k].past| - 1;
    ChainDistinct(ws[k].past, last);
  }

  /** Over any run with crashes, rejected and uncertain commits, no query identity
      reaches the exchange twice, and each does so only while its exact request is
      the durable, open, current query. */
  lemma AtMostOnce(ws: seq<World>, es: seq<Event>, k: nat, i: nat, j: nat)
    requires Trace(ws, es) && k <= |es| && i < |ws[k].queries| && j < |ws[k].queries| && i != j
    ensures !SameQuery(ws[k].queries[i].query, ws[k].queries[j].query)
    ensures ws[k].queries[i].at < |ws[k].past| && OpenQuery(ws[k].past[ws[k].queries[i].at], ws[k].queries[i].query)
  {
    TraceDistinct(ws, es, k);
    SentDistinct(ws[k], if i < j then i else j, if i < j then j else i);
  }

  // ----------------------------------------------------- never after it is resolved

  lemma ChainDistinct(c: seq<State>, i: nat)
    requires Chain(c) && i < |c|
    ensures DistinctQueries(c[i].Records())
  {
    ChainValid(c, i);
  }

  lemma ChainNotReopened(c: seq<State>, i: nat, q: QueryRequest)
    requires Chain(c) && i + 1 < |c| && Durable(c[i], q) && !OpenQuery(c[i], q)
    ensures Durable(c[i + 1], q) && !OpenQuery(c[i + 1], q)
  {
    ChainEvolves(c, i);
    ChainDistinct(c, i + 1);
    var r: nat, k: nat :| DurableAt(c[i], r, k, q);
    DurableKept(c[i + 1], c[i], r, k, q);
    if OpenQuery(c[i + 1], q) { NotReopened(c[i + 1], c[i], q); }
  }

  /** A query that has been closed, answered, followed or archived stays so. */
  lemma {:induction false} ResolvedForever(c: seq<State>, i: nat, j: nat, q: QueryRequest)
    requires Chain(c) && i <= j < |c| && Durable(c[i], q) && !OpenQuery(c[i], q)
    ensures Durable(c[j], q) && !OpenQuery(c[j], q)
    decreases j
  {
    if i < j {
      var k: nat := j - 1;
      ResolvedForever(c, i, k, q);
      ChainNotReopened(c, k, q);
    }
  }

  /** So no query is ever sent after it has been closed, answered or archived. */
  lemma NeverSentAfterResolved(ws: seq<World>, es: seq<Event>, k: nat, i: nat, m: nat)
    requires Trace(ws, es) && k <= |es| && i < |ws[k].queries| && m <= ws[k].queries[i].at < |ws[k].past|
    ensures Durable(ws[k].past[m], ws[k].queries[i].query) ==> OpenQuery(ws[k].past[m], ws[k].queries[i].query)
  {
    TraceSound(ws, es, k);
    var w := ws[k];
    var q := w.queries[i].query;
    if Durable(w.past[m], q) && !OpenQuery(w.past[m], q) {
      ResolvedForever(w.past, m, w.queries[i].at, q);
    }
  }

  // -------------------------------------------------------------------- apply sends

  lemma DirectKept(n: State, s: State)
    requires Evolves(n, s) && n.Revision() == s.Revision() && s.rollout.Some? && s.rollout.value.direct.Some?
    ensures n.rollout.Some? && n.rollout.value.direct == s.rollout.value.direct
  {
  }

  lemma {:induction false} DirectForever(c: seq<State>, i: nat, j: nat)
    requires Chain(c) && i <= j < |c| && c[j].Revision() == c[i].Revision()
    requires c[i].rollout.Some? && c[i].rollout.value.direct.Some?
    ensures c[j].rollout.Some? && c[j].rollout.value.direct == c[i].rollout.value.direct
    decreases j
  {
    if i < j {
      var k: nat := j - 1;
      RevisionsRise(c, i, k);
      RevisionsRise(c, k, j);
      DirectForever(c, i, k);
      ChainEvolves(c, k);
      DirectKept(c[k + 1], c[k]);
    }
  }

  /** Whatever is sent to apply one plan revision is always the same bytes. */
  lemma OneRequestPerRevision(ws: seq<World>, es: seq<Event>, k: nat, i: nat, j: nat)
    requires Trace(ws, es) && k <= |es| && i < |ws[k].applies| && j < |ws[k].applies|
    requires ws[k].applies[i].at <= ws[k].applies[j].at < |ws[k].past|
    requires ws[k].past[ws[k].applies[i].at].Revision() == ws[k].past[ws[k].applies[j].at].Revision()
    ensures ws[k].applies[i].bytes == ws[k].applies[j].bytes
  {
    TraceSound(ws, es, k);
    OneIntentPerRevision(ws[k].past, ws[k].applies[i].at, ws[k].applies[j].at);
  }

  /** No apply exchange starts once a direct receipt is durable. */
  lemma NoApplyAfterReceipt(ws: seq<World>, es: seq<Event>, k: nat, i: nat, m: nat)
    requires Trace(ws, es) && k <= |es| && i < |ws[k].applies| && m <= ws[k].applies[i].at < |ws[k].past|
    requires ws[k].past[m].Revision() == ws[k].past[ws[k].applies[i].at].Revision()
    ensures ws[k].past[m].rollout.Some? ==> ws[k].past[m].rollout.value.direct.None?
  {
    TraceSound(ws, es, k);
    var w := ws[k];
    if w.past[m].rollout.Some? && w.past[m].rollout.value.direct.Some? {
      DirectForever(w.past, m, w.applies[i].at);
    }
  }

  // ------------------------------------------------------------------- tenure sends

  lemma AnsweredStays(c: seq<State>, i: nat, j: nat, t: Tenure)
    requires Chain(c) && i <= j < |c| && t in Tenures.Proven(c[i].tenures)
    ensures TenureRow(c[j], Tenures.TenureKey(t)) == Some(t)
  {
    FencedForever(c, i, j, t, 0, 0);
    ChainTenuresSorted(c, j);
    FindMember(c[j].tenures, Tenures.TenureKey, t);
  }

  lemma ChainTenuresSorted(c: seq<State>, j: nat)
    requires Chain(c) && j < |c|
    ensures SortedBy(c[j].tenures, Tenures.TenureKey)
  {
    ChainValid(c, j);
  }

  /** A tenure request is sent only while it is durable and unanswered, and never
      again once its proof has been committed. */
  lemma NoTenureSendAfterProof(ws: seq<World>, es: seq<Event>, k: nat, i: nat, m: nat, t: Tenure)
    requires Trace(ws, es) && k <= |es| && i < |ws[k].tenures| && m <= ws[k].tenures[i].at < |ws[k].past|
    ensures TenureOpen(ws[k].past[ws[k].tenures[i].at], ws[k].tenures[i].request)
    ensures t in Tenures.Proven(ws[k].past[m].tenures) ==> Tenures.TenureKey(t) != ws[k].tenures[i].request.operation
  {
    TraceSound(ws, es, k);
    var w := ws[k];
    if t in Tenures.Proven(w.past[m].tenures) { AnsweredStays(w.past, m, w.tenures[i].at, t); }
  }
}
