/**
 Revocation at the authority: a row per certificate and key, a timed lease, and recovery by anybody.
 */
module Revocation {
  import opened Basics

  // Times are microseconds. `claims` records which lease was taken when, `calls` which lease served a
  // call and when the call started, both in order.

  const LEASE := 600_000_000

  datatype Status = Pending | Succeeded | Failed

  /** The caught errors: no configured account, no executable, transient, terminal. */
  datatype Failure = AccountUnavailable | NotExecutable | Transient | TerminalFailure

  datatype Category = TransientCategory | TerminalCategory

  function CategoryOf(f: Failure): Category {
    if f == Transient then TransientCategory else TerminalCategory
  }

  datatype Row = Row(
    certificate: string,
    key: string,
    reason: Option<int>,
    domain: string,
    status: Status,
    startedAt: Option<int>,      // attempt_started_at
    completedAt: Option<int>,
    error: Option<Category>)

  datatype Request = Request(certificate: string, key: string, reason: Option<int>, domain: string)

  datatype Outcome = Success | Error(failure: Failure)

  datatype Worker =
    | Inserting(request: Request)
    | LookingUp(request: Request)            // the insert hit the unique key
    | Ready(request: Request, id: nat)
    | Claimed(request: Request, id: nat, at: int)              // has the lease
    | Refreshed(request: Request, id: nat, at: int, loaded: Row)
    | Calling(request: Request, id: nat, at: int, loaded: Row)

  datatype Reply = Conflict(request: Request) | Returned(request: Request, row: nat, status: Status)

  /** A call to the authority for a row, under the lease of this time, and what it asks to revoke. */
  datatype Call = Call(row: nat, lease: int, start: int, domain: string, reason: Option<int>)

  datatype State = State(
    table: seq<Row>,
    workers: map<nat, Worker>,
    replies: seq<Reply>,
    claims: seq<(nat, int)>,
    calls: seq<Call>)

  datatype Action =
    | Start(w: nat, request: Request)
    | Step(w: nat, now: int, outcome: Outcome)
    | Crash(w: nat)

  /** The row with this certificate and key, or the length of the table. */
  function Find(table: seq<Row>, certificate: string, key: string): (i: nat)
    ensures i <= |table|
    ensures i < |table| ==> table[i].certificate == certificate && table[i].key == key
    ensures forall j :: 0 <= j < i ==> table[j].certificate != certificate || table[j].key != key
  {
    if table == [] then 0
    else if table[0].certificate == certificate && table[0].key == key then 0
    else 1 + Find(table[1..], certificate, key)
  }

  function NewRow(q: Request): Row {
    Row(q.certificate, q.key, q.reason, q.domain, Pending, None, None, None)
  }

  /** The WHERE clause of the claim. */
  predicate Claimable(r: Row, now: int) {
    r.status == Pending && (r.startedAt.None? || r.startedAt.value < now - LEASE)
  }

  function Complete(r: Row, loaded: Row, outcome: Outcome, now: int): Row {
    var completed := Flush(r.completedAt, loaded.completedAt, Some(now));
    match outcome
    case Success => r.(status := Flush(r.status, loaded.status, Succeeded), completedAt := completed)
    case Error(f) =>
      r.(status := Flush(r.status, loaded.status, Failed),
         error := Flush(r.error, loaded.error, Some(CategoryOf(f))),
         completedAt := completed)
  }

  function End(s: State, w: nat): State { s.(workers := s.workers - {w}) }

  function Become(s: State, w: nat, worker: Worker): State { s.(workers := s.workers[w := worker]) }

  function Advance(s: State, w: nat, now: int, outcome: Outcome): State
    requires w in s.workers
  {
    match s.workers[w]
    case Inserting(q) =>
      if Find(s.table, q.certificate, q.key) < |s.table| then Become(s, w, LookingUp(q))
      else Become(s, w, Ready(q, |s.table|)).(table := s.table + [NewRow(q)])
    case LookingUp(q) =>
      var i := Find(s.table, q.certificate, q.key);
      if i == |s.table| then End(s, w)
      else if s.table[i].reason != q.reason then End(s, w).(replies := s.replies + [Conflict(q)])
      else if s.table[i].status != Pending
      then End(s, w).(replies := s.replies + [Returned(q, i, s.table[i].status)])
      else Become(s, w, Ready(q, i))
    case Ready(q, id) =>
      if id >= |s.table| then End(s, w)
      else if Claimable(s.table[id], now) then
        Become(s, w, Claimed(q, id, now)).(
          table := s.table[id := s.table[id].(startedAt := Some(now))],
          claims := s.claims + [(id, now)])
      else End(s, w).(replies := s.replies + [Returned(q, id, s.table[id].status)])
    case Claimed(q, id, at) =>
      if id >= |s.table| then End(s, w) else Become(s, w, Refreshed(q, id, at, s.table[id]))
    case Refreshed(q, id, at, loaded) =>
      if id >= |s.table| then End(s, w)
      else if outcome == Error(AccountUnavailable) then
        var row := Complete(s.table[id], loaded, outcome, now);
        End(s, w).(table := s.table[id := row], replies := s.replies + [Returned(q, id, row.status)])
      else Become(s, w, Calling(q, id, at, loaded)).(
        calls := s.calls + [Call(id, at, now, loaded.domain, loaded.reason)])
    case Calling(q, id, at, loaded) =>
      if id >= |s.table| then End(s, w)
      else
        var row := Complete(s.table[id], loaded, outcome, now);
        End(s, w).(table := s.table[id := row], replies := s.replies + [Returned(q, id, row.status)])
  }

  function Apply(s: State, a: Action): State {
    match a
    case Start(w, q) => if w in s.workers then s else Become(s, w, Inserting(q))
    case Step(w, now, outcome) => if w in s.workers then Advance(s, w, now, outcome) else s
    case Crash(w) => End(s, w)
  }

  function Run(s: State, actions: seq<Action>): State
    decreases |actions|
  {
    if actions == [] then s else Run(Apply(s, actions[0]), actions[1..])
  }

  const Empty := State([], map[], [], [], [])

  // ---- The invariant of every run -------------------------------------------------------

  predicate Holder(worker: Worker) { worker.Claimed? || worker.Refreshed? || worker.Calling? }

  /** Between the lease and the call. */
  predicate BeforeCall(worker: Worker) { worker.Claimed? || worker.Refreshed? }

  ghost predicate UniqueKeys(table: seq<Row>) {
    forall i, j :: 0 <= i < j < |table| ==>
      table[i].certificate != table[j].certificate || table[i].key != table[j].key
  }

  /** One row per certificate and key, and every worker's row exists. */
  ghost predicate TableInv(s: State) {
    && UniqueKeys(s.table)
    && (forall w :: w in s.workers && (s.workers[w].Ready? || Holder(s.workers[w])) ==>
          s.workers[w].id < |s.table|)
  }

  /** Claims of one row lie more than a lease apart, and the row keeps the last. */
  ghost predicate ClaimsInv(s: State) {
    && (forall i :: 0 <= i < |s.claims| ==>
          && s.claims[i].0 < |s.table|
          && s.table[s.claims[i].0].startedAt.Some?
          && s.claims[i].1 <= s.table[s.claims[i].0].startedAt.value)
    && (forall i, j :: 0 <= i < j < |s.claims| && s.claims[i].0 == s.claims[j].0 ==>
          s.claims[j].1 - s.claims[i].1 > LEASE)
  }

  /** The leases that served the calls. */
  function Leases(calls: seq<Call>): (r: seq<(nat, int)>)
    ensures |r| == |calls| && forall i :: 0 <= i < |r| ==> r[i] == (calls[i].row, calls[i].lease)
  {
    seq(|calls|, i requires 0 <= i < |calls| => (calls[i].row, calls[i].lease))
  }

  /** Every holder took its own lease, and no lease serves two calls. */
  ghost predicate CallsInv(s: State) {
    && (forall w :: w in s.workers && Holder(s.workers[w]) ==>
          (s.workers[w].id, s.workers[w].at) in s.claims)
    && (forall v, w ::
          v in s.workers && w in s.workers && v != w && Holder(s.workers[v]) && Holder(s.workers[w]) ==>
          (s.workers[v].id, s.workers[v].at) != (s.workers[w].id, s.workers[w].at))
    && (forall w :: w in s.workers && BeforeCall(s.workers[w]) ==>
          (s.workers[w].id, s.workers[w].at) !in Leases(s.calls))
    && (forall c :: c in Leases(s.calls) ==> c in s.claims)
    && (forall i, j :: 0 <= i < j < |Leases(s.calls)| ==> Leases(s.calls)[i] != Leases(s.calls)[j])
  }

  /** The row answers this request. */
  predicate Answers(r: Row, q: Request) {
    r.certificate == q.certificate && r.key == q.key && r.reason == q.reason
  }

  /** Workers and replies stay with the row of their request; a conflict has a row to blame. */
  ghost predicate RequestsInv(s: State) {
    && (forall w :: w in s.workers && (s.workers[w].Ready? || Holder(s.workers[w])) ==>
          s.workers[w].id < |s.table| && Answers(s.table[s.workers[w].id], s.workers[w].request))
    && (forall i :: 0 <= i < |s.replies| ==> ReplyFits(s.table, s.replies[i]))
  }

  predicate ReplyFits(table: seq<Row>, reply: Reply) {
    match reply
    case Returned(q, i, _) => i < |table| && Answers(table[i], q)
    case Conflict(q) =>
      var i := Find(table, q.certificate, q.key);
      i < |table| && table[i].reason != q.reason
  }

  ghost predicate Inv(s: State) { TableInv(s) && ClaimsInv(s) && CallsInv(s) && RequestsInv(s) }

  /** What a step does to the table: it adds a row with a new key, or rewrites one row in place. */
  lemma {:induction false} TableChange(s: State, a: Action) returns (i: nat)
    ensures var t := Apply(s, a);
            || t.table == s.table
            || (i == |s.table| && |t.table| == i + 1 && t.table[..i] == s.table && t.table[i].startedAt == None
                && Find(s.table, t.table[i].certificate, t.table[i].key) == i)
            || (i < |s.table| && t.table == s.table[i := t.table[i]] && SameRequest(s.table[i], t.table[i]))
  {
    i := 0;
    if a.Step? && a.w in s.workers {
      match s.workers[a.w]
      case Inserting(q) => i := |s.table|;
      case LookingUp(_) =>
      case Ready(_, id) => i := id;
      case Claimed(_, id, _) =>
      case Refreshed(_, id, _, _) => i := id;
      case Calling(_, id, _, _) => i := id;
    }
  }

  /** What a step does to the workers: all but the one that runs stay as they are. */
  lemma {:induction false} WorkersChange(s: State, a: Action)
    ensures var t := Apply(s, a);
            && (forall w :: w != a.w ==> (w in t.workers <==> w in s.workers))
            && (forall w :: w != a.w && w in s.workers ==> t.workers[w] == s.workers[w])
  {
  }

  lemma {:induction false} UniqueStep(s: State, a: Action)
    requires UniqueKeys(s.table)
    ensures UniqueKeys(Apply(s, a).table)
  {
    var t := Apply(s, a);
    var k := TableChange(s, a);
    if |t.table| == |s.table| + 1 {
      assert forall i :: 0 <= i < k ==> t.table[i] == t.table[..k][i];
    }
  }

  lemma {:induction false} OwnIdStep(s: State, a: Action)
    requires TableInv(s)
    ensures var t := Apply(s, a);
            a.w in t.workers && (t.workers[a.w].Ready? || Holder(t.workers[a.w])) ==>
              t.workers[a.w].id < |t.table|
    ensures |s.table| <= |Apply(s, a).table|
  {
  }

  lemma {:induction false} TableStep(s: State, a: Action)
    requires TableInv(s)
    ensures TableInv(Apply(s, a))
  {
    UniqueStep(s, a);
    OwnIdStep(s, a);
    WorkersChange(s, a);
  }

  /** Steps keep every row's identity, domain and reason, and never delete a row. */
  lemma {:induction false} RowsStep(s: State, a: Action)
    ensures var t := Apply(s, a);
            && |s.table| <= |t.table|
            && forall i :: 0 <= i < |s.table| ==> SameRequest(s.table[i], t.table[i])
  {
    var k := TableChange(s, a);
    hide Apply;
    var t := Apply(s, a);
    if |t.table| > |s.table| {
      assert forall i :: 0 <= i < k ==> t.table[i] == t.table[..k][i];
    }
  }

  predicate SameRequest(r: Row, t: Row) {
    r.certificate == t.certificate && r.key == t.key && r.reason == t.reason && r.domain == t.domain
  }

  /** A step takes no lease, or it takes one on a claimable row and becomes its holder. */
  lemma {:induction false} ClaimChange(s: State, a: Action)
    ensures var t := Apply(s, a);
            || (t.claims == s.claims && forall i :: 0 <= i < |s.table| ==> t.table[i].startedAt == s.table[i].startedAt)
            || Claims(s, a)
  {
    var k := TableChange(s, a);
  }

  /** The step is a successful claim. */
  predicate Claims(s: State, a: Action) {
    && a.Step? && a.w in s.workers && s.workers[a.w].Ready? && s.workers[a.w].id < |s.table|
    && Claimable(s.table[s.workers[a.w].id], a.now)
  }

  lemma {:induction false} ClaimsStep(s: State, a: Action)
    requires TableInv(s) && ClaimsInv(s)
    ensures ClaimsInv(Apply(s, a))
  {
    var t := Apply(s, a);
    ClaimChange(s, a);
    if Claims(s, a) {
      var id := s.workers[a.w].id;
      assert t.claims == s.claims + [(id, a.now)];
      assert t.table == s.table[id := s.table[id].(startedAt := Some(a.now))];
    }
  }

  /** What a step does to the calls: a worker with a fresh view starts the one of its lease, now. */
  lemma {:induction false} CallChange(s: State, a: Action)
    ensures var t := Apply(s, a);
            t.calls == s.calls ||
            (StartsCall(s, a) && t.calls == s.calls + [NextCall(s.workers[a.w], a.now)]
             && a.w in t.workers && t.workers[a.w].Calling?)
    ensures var t := Apply(s, a);
            a.w in t.workers && Holder(t.workers[a.w]) && !Claims(s, a) ==>
              && a.w in s.workers && Holder(s.workers[a.w])
              && t.workers[a.w].id == s.workers[a.w].id && t.workers[a.w].at == s.workers[a.w].at
              && (BeforeCall(t.workers[a.w]) ==> t.calls == s.calls && BeforeCall(s.workers[a.w]))
  {
  }

  function NextCall(worker: Worker, now: int): Call
    requires worker.Refreshed?
  {
    Call(worker.id, worker.at, now, worker.loaded.domain, worker.loaded.reason)
  }

  /** The step starts a call to the authority. */
  predicate StartsCall(s: State, a: Action) {
    && a.Step? && a.w in s.workers && s.workers[a.w].Refreshed? && s.workers[a.w].id < |s.table|
    && a.outcome != Error(AccountUnavailable)
  }

  lemma {:induction false} CallsStep(s: State, a: Action)
    requires Inv(s)
    ensures CallsInv(Apply(s, a))
  {
    hide RequestsInv;
    var t := Apply(s, a);
    WorkersChange(s, a);
    if Claims(s, a) {
      var c := (s.workers[a.w].id, a.now);
      assert t.claims == s.claims + [c] && t.calls == s.calls;
      assert t.workers[a.w] == Claimed(s.workers[a.w].request, c.0, c.1);
      assert c !in s.claims;
      hide Apply, ClaimsInv, TableInv;
      ClaimTaken(s, t, a.w);
    } else {
      ClaimChange(s, a);
      CallChange(s, a);
      assert t.claims == s.claims;
      hide Apply, ClaimsInv, TableInv;
      if t.calls != s.calls { CallStarts(s, t, a.w); }
    }
  }

  lemma {:induction false} ClaimTaken(s: State, t: State, w: nat)
    requires CallsInv(s) && t.calls == s.calls && w in t.workers && t.workers[w].Claimed?
    requires var c := (t.workers[w].id, t.workers[w].at); t.claims == s.claims + [c] && c !in s.claims
    requires forall v :: v != w ==> (v in t.workers <==> v in s.workers)
    requires forall v :: v != w && v in s.workers ==> t.workers[v] == s.workers[v]
    ensures CallsInv(t)
  {
    hide Leases;
  }

  lemma {:induction false} CallStarts(s: State, t: State, w: nat)
    requires CallsInv(s) && t.claims == s.claims
    requires w in s.workers && s.workers[w].Refreshed? && w in t.workers && t.workers[w].Calling?
    requires t.workers[w].id == s.workers[w].id && t.workers[w].at == s.workers[w].at
    requires forall v :: v != w ==> (v in t.workers <==> v in s.workers)
    requires forall v :: v != w && v in s.workers ==> t.workers[v] == s.workers[v]
    requires |t.calls| == |s.calls| + 1 && t.calls[..|s.calls|] == s.calls
    requires t.calls[|s.calls|].row == s.workers[w].id && t.calls[|s.calls|].lease == s.workers[w].at
    ensures CallsInv(t)
  {
    var c := (s.workers[w].id, s.workers[w].at);
    assert c !in Leases(s.calls) && c in s.claims;
    assert forall i :: 0 <= i < |s.calls| ==> t.calls[i] == t.calls[..|s.calls|][i];
    assert Leases(t.calls) == Leases(s.calls) + [c];
    hide Leases;
  }

  lemma {:induction false} OwnRequestStep(s: State, a: Action)
    requires TableInv(s) && RequestsInv(s)
    ensures var t := Apply(s, a);
            a.w in t.workers && (t.workers[a.w].Ready? || Holder(t.workers[a.w])) ==>
              t.workers[a.w].id < |t.table| && Answers(t.table[t.workers[a.w].id], t.workers[a.w].request)
  {
    hide Find;
  }

  lemma {:induction false} OwnReplyStep(s: State, a: Action)
    requires TableInv(s) && RequestsInv(s)
    ensures var t := Apply(s, a);
            t.replies == s.replies
            || (|t.replies| == |s.replies| + 1 && t.replies[..|s.replies|] == s.replies
                && ReplyFits(t.table, t.replies[|s.replies|]))
  {
  }

  lemma {:induction false} RepliesStillFit(table: seq<Row>, grown: seq<Row>, replies: seq<Reply>)
    requires |table| <= |grown|
    requires forall i :: 0 <= i < |table| ==> SameRequest(table[i], grown[i])
    requires forall i :: 0 <= i < |replies| ==> ReplyFits(table, replies[i])
    ensures forall i :: 0 <= i < |replies| ==> ReplyFits(grown, replies[i])
  {
  }

  lemma {:induction false} RequestsStep(s: State, a: Action)
    requires TableInv(s) && RequestsInv(s)
    ensures RequestsInv(Apply(s, a))
  {
    hide Apply, Find, ReplyFits, UniqueKeys;
    RowsStep(s, a);
    WorkersChange(s, a);
    OwnRequestStep(s, a);
    OwnReplyStep(s, a);
    var t := Apply(s, a);
    RepliesStillFit(s.table, t.table, s.replies);
    forall w | w in t.workers && w != a.w && (t.workers[w].Ready? || Holder(t.workers[w]))
      ensures t.workers[w].id < |t.table| && Answers(t.table[t.workers[w].id], t.workers[w].request)
    {
      assert SameRequest(s.table[s.workers[w].id], t.table[s.workers[w].id]);
    }
    assert forall i :: 0 <= i < |s.replies| ==> t.replies[i] == s.replies[i] by {
      assert t.replies[..|s.replies|] == s.replies;
    }
  }

  lemma {:induction false} InvStep(s: State, a: Action)
    requires Inv(s)
    ensures Inv(Apply(s, a))
  {
    TableStep(s, a);
    ClaimsStep(s, a);
    CallsStep(s, a);
    RequestsStep(s, a);
  }

  lemma {:induction false} InvRun(s: State, actions: seq<Action>)
    requires Inv(s)
    ensures Inv(Run(s, actions))
    decreases |actions|
  {
    if actions != [] {
      InvStep(s, actions[0]);
      InvRun(Apply(s, actions[0]), actions[1..]);
    }
  }

  lemma {:induction false} Reachable(actions: seq<Action>)
    ensures var s := Run(Empty, actions);
            Inv(s) && UniqueKeys(s.table) && ClaimsInv(s) && CallsInv(s) && RequestsInv(s)
  {
    EmptyInv();
    hide Run;
    InvRun(Empty, actions);
  }

  lemma {:induction false} EmptyCalls()
    ensures CallsInv(Empty)
  {
    hide RequestsInv;
    assert Leases(Empty.calls) == [];
  }

  lemma {:induction false} EmptyInv()
    ensures Inv(Empty)
  {
    EmptyCalls();
    hide CallsInv, Leases;
    assert UniqueKeys(Empty.table);
    assert RequestsInv(Empty);
  }

  lemma {:induction false} RunAppend(s: State, a: seq<Action>, b: seq<Action>)
    ensures Run(s, a + b) == Run(Run(s, a), b)
    decreases |a|
  {
    if a == [] {
      assert a + b == b;
    } else {
      assert (a + b)[1..] == a[1..] + b;
      RunAppend(Apply(s, a[0]), a[1..], b);
    }
  }

  // ---- Idempotence ----------------------------------------------------------------------

  lemma {:induction false} RowsRun(s: State, actions: seq<Action>)
    ensures var t := Run(s, actions);
            && |s.table| <= |t.table|
            && forall i :: 0 <= i < |s.table| ==> SameRequest(s.table[i], t.table[i])
    decreases |actions|
  {
    if actions != [] {
      var m := Apply(s, actions[0]);
      RowsStep(s, actions[0]);
      RowsRun(m, actions[1..]);
      forall i | 0 <= i < |s.table| ensures SameRequest(s.table[i], Run(s, actions).table[i]) {
        assert SameRequest(s.table[i], m.table[i]);
      }
    }
  }

  /** Two replies about one certificate and key name one row, and a refusal names another reason. */
  ghost predicate RepliesAgree(s: State) {
    && (forall x, y :: x in s.replies && y in s.replies && x.Returned? && y.Returned?
          && x.request.certificate == y.request.certificate && x.request.key == y.request.key
          ==> x.row == y.row && x.request.reason == y.request.reason)
    && (forall x :: x in s.replies && x.Conflict? ==>
          exists i :: 0 <= i < |s.table| && s.table[i].certificate == x.request.certificate
            && s.table[i].key == x.request.key && s.table[i].reason != x.request.reason)
  }

  lemma {:induction false} RepliesOfInvAgree(s: State)
    requires UniqueKeys(s.table) && RequestsInv(s)
    ensures RepliesAgree(s)
  {
  }

  /**
   Requests with one certificate and key share one row for ever: it keeps its reason, every answered
   request gets that row, and a request is refused only for naming another reason.
   */
  lemma {:induction false} OneRowPerRequest(actions: seq<Action>, more: seq<Action>)
    ensures var s, t := Run(Empty, actions), Run(Empty, actions + more);
            && UniqueKeys(t.table) && RepliesAgree(t)
            && |s.table| <= |t.table|
            && forall i :: 0 <= i < |s.table| ==> SameRequest(s.table[i], t.table[i])
  {
    hide *;
    Reachable(actions + more);
    RepliesOfInvAgree(Run(Empty, actions + more));
    RunAppend(Empty, actions, more);
    RowsRun(Run(Empty, actions), more);
  }

  // ---- What is asked of the authority ---------------------------------------------------

  function RequestOf(r: Row): Request { Request(r.certificate, r.key, r.reason, r.domain) }

  /** The requests that were started. */
  function Started(actions: seq<Action>): set<Request> { set a | a in actions && a.Start? :: a.request }

  /** Rows and workers come from these requests, and a call asks for what its row says. */
  ghost predicate ComesFrom(s: State, requests: set<Request>) {
    && (forall w :: w in s.workers ==> s.workers[w].request in requests)
    && (forall i :: 0 <= i < |s.table| ==> RequestOf(s.table[i]) in requests)
    && (forall w :: w in s.workers && (s.workers[w].Refreshed? || s.workers[w].Calling?) ==>
          ViewFits(s.table, s.workers[w]))
    && (forall i :: 0 <= i < |s.calls| ==> CallFits(s.table, s.calls[i]))
  }

  predicate ViewFits(table: seq<Row>, worker: Worker)
    requires worker.Refreshed? || worker.Calling?
  {
    worker.id < |table| && RequestOf(worker.loaded) == RequestOf(table[worker.id])
  }

  predicate CallFits(table: seq<Row>, c: Call) {
    c.row < |table| && c.domain == table[c.row].domain && c.reason == table[c.row].reason
  }

  lemma {:induction false} OwnOrigin(s: State, a: Action, requests: set<Request>)
    requires ComesFrom(s, requests) && (a.Start? ==> a.request in requests)
    ensures var t := Apply(s, a);
            a.w in t.workers ==>
              && t.workers[a.w].request in requests
              && (t.workers[a.w].Refreshed? || t.workers[a.w].Calling? ==> ViewFits(t.table, t.workers[a.w]))
  {
  }

  lemma {:induction false} RowOrigin(s: State, a: Action, requests: set<Request>)
    requires ComesFrom(s, requests)
    ensures var t := Apply(s, a); forall i :: 0 <= i < |t.table| ==> RequestOf(t.table[i]) in requests
  {
  }

  lemma {:induction false} CallOrigin(s: State, a: Action, requests: set<Request>)
    requires ComesFrom(s, requests)
    ensures var t := Apply(s, a); forall i :: 0 <= i < |t.calls| ==> CallFits(t.table, t.calls[i])
  {
    var t := Apply(s, a);
    CallChange(s, a);
    RowsStep(s, a);
    if StartsCall(s, a) { assert ViewFits(s.table, s.workers[a.w]); }
    hide Apply;
    forall i | 0 <= i < |t.calls| ensures CallFits(t.table, t.calls[i]) {
      if i < |s.calls| { assert t.calls[i] == s.calls[i] && CallFits(s.table, s.calls[i]); }
      if t.calls != s.calls { assert t.calls[|s.calls|] == NextCall(s.workers[a.w], a.now); }
    }
  }

  lemma {:induction false} OriginStep(s: State, a: Action, requests: set<Request>)
    requires ComesFrom(s, requests) && (a.Start? ==> a.request in requests)
    ensures ComesFrom(Apply(s, a), requests)
  {
    var t := Apply(s, a);
    OwnOrigin(s, a, requests);
    RowOrigin(s, a, requests);
    CallOrigin(s, a, requests);
    WorkersChange(s, a);
    RowsStep(s, a);
    hide Apply;
    forall w | w in t.workers && (t.workers[w].Refreshed? || t.workers[w].Calling?)
      ensures ViewFits(t.table, t.workers[w])
    {
      if w != a.w { assert ViewFits(s.table, s.workers[w]); }
    }
  }

  lemma {:induction false} OriginRun(s: State, actions: seq<Action>, requests: set<Request>)
    requires ComesFrom(s, requests) && Started(actions) <= requests
    ensures ComesFrom(Run(s, actions), requests)
    decreases |actions|
  {
    if actions != [] {
      hide Apply, ComesFrom;
      assert actions[0] in actions && forall a :: a in actions[1..] ==> a in actions;
      assert actions[0].Start? ==> actions[0].request in Started(actions);
      OriginStep(s, actions[0], requests);
      OriginRun(Apply(s, actions[0]), actions[1..], requests);
    }
  }

  /**
   In every run each row is that of a request that was started, with its certificate, key, reason and domain,
   and each call asks the authority to revoke the domain of its row for the reason of its row.
   */
  lemma {:induction false} CallsAreAsked(actions: seq<Action>)
    ensures var s := Run(Empty, actions);
            && (forall i :: 0 <= i < |s.table| ==> RequestOf(s.table[i]) in Started(actions))
            && (forall c :: c in s.calls ==>
                  && c.row < |s.table|
                  && Request(s.table[c.row].certificate, s.table[c.row].key, c.reason, c.domain) in Started(actions))
  {
    OriginRun(Empty, actions, Started(actions));
    var s := Run(Empty, actions);
    hide Run, Started;
    forall c | c in s.calls ensures c.row < |s.table| && CallFits(s.table, c) {
      var i :| 0 <= i < |s.calls| && s.calls[i] == c;
      assert CallFits(s.table, s.calls[i]);
    }
  }

  // ---- Recovery -------------------------------------------------------------------------

  function Retry(w: nat, q: Request, now: int, outcome: Outcome): seq<Action> {
    [Start(w, q)] + [Step(w, now, outcome)] + [Step(w, now, outcome)] + [Step(w, now, outcome)]
  }

  /**
   Whoever asks again for a pending row, in any state that a run can reach, takes its lease exactly when nobody
   has taken it yet or the last lease has run out; otherwise the row is reported as it is.
   */
  lemma {:induction false} LeaseIsRecovered(actions: seq<Action>, id: nat, w: nat, q: Request, now: int,
                                           outcome: Outcome)
    requires var s := Run(Empty, actions);
             && id < |s.table| && s.table[id].status == Pending && w !in s.workers
             && q.certificate == s.table[id].certificate && q.key == s.table[id].key && q.reason == s.table[id].reason
    ensures var s := Run(Empty, actions);
            var t := Run(s, Retry(w, q, now, outcome));
            if s.table[id].startedAt == None || s.table[id].startedAt.value + 600_000_000 < now
            then t.table == s.table[id := s.table[id].(startedAt := Some(now))]
                 && t.claims == s.claims + [(id, now)] && t.replies == s.replies
                 && t.workers == s.workers[w := Claimed(q, id, now)]
            else t.table == s.table && t.claims == s.claims
                 && t.replies == s.replies + [Returned(q, id, Pending)] && t.workers == s.workers
  {
    Reachable(actions);
    var s := Run(Empty, actions);
    assert Find(s.table, q.certificate, q.key) == id;
    hide Run, Inv, UniqueKeys, ClaimsInv, CallsInv, RequestsInv;
    RetrySteps(s, id, w, q, now, outcome);
  }

  lemma {:induction false} RetrySteps(s: State, id: nat, w: nat, q: Request, now: int, outcome: Outcome)
    requires id < |s.table| && s.table[id].status == Pending && w !in s.workers && q.reason == s.table[id].reason
    requires Find(s.table, q.certificate, q.key) == id
    ensures var t := Run(s, Retry(w, q, now, outcome));
            t == Apply(Become(s, w, Ready(q, id)), Step(w, now, outcome))
    ensures var t := Apply(Become(s, w, Ready(q, id)), Step(w, now, outcome));
            if s.table[id].startedAt == None || s.table[id].startedAt.value + 600_000_000 < now
            then t.table == s.table[id := s.table[id].(startedAt := Some(now))]
                 && t.claims == s.claims + [(id, now)] && t.replies == s.replies
                 && t.workers == s.workers[w := Claimed(q, id, now)]
            else t.table == s.table && t.claims == s.claims
                 && t.replies == s.replies + [Returned(q, id, Pending)] && t.workers == s.workers
  {
    hide Run, Find;
    var start, step := Start(w, q), Step(w, now, outcome);
    var s1, s2, s3 := Become(s, w, Inserting(q)), Become(s, w, LookingUp(q)), Become(s, w, Ready(q, id));
    RunNone(s);
    assert [] + [start] == [start];
    RunOne(s, [], start, s1);
    assert Apply(s1, step) == s2 by { assert s1.workers[w := LookingUp(q)] == s2.workers; }
    RunOne(s, [start], step, s2);
    assert Apply(s2, step) == s3 by { assert s2.workers[w := Ready(q, id)] == s3.workers; }
    RunOne(s, [start] + [step], step, s3);
    RunOne(s, [start] + [step] + [step], step, Apply(s3, step));
    assert s3.workers[w := Claimed(q, id, now)] == s.workers[w := Claimed(q, id, now)];
    assert s3.workers - {w} == s.workers;
  }

  /** What the authority has answered is stored in the row that was pending when the caller looked. */
  lemma {:induction false} AnswerIsStored(s: State, w: nat, now: int, outcome: Outcome)
    requires w in s.workers && s.workers[w].Calling? && s.workers[w].id < |s.table|
    requires var seen := s.workers[w].loaded; seen.status == Pending && seen.completedAt == None && seen.error == None
    ensures var (t, id) := (Apply(s, Step(w, now, outcome)), s.workers[w].id);
            && t.table == s.table[id := t.table[id]] && t.workers == s.workers - {w}
            && t.claims == s.claims && t.calls == s.calls
            && t.replies == s.replies + [Returned(s.workers[w].request, id, t.table[id].status)]
            && t.table[id] == s.table[id].(status := t.table[id].status, error := t.table[id].error,
                                           completedAt := Some(now))
            && t.table[id].status == (if outcome == Success then Succeeded else Failed)
            && t.table[id].error == match outcome
                                    case Success => s.table[id].error
                                    case Error(Transient) => Some(TransientCategory)
                                    case Error(_) => Some(TerminalCategory)
  {
  }

  // ---- The lease bound ------------------------------------------------------------------

  /** How many entries of a log are about this row and in this closed window. */
  function CountIn(log: seq<(nat, int)>, id: nat, from: int, length: nat): nat {
    if log == [] then 0
    else (if log[0].0 == id && from <= log[0].1 <= from + length then 1 else 0)
         + CountIn(log[1..], id, from, length)
  }

  /** The same entries, as distances from the start of the window. */
  function Times(log: seq<(nat, int)>, id: nat, from: int, length: nat): set<nat> {
    set c | c in log && c.0 == id && from <= c.1 <= from + length :: c.1 - from
  }

  lemma {:induction false} InTimes(log: seq<(nat, int)>, id: nat, from: int, length: nat, t: nat)
    ensures t in Times(log, id, from, length) <==> (id, from + t) in log && t <= length
  {
  }

  /** The first entry adds its time, if it lies in the window, and no later entry has the same. */
  lemma {:induction false} TimesCons(log: seq<(nat, int)>, id: nat, from: int, length: nat)
    requires log != [] && log[0] !in log[1..]
    ensures |Times(log, id, from, length)| ==
              |Times(log[1..], id, from, length)|
                + if log[0].0 == id && from <= log[0].1 <= from + length then 1 else 0
  {
    var all, fewer := Times(log, id, from, length), Times(log[1..], id, from, length);
    var late := log[0].1 - from;
    var added: set<nat> := if log[0].0 == id && 0 <= late <= length then {late} else {};
    forall t: nat ensures t in all <==> t in fewer || t in added {
      InTimes(log, id, from, length, t);
      InTimes(log[1..], id, from, length, t);
      hide Times;
    }
    forall t | t in added ensures t !in fewer { InTimes(log[1..], id, from, length, t); }
    hide Times;
    assert all == fewer + added;
  }

  lemma {:induction false} CountIsTimes(log: seq<(nat, int)>, id: nat, from: int, length: nat)
    requires forall i, j :: 0 <= i < j < |log| ==> log[i] != log[j]
    ensures CountIn(log, id, from, length) == |Times(log, id, from, length)|
  {
    if log != [] {
      CountIsTimes(log[1..], id, from, length);
      TimesCons(log, id, from, length);
    }
  }

  lemma {:induction false} Latest(times: set<nat>) returns (m: nat)
    requires times != {}
    ensures m in times && forall t :: t in times ==> t <= m
    decreases times
  {
    m :| m in times;
    if times != {m} {
      var n := Latest(times - {m});
      assert times == (times - {m}) + {m};
      m := if n > m then n else m;
    }
  }

  /** Points more than a lease apart: a window holds one, and one more per full gap. */
  lemma {:induction false} SpacedPoints(times: set<nat>, length: nat)
    requires forall t :: t in times ==> t <= length
    requires forall x, y :: x in times && y in times && x < y ==> y - x > LEASE
    ensures |times| <= length / (LEASE + 1) + 1
    decreases times
  {
    if times != {} {
      var m := Latest(times);
      var rest := times - {m};
      if rest != {} {
        var earlier := Latest(rest);
        assert earlier < m && m - earlier > LEASE;
        var shorter := m - LEASE - 1;
        assert forall t :: t in rest ==> t <= shorter;
        SpacedPoints(rest, shorter);
      } else {
        assert times == {m};
      }
    }
  }

  lemma {:induction false} Subset(a: set<nat>, b: set<nat>)
    requires a <= b
    ensures |a| <= |b|
  {
    assert b == a + (b - a);
  }

  lemma {:induction false} ClaimGap(s: State, i: nat, j: nat)
    requires ClaimsInv(s)
    requires i < |s.claims| && j < |s.claims| && s.claims[i].0 == s.claims[j].0
    ensures i < j ==> s.claims[j].1 - s.claims[i].1 > LEASE
    ensures j < i ==> s.claims[i].1 - s.claims[j].1 > LEASE
  {
  }

  lemma {:induction false} ClaimWindow(s: State, id: nat, from: int, length: nat)
    requires ClaimsInv(s)
    ensures CountIn(s.claims, id, from, length) <= length / (LEASE + 1) + 1
  {
    CountIsTimes(s.claims, id, from, length);
    var times := Times(s.claims, id, from, length);
    forall x, y | x in times && y in times && x < y ensures y - x > LEASE {
      var i :| 0 <= i < |s.claims| && s.claims[i] == (id, from + x);
      var j :| 0 <= j < |s.claims| && s.claims[j] == (id, from + y);
      ClaimGap(s, i, j);
    }
    SpacedPoints(times, length);
  }

  /**
   Whatever the clocks of the workers show, a window of any length holds at most one claim of a row,
   and one more per full gap.
   */
  lemma {:induction false} LeaseBound(actions: seq<Action>, id: nat, from: int, length: nat)
    ensures CountIn(Run(Empty, actions).claims, id, from, length) <= length / (LEASE + 1) + 1
  {
    hide *;
    Reachable(actions);
    ClaimWindow(Run(Empty, actions), id, from, length);
  }

  /** Every call has a lease of its own: the one that its worker took for it. */
  lemma {:induction false} OneCallPerLease(actions: seq<Action>)
    ensures var s := Run(Empty, actions);
            && (forall i :: 0 <= i < |s.calls| ==> (s.calls[i].row, s.calls[i].lease) in s.claims)
            && (forall i, j :: 0 <= i < j < |s.calls| && s.calls[i].row == s.calls[j].row ==>
                  s.calls[i].lease != s.calls[j].lease)
  {
    Reachable(actions);
    var s := Run(Empty, actions);
    hide Run;
    forall i | 0 <= i < |s.calls| ensures (s.calls[i].row, s.calls[i].lease) in s.claims {
      assert Leases(s.calls)[i] in Leases(s.calls);
    }
    forall i, j | 0 <= i < j < |s.calls| ensures Leases(s.calls)[i] != Leases(s.calls)[j] {}
  }

  // ---- Calls by the time at which they start --------------------------------------------

  /** How many calls for this row start in this closed window. */
  function StartsIn(calls: seq<Call>, id: nat, from: int, length: nat): nat {
    if calls == [] then 0
    else (if calls[0].row == id && from <= calls[0].start <= from + length then 1 else 0)
         + StartsIn(calls[1..], id, from, length)
  }

  /** A call starts no earlier than its lease and no later than `slack` after it. */
  predicate Prompt(c: Call, slack: nat) { c.lease <= c.start <= c.lease + slack }

  /** The worker checks its clock against its lease before it calls. */
  predicate PromptStep(s: State, a: Action, slack: nat) {
    StartsCall(s, a) ==> s.workers[a.w].at <= a.now <= s.workers[a.w].at + slack
  }

  ghost predicate PromptRun(s: State, actions: seq<Action>, slack: nat)
    decreases |actions|
  {
    actions == [] ||
    (PromptStep(s, actions[0], slack) && PromptRun(Apply(s, actions[0]), actions[1..], slack))
  }

  ghost predicate AllPrompt(calls: seq<Call>, slack: nat) { forall c :: c in calls ==> Prompt(c, slack) }

  lemma {:induction false} PromptCalls(s: State, actions: seq<Action>, slack: nat)
    requires AllPrompt(s.calls, slack) && PromptRun(s, actions, slack)
    ensures AllPrompt(Run(s, actions).calls, slack)
    decreases |actions|
  {
    if actions != [] {
      CallChange(s, actions[0]);
      hide Apply;
      PromptCalls(Apply(s, actions[0]), actions[1..], slack);
    }
  }

  /** Prompt calls that start in a window had their lease in a window longer by the slack. */
  lemma {:induction false} PromptWindow(calls: seq<Call>, id: nat, from: int, length: nat, slack: nat)
    requires AllPrompt(calls, slack)
    ensures StartsIn(calls, id, from, length) <= CountIn(Leases(calls), id, from - slack, length + slack)
  {
    if calls != [] {
      assert calls[0] in calls && forall c :: c in calls[1..] ==> c in calls;
      PromptWindow(calls[1..], id, from, length, slack);
      assert Leases(calls)[1..] == Leases(calls[1..]);
    }
  }

  lemma {:induction false} LeasesAreClaims(s: State, id: nat, from: int, length: nat)
    requires ClaimsInv(s) && CallsInv(s)
    ensures CountIn(Leases(s.calls), id, from, length) <= CountIn(s.claims, id, from, length)
  {
    CountIsTimes(s.claims, id, from, length);
    CountIsTimes(Leases(s.calls), id, from, length);
    Subset(Times(Leases(s.calls), id, from, length), Times(s.claims, id, from, length));
  }

  /**
   If every worker calls within `slack` of its lease, by its own clock, then a window of any length
   holds at most one call for a row, and one more per full gap in the window and the slack.
   */
  lemma {:induction false} CallBound(actions: seq<Action>, id: nat, from: int, length: nat, slack: nat)
    requires PromptRun(Empty, actions, slack)
    ensures StartsIn(Run(Empty, actions).calls, id, from, length) <= (length + slack) / (LEASE + 1) + 1
  {
    hide Run, Apply, PromptRun, ClaimsInv, CallsInv, CountIn, StartsIn;
    var s := Run(Empty, actions);
    Reachable(actions);
    PromptCalls(Empty, actions, slack);
    PromptWindow(s.calls, id, from, length, slack);
    LeasesAreClaims(s, id, from - slack, length + slack);
    ClaimWindow(s, id, from - slack, length + slack);
  }

  /** Consecutive claims of a row lie more than a lease apart. */
  lemma {:induction false} ClaimsAreSpaced(actions: seq<Action>, i: nat, j: nat)
    requires var s := Run(Empty, actions); i < j < |s.claims| && s.claims[i].0 == s.claims[j].0
    ensures var s := Run(Empty, actions); s.claims[j].1 > s.claims[i].1 + LEASE
  {
    hide Run;
    Reachable(actions);
  }

  // ---- Terminal rows --------------------------------------------------------------------

  lemma {:induction false} TerminalStep(s: State, a: Action, id: nat)
    requires id < |s.table| && s.table[id].status != Pending
    ensures var t := Apply(s, a);
            && id < |t.table| && t.table[id].status != Pending
            && (forall c :: c in t.claims && c.0 == id ==> c in s.claims)
            && (NobodyAboutToCall(s, id) ==>
                  NobodyAboutToCall(t, id) && forall c :: c in t.calls && c.row == id ==> c in s.calls)
  {
    var k := TableChange(s, a);
    WorkersChange(s, a);
    ClaimChange(s, a);
    CallChange(s, a);
  }

  /** Once a row has an outcome, nobody ever takes its lease again. */
  lemma {:induction false} NoClaimAfterOutcome(s: State, actions: seq<Action>, id: nat)
    requires id < |s.table| && s.table[id].status != Pending
    ensures var t := Run(s, actions);
            && id < |t.table| && t.table[id].status != Pending
            && forall c :: c in t.claims && c.0 == id ==> c in s.claims
    decreases |actions|
  {
    if actions != [] {
      TerminalStep(s, actions[0], id);
      NoClaimAfterOutcome(Apply(s, actions[0]), actions[1..], id);
    }
  }

  /** No continuation starts another call for the row. */
  ghost predicate NoMoreCalls(s: State, id: nat) {
    forall actions :: forall c :: c in Run(s, actions).calls && c.row == id ==> c in s.calls
  }

  ghost predicate NobodyAboutToCall(s: State, id: nat) {
    forall w :: w in s.workers ==> !(BeforeCall(s.workers[w]) && s.workers[w].id == id)
  }

  lemma {:induction false} CallsRun(s: State, actions: seq<Action>, id: nat)
    requires id < |s.table| && s.table[id].status != Pending && NobodyAboutToCall(s, id)
    ensures forall c :: c in Run(s, actions).calls && c.row == id ==> c in s.calls
    decreases |actions|
  {
    if actions != [] {
      TerminalStep(s, actions[0], id);
      CallsRun(Apply(s, actions[0]), actions[1..], id);
    }
  }

  /**
   After an outcome no further call starts, exactly when no worker stands between its lease and its
   call. A worker that stalls there longer than the lease does call late.
   */
  lemma {:induction false} NoCallAfterOutcomeIff(s: State, id: nat)
    requires Inv(s) && id < |s.table| && s.table[id].status != Pending
    ensures NoMoreCalls(s, id) <==> NobodyAboutToCall(s, id)
  {
    if NobodyAboutToCall(s, id) {
      forall actions ensures forall c :: c in Run(s, actions).calls && c.row == id ==> c in s.calls {
        CallsRun(s, actions, id);
      }
    } else {
      var w :| w in s.workers && BeforeCall(s.workers[w]) && s.workers[w].id == id;
      LateCall(s, w);
    }
  }

  /** A worker between lease and call can go on to call, whatever has happened to the row. */
  lemma {:induction false} LateCall(s: State, w: nat)
    requires Inv(s) && w in s.workers && BeforeCall(s.workers[w])
    ensures !NoMoreCalls(s, s.workers[w].id)
  {
    var worker, step := s.workers[w], Step(w, 0, Success);
    var m := if worker.Claimed? then Apply(s, step) else s;
    var late: seq<Action> := if worker.Claimed? then [step] + [step] else [step];
    assert worker.id < |s.table|;
    assert m.calls == s.calls && w in m.workers && m.workers[w].Refreshed? && m.table == s.table;
    assert m.workers[w].id == worker.id && m.workers[w].at == worker.at;
    var c := NextCall(m.workers[w], 0);
    assert Apply(m, step).calls == s.calls + [c];
    assert [step][1..] == [];
    assert Run(m, [step]) == Run(Apply(m, step), []) == Apply(m, step);
    if worker.Claimed? {
      RunAppend(s, [step], [step]);
      assert Run(s, [step]) == Run(m, []) == m;
    }
    assert Run(s, late) == Apply(m, step);
    assert (worker.id, worker.at) !in Leases(s.calls);
    forall i | 0 <= i < |s.calls| ensures s.calls[i] != c { assert Leases(s.calls)[i] in Leases(s.calls); }
    assert c in Run(s, late).calls && c !in s.calls;
  }

  lemma {:induction false} RunOne(s: State, actions: seq<Action>, a: Action, t: State)
    requires Apply(Run(s, actions), a) == t
    ensures Run(s, actions + [a]) == t
  {
    RunAppend(s, actions, [a]);
    assert [a][1..] == [] && [a][0] == a;
    assert Run(Run(s, actions), [a]) == Run(t, [a][1..]) == t;
  }

  /** Worker 0 has taken the lease at time 0 and stalls. */
  function Stalled(q: Request): State {
    State([NewRow(q).(startedAt := Some(0))], map[0 := Claimed(q, 0, 0)], [], [(0, 0)], [])
  }

  function Stall(q: Request): seq<Action> {
    [Start(0, q)] + [Step(0, 0, Success)] + [Step(0, 0, Success)]
  }

  /** Worker 1 has taken it over a lease later. */
  function TakenOver(q: Request): State {
    State([NewRow(q).(startedAt := Some(LEASE + 1))],
          map[0 := Claimed(q, 0, 0), 1 := Claimed(q, 0, LEASE + 1)],
          [], [(0, 0), (0, LEASE + 1)], [])
  }

  function TakeOver(q: Request): seq<Action> {
    [Start(1, q)] + [Step(1, 0, Success)] + [Step(1, 0, Success)] + [Step(1, LEASE + 1, Success)]
  }

  lemma {:induction false} Stalls(q: Request)
    ensures Run(Empty, Stall(q)) == Stalled(q)
  {
    assert [] + [Start(0, q)] == [Start(0, q)];
    RunOne(Empty, [], Start(0, q), Become(Empty, 0, Inserting(q)));
    RunOne(Empty, [Start(0, q)], Step(0, 0, Success), State([NewRow(q)], map[0 := Ready(q, 0)], [], [], []));
    RunOne(Empty, [Start(0, q)] + [Step(0, 0, Success)], Step(0, 0, Success), Stalled(q));
  }

  lemma {:induction false} TakesOver(q: Request)
    ensures Run(Stalled(q), TakeOver(q)) == TakenOver(q)
  {
    var s := Stalled(q);
    assert [] + [Start(1, q)] == [Start(1, q)];
    RunOne(s, [], Start(1, q), Become(s, 1, Inserting(q)));
    RunOne(s, [Start(1, q)], Step(1, 0, Success), Become(s, 1, LookingUp(q)));
    RunOne(s, [Start(1, q)] + [Step(1, 0, Success)], Step(1, 0, Success), Become(s, 1, Ready(q, 0)));
    var last := Apply(Become(s, 1, Ready(q, 0)), Step(1, LEASE + 1, Success));
    assert last.table == TakenOver(q).table && last.claims == TakenOver(q).claims;
    assert last.workers == TakenOver(q).workers;
    RunOne(s, [Start(1, q)] + [Step(1, 0, Success)] + [Step(1, 0, Success)], Step(1, LEASE + 1, Success),
           TakenOver(q));
  }

  function Finish(q: Request): seq<Action> {
    [Step(1, 0, Success)] + [Step(1, 0, Success)] + [Step(1, 0, Success)]
  }

  lemma {:induction false} Finishes(q: Request)
    ensures var s := Run(TakenOver(q), Finish(q));
            |s.table| == 1 && s.table[0].status == Succeeded && 0 in s.workers && s.workers[0] == Claimed(q, 0, 0)
  {
    var s, step := TakenOver(q), Step(1, 0, Success);
    assert [] + [step] == [step];
    RunOne(s, [], step, Apply(s, step));
    RunOne(s, [step], step, Apply(Apply(s, step), step));
    RunOne(s, [step] + [step], step, Apply(Apply(Apply(s, step), step), step));
  }

  /** So the late caller is reachable: the row has its outcome, and worker 0 is about to call. */
  lemma {:induction false} LateCallIsReachable(q: Request)
    ensures var s := Run(Empty, Stall(q) + TakeOver(q) + Finish(q));
            Inv(s) && |s.table| == 1 && s.table[0].status == Succeeded && !NobodyAboutToCall(s, 0)
  {
    hide Run, Inv, Apply, Finish;
    RunAppend(Empty, Stall(q), TakeOver(q));
    RunAppend(Empty, Stall(q) + TakeOver(q), Finish(q));
    Reachable(Stall(q) + TakeOver(q) + Finish(q));
    Stalls(q);
    TakesOver(q);
    Finishes(q);
  }

  // ---- Calls without a promise ----------------------------------------------------------

  /** The time at which worker w of a crowd takes the lease over from the one before. */
  function Turn(w: nat): int { w * (LEASE + 1) }

  /** The first n workers took the lease one after the other, and each of them stalls. */
  ghost predicate Gathered(s: State, q: Request, n: nat)
    requires n >= 1
  {
    && s.table == [NewRow(q).(startedAt := Some(Turn(n - 1)))] && s.calls == []
    && (forall w: nat :: w in s.workers <==> w < n)
    && forall w: nat :: w in s.workers ==> s.workers[w] == Claimed(q, 0, Turn(w))
  }

  lemma {:induction false} Joins(s: State, q: Request, n: nat)
    requires n >= 1 && Gathered(s, q, n)
    ensures Gathered(Run(s, [Start(n, q)] + [Step(n, 0, Success)] + [Step(n, 0, Success)]
                            + [Step(n, Turn(n), Success)]),
                     q, n + 1)
  {
    assert Find(s.table, q.certificate, q.key) == 0;
    hide Run, Find;
    var start, step, claim := Start(n, q), Step(n, 0, Success), Step(n, Turn(n), Success);
    assert [] + [start] == [start];
    RunNone(s);
    var s1, s2, s3 := Become(s, n, Inserting(q)), Become(s, n, LookingUp(q)), Become(s, n, Ready(q, 0));
    RunOne(s, [], start, s1);
    assert Apply(s1, step) == s2 by { assert s1.workers[n := LookingUp(q)] == s2.workers; }
    RunOne(s, [start], step, s2);
    assert Apply(s2, step) == s3 by { assert s2.workers[n := Ready(q, 0)] == s3.workers; }
    RunOne(s, [start] + [step], step, s3);
    RunOne(s, [start] + [step] + [step], claim, Apply(s3, claim));
  }

  lemma {:induction false} RunNone(s: State)
    ensures Run(s, []) == s
  {
  }

  lemma {:induction false} Crowd(q: Request, n: nat) returns (actions: seq<Action>)
    requires n >= 1
    ensures Gathered(Run(Empty, actions), q, n)
  {
    hide Run;
    if n == 1 {
      actions := Stall(q);
      Stalls(q);
      assert Stalled(q).table == [NewRow(q).(startedAt := Some(Turn(0)))];
      assert Gathered(Stalled(q), q, 1);
    } else {
      var before := Crowd(q, n - 1);
      var join := [Start(n - 1, q)] + [Step(n - 1, 0, Success)] + [Step(n - 1, 0, Success)]
                  + [Step(n - 1, Turn(n - 1), Success)];
      Joins(Run(Empty, before), q, n - 1);
      RunAppend(Empty, before, join);
      actions := before + join;
    }
  }

  /** The first k workers of the crowd have called, all at time t. */
  ghost predicate Rushing(s: State, q: Request, n: nat, k: nat, t: int) {
    && |s.table| == 1 && |s.calls| == k
    && (forall i :: 0 <= i < k ==> s.calls[i].row == 0 && s.calls[i].start == t)
    && forall w: nat :: k <= w < n ==> w in s.workers && s.workers[w] == Claimed(q, 0, Turn(w))
  }

  lemma {:induction false} Rush(s: State, q: Request, n: nat, k: nat, t: int) returns (actions: seq<Action>)
    requires n >= 1 && Gathered(s, q, n) && k <= n
    ensures Rushing(Run(s, actions), q, n, k, t)
    decreases k
  {
    if k == 0 {
      actions := [];
    } else {
      var before := Rush(s, q, n, k - 1, t);
      var m, step := Run(s, before), Step(k - 1, t, Success);
      RushOne(m, q, n, k - 1, t);
      RunOne(s, before, step, Apply(m, step));
      RunOne(s, before + [step], step, Apply(Apply(m, step), step));
      actions := before + [step] + [step];
    }
  }

  lemma {:induction false} RushOne(s: State, q: Request, n: nat, k: nat, t: int)
    requires k < n && Rushing(s, q, n, k, t)
    ensures var step := Step(k, t, Success); Rushing(Apply(Apply(s, step), step), q, n, k + 1, t)
  {
  }

  lemma {:induction false} AllStartHere(calls: seq<Call>, t: int)
    requires forall i :: 0 <= i < |calls| ==> calls[i].row == 0 && calls[i].start == t
    ensures StartsIn(calls, 0, t, 0) == |calls|
  {
    if calls != [] {
      assert forall i :: 0 <= i < |calls[1..]| ==> calls[1..][i] == calls[i + 1];
      AllStartHere(calls[1..], t);
    }
  }

  /**
   Without that check no bound on calls holds: any number of workers that stall between lease and call
   can start their calls for one row at one moment.
   */
  lemma {:induction false} StalledWorkersCallTogether(q: Request, n: nat, t: int)
    ensures exists actions :: StartsIn(Run(Empty, actions).calls, 0, t, 0) == n
  {
    if n == 0 {
      assert StartsIn(Run(Empty, []).calls, 0, t, 0) == 0;
    } else {
      var gather := Crowd(q, n);
      var rush := Rush(Run(Empty, gather), q, n, n, t);
      RunAppend(Empty, gather, rush);
      AllStartHere(Run(Empty, gather + rush).calls, t);
    }
  }

  // ---- Workers that keep their lease ----------------------------------------------------

  /** The step stores an outcome. */
  predicate Completes(s: State, a: Action) {
    && a.Step? && a.w in s.workers
    && (s.workers[a.w].Calling? || (s.workers[a.w].Refreshed? && a.outcome == Error(AccountUnavailable)))
  }

  /** At this time, a claim uses a reading that is not in the future and an outcome is within its lease. */
  predicate OnTime(s: State, clock: int, a: Action) {
    && (Claims(s, a) ==> a.now <= clock)
    && (Completes(s, a) ==> clock <= s.workers[a.w].at + LEASE)
  }

  ghost predicate Timely(s: State, clock: int, steps: seq<(int, Action)>)
    decreases |steps|
  {
    steps == [] ||
    (clock <= steps[0].0 && OnTime(s, steps[0].0, steps[0].1)
     && Timely(Apply(s, steps[0].1), steps[0].0, steps[1..]))
  }

  function Actions(steps: seq<(int, Action)>): seq<Action> {
    if steps == [] then [] else [steps[0].1] + Actions(steps[1..])
  }

  function LastClock(clock: int, steps: seq<(int, Action)>): int {
    if steps == [] then clock else steps[|steps| - 1].0
  }

  /** A holder is the one whose lease the row records, or its lease is over; so too after an outcome. */
  ghost predicate LeaseInv(s: State, clock: int) {
    && (forall i :: 0 <= i < |s.table| && s.table[i].startedAt.Some? ==> s.table[i].startedAt.value <= clock)
    && (forall w :: w in s.workers && Holder(s.workers[w]) ==>
          HolderFits(s.table, s.workers[w]))
  }

  predicate HolderFits(table: seq<Row>, worker: Worker)
    requires Holder(worker)
  {
    && worker.id < |table|
    && table[worker.id].startedAt.Some?
    && (table[worker.id].startedAt.value == worker.at || table[worker.id].startedAt.value > worker.at + LEASE)
    && (table[worker.id].status != Pending ==> table[worker.id].startedAt.value > worker.at + LEASE)
  }

  predicate Live(worker: Worker, clock: int) { Holder(worker) && clock <= worker.at + LEASE }

  predicate LiveTogether(v: Worker, w: Worker, clock: int) {
    Live(v, clock) && Live(w, clock) && v.id == w.id
  }

  /** At most one worker holds a running lease of a row. */
  ghost predicate Exclusive(s: State, clock: int) {
    forall v, w ::
      v in s.workers && w in s.workers && LiveTogether(s.workers[v], s.workers[w], clock) ==> v == w
  }

  /** Rows with an outcome stay exactly as they are. */
  ghost predicate OutcomesKept(before: seq<Row>, after: seq<Row>) {
    && |before| <= |after|
    && forall i :: 0 <= i < |before| && before[i].status != Pending ==> after[i] == before[i]
  }

  lemma {:induction false} LeaseInvIsExclusive(s: State, clock: int)
    requires Inv(s) && LeaseInv(s, clock)
    ensures Exclusive(s, clock)
  {
  }

  /** An outcome that is on time finds the row pending. */
  lemma {:induction false} OutcomeFindsPending(s: State, clock: int, a: Action)
    requires LeaseInv(s, clock) && Completes(s, a) && OnTime(s, clock, a)
    ensures s.workers[a.w].id < |s.table| && s.table[s.workers[a.w].id].status == Pending
  {
  }

  lemma {:induction false} LeaseStep(s: State, clock: int, a: Action)
    requires Inv(s) && LeaseInv(s, clock) && OnTime(s, clock, a)
    ensures LeaseInv(Apply(s, a), clock)
    ensures var t := Apply(s, a);
            OutcomesKept(s.table, t.table)
  {
    var t := Apply(s, a);
    var k := TableChange(s, a);
    WorkersChange(s, a);
    ClaimChange(s, a);
    CallChange(s, a);
    if Completes(s, a) {
      OutcomeFindsPending(s, clock, a);
      var id := s.workers[a.w].id;
      assert HolderFits(s.table, s.workers[a.w]);
      assert s.table[id].startedAt.value == s.workers[a.w].at;
      forall w | w in t.workers && Holder(t.workers[w]) ensures HolderFits(t.table, t.workers[w]) {
        assert HolderFits(s.table, s.workers[w]);
      }
    } else {
      RestFits(s, clock, a);
    }
  }

  lemma {:induction false} RestFits(s: State, clock: int, a: Action)
    requires Inv(s) && LeaseInv(s, clock) && OnTime(s, clock, a) && !Completes(s, a)
    ensures LeaseInv(Apply(s, a), clock)
    ensures var t := Apply(s, a);
            OutcomesKept(s.table, t.table)
  {
    var t := Apply(s, a);
    WorkersChange(s, a);
    CallChange(s, a);
    if Claims(s, a) {
      var id := s.workers[a.w].id;
      assert t.table == s.table[id := s.table[id].(startedAt := Some(a.now))];
      assert t.workers[a.w].at == a.now;
    } else {
      assert forall i :: 0 <= i < |s.table| ==> t.table[i] == s.table[i];
    }
    forall w | w in t.workers && Holder(t.workers[w]) ensures HolderFits(t.table, t.workers[w]) {
      if w in s.workers && Holder(s.workers[w]) { assert HolderFits(s.table, s.workers[w]); }
    }
  }

  lemma {:induction false} KeptTransitive(a: seq<Row>, b: seq<Row>, c: seq<Row>)
    requires OutcomesKept(a, b) && OutcomesKept(b, c)
    ensures OutcomesKept(a, c)
  {
  }

  lemma {:induction false} LeaseInvLater(s: State, clock: int, later: int)
    requires LeaseInv(s, clock) && clock <= later
    ensures LeaseInv(s, later)
  {
  }

  lemma {:induction false} TimelyRun(s: State, clock: int, steps: seq<(int, Action)>)
    requires Inv(s) && LeaseInv(s, clock) && Timely(s, clock, steps)
    ensures var t := Run(s, Actions(steps));
            && Inv(t) && LeaseInv(t, LastClock(clock, steps))
            && OutcomesKept(s.table, t.table)
    decreases |steps|
  {
    if steps == [] {
      assert OutcomesKept(s.table, s.table);
    } else {
      hide Inv, LeaseInv, OnTime, Apply, OutcomesKept;
      var (now, a) := steps[0];
      LeaseInvLater(s, clock, now);
      InvStep(s, a);
      LeaseStep(s, now, a);
      TimelyRun(Apply(s, a), now, steps[1..]);
      assert Actions(steps)[0] == a && Actions(steps)[1..] == Actions(steps[1..]);
      KeptTransitive(s.table, Apply(s, a).table, Run(s, Actions(steps)).table);
      assert LastClock(now, steps[1..]) == LastClock(clock, steps);
    }
  }

  lemma {:induction false} EmptyLease(clock: int)
    ensures LeaseInv(Empty, clock)
  {
  }

  lemma {:induction false} TimelyFromEmpty(clock: int, steps: seq<(int, Action)>)
    requires Timely(Empty, clock, steps)
    ensures var s := Run(Empty, Actions(steps));
            Inv(s) && LeaseInv(s, LastClock(clock, steps)) && Exclusive(s, LastClock(clock, steps))
  {
    hide *;
    EmptyInv();
    EmptyLease(clock);
    TimelyRun(Empty, clock, steps);
    LeaseInvIsExclusive(Run(Empty, Actions(steps)), LastClock(clock, steps));
  }

  /**
   If every outcome that is stored is stored within its lease, then at any time at most one live
   worker is between claim and outcome of a row, and an outcome, once stored, never changes.
   */
  lemma {:induction false} LeaseGivesExclusion(clock: int, first: seq<(int, Action)>, rest: seq<(int, Action)>)
    requires Timely(Empty, clock, first)
    requires Timely(Run(Empty, Actions(first)), LastClock(clock, first), rest)
    ensures var s := Run(Empty, Actions(first));
            var t := Run(s, Actions(rest));
            && Exclusive(s, LastClock(clock, first))
            && OutcomesKept(s.table, t.table)
  {
    TimelyFromEmpty(clock, first);
    TimelyRun(Run(Empty, Actions(first)), LastClock(clock, first), rest);
  }
}
