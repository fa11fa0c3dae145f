/**
 Creating certificate requests. A request is identified by its name, account and challenge method; a
 unique key on the three decides between concurrent creates, each of which looks before and after it
 asks the backend for the TXT value.
 */
module RequestIdentity {
  import opened Basics
  import Lifecycle
  import Domains

  /** A validated payload: the domains are the normaliser's output. */
  datatype Payload = Payload(
    name: string,
    account: string,
    challenge: Lifecycle.Method,
    domains: seq<string>,
    hasProvider: bool,
    held: bool)

  datatype Request = Request(
    name: string,
    account: string,
    challenge: Lifecycle.Method,
    domains: seq<string>,
    record: Option<(string, string)>,       // TXT name and value
    status: Lifecycle.Status)

  /** A create that has found no row and asked the backend, or is about to insert, or lost the race. */
  datatype Worker =
    | AskingBackend(payload: Payload)
    | Inserting(payload: Payload, record: Option<(string, string)>)
    | Rereading(payload: Payload)

  datatype Reply =
    | Returned(payload: Payload, row: nat, record: Option<(string, string)>)
    | Conflict(payload: Payload, row: nat, seen: Request)     // the row in the way, as it was
    | BackendFailed(payload: Payload)
    | Invalid(payload: Payload)

  datatype State = State(table: seq<Request>, workers: map<nat, Worker>, replies: seq<Reply>)

  datatype Action =
    | Create(w: nat, payload: Payload)
    | Step(w: nat, value: Option<string>)           // None: the backend failed
    | SetStatus(row: nat, status: Lifecycle.Status)           // anything else that happens to a row
    | Crash(w: nat)

  predicate Identifies(p: Payload, r: Request) {
    r.name == p.name && r.account == p.account && r.challenge == p.challenge
  }

  /** The row with this identity, or the length of the table. */
  function Find(table: seq<Request>, p: Payload): (i: nat)
    ensures i <= |table|
    ensures i < |table| ==> Identifies(p, table[i])
    ensures forall j :: 0 <= j < i ==> !Identifies(p, table[j])
  {
    if table == [] then 0 else if Identifies(p, table[0]) then 0 else 1 + Find(table[1..], p)
  }

  predicate Resumes(p: Payload, r: Request) {
    r.challenge == Lifecycle.DnsPersist && !Lifecycle.Terminal(r.status) && r.domains == p.domains
  }

  function ResumeOrReject(table: seq<Request>, p: Payload, i: nat): Reply
    requires i < |table|
  {
    if Resumes(p, table[i]) then Returned(p, i, table[i].record) else Conflict(p, i, table[i])
  }

  function NewRow(p: Payload, record: Option<(string, string)>): Request {
    Request(p.name, p.account, p.challenge, p.domains, record,
            if p.challenge == Lifecycle.Dns01 then Lifecycle.Pending
            else if p.held then Lifecycle.Held else Lifecycle.PendingDns)
  }

  /** The TXT record that a scope and a backend value make. */
  function Record(scope: string, value: string): (string, string) { ("_validation-persist." + scope, value) }

  function Say(s: State, reply: Reply): State { s.(replies := s.replies + [reply]) }

  function End(s: State, w: nat): State { s.(workers := s.workers - {w}) }

  function Become(s: State, w: nat, worker: Worker): State { s.(workers := s.workers[w := worker]) }

  function Begin(s: State, w: nat, p: Payload): State
    requires p.domains != []
  {
    if (p.challenge == Lifecycle.Dns01 && !p.hasProvider) || (p.held && p.challenge != Lifecycle.DnsPersist)
    then Say(s, Invalid(p))
    else
      var i := Find(s.table, p);
      if i < |s.table| then Say(s, ResumeOrReject(s.table, p, i))
      else if p.challenge == Lifecycle.Dns01 then Become(s, w, Inserting(p, None))
      else if Domains.DnsPersistScope(p.domains).Err? then Say(s, Invalid(p))
      else Become(s, w, AskingBackend(p))
  }

  function Advance(s: State, w: nat, value: Option<string>): State
    requires w in s.workers
  {
    match s.workers[w]
    case AskingBackend(p) =>
      if value.None? || p.domains == [] || Domains.DnsPersistScope(p.domains).Err?
      then Say(End(s, w), BackendFailed(p))
      else Become(s, w, Inserting(p, Some(Record(Domains.DnsPersistScope(p.domains).value.0, value.value))))
    case Inserting(p, record) =>
      if Find(s.table, p) < |s.table| then Become(s, w, Rereading(p))
      else Say(End(s, w), Returned(p, |s.table|, record)).(table := s.table + [NewRow(p, record)])
    case Rereading(p) =>
      var i := Find(s.table, p);
      if i < |s.table| then Say(End(s, w), ResumeOrReject(s.table, p, i)) else End(s, w)
  }

  function Apply(s: State, a: Action): State {
    match a
    case Create(w, p) => if w in s.workers || p.domains == [] then s else Begin(s, w, p)
    case Step(w, value) => if w in s.workers then Advance(s, w, value) else s
    case SetStatus(i, status) =>
      if i < |s.table| then s.(table := s.table[i := s.table[i].(status := status)]) else s
    case Crash(w) => End(s, w)
  }

  function Run(s: State, actions: seq<Action>): State
    decreases |actions|
  {
    if actions == [] then s else Run(Apply(s, actions[0]), actions[1..])
  }

  const Empty := State([], map[], [])

  // ---- What every step keeps ------------------------------------------------------------

  predicate SameRequest(r: Request, t: Request) { t == r.(status := t.status) }

  /** Rows are only added; nothing but the status of a row changes. */
  ghost predicate Grows(table: seq<Request>, more: seq<Request>) {
    && |table| <= |more|
    && forall i :: 0 <= i < |table| ==> SameRequest(table[i], more[i])
  }

  ghost predicate UniqueIdentities(table: seq<Request>) {
    forall i, j :: 0 <= i < j < |table| ==>
      table[i].name != table[j].name || table[i].account != table[j].account || table[i].challenge != table[j].challenge
  }

  /** The stored TXT record is the one for the scope of the stored domains. */
  predicate RecordFits(r: Request) {
    r.challenge == Lifecycle.DnsPersist ==>
      && r.domains != [] && r.record.Some? && Domains.DnsPersistScope(r.domains).Ok?
      && r.record.value.0 == "_validation-persist." + Domains.DnsPersistScope(r.domains).value.0
  }

  predicate WorkerFits(worker: Worker) {
    match worker
    case Inserting(p, record) => RecordFits(NewRow(p, record))
    case _ => true
  }

  /** A returned row is the request's own, with its stored record; a conflict has a row to blame. */
  predicate ReplyFits(table: seq<Request>, reply: Reply) {
    match reply
    case Returned(p, i, record) =>
      i < |table| && Identifies(p, table[i]) && table[i].domains == p.domains && table[i].record == record
    case Conflict(p, i, seen) =>
      i < |table| && SameRequest(seen, table[i]) && Identifies(p, seen) && !Resumes(p, seen)
    case _ => true
  }

  ghost predicate Inv(s: State) {
    && UniqueIdentities(s.table)
    && (forall i :: 0 <= i < |s.table| ==> RecordFits(s.table[i]))
    && (forall w :: w in s.workers ==> WorkerFits(s.workers[w]))
    && (forall i :: 0 <= i < |s.replies| ==> ReplyFits(s.table, s.replies[i]))
  }

  /** A step adds a row with a new identity, changes the status of one row, or leaves the table. */
  lemma {:induction false} TableStep(s: State, a: Action)
    ensures var t := Apply(s, a);
            && Grows(s.table, t.table)
            && (|t.table| > |s.table| ==>
                  && a.Step? && a.w in s.workers && s.workers[a.w].Inserting?
                  && var w := s.workers[a.w];
                     Find(s.table, w.payload) == |s.table| && t.table == s.table + [NewRow(w.payload, w.record)])
  {
  }

  lemma {:induction false} RowsStep(s: State, a: Action)
    requires Inv(s)
    ensures var t := Apply(s, a);
            UniqueIdentities(t.table) && forall i :: 0 <= i < |t.table| ==> RecordFits(t.table[i])
  {
    TableStep(s, a);
    var t := Apply(s, a);
    hide Apply, Find;
    var n := |s.table|;
    assert forall i :: 0 <= i < n ==> SameRequest(s.table[i], t.table[i]);
    if |t.table| > n {
      var worker := s.workers[a.w];
      assert WorkerFits(worker) && t.table[n] == NewRow(worker.payload, worker.record);
      assert forall j :: 0 <= j < n ==> !Identifies(worker.payload, s.table[j]);
    }
  }

  lemma {:induction false} WorkersStep(s: State, a: Action)
    requires Inv(s)
    ensures forall w :: w in Apply(s, a).workers ==> WorkerFits(Apply(s, a).workers[w])
  {
  }

  /** A step says at most one thing, and it fits. */
  lemma {:induction false} SayStep(s: State, a: Action)
    ensures var t := Apply(s, a);
            t.replies == s.replies ||
            (|t.replies| == |s.replies| + 1 && t.replies[..|s.replies|] == s.replies
             && ReplyFits(t.table, t.replies[|s.replies|]))
  {
  }

  lemma {:induction false} RepliesStillFit(table: seq<Request>, more: seq<Request>, replies: seq<Reply>)
    requires Grows(table, more) && forall i :: 0 <= i < |replies| ==> ReplyFits(table, replies[i])
    ensures forall i :: 0 <= i < |replies| ==> ReplyFits(more, replies[i])
  {
  }

  lemma {:induction false} InvStep(s: State, a: Action)
    requires Inv(s)
    ensures Inv(Apply(s, a))
  {
    RowsStep(s, a);
    WorkersStep(s, a);
    SayStep(s, a);
    TableStep(s, a);
    hide Apply, ReplyFits, RecordFits, WorkerFits, Find, Grows;
    var t := Apply(s, a);
    RepliesStillFit(s.table, t.table, s.replies);
    forall i | 0 <= i < |t.replies| ensures ReplyFits(t.table, t.replies[i]) {
      if i < |s.replies| { assert t.replies[i] == s.replies[i] by { assert t.replies[..|s.replies|] == s.replies; } }
    }
  }

  lemma {:induction false} InvRun(s: State, actions: seq<Action>)
    requires Inv(s)
    ensures Inv(Run(s, actions))
    decreases |actions|
  {
    if actions != [] {
      hide Apply, Inv;
      InvStep(s, actions[0]);
      InvRun(Apply(s, actions[0]), actions[1..]);
    }
  }

  lemma {:induction false} EmptyInv()
    ensures Inv(Empty)
  {
  }

  lemma {:induction false} GrowsTransitive(a: seq<Request>, b: seq<Request>, c: seq<Request>)
    requires Grows(a, b) && Grows(b, c)
    ensures Grows(a, c)
  {
  }

  lemma {:induction false} GrowsRun(s: State, actions: seq<Action>)
    ensures Grows(s.table, Run(s, actions).table)
    decreases |actions|
  {
    if actions != [] {
      TableStep(s, actions[0]);
      hide Apply, Grows;
      GrowsRun(Apply(s, actions[0]), actions[1..]);
      GrowsTransitive(s.table, Apply(s, actions[0]).table, Run(s, actions).table);
    }
  }

  // ---- The theorems ---------------------------------------------------------------------

  /** Replies about one identity agree on the row, its domains and its TXT record. */
  ghost predicate RepliesAgree(s: State) {
    forall x, y :: x in s.replies && y in s.replies && x.Returned? && y.Returned?
      && x.payload.name == y.payload.name && x.payload.account == y.payload.account
      && x.payload.challenge == y.payload.challenge
      ==> x.row == y.row && x.record == y.record && x.payload.domains == y.payload.domains
  }

  lemma {:induction false} InvAgrees(s: State)
    requires Inv(s)
    ensures RepliesAgree(s)
  {
  }

  /**
   Whatever creates run concurrently, stop halfway or are repeated, and whatever happens to the rows'
   status: one row per identity, which keeps its domains and TXT record, and every create that gets a
   row gets that row and that record.
   */
  lemma {:induction false} OneRowPerIdentity(actions: seq<Action>, more: seq<Action>)
    ensures var s := Run(Empty, actions);
            var t := Run(s, more);
            && UniqueIdentities(t.table) && Grows(s.table, t.table) && RepliesAgree(s) && RepliesAgree(t)
            && (forall i :: 0 <= i < |t.table| ==> RecordFits(t.table[i]))
  {
    hide Run, Apply, Grows, RepliesAgree, UniqueIdentities, RecordFits;
    EmptyInv();
    InvRun(Empty, actions);
    InvRun(Run(Empty, actions), more);
    InvAgrees(Run(Empty, actions));
    InvAgrees(Run(Run(Empty, actions), more));
    GrowsRun(Run(Empty, actions), more);
  }

  /** A DNS Persist create is refused only over a cancelled or revoked row, or other domains. */
  lemma {:induction false} ConflictHasCause(actions: seq<Action>, p: Payload, row: nat, seen: Request)
    requires p.challenge == Lifecycle.DnsPersist && Conflict(p, row, seen) in Run(Empty, actions).replies
    ensures Lifecycle.Terminal(seen.status) || seen.domains != p.domains
    ensures var table := Run(Empty, actions).table;
            row < |table| && SameRequest(seen, table[row]) && Identifies(p, seen)
  {
    EmptyInv();
    InvRun(Empty, actions);
    var s := Run(Empty, actions);
    hide Run;
    var i :| 0 <= i < |s.replies| && s.replies[i] == Conflict(p, row, seen);
    assert ReplyFits(s.table, s.replies[i]);
  }

  // ---- Where records come from ----------------------------------------------------------

  /** The payloads of the creates that were called. */
  function Called(actions: seq<Action>): set<Payload> { set a | a in actions && a.Create? :: a.payload }

  /** What the backend answered in a run, and to which create. */
  function Answered(s: State, actions: seq<Action>): set<(Payload, string)>
    decreases |actions|
  {
    if actions == [] then {}
    else
      var a := actions[0];
      (if a.Step? && a.w in s.workers && a.value.Some? && s.workers[a.w].AskingBackend?
       then {(s.workers[a.w].payload, a.value.value)} else {})
      + Answered(Apply(s, a), actions[1..])
  }

  /** A dns-01 request has no record; a DNS Persist request has the backend's own answer under the name of its scope. */
  predicate RecordFrom(p: Payload, record: Option<(string, string)>, answers: set<(Payload, string)>) {
    if p.challenge == Lifecycle.Dns01 then record == None
    else p.domains != [] && record.Some? && (p, record.value.1) in answers
         && record.value.0 == "_validation-persist." + if "*." <= p.domains[0] then p.domains[0][2..] else p.domains[0]
  }

  predicate MadeFrom(r: Request, p: Payload, answers: set<(Payload, string)>) {
    r == Request(p.name, p.account, p.challenge, p.domains, r.record, r.status) && RecordFrom(p, r.record, answers)
  }

  ghost predicate RowFrom(r: Request, payloads: set<Payload>, answers: set<(Payload, string)>) {
    exists p :: p in payloads && MadeFrom(r, p, answers)
  }

  predicate WorkerFrom(worker: Worker, payloads: set<Payload>, answers: set<(Payload, string)>) {
    && worker.payload in payloads
    && (worker.AskingBackend? ==> worker.payload.challenge == Lifecycle.DnsPersist)
    && (worker.Inserting? ==> RecordFrom(worker.payload, worker.record, answers))
  }

  ghost predicate ComesFrom(s: State, payloads: set<Payload>, answers: set<(Payload, string)>) {
    && (forall w :: w in s.workers ==> WorkerFrom(s.workers[w], payloads, answers))
    && (forall i :: 0 <= i < |s.table| ==> RowFrom(s.table[i], payloads, answers))
  }

  lemma {:induction false} WorkersFrom(s: State, a: Action, payloads: set<Payload>, answers: set<(Payload, string)>)
    requires ComesFrom(s, payloads, answers) && Called([a]) <= payloads && Answered(s, [a]) <= answers
    ensures forall w :: w in Apply(s, a).workers ==> WorkerFrom(Apply(s, a).workers[w], payloads, answers)
  {
    assert a in [a] && (a.Create? ==> a.payload in Called([a]));
    hide RowFrom, Find, ResumeOrReject;
    if !a.SetStatus? && a.w in s.workers { assert WorkerFrom(s.workers[a.w], payloads, answers); }
  }

  lemma {:induction false} RowsFrom(s: State, a: Action, payloads: set<Payload>, answers: set<(Payload, string)>)
    requires ComesFrom(s, payloads, answers)
    ensures forall i :: 0 <= i < |Apply(s, a).table| ==> RowFrom(Apply(s, a).table[i], payloads, answers)
  {
    TableStep(s, a);
    var t := Apply(s, a);
    hide Apply, Find;
    forall i | 0 <= i < |t.table| ensures RowFrom(t.table[i], payloads, answers) {
      if i < |s.table| {
        assert SameRequest(s.table[i], t.table[i]) && RowFrom(s.table[i], payloads, answers);
        var p :| p in payloads && MadeFrom(s.table[i], p, answers);
        assert MadeFrom(t.table[i], p, answers);
      } else {
        var worker := s.workers[a.w];
        assert WorkerFrom(worker, payloads, answers) && MadeFrom(t.table[i], worker.payload, answers);
      }
    }
  }

  lemma {:induction false} ComesFromRun(s: State, actions: seq<Action>, payloads: set<Payload>,
                                        answers: set<(Payload, string)>)
    requires ComesFrom(s, payloads, answers) && Called(actions) <= payloads && Answered(s, actions) <= answers
    ensures ComesFrom(Run(s, actions), payloads, answers)
    decreases |actions|
  {
    if actions != [] {
      var a, rest := actions[0], actions[1..];
      assert a in actions && forall x :: x in rest ==> x in actions;
      assert Called([a]) <= Called(actions) && Called(rest) <= Called(actions);
      assert [a][1..] == [] && Answered(s, [a]) <= Answered(s, actions);
      WorkersFrom(s, a, payloads, answers);
      RowsFrom(s, a, payloads, answers);
      hide Apply, RowFrom, WorkerFrom;
      ComesFromRun(Apply(s, a), rest, payloads, answers);
    }
  }

  /**
   In every run each row is that of a create that was called, with its name, account, method and domains. Its TXT
   record has the name of its scope and a value that the backend answered to that create.
   */
  lemma {:induction false} RecordsAreAnswered(actions: seq<Action>, i: nat) returns (p: Payload)
    requires i < |Run(Empty, actions).table|
    ensures var r := Run(Empty, actions).table[i];
            && p in Called(actions)
            && r.name == p.name && r.account == p.account && r.challenge == p.challenge && r.domains == p.domains
            && (p.challenge == Lifecycle.Dns01 ==> r.record == None)
            && (p.challenge == Lifecycle.DnsPersist ==>
                  && p.domains != [] && r.record.Some? && (p, r.record.value.1) in Answered(Empty, actions)
                  && r.record.value.0
                       == "_validation-persist." + if "*." <= p.domains[0] then p.domains[0][2..] else p.domains[0])
  {
    ComesFromRun(Empty, actions, Called(actions), Answered(Empty, actions));
    var r := Run(Empty, actions).table[i];
    hide Run, Called, Answered;
    assert RowFrom(r, Called(actions), Answered(Empty, actions));
    p :| p in Called(actions) && MadeFrom(r, p, Answered(Empty, actions));
  }

  /** A raw payload with its domains as the caller spelled them. */
  function Validated(p: Payload): Option<Payload> {
    if p.domains == [] then None
    else match Domains.Normalize(p.domains)
      case Ok(list) => Some(p.(domains := list))
      case Err(_) => None
  }

  /** The same primary domain and the same names, up to order, case, space and repetition. */
  predicate SameNames(a: seq<string>, b: seq<string>)
    requires a != [] && b != []
  {
    && Domains.Clean(a[0]) == Domains.Clean(b[0])
    && (forall d :: d in Domains.CleanAll(a) ==> d in Domains.CleanAll(b))
    && (forall d :: d in Domains.CleanAll(b) ==> d in Domains.CleanAll(a))
  }

  /**
   Two spellings of one request: creates that get a row get the same row and record, and if one got the
   row, the other is refused only because this row is cancelled or revoked.
   */
  lemma {:induction false} SpellingDoesNotMatter(actions: seq<Action>, a: Payload, b: Payload, x: Reply, y: Reply)
    requires Validated(a).Some? && Validated(b).Some?
    requires b == a.(domains := b.domains, hasProvider := b.hasProvider, held := b.held)
    requires a.challenge == Lifecycle.DnsPersist && SameNames(a.domains, b.domains)
    requires var s := Run(Empty, actions);
             && x in s.replies && x.payload == Validated(a).value && x.Returned?
             && y in s.replies && y.payload == Validated(b).value
    ensures y.Returned? ==> y.row == x.row && y.record == x.record
    ensures y.Conflict? ==> y.row == x.row && Lifecycle.Terminal(y.seen.status)
  {
    Domains.SameListIffSameNames(a.domains, b.domains);
    var s := Run(Empty, actions);
    hide Run, Domains.Normalize, Domains.Clean, Domains.CleanAll;
    assert x.payload.domains == y.payload.domains;
    EmptyInv();
    InvRun(Empty, actions);
    InvAgrees(s);
    var i :| 0 <= i < |s.replies| && s.replies[i] == x;
    assert ReplyFits(s.table, s.replies[i]);
    if y.Conflict? { ConflictHasCause(actions, y.payload, y.row, y.seen); }
  }

  // ---- One create without interference --------------------------------------------------

  /** The create and the steps that follow it. */
  function Solo(table: seq<Request>, p: Payload, value: Option<string>): State {
    var s := Apply(State(table, map[], []), Create(0, p));
    Apply(Apply(s, Step(0, value)), Step(0, value))
  }

  /** How the lifecycle of the new row begins. */
  function OriginOf(p: Payload): Lifecycle.Origin {
    if p.challenge == Lifecycle.Dns01 then Lifecycle.ByDns01
    else if p.held then Lifecycle.ByHeldDnsPersist
    else Lifecycle.ByDnsPersist
  }

  /** The first row with the name, account and method of the payload. */
  ghost predicate IsOf(table: seq<Request>, i: nat, p: Payload) {
    && i < |table| && table[i].name == p.name && table[i].account == p.account && table[i].challenge == p.challenge
    && NoneOf(table[..i], p)
  }

  ghost predicate NoneOf(table: seq<Request>, p: Payload) {
    forall i :: 0 <= i < |table| ==>
      table[i].name != p.name || table[i].account != p.account || table[i].challenge != p.challenge
  }

  lemma {:induction false} FindMeans(table: seq<Request>, p: Payload)
    ensures var i := Find(table, p);
            if i < |table| then !NoneOf(table, p) && forall j: nat :: IsOf(table, j, p) ==> j == i
            else NoneOf(table, p) && forall j: nat :: !IsOf(table, j, p)
  {
    var i := Find(table, p);
    forall j: nat | i < j < |table| ensures !NoneOf(table[..j], p) { assert table[..j][i] == table[i]; }
  }

  /**
   What a create comes to. A payload without its provider, or held without DNS Persist, is invalid. A row with its
   identity is returned if it is a DNS Persist row with these domains that is neither cancelled nor revoked;
   otherwise it is in the way. Without such a row one is added, with the backend's value in its TXT record.
   */
  ghost predicate IsCreated(before: seq<Request>, after: seq<Request>, p: Payload, value: Option<string>, reply: Reply)
    requires p.domains != []
  {
    var misses := (p.challenge == Lifecycle.Dns01 && !p.hasProvider) || (p.challenge == Lifecycle.Dns01 && p.held);
    var scope := if "*." <= p.domains[0] then p.domains[0][2..] else p.domains[0];
    && (misses ==> after == before && reply == Invalid(p))
    && (!misses ==> forall i: nat :: IsOf(before, i, p) ==>
          && after == before
          && reply == if p.challenge == Lifecycle.DnsPersist && before[i].domains == p.domains
                         && before[i].status != Lifecycle.Cancelled && before[i].status != Lifecycle.Revoked
                      then Returned(p, i, before[i].record) else Conflict(p, i, before[i]))
    && (!misses && NoneOf(before, p) ==>
          match p.challenge
          case Dns01 =>
            && after == before + [Request(p.name, p.account, Lifecycle.Dns01, p.domains, None, Lifecycle.Pending)]
            && reply == Returned(p, |before|, None)
          case DnsPersist =>
            if Domains.DnsPersistScope(p.domains).Err? then after == before && reply == Invalid(p)
            else if value == None then after == before && reply == BackendFailed(p)
            else
              var record := Some(("_validation-persist." + scope, value.value));
              && after == before + [Request(p.name, p.account, Lifecycle.DnsPersist, p.domains, record,
                                            if p.held then Lifecycle.Held else Lifecycle.PendingDns)]
              && reply == Returned(p, |before|, record))
  }

  lemma {:induction false} SoloCases(table: seq<Request>, p: Payload, value: Option<string>)
    requires p.domains != []
    ensures var (i, s, scope) := (Find(table, p), Solo(table, p, value), Domains.DnsPersistScope(p.domains));
            if (p.challenge == Lifecycle.Dns01 && !p.hasProvider) || (p.held && p.challenge != Lifecycle.DnsPersist)
            then s == State(table, map[], [Invalid(p)])
            else if i < |table| then s == State(table, map[], [ResumeOrReject(table, p, i)])
            else if p.challenge == Lifecycle.Dns01
            then s == State(table + [NewRow(p, None)], map[], [Returned(p, i, None)])
            else if scope.Err? then s == State(table, map[], [Invalid(p)])
            else if value.None? then s == State(table, map[], [BackendFailed(p)])
            else
              var record := Some(Record(scope.value.0, value.value));
              s == State(table + [NewRow(p, record)], map[], [Returned(p, i, record)])
  {
    hide Domains.DnsPersistScope, NewRow, Record, ResumeOrReject;
  }

  lemma {:induction false} ScopeIsPrimary(domains: seq<string>)
    requires domains != []
    ensures Domains.DnsPersistScope(domains).Ok? ==>
              Domains.DnsPersistScope(domains).value.0 == if "*." <= domains[0] then domains[0][2..] else domains[0]
  {
  }

  class Requests {
    var table: seq<Request>

    constructor ()
      ensures table == []
    {
      table := [];
    }

    /** The value is what the backend answers if it is asked. */
    method CreateCertificate(p: Payload, value: Option<string>) returns (reply: Reply)
      requires p.domains != []
      modifies this
      ensures IsCreated(old(table), table, p, value, reply)
      ensures table == Solo(old(table), p, value).table
      ensures Solo(old(table), p, value).replies == [reply] && Solo(old(table), p, value).workers == map[]
      ensures |table| > |old(table)| ==>
                var (row, start) := (table[|old(table)|], Lifecycle.Init(OriginOf(p)).row);
                row.status == start.status && row.challenge == start.challenge && Identifies(p, row)
    {
      FindMeans(table, p);
      ScopeIsPrimary(p.domains);
      SoloCases(table, p, value);
      hide Domains.DnsPersistScope, Solo, Find, IsOf, NoneOf;
      if (p.challenge == Lifecycle.Dns01 && !p.hasProvider) || (p.held && p.challenge != Lifecycle.DnsPersist) {
        return Invalid(p);
      }
      var i := Find(table, p);
      if i < |table| {
        return if Resumes(p, table[i]) then Returned(p, i, table[i].record) else Conflict(p, i, table[i]);
      }
      var record: Option<(string, string)> := None;
      if p.challenge == Lifecycle.DnsPersist {
        var scope := Domains.DnsPersistScope(p.domains);
        if scope.Err? {
          return Invalid(p);
        }
        if value.None? {
          return BackendFailed(p);
        }
        record := Some(Record(scope.value.0, value.value));
      }
      NewRowStarts(p, record);
      hide Lifecycle.Init, OriginOf, Identifies;
      table := table + [NewRow(p, record)];
      return Returned(p, i, record);
    }
  }

  lemma {:induction false} NewRowStarts(p: Payload, record: Option<(string, string)>)
    ensures var (row, start) := (NewRow(p, record), Lifecycle.Init(OriginOf(p)).row);
            row.status == start.status && row.challenge == start.challenge && Identifies(p, row)
  {
  }
}
