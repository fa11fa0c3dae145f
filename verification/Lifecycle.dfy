/** One certificate row shared by any number of workers. */
module Lifecycle {
  import opened Basics

  // A worker first reads the row and keeps what it read. Its later writes come in two kinds: a guarded
  // update, which is one SQL statement whose WHERE clause looks at the stored row, and an unguarded
  // write by primary key, which trusts the earlier read. An event is stored in the transaction of the
  // write that it reports. Every sequence of actions is a run, so a theorem about all sequences is a
  // theorem about all interleavings, repetitions and process stops.

  datatype Status =
    | Pending | PendingDns | Held | AuthorizationReady | Released | Issuing
    | Valid | Renewing | Failed | Cancelled | Revoked

  datatype Method = Dns01 | DnsPersist

  /** How the row was created. */
  datatype Origin = ByDns01 | ByDnsPersist | ByHeldDnsPersist

  datatype Event =
    | Created | AuthorizationIsReady | AuthorizationRequested | WasReleased
    | Issued | IssuanceFailed | Renewed | RenewalFailed | RenewalRequested
    | WasCancelled | WasRevoked

  datatype Row = Row(
    challenge: Method,
    status: Status,
    revision: int,
    key: Option<string>,           // release_idempotency_key
    expiry: Option<int>,
    generation: Option<string>,    // current_generation_id
    selection: Option<string>,     // generation_selection_idempotency_key
    events: seq<Event>)

  /** What the backend call and the deployment that follows it came to. */
  datatype Outcome =
    | Success(expiry: int, generation: Option<string>)
    | Retry      // a transient renewal failure below the retry limit; issuance has no retry
    | Failure

  // ---- Guarded updates: None when the WHERE clause selects no row -----------------------

  function MarkReady(r: Row, seen: int): Option<Row> {
    if r.status == Held && r.revision == seen
    then Some(r.(status := AuthorizationReady, revision := r.revision + 1,
                 events := r.events + [AuthorizationIsReady]))
    else None
  }

  function StartIssuing(r: Row): Option<Row> {
    if r.status == PendingDns || r.status == Failed
    then Some(r.(status := Issuing, events := r.events + [AuthorizationRequested]))
    else None
  }

  function MarkReleased(r: Row, revision: int, key: string): Option<Row> {
    if r.revision == revision && r.key == None && (r.status == Held || r.status == AuthorizationReady)
    then Some(r.(status := Released, revision := r.revision + 1, key := Some(key),
                 events := r.events + [WasReleased]))
    else None
  }

  function ClaimReleased(r: Row): Option<Row> {
    if r.status == Released then Some(r.(status := Issuing)) else None
  }

  function Finish(r: Row, outcome: Outcome): Option<Row> {
    if r.status != Issuing then None
    else match outcome
      case Success(expiry, generation) =>
        Some(r.(status := Valid, expiry := Some(expiry), generation := generation,
                events := r.events + [Issued]))
      case _ => Some(r.(status := Failed, events := r.events + [IssuanceFailed]))
  }

  // ---- Unguarded writes -----------------------------------------------------------------

  /** `held_request` of the delete operation, on the row it read. */
  predicate HeldRequest(r: Row) {
    || r.status == Held || r.status == AuthorizationReady || r.status == Cancelled
    || (r.status == Released && r.revision > 0)
    || (r.status == Issuing && r.key.Some?)
  }

  function DeleteTarget(r: Row): Status {
    if HeldRequest(r) then Cancelled else Revoked
  }

  function Delete(r: Row, loaded: Status, target: Status): Row {
    r.(status := Flush(r.status, loaded, target),
       events := r.events + [if target == Cancelled then WasCancelled else WasRevoked])
  }

  function FinishRenewal(r: Row, loaded: Row, outcome: Outcome): Row {
    match outcome
    case Success(expiry, generation) =>
      r.(status := Valid,
         expiry := Flush(r.expiry, loaded.expiry, Some(expiry)),
         generation := Flush(r.generation, loaded.generation, generation),
         events := r.events + [Renewed])
    case Retry => r.(status := Valid, events := r.events + [RenewalFailed])
    case Failure => r.(status := Failed, events := r.events + [RenewalFailed])
  }

  function Select(r: Row, loaded: Row, generation: string, expiry: int, key: string): Row {
    r.(generation := Flush(r.generation, loaded.generation, Some(generation)),
       expiry := Flush(r.expiry, loaded.expiry, Some(expiry)),
       selection := Some(key))
  }

  // ---- Workers and runs -----------------------------------------------------------------

  datatype Worker =
    | AuthorizingHeld(seen: int)
    | AuthorizingStart
    | Releasing(revision: int, key: string)
    | Rereading(key: string)                  // a release whose update selected no row
    | ClaimingDns01                           // has seen PENDING
    | AtBackend                               // owns a claim, until its outcome is stored
    | Deleting(seenStatus: Status, target: Status)
    | ClaimingRenewal(loaded: Row)            // has seen VALID
    | RenewingAt(loaded: Row)
    | Selecting(loaded: Row, generation: string, expiry: int, key: string)
    | RequestingRenewal

  datatype Reply = ReleaseAccepted(key: string) | ReleaseRefused(key: string)

  datatype State = State(row: Row, workers: map<nat, Worker>, replies: seq<Reply>)

  /** The first step of every call reads the row; `Step` runs the next atomic step of a worker. */
  datatype Action =
    | Authorize(w: nat)
    | Release(w: nat, revision: int, key: string)
    | IssueReleased(w: nat)
    | IssueDnsPersist(w: nat)
    | IssueDns01(w: nat)
    | DeleteCall(w: nat)
    | Renew(w: nat)
    | SelectCall(w: nat, generation: string, expiry: int, key: string)
    | ManualRenewal(w: nat)
    | Step(w: nat, outcome: Outcome)
    | Stop                                    // the process ends

  function Spawn(s: State, w: nat, worker: Worker): State {
    s.(workers := s.workers[w := worker])
  }

  function Begin(s: State, w: nat, a: Action): State {
    var r := s.row;
    match a
    case Authorize(_) =>
      if r.challenge != DnsPersist then s
      else if r.status == Held then Spawn(s, w, AuthorizingHeld(r.revision))
      else if r.status == PendingDns || r.status == Failed then Spawn(s, w, AuthorizingStart)
      else s
    case Release(_, revision, key) =>
      if r.challenge != DnsPersist then s.(replies := s.replies + [ReleaseRefused(key)])
      else if r.key == Some(key) then s.(replies := s.replies + [ReleaseAccepted(key)])
      else Spawn(s, w, Releasing(revision, key))
    case IssueReleased(_) =>
      (match ClaimReleased(r)
       case Some(row) => Spawn(s, w, AtBackend).(row := row)
       case None => s)
    case IssueDnsPersist(_) => if r.status == Issuing then Spawn(s, w, AtBackend) else s
    case IssueDns01(_) => if r.status == Pending then Spawn(s, w, ClaimingDns01) else s
    case DeleteCall(_) => Spawn(s, w, Deleting(r.status, DeleteTarget(r)))
    case Renew(_) => if r.status == Valid then Spawn(s, w, ClaimingRenewal(r)) else s
    case SelectCall(_, generation, expiry, key) =>
      if r.selection == Some(key) then s else Spawn(s, w, Selecting(r, generation, expiry, key))
    case ManualRenewal(_) => if r.status == Valid then Spawn(s, w, RequestingRenewal) else s
    case _ => s
  }

  /** The worker's write, if its guard holds, ends the worker. */
  function Commit(s: State, w: nat, update: Option<Row>): State {
    s.(row := if update.Some? then update.value else s.row, workers := s.workers - {w})
  }

  function Advance(s: State, w: nat, outcome: Outcome): State
    requires w in s.workers
  {
    var r := s.row;
    match s.workers[w]
    case AuthorizingHeld(seen) => Commit(s, w, MarkReady(r, seen))
    case AuthorizingStart => Commit(s, w, StartIssuing(r))
    case Releasing(revision, key) =>
      var update := MarkReleased(r, revision, key);
      if update.Some?
      then Commit(s, w, update).(replies := s.replies + [ReleaseAccepted(key)])
      else Spawn(s, w, Rereading(key))
    case Rereading(key) =>
      Commit(s, w, None).(replies := s.replies +
        [if r.key == Some(key) then ReleaseAccepted(key) else ReleaseRefused(key)])
    case ClaimingDns01 => Spawn(s, w, AtBackend).(row := r.(status := Issuing))
    case AtBackend => Commit(s, w, Finish(r, outcome))
    case Deleting(loaded, target) => Commit(s, w, Some(Delete(r, loaded, target)))
    case ClaimingRenewal(loaded) => Spawn(s, w, RenewingAt(loaded)).(row := r.(status := Renewing))
    case RenewingAt(loaded) => Commit(s, w, Some(FinishRenewal(r, loaded, outcome)))
    case Selecting(loaded, generation, expiry, key) =>
      Commit(s, w, Some(Select(r, loaded, generation, expiry, key)))
    case RequestingRenewal => Commit(s, w, Some(r.(events := r.events + [RenewalRequested])))
  }

  /** One atomic step. An action that is not possible changes nothing. */
  function Apply(s: State, a: Action): State {
    match a
    case Step(w, outcome) => if w in s.workers then Advance(s, w, outcome) else s
    case Stop => s.(workers := map[])
    case _ => if a.w in s.workers then s else Begin(s, a.w, a)
  }

  function Run(s: State, actions: seq<Action>): State
    decreases |actions|
  {
    if actions == [] then s else Run(Apply(s, actions[0]), actions[1..])
  }

  function Init(origin: Origin): State {
    var (challenge, status) :=
      match origin
      case ByDns01 => (Dns01, Pending)
      case ByDnsPersist => (DnsPersist, PendingDns)
      case ByHeldDnsPersist => (DnsPersist, Held);
    State(Row(challenge, status, 1, None, None, None, None, [Created]), map[], [])
  }

  lemma {:induction false} RunAppend(s: State, a: seq<Action>, b: seq<Action>)
    ensures Run(s, a + b) == Run(Run(s, a), b)
    decreases |a|
  {
    if a == [] {
      assert a + b == b;
    } else {
      assert (a + b)[1..] == a[1..] + b;
      RunAppend(Apply(s, a[0]), a[1..], b);
    }
  }

  // ---- Terminal states ------------------------------------------------------------------

  predicate Terminal(status: Status) { status == Cancelled || status == Revoked }

  /** Workers that will write the status without looking at the stored one. */
  predicate Overwriter(worker: Worker) {
    worker.ClaimingDns01? || worker.ClaimingRenewal? || worker.RenewingAt?
  }

  /** A delete that is under way writes a terminal status. */
  ghost predicate DeletesTowardsTerminal(s: State) {
    forall w :: w in s.workers && s.workers[w].Deleting? ==> Terminal(s.workers[w].target)
  }

  ghost predicate NoOverwriter(s: State) {
    forall w :: w in s.workers ==> !Overwriter(s.workers[w])
  }

  /** No interleaving whatever leaves the two terminal states. */
  ghost predicate StaysTerminal(s: State) {
    forall actions :: Terminal(Run(s, actions).row.status)
  }

  lemma {:induction false} TerminalStep(s: State, a: Action)
    requires Terminal(s.row.status) && NoOverwriter(s) && DeletesTowardsTerminal(s)
    ensures var t := Apply(s, a); Terminal(t.row.status) && NoOverwriter(t) && DeletesTowardsTerminal(t)
  {
  }

  lemma {:induction false} TerminalRun(s: State, actions: seq<Action>)
    requires Terminal(s.row.status) && NoOverwriter(s) && DeletesTowardsTerminal(s)
    ensures Terminal(Run(s, actions).row.status)
    decreases |actions|
  {
    if actions != [] {
      TerminalStep(s, actions[0]);
      TerminalRun(Apply(s, actions[0]), actions[1..]);
    }
  }

  /**
   Cancelled and revoked absorb exactly when no renewal past its VALID check and no dns-01 issuance
   past its PENDING check is in flight: then no interleaving leaves, and otherwise one does.
   */
  lemma {:induction false} TerminalAbsorbsIff(s: State)
    requires Terminal(s.row.status) && DeletesTowardsTerminal(s)
    ensures StaysTerminal(s) <==> NoOverwriter(s)
  {
    if NoOverwriter(s) {
      forall actions ensures Terminal(Run(s, actions).row.status) { TerminalRun(s, actions); }
    } else {
      var w :| w in s.workers && Overwriter(s.workers[w]);
      var escape := [Step(w, Failure)];
      assert escape[1..] == [];
      assert Run(s, escape) == Run(Apply(s, escape[0]), escape[1..]) == Apply(s, escape[0]);
      assert !Terminal(Run(s, escape).row.status);
    }
  }

  /** A terminal row whose status is not final: somebody will write over it. */
  ghost predicate Undone(s: State, status: Status) {
    s.row.status == status && DeletesTowardsTerminal(s) && !NoOverwriter(s) && !StaysTerminal(s)
  }

  lemma {:induction false} LeftBehind(s: State, w: nat)
    requires Terminal(s.row.status) && w in s.workers && Overwriter(s.workers[w])
    requires s.workers == map[w := s.workers[w]]
    ensures Undone(s, s.row.status)
  {
    TerminalAbsorbsIff(s);
  }

  lemma {:induction false} RunThree(s: State, a: Action, b: Action, c: Action)
    ensures Run(s, [a, b, c]) == Apply(Apply(Apply(s, a), b), c)
  {
    var actions := [a, b, c];
    assert actions[1..] == [b, c] && [b, c][1..] == [c] && [c][1..] == [];
    hide Apply;
    assert Run(s, actions) == Run(Apply(s, a), [b, c]);
    assert Run(Apply(s, a), [b, c]) == Run(Apply(Apply(s, a), b), [c]);
  }

  /** A dns-01 issuance that has seen PENDING writes over the delete that follows. */
  lemma {:induction false} IssuanceOverwritesRevoked()
    ensures Undone(Run(Init(ByDns01), [IssueDns01(0), DeleteCall(1), Step(1, Failure)]), Revoked)
  {
    var s0 := Init(ByDns01);
    RunThree(s0, IssueDns01(0), DeleteCall(1), Step(1, Failure));
    hide Run;
    var s1, s2 := Apply(s0, IssueDns01(0)), Apply(Apply(s0, IssueDns01(0)), DeleteCall(1));
    assert s1 == Spawn(s0, 0, ClaimingDns01);
    assert s2 == Spawn(s1, 1, Deleting(Pending, Revoked));
    var s3 := Apply(s2, Step(1, Failure));
    assert s3.row.status == Revoked && s3.workers == map[0 := ClaimingDns01];
    hide *;
    LeftBehind(s3, 0);
  }

  /** So does a renewal that has seen VALID. */
  lemma {:induction false} RenewalOverwritesRevoked(s: State)
    requires s.row.status == Valid && s.workers == map[]
    ensures Undone(Run(s, [Renew(0), DeleteCall(1), Step(1, Failure)]), Revoked)
  {
    RunThree(s, Renew(0), DeleteCall(1), Step(1, Failure));
    hide Run;
    var s1, s2 := Apply(s, Renew(0)), Apply(Apply(s, Renew(0)), DeleteCall(1));
    assert s1 == Spawn(s, 0, ClaimingRenewal(s.row));
    assert s2 == Spawn(s1, 1, Deleting(Valid, Revoked));
    var s3 := Apply(s2, Step(1, Failure));
    assert s3.row.status == Revoked && s3.workers == map[0 := ClaimingRenewal(s.row)];
    hide *;
    LeftBehind(s3, 0);
  }

  /** A delete that read a released row while it was issued cancels it under the next renewal. */
  lemma {:induction false} RenewalOverwritesCancelled(s: State, expiry: int, g: Option<string>)
    requires s.row.status == Issuing && s.row.key.Some? && s.workers == map[0 := AtBackend]
    ensures Undone(Run(Apply(s, DeleteCall(1)), [Step(0, Success(expiry, g)), Renew(0), Step(1, Failure)]), Cancelled)
  {
    var issued := Step(0, Success(expiry, g));
    var s1 := Apply(s, DeleteCall(1));
    var s2, s3 := Apply(s1, issued), Apply(Apply(s1, issued), Renew(0));
    RunThree(s1, issued, Renew(0), Step(1, Failure));
    hide Run;
    assert s1 == Spawn(s, 1, Deleting(Issuing, Cancelled));
    assert s2.row.status == Valid && s2.workers == map[1 := Deleting(Issuing, Cancelled)];
    assert s3 == Spawn(s2, 0, ClaimingRenewal(s2.row));
    var s4 := Apply(s3, Step(1, Failure));
    assert s4.row.status == Cancelled && s4.workers == map[0 := ClaimingRenewal(s2.row)];
    hide *;
    LeftBehind(s4, 0);
  }

  /** The rows that the two lemmas above start from arise: one from an issuance, one from a release. */
  lemma {:induction false} ValidIsReachable(expiry: int, g: Option<string>)
    ensures var s := Run(Init(ByDns01), [IssueDns01(0), Step(0, Failure), Step(0, Success(expiry, g))]);
            s.row.status == Valid && s.workers == map[]
  {
    var s0 := Init(ByDns01);
    RunThree(s0, IssueDns01(0), Step(0, Failure), Step(0, Success(expiry, g)));
    hide Run;
    var s1 := Apply(s0, IssueDns01(0));
    assert s1 == Spawn(s0, 0, ClaimingDns01);
    var s2 := Apply(s1, Step(0, Failure));
    assert s2.row.status == Issuing && s2.workers == map[0 := AtBackend];
  }

  lemma {:induction false} ReleasedIssueIsReachable(key: string)
    ensures var s := Run(Init(ByHeldDnsPersist), [Release(0, 1, key), Step(0, Failure), IssueReleased(0)]);
            s.row.status == Issuing && s.row.key == Some(key) && s.workers == map[0 := AtBackend]
  {
    var s0 := Init(ByHeldDnsPersist);
    RunThree(s0, Release(0, 1, key), Step(0, Failure), IssueReleased(0));
    hide Run;
    var s1 := Apply(s0, Release(0, 1, key));
    assert s1 == Spawn(s0, 0, Releasing(1, key));
    var s2 := Apply(s1, Step(0, Failure));
    assert s2.row.status == Released && s2.row.key == Some(key) && s2.workers == map[];
  }

  // ---- The invariant of every run -------------------------------------------------------

  function Count(events: seq<Event>, e: Event): nat {
    if events == [] then 0
    else Count(events[..|events| - 1], e) + if events[|events| - 1] == e then 1 else 0
  }

  function Times(r: Row, e: Event): nat { Count(r.events, e) }

  /** Which statuses a row of this origin can have, given its release key. */
  predicate StatusFits(origin: Origin, r: Row) {
    match origin
    case ByDns01 => r.challenge == Dns01 && r.key == None &&
      r.status in {Pending, Issuing, Valid, Renewing, Failed, Revoked}
    case ByDnsPersist => r.challenge == DnsPersist && r.key == None &&
      r.status in {PendingDns, Issuing, Valid, Renewing, Failed, Revoked}
    case ByHeldDnsPersist =>
      && r.challenge == DnsPersist
      && (r.key == None ==> r.status in {Held, AuthorizationReady, Cancelled})
      && (r.key != None ==> r.status in {Released, Issuing, Valid, Renewing, Failed, Cancelled, Revoked})
  }

  /** Which workers can be in flight on such a row. */
  predicate WorkerFits(origin: Origin, r: Row, worker: Worker) {
    && (worker.ClaimingDns01? ==> origin == ByDns01)
    && (worker.AuthorizingHeld? ==> origin == ByHeldDnsPersist)
    && (worker.Releasing? || worker.AuthorizingStart? ==> r.challenge == DnsPersist)
    && (worker.Deleting? ==> Terminal(worker.target))
    && (worker.Deleting? && origin != ByHeldDnsPersist ==> worker.target == Revoked)
    && (origin == ByHeldDnsPersist && r.key == None ==>
          || worker.AuthorizingHeld? || worker.Releasing? || worker.Rereading? || worker.Selecting?
          || (worker.Deleting? && worker.target == Cancelled))
  }

  ghost predicate Fits(origin: Origin, s: State) {
    && StatusFits(origin, s.row)
    && forall w :: w in s.workers ==> WorkerFits(origin, s.row, s.workers[w])
  }

  /** The revision counts the preparations and releases; the key records the one release. */
  predicate Counted(r: Row) {
    && r.revision == 1 + Times(r, AuthorizationIsReady) + Times(r, WasReleased)
    && Times(r, WasReleased) == (if r.key.Some? then 1 else 0)
  }

  /** Every accepted release carried the stored key. */
  ghost predicate Agreed(s: State) {
    forall reply :: reply in s.replies && reply.ReleaseAccepted? ==> s.row.key == Some(reply.key)
  }

  ghost predicate Inv(origin: Origin, s: State) {
    Fits(origin, s) && Counted(s.row) && Agreed(s)
  }

  lemma {:induction false} StatusStep(origin: Origin, s: State, a: Action)
    requires Fits(origin, s)
    ensures StatusFits(origin, Apply(s, a).row)
  {
    if !a.Stop? && a.w in s.workers { assert WorkerFits(origin, s.row, s.workers[a.w]); }
  }

  lemma {:induction false} WorkerStep(origin: Origin, s: State, a: Action)
    requires Fits(origin, s) && !a.Stop?
    ensures var t := Apply(s, a); a.w in t.workers ==> WorkerFits(origin, t.row, t.workers[a.w])
  {
    if a.w in s.workers { assert WorkerFits(origin, s.row, s.workers[a.w]); }
  }

  /** The others stay; what fits a row without a key fits it with one. */
  lemma {:induction false} OthersStep(origin: Origin, s: State, a: Action, w: nat)
    requires Fits(origin, s) && (a.Stop? || a.w != w)
    ensures var t := Apply(s, a);
            w in t.workers ==> w in s.workers && t.workers[w] == s.workers[w] && WorkerFits(origin, t.row, s.workers[w])
  {
    if w in s.workers { assert WorkerFits(origin, s.row, s.workers[w]); }
  }

  lemma {:induction false} FitsStep(origin: Origin, s: State, a: Action)
    requires Fits(origin, s)
    ensures Fits(origin, Apply(s, a))
  {
    StatusStep(origin, s, a);
    if !a.Stop? { WorkerStep(origin, s, a); }
    forall w | a.Stop? || a.w != w { OthersStep(origin, s, a, w); }
    hide Apply, StatusFits, WorkerFits;
  }

  lemma {:induction false} Append(r: Row, e: Event, x: Event)
    ensures Count(r.events + [e], x) == Times(r, x) + if x == e then 1 else 0
  {
  }

  /** What a step of a worker appends to the events of the row. */
  function Appended(s: State, a: Action): seq<Event>
    ensures Apply(s, a).row.events == s.row.events + Appended(s, a)
  {
    assert s.row.events + [] == s.row.events;
    Apply(s, a).row.events[|s.row.events|..]
  }

  /** What the appended event says about the rest of the step. */
  lemma {:induction false} AppendedMeans(s: State, a: Action)
    ensures var t, added := Apply(s, a), Appended(s, a);
            && |added| <= 1
            && t.row.revision == s.row.revision
                 + (if added == [AuthorizationIsReady] || added == [WasReleased] then 1 else 0)
            && (t.row.key.Some? <==> s.row.key.Some? || added == [WasReleased])
            && (added == [WasReleased] ==> s.row.key == None)
            && (added == [Issued] || added == [IssuanceFailed] ==>
                  s.row.status == Issuing && t.row.status != Issuing)
  {
  }

  /** A step that appends at most one event raises the count of that event alone. */
  lemma {:induction false} AppendedTimes(s: State, a: Action)
    ensures forall x :: Times(Apply(s, a).row, x) == Times(s.row, x) + if Appended(s, a) == [x] then 1 else 0
  {
    AppendedMeans(s, a);
    var t, added := Apply(s, a).row, Appended(s, a);
    assert t.events == s.row.events + added;
    hide Apply, Appended;
    if added == [] {
      assert t.events == s.row.events;
    } else {
      assert added == [added[0]];
      forall x { Append(s.row, added[0], x); }
    }
  }

  lemma {:induction false} CountedStep(s: State, a: Action)
    requires Counted(s.row)
    ensures Counted(Apply(s, a).row)
  {
    AppendedMeans(s, a);
    AppendedTimes(s, a);
    hide Apply, Appended, Times;
  }

  /** The release key is stored once, and no step changes it. */
  lemma {:induction false} KeyStep(s: State, a: Action)
    ensures s.row.key.Some? ==> Apply(s, a).row.key == s.row.key
  {
  }

  lemma {:induction false} AgreedStep(s: State, a: Action)
    requires Agreed(s)
    ensures Agreed(Apply(s, a))
  {
  }

  lemma {:induction false} InvRun(origin: Origin, s: State, actions: seq<Action>)
    requires Inv(origin, s)
    ensures Inv(origin, Run(s, actions))
    ensures s.row.key.Some? ==> Run(s, actions).row.key == s.row.key
    decreases |actions|
  {
    if actions != [] {
      FitsStep(origin, s, actions[0]);
      CountedStep(s, actions[0]);
      KeyStep(s, actions[0]);
      AgreedStep(s, actions[0]);
      InvRun(origin, Apply(s, actions[0]), actions[1..]);
    }
  }

  lemma {:induction false} Reachable(origin: Origin, actions: seq<Action>)
    ensures Inv(origin, Run(Init(origin), actions))
  {
    InvRun(origin, Init(origin), actions);
  }

  // ---- Lifecycle graph ------------------------------------------------------------------

  predicate Edge(a: Status, b: Status) {
    || (a == Held && (b == AuthorizationReady || b == Released))
    || (a == AuthorizationReady && b == Released)
    || ((a == Released || a == PendingDns || a == Failed) && b == Issuing)
    || (a == Issuing && (b == Valid || b == Failed))
    || b == Cancelled || b == Revoked
  }

  predicate Renewer(worker: Worker) { worker.ClaimingRenewal? || worker.RenewingAt? }

  ghost predicate NoRenewer(s: State) {
    forall w :: w in s.workers ==> !Renewer(s.workers[w])
  }

  /** DNS Persist rows without a renewal in flight move along the edges of the graph only. */
  lemma {:induction false} LifecycleRefinesGraph(origin: Origin, actions: seq<Action>, a: Action)
    requires origin != ByDns01
    requires NoRenewer(Run(Init(origin), actions))
    ensures var s := Run(Init(origin), actions);
            var before, after := s.row.status, Apply(s, a).row.status;
            after == before || Edge(before, after)
  {
    Reachable(origin, actions);
    hide Run, Init;
    EdgeStep(origin, Run(Init(origin), actions), a);
  }

  lemma {:induction false} EdgeStep(origin: Origin, s: State, a: Action)
    requires Fits(origin, s) && origin != ByDns01 && NoRenewer(s)
    ensures var before, after := s.row.status, Apply(s, a).row.status;
            after == before || Edge(before, after)
  {
  }

  /**
   A row created held that has no release key is held, ready or cancelled; any other row never gets
   a key and is never cancelled. Renewals and stale deletes are included.
   */
  lemma {:induction false} HeldUntilReleased(origin: Origin, actions: seq<Action>)
    ensures var r := Run(Init(origin), actions).row;
            if origin == ByHeldDnsPersist
            then (r.key == None ==> r.status in {Held, AuthorizationReady, Cancelled})
                 && (r.status in {Held, AuthorizationReady} ==> r.key == None)
            else r.key == None && r.status !in {Held, AuthorizationReady, Released, Cancelled}
  {
    Reachable(origin, actions);
  }

  // ---- Releases -------------------------------------------------------------------------

  /**
   However many releases run and are retried, all that succeed carry one key, the stored one; the
   key outlives every continuation; and the revision counts the events.
   */
  lemma {:induction false} ReleaseAgreement(origin: Origin, actions: seq<Action>, more: seq<Action>)
    ensures var s, t := Run(Init(origin), actions), Run(Init(origin), actions + more);
            && (forall x, y :: x in s.replies && y in s.replies && x.ReleaseAccepted? && y.ReleaseAccepted? ==>
                  x.key == y.key && s.row.key == Some(x.key))
            && (s.row.key.Some? ==> t.row.key == s.row.key)
            && s.row.revision == 1 + Times(s.row, AuthorizationIsReady) + Times(s.row, WasReleased)
            && Times(s.row, WasReleased) <= 1
            && (s.row.key.Some? <==> Times(s.row, WasReleased) == 1)
  {
    Reachable(origin, actions);
    RunAppend(Init(origin), actions, more);
    InvRun(origin, Run(Init(origin), actions), more);
  }

  /**
   After a process stop at any point a row with a release key is where the startup query finds it,
   or has already left for one of the later states.
   */
  lemma {:induction false} NoReleaseIsLost(origin: Origin, actions: seq<Action>)
    requires Run(Init(origin), actions + [Stop]).row.key.Some?
    ensures var r := Run(Init(origin), actions + [Stop]).row;
            Resumable(r) || r.status in {Valid, Renewing, Failed, Cancelled, Revoked}
  {
    Reachable(origin, actions + [Stop]);
  }

  /** The WHERE clause of the startup query. */
  predicate Resumable(r: Row) {
    r.challenge == DnsPersist && r.key.Some? && (r.status == Released || r.status == Issuing)
  }

  /** The row that a release leaves. */
  predicate ReleasedBy(r: Row, t: Row, key: string) {
    t == r.(status := Released, revision := r.revision + 1, key := Some(key), events := r.events + [WasReleased])
  }

  /**
   The update of a release, whatever has happened since the row was read: it goes through exactly on a row
   that is held or ready, has no key and has the given revision, and then it is the release.
   */
  lemma {:induction false} ReleasingStep(s: State, w: nat, outcome: Outcome)
    requires w in s.workers && s.workers[w].Releasing?
    ensures var (t, seen) := (Apply(s, Step(w, outcome)), s.workers[w]);
            if s.row.status in {Held, AuthorizationReady} && s.row.key == None && s.row.revision == seen.revision
            then ReleasedBy(s.row, t.row, seen.key) && t.workers == s.workers - {w}
                 && t.replies == s.replies + [ReleaseAccepted(seen.key)]
            else t.row == s.row && t.replies == s.replies && t.workers == s.workers[w := Rereading(seen.key)]
  {
  }

  /**
   Which releases succeed, in every state that a run can reach: those that repeat the stored key, and those of
   the present revision while the row is held or ready. All others are refused and change nothing.
   */
  lemma {:induction false} ReleaseSucceedsIff(origin: Origin, actions: seq<Action>, w: nat, revision: int, key: string,
                                              outcome: Outcome)
    requires w !in Run(Init(origin), actions).workers
    ensures var s := Run(Init(origin), actions);
            var t := Run(s, [Release(w, revision, key), Step(w, outcome), Step(w, outcome)]);
            var opens := s.row.status in {Held, AuthorizationReady} && s.row.revision == revision;
            var accepted := opens || s.row.key == Some(key);
            && t.replies == s.replies + [if accepted then ReleaseAccepted(key) else ReleaseRefused(key)]
            && t.workers == s.workers
            && if opens then ReleasedBy(s.row, t.row, key) else t.row == s.row
  {
    Reachable(origin, actions);
    var s := Run(Init(origin), actions);
    RunThree(s, Release(w, revision, key), Step(w, outcome), Step(w, outcome));
    hide Run, Init;
    assert StatusFits(origin, s.row);
    assert s.workers[w := Releasing(revision, key)] - {w} == s.workers;
    assert s.workers[w := Releasing(revision, key)][w := Rereading(key)] - {w} == s.workers;
  }

  // ---- What the steps of the other workers write ----------------------------------------

  /** An authorization makes a held row ready, if nobody has changed it since, and starts a pending or failed one. */
  lemma {:induction false} AuthorizingStep(s: State, w: nat, outcome: Outcome)
    requires w in s.workers && (s.workers[w].AuthorizingHeld? || s.workers[w].AuthorizingStart?)
    ensures var (r, t) := (s.row, Apply(s, Step(w, outcome)));
            && t.workers == s.workers - {w} && t.replies == s.replies
            && t.row ==
               if s.workers[w].AuthorizingHeld? && r.status == Held && r.revision == s.workers[w].seen
               then r.(status := AuthorizationReady, revision := r.revision + 1,
                       events := r.events + [AuthorizationIsReady])
               else if s.workers[w].AuthorizingStart? && r.status in {PendingDns, Failed}
               then r.(status := Issuing, events := r.events + [AuthorizationRequested])
               else r
  {
  }

  /** An outcome reaches an ISSUING row only; the claim of a dns-01 row overwrites any status. */
  lemma {:induction false} IssuingStep(s: State, w: nat, outcome: Outcome)
    requires w in s.workers && (s.workers[w].AtBackend? || s.workers[w].ClaimingDns01?)
    ensures var (r, t) := (s.row, Apply(s, Step(w, outcome)));
            && t.replies == s.replies
            && (s.workers[w].ClaimingDns01? ==>
                  t.row == r.(status := Issuing) && t.workers == s.workers[w := AtBackend])
            && (s.workers[w].AtBackend? ==> t.workers == s.workers - {w})
            && (s.workers[w].AtBackend? && r.status != Issuing ==> t.row == r)
            && (s.workers[w].AtBackend? && r.status == Issuing ==>
                  t.row == if outcome.Success?
                           then r.(status := Valid, expiry := Some(outcome.expiry), generation := outcome.generation,
                                   events := r.events + [Issued])
                           else r.(status := Failed, events := r.events + [IssuanceFailed]))
  {
  }

  /** A delete writes its target over any status, unless it has read that very status; it always says so. */
  lemma {:induction false} DeletingStep(s: State, w: nat, outcome: Outcome)
    requires w in s.workers && s.workers[w].Deleting?
    ensures var (r, t, seen) := (s.row, Apply(s, Step(w, outcome)), s.workers[w]);
            && t.workers == s.workers - {w} && t.replies == s.replies
            && t.row == r.(status := if seen.target == seen.seenStatus then r.status else seen.target,
                           events := r.events + [if seen.target == Cancelled then WasCancelled else WasRevoked])
  {
  }

  /**
   A renewal writes its status over any other. Expiry and generation are written where they differ from
   what it has read, so a selection in between survives a renewal that brings neither.
   */
  lemma {:induction false} RenewingStep(s: State, w: nat, outcome: Outcome)
    requires w in s.workers && s.workers[w].RenewingAt?
    ensures var (r, t, seen) := (s.row, Apply(s, Step(w, outcome)).row, s.workers[w].loaded);
            && t == r.(status := t.status, expiry := t.expiry, generation := t.generation, events := t.events)
            && t.status == (if outcome.Failure? then Failed else Valid)
            && t.events == r.events + [if outcome.Success? then Renewed else RenewalFailed]
            && (outcome.Success? && Some(outcome.expiry) != seen.expiry ==> t.expiry == Some(outcome.expiry))
            && (outcome.Success? && outcome.generation != seen.generation ==> t.generation == outcome.generation)
            && (!outcome.Success? || Some(outcome.expiry) == seen.expiry ==> t.expiry == r.expiry)
            && (!outcome.Success? || outcome.generation == seen.generation ==> t.generation == r.generation)
  {
  }

  /** So does a selection, which leaves status, key and events alone and records its own key. */
  lemma {:induction false} SelectingStep(s: State, w: nat, outcome: Outcome)
    requires w in s.workers && s.workers[w].Selecting?
    ensures var (r, t, seen) := (s.row, Apply(s, Step(w, outcome)).row, s.workers[w]);
            && t == r.(expiry := t.expiry, generation := t.generation, selection := Some(seen.key))
            && (Some(seen.generation) != seen.loaded.generation ==> t.generation == Some(seen.generation))
            && (Some(seen.generation) == seen.loaded.generation ==> t.generation == r.generation)
            && (Some(seen.expiry) != seen.loaded.expiry ==> t.expiry == Some(seen.expiry))
            && (Some(seen.expiry) == seen.loaded.expiry ==> t.expiry == r.expiry)
  {
  }

  /** Every row says once that it was created, and says it first. */
  lemma {:induction false} CreatedFirst(origin: Origin, actions: seq<Action>)
    ensures var events := Run(Init(origin), actions).row.events;
            events != [] && events[0] == Created && Created !in events[1..]
  {
    CreatedRun(Init(origin), actions);
  }

  lemma {:induction false} CreatedRun(s: State, actions: seq<Action>)
    requires s.row.events != [] && s.row.events[0] == Created && Created !in s.row.events[1..]
    ensures var events := Run(s, actions).row.events;
            events != [] && events[0] == Created && Created !in events[1..]
    decreases |actions|
  {
    if actions != [] {
      var t := Apply(s, actions[0]);
      AppendsNoCreation(s, actions[0]);
      assert t.row.events[1..] == s.row.events[1..] + Appended(s, actions[0]);
      hide Apply, Appended;
      CreatedRun(t, actions[1..]);
    }
  }

  lemma {:induction false} AppendsNoCreation(s: State, a: Action)
    ensures Apply(s, a).row.events == s.row.events + Appended(s, a) && Created !in Appended(s, a)
  {
  }

  // ---- Outcomes -------------------------------------------------------------------------

  function Unit(b: bool): nat { if b then 1 else 0 }

  /** How often a run enters ISSUING from another status. */
  function Entries(s: State, actions: seq<Action>): nat
    decreases |actions|
  {
    if actions == [] then 0
    else
      var t := Apply(s, actions[0]);
      Unit(s.row.status != Issuing && t.row.status == Issuing) + Entries(t, actions[1..])
  }

  /** How often a run leaves ISSUING without an outcome event: deletes and stale renewals. */
  function Overwritten(s: State, actions: seq<Action>): nat
    decreases |actions|
  {
    if actions == [] then 0
    else
      var t := Apply(s, actions[0]);
      Unit(s.row.status == Issuing && t.row.status != Issuing && Outcomes(t.row) == Outcomes(s.row))
        + Overwritten(t, actions[1..])
  }

  function Outcomes(r: Row): nat { Times(r, Issued) + Times(r, IssuanceFailed) }

  lemma {:induction false} OutcomeStep(s: State, a: Action)
    ensures var t := Apply(s, a);
            Outcomes(t.row) + Unit(t.row.status == Issuing) + Overwritten(s, [a])
              == Outcomes(s.row) + Unit(s.row.status == Issuing) + Entries(s, [a])
  {
    AppendedMeans(s, a);
    AppendedTimes(s, a);
    assert [a][1..] == [];
    hide Apply, Appended, Times;
  }

  lemma {:induction false} OutcomeRun(s: State, actions: seq<Action>)
    ensures var t := Run(s, actions);
            Outcomes(t.row) + Unit(t.row.status == Issuing) + Overwritten(s, actions)
              == Outcomes(s.row) + Unit(s.row.status == Issuing) + Entries(s, actions)
    decreases |actions|
  {
    if actions != [] {
      var a := actions[0];
      OutcomeStep(s, a);
      assert [a][1..] == [];
      OutcomeRun(Apply(s, a), actions[1..]);
    }
  }

  /**
   Every entry into ISSUING is accounted for once: by an issued event, by a failed event, by the row
   being ISSUING now, or by an overwrite. So outcomes never outnumber claims, however many workers,
   retries and recoveries run the same claim.
   */
  lemma {:induction false} OutcomesAreConserved(origin: Origin, actions: seq<Action>)
    ensures var r := Run(Init(origin), actions).row;
            Times(r, Issued) + Times(r, IssuanceFailed) + Unit(r.status == Issuing)
              + Overwritten(Init(origin), actions) == Entries(Init(origin), actions)
  {
    OutcomeRun(Init(origin), actions);
  }

  // ---- Interrupted renewals -------------------------------------------------------------

  /** Workers that leave the status of a renewing row alone. */
  predicate Idle(worker: Worker) {
    worker.Releasing? || worker.Rereading? || worker.Selecting?
  }

  /**
   A renewal that the process stop cut short is not resumed: without a delete the row is RENEWING
   for ever, whatever is called afterwards.
   */
  lemma {:induction false} InterruptedRenewalStays(s: State, actions: seq<Action>)
    requires s.row.status == Renewing && forall w :: w in s.workers ==> Idle(s.workers[w])
    requires forall a :: a in actions ==> !a.DeleteCall?
    ensures Run(s, actions).row.status == Renewing
    decreases |actions|
  {
    if actions != [] {
      var a := actions[0];
      assert a in actions;
      if !a.Stop? && a.w in s.workers { assert Idle(s.workers[a.w]); }
      InterruptedRenewalStays(Apply(s, a), actions[1..]);
    }
  }
}
