/**
 A whole revocation request that meets no interference, updating the table in place. Its contract is
 the run of the lease protocol that the call stands for.
 */
module RevocationService {
  import opened Basics
  import opened Revocation

  datatype Certificate = Certificate(domain: string, issued: bool)

  datatype RevocationError = NotFound | NotIssued | ReasonConflict

  /** The clock readings of one request: at the claim, at the call and when it is done. */
  datatype Clock = Clock(claim: int, call: int, done: int)

  function Reading(worker: Worker, clock: Clock, outcome: Outcome): int {
    if worker.Ready? then clock.claim
    else if worker.Refreshed? && outcome != Error(AccountUnavailable) then clock.call
    else clock.done
  }

  /** One step of the only worker. */
  function Next(s: State, clock: Clock, outcome: Outcome): State {
    if 0 in s.workers then Advance(s, 0, Reading(s.workers[0], clock, outcome), outcome) else s
  }

  /** The insert, or the lookup that replaces it. */
  function Admit(table: seq<Row>, q: Request, clock: Clock, outcome: Outcome): State {
    var inserted := Next(State(table, map[0 := Inserting(q)], [], [], []), clock, outcome);
    if 0 in inserted.workers && inserted.workers[0].LookingUp?
    then Next(inserted, clock, outcome)
    else inserted
  }

  /** The claim, the refresh, the call and the outcome. */
  function Attempt(s: State, clock: Clock, outcome: Outcome): State {
    Next(Next(Next(Next(s, clock, outcome), clock, outcome), clock, outcome), clock, outcome)
  }

  function Solo(table: seq<Row>, q: Request, clock: Clock, outcome: Outcome): State {
    Attempt(Admit(table, q, clock, outcome), clock, outcome)
  }

  /** The outcome columns, all of them new. */
  function Finished(r: Row, outcome: Outcome, done: int): Row {
    match outcome
    case Success => r.(status := Succeeded, completedAt := Some(done))
    case Error(f) => r.(status := Failed, error := Some(CategoryOf(f)), completedAt := Some(done))
  }

  /** The call for a row, under the lease just taken. */
  function Asked(r: Row, id: nat, clock: Clock): Call { Call(id, clock.claim, clock.call, r.domain, r.reason) }

  /** A claimable row is claimed and gets the outcome; otherwise the attempt only reports it. */
  lemma {:induction false} AttemptResult(table: seq<Row>, q: Request, id: nat, clock: Clock,
                                         outcome: Outcome)
    requires id < |table|
    ensures var s := Attempt(State(table, map[0 := Ready(q, id)], [], [], []), clock, outcome);
            if Claimable(table[id], clock.claim) then
              var row := Finished(table[id].(startedAt := Some(clock.claim)), outcome, clock.done);
              s.table == table[id := row] && s.replies == [Returned(q, id, row.status)]
              && s.claims == [(id, clock.claim)]
              && s.calls == (if outcome == Error(AccountUnavailable) then [] else [Asked(table[id], id, clock)])
            else
              s.table == table && s.replies == [Returned(q, id, table[id].status)] && s.claims == [] && s.calls == []
  {
  }

  lemma {:induction false} IdleAttempt(s: State, clock: Clock, outcome: Outcome)
    requires 0 !in s.workers
    ensures Attempt(s, clock, outcome) == s
  {
  }

  /** No row has this certificate and key. */
  ghost predicate NoneFor(table: seq<Row>, certificate: string, key: string) {
    forall i :: 0 <= i < |table| ==> table[i].certificate != certificate || table[i].key != key
  }

  /** The first row with this certificate and key. */
  ghost predicate IsFor(table: seq<Row>, i: nat, certificate: string, key: string) {
    i < |table| && table[i].certificate == certificate && table[i].key == key && NoneFor(table[..i], certificate, key)
  }

  lemma {:induction false} FindMeans(table: seq<Row>, certificate: string, key: string)
    ensures var i := Find(table, certificate, key);
            if i < |table|
            then !NoneFor(table, certificate, key) && forall j: nat :: IsFor(table, j, certificate, key) ==> j == i
            else NoneFor(table, certificate, key) && forall j: nat :: !IsFor(table, j, certificate, key)
  {
    var i := Find(table, certificate, key);
    forall j: nat | i < j < |table| ensures !NoneFor(table[..j], certificate, key) {
      assert table[..j][i] == table[i];
    }
  }

  /** The lease was taken and the authority's answer stored. */
  predicate Attempted(before: Row, after: Row, clock: Clock, outcome: Outcome) {
    && after == before.(status := after.status, startedAt := Some(clock.claim), completedAt := Some(clock.done),
                        error := after.error)
    && after.status == Reported(outcome)
    && after.error == match outcome
                      case Success => before.error
                      case Error(Transient) => Some(TransientCategory)
                      case Error(_) => Some(TerminalCategory)
  }

  function Reported(outcome: Outcome): Status { if outcome == Success then Succeeded else Failed }

  /**
   What a request comes to. Without a row for its certificate and key one is added, for its reason and domain, and
   attempted. A row for another reason is a conflict. A row that has an outcome, or whose lease is running, is
   reported as it is; any other is attempted. No other row changes.
   */
  ghost predicate IsAnswer(before: seq<Row>, after: seq<Row>, q: Request, clock: Clock, outcome: Outcome,
                           r: Result<(nat, Status), RevocationError>) {
    && (NoneFor(before, q.certificate, q.key) ==>
          && |after| == |before| + 1 && after[..|before|] == before
          && Attempted(Row(q.certificate, q.key, q.reason, q.domain, Pending, None, None, None), after[|before|],
                       clock, outcome)
          && r == Ok((|before|, Reported(outcome))))
    && forall i: nat :: IsFor(before, i, q.certificate, q.key) ==>
         if before[i].reason != q.reason then r == Err(ReasonConflict) && after == before
         else if before[i].status != Pending || Leased(before[i], clock.claim)
         then r == Ok((i, before[i].status)) && after == before
         else |after| == |before| && after == before[i := after[i]] && Attempted(before[i], after[i], clock, outcome)
              && r == Ok((i, Reported(outcome)))
  }

  /** Somebody took the lease at most ten minutes ago. */
  predicate Leased(r: Row, now: int) { r.startedAt != None && now <= r.startedAt.value + 600_000_000 }

  class Service {
    var certificates: map<string, Certificate>
    var table: seq<Row>

    constructor (certificates: map<string, Certificate>)
      ensures this.certificates == certificates && table == []
    {
      this.certificates := certificates;
      table := [];
    }

    /** Takes the lease by one guarded update. */
    method ClaimPending(id: nat, now: int) returns (won: bool)
      requires id < |table|
      modifies `table
      ensures won == Claimable(old(table)[id], now)
      ensures table == if won then old(table)[id := old(table)[id].(startedAt := Some(now))] else old(table)
      ensures var row := old(table)[id];
              won == (row.status == Pending && (row.startedAt == None || row.startedAt.value + 600_000_000 < now))
    {
      var r := table[id];
      if r.status != Pending {
        return false;
      }
      if r.startedAt.Some? && r.startedAt.value >= now - LEASE {
        return false;
      }
      table := table[id := r.(startedAt := Some(now))];
      return true;
    }

    /** Inserts the row, or finds the one that holds its key. Only a pending row goes on to an attempt. */
    method AdmitRequest(q: Request, ghost clock: Clock, ghost outcome: Outcome)
      returns (r: Result<(nat, bool), RevocationError>)
      modifies `table
      ensures var s := Admit(old(table), q, clock, outcome);
              && table == s.table && s.claims == [] && s.calls == []
              && (r.Err? ==> r == Err(ReasonConflict) && s.workers == map[] && s.replies == [Conflict(q)])
              && (r.Ok? ==> r.value.0 < |table|)
              && (r.Ok? && r.value.1 ==> s.workers == map[0 := Ready(q, r.value.0)] && s.replies == [])
              && (r.Ok? && !r.value.1 ==>
                    s.workers == map[] && s.replies == [Returned(q, r.value.0, table[r.value.0].status)])
      ensures var i := Find(old(table), q.certificate, q.key);
              if i == |old(table)| then
                && r == Ok((i, true))
                && table == old(table) + [Row(q.certificate, q.key, q.reason, q.domain, Pending, None, None, None)]
              else
                && table == old(table)
                && r == if table[i].reason != q.reason then Err(ReasonConflict) else Ok((i, table[i].status == Pending))
    {
      var i := Find(table, q.certificate, q.key);
      if i == |table| {
        table := table + [NewRow(q)];
        return Ok((i, true));
      }
      if table[i].reason != q.reason {
        return Err(ReasonConflict);
      }
      return Ok((i, table[i].status == Pending));
    }

    /** The whole request. The outcome is what the authority answers if it is called. */
    method RequestRevocation(certificate: string, reason: Option<int>, key: string,
                             clock: Clock, outcome: Outcome)
      returns (r: Result<(nat, Status), RevocationError>)
      modifies `table
      ensures certificate !in certificates ==> r == Err(NotFound) && table == old(table)
      ensures certificate in certificates && !certificates[certificate].issued ==>
                r == Err(NotIssued) && table == old(table)
      ensures certificate in certificates && certificates[certificate].issued ==>
                IsAnswer(old(table), table, Request(certificate, key, reason, certificates[certificate].domain),
                         clock, outcome, r)
      ensures certificate in certificates && certificates[certificate].issued ==>
                var q := Request(certificate, key, reason, certificates[certificate].domain);
                var solo := Solo(old(table), q, clock, outcome);
                && table == solo.table
                && solo.replies == (match r
                                    case Ok((id, status)) => [Returned(q, id, status)]
                                    case Err(e) => [Conflict(q)])
                && (r.Err? ==> r == Err(ReasonConflict))
    {
      hide Admit, Attempt, Advance;
      if certificate !in certificates {
        return Err(NotFound);
      }
      if !certificates[certificate].issued {
        return Err(NotIssued);
      }
      var q := Request.Request(certificate, key, reason, certificates[certificate].domain);
      ghost var s := Admit(table, q, clock, outcome);
      FindMeans(table, certificate, key);
      if 0 !in s.workers { IdleAttempt(s, clock, outcome); }
      var admitted := AdmitRequest(q, clock, outcome);
      if admitted.Err? {
        return Err(ReasonConflict);
      }
      var (id, pending) := admitted.value;
      if !pending {
        return Ok((id, table[id].status));
      }
      assert s == State(table, map[0 := Ready(q, id)], [], [], []);
      var status := AttemptPending(id, q, clock, outcome);
      return Ok((id, status));
    }

    method AttemptPending(id: nat, ghost q: Request, clock: Clock, outcome: Outcome)
      returns (status: Status)
      requires id < |table|
      modifies `table
      ensures var s := Attempt(State(old(table), map[0 := Ready(q, id)], [], [], []), clock, outcome);
              table == s.table && s.replies == [Returned(q, id, status)]
      ensures var row := old(table)[id];
              if row.status != Pending || Leased(row, clock.claim)
              then table == old(table) && status == row.status
              else |table| == |old(table)| && table == old(table)[id := table[id]]
                   && Attempted(row, table[id], clock, outcome) && status == table[id].status
    {
      AttemptResult(table, q, id, clock, outcome);
      var won := ClaimPending(id, clock.claim);
      if !won {
        return table[id].status;
      }
      match outcome {
        case Error(failure) =>
          table := table[id := table[id].(status := Failed, error := Some(CategoryOf(failure)),
                                           completedAt := Some(clock.done))];
          return Failed;
        case Success =>
          table := table[id := table[id].(status := Succeeded, completedAt := Some(clock.done))];
          return Succeeded;
      }
    }
  }

  /**
   Asking again with the same key and reason returns the first answer and calls nobody; another
   reason is refused and changes nothing.
   */
  lemma {:induction false} RepeatIsIdempotent(table: seq<Row>, q: Request, p: Request, clock: Clock,
                                              outcome: Outcome)
    requires p.certificate == q.certificate && p.key == q.key
    requires var i := Find(table, q.certificate, q.key);
             i < |table| && Answers(table[i], q) && table[i].status != Pending
    ensures var i := Find(table, q.certificate, q.key);
            var again := Solo(table, p, clock, outcome);
            && again.table == table && again.calls == [] && again.claims == []
            && again.replies == [if p.reason == q.reason then Returned(p, i, table[i].status) else Conflict(p)]
  {
  }
}
