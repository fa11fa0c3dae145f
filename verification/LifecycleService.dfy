/**
 The certificate service as it runs when no other worker interferes: each method updates the rows
 in place, and its contract is the run of the concurrent machine that the call stands for.
 */
module LifecycleService {
  import opened Basics
  import opened Lifecycle

  datatype ServiceError = NotFound | NotDnsPersist | StaleRevision | NotRenewable

  /** A whole call on a row that nobody else touches: the read and all the steps that follow. */
  function Solo(r: Row, call: Action, outcome: Outcome): State {
    var read := Apply(State(r, map[], []), call);
    Apply(Apply(read, Step(0, outcome)), Step(0, outcome))
  }

  /** A solo call is a run of the machine. */
  lemma {:induction false} SoloIsRun(r: Row, call: Action, outcome: Outcome)
    ensures Solo(r, call, outcome) ==
              Run(State(r, map[], []), [call, Step(0, outcome), Step(0, outcome)])
  {
    var s0 := State(r, map[], []);
    var actions := [call, Step(0, outcome), Step(0, outcome)];
    var s1 := Apply(s0, actions[0]);
    var s2 := Apply(s1, actions[1..][0]);
    assert Run(s0, actions) == Run(s1, actions[1..]);
    assert Run(s1, actions[1..]) == Run(s2, actions[1..][1..]);
    assert Run(s2, actions[1..][1..]) ==
           Run(Apply(s2, actions[1..][1..][0]), actions[1..][1..][1..]);
    assert actions[1..][1..][1..] == [];
  }

  /** A row that some run of the machine could have stored, when nobody works on it. */
  ghost predicate RowFits(r: Row) { exists origin :: Inv(origin, State(r, map[], [])) }

  ghost predicate RowsFit(rows: map<nat, Row>) { forall id :: id in rows ==> RowFits(rows[id]) }

  /** What every run keeps, every call of the service keeps. */
  lemma {:induction false} SoloKeeps(r: Row, call: Action, outcome: Outcome)
    requires RowFits(r)
    ensures RowFits(Solo(r, call, outcome).row)
  {
    SoloIsRun(r, call, outcome);
    var s := State(r, map[], []);
    var origin :| Inv(origin, s);
    var actions := [call, Step(0, outcome), Step(0, outcome)];
    hide Run, Solo;
    InvRun(origin, s, actions);
    assert Inv(origin, State(Solo(r, call, outcome).row, map[], []));
  }

  lemma {:induction false} UpdateKeeps(rows: map<nat, Row>, id: nat, call: Action, outcome: Outcome)
    requires id in rows
    ensures RowsFit(rows) ==> RowsFit(rows[id := Solo(rows[id], call, outcome).row])
  {
    hide Solo, RowFits;
    if RowsFit(rows) { SoloKeeps(rows[id], call, outcome); }
  }

  /** What recovery makes of a row that the startup query selects. */
  function Recovered(r: Row, outcome: Outcome): Row {
    Solo(r, if r.status == Released then IssueReleased(0) else IssueDnsPersist(0), outcome).row
  }

  /** A recovered row has its outcome: valid on success, failed otherwise, with one more event. */
  lemma {:induction false} RecoveredHasOutcome(r: Row, outcome: Outcome)
    requires Resumable(r)
    ensures var t := Recovered(r, outcome);
            && t.status == (if outcome.Success? then Valid else Failed)
            && Outcomes(t) == Outcomes(r) + 1
            && t.key == r.key && t.revision == r.revision
            && !Resumable(t)
  {
    var t := Recovered(r, outcome);
    var e := if outcome.Success? then Issued else IssuanceFailed;
    assert t.events == r.events + [e];
    hide Recovered;
    Append(r, e, Issued);
    Append(r, e, IssuanceFailed);
  }

  /**
   A renewal that nobody disturbs ends VALID unless it fails for good, keeps expiry and generation when
   it fails at all, and reports itself in exactly one event.
   */
  lemma {:induction false} RenewalHasOutcome(r: Row, outcome: Outcome)
    requires r.status == Valid
    ensures var t := Solo(r, Renew(0), outcome).row;
            && t.status == (if outcome.Failure? then Failed else Valid)
            && t.events == r.events + [if outcome.Success? then Renewed else RenewalFailed]
            && (outcome.Success? ==> t.expiry == Some(outcome.expiry) && t.generation == outcome.generation)
            && (!outcome.Success? ==> t.expiry == r.expiry && t.generation == r.generation)
            && t.key == r.key && t.revision == r.revision
  {
  }

  /** One row ends VALID with what was issued, or FAILED, and says so in one event; the others stay. */
  ghost predicate EndsWith(before: map<nat, Row>, after: map<nat, Row>, id: nat, outcome: Outcome)
    requires id in before
  {
    match outcome
    case Success(expiry, generation) =>
      after == before[id := before[id].(status := Valid, expiry := Some(expiry), generation := generation,
                                        events := before[id].events + [Issued])]
    case _ => after == before[id := before[id].(status := Failed, events := before[id].events + [IssuanceFailed])]
  }

  class CertificateService {
    var rows: map<nat, Row>

    constructor ()
      ensures rows == map[]
    {
      rows := map[];
    }

    /** The end of an issuance: a guarded update to VALID or FAILED with its event. */
    method IssueAndDeploy(id: nat, outcome: Outcome)
      requires id in rows
      modifies this
      ensures var r := old(rows)[id];
              rows == old(rows)[id := if Finish(r, outcome).Some? then Finish(r, outcome).value else r]
      ensures old(rows)[id].status != Issuing ==> rows == old(rows)
      ensures old(rows)[id].status == Issuing ==> EndsWith(old(rows), rows, id, outcome)
    {
      var r := rows[id];
      match outcome {
        case Success(expiry, generation) =>
          if r.status == Issuing {
            rows := rows[id := r.(expiry := Some(expiry), status := Valid, generation := generation,
                                  events := r.events + [Issued])];
          }
        case _ =>
          MarkFailed(id);
      }
    }

    method MarkFailed(id: nat)
      requires id in rows
      modifies this
      ensures var r := old(rows)[id];
              rows == old(rows)[id := if r.status == Issuing
                                      then r.(status := Failed, events := r.events + [IssuanceFailed])
                                      else r]
    {
      var r := rows[id];
      if r.status == Issuing {
        rows := rows[id := r.(status := Failed, events := r.events + [IssuanceFailed])];
      }
    }

    method IssueCertificate(id: nat, outcome: Outcome)
      modifies this
      ensures id !in old(rows) ==> rows == old(rows)
      ensures id in old(rows) ==> rows == old(rows)[id := Solo(old(rows)[id], IssueDns01(0), outcome).row]
      ensures id in old(rows) && old(rows)[id].status != Pending ==> rows == old(rows)
      ensures id in old(rows) && old(rows)[id].status == Pending ==> EndsWith(old(rows), rows, id, outcome)
      ensures old(RowsFit(rows)) ==> RowsFit(rows)
    {
      hide RowsFit;
      if id in rows { UpdateKeeps(rows, id, IssueDns01(0), outcome); }
      if id !in rows || rows[id].status != Pending {
        return;
      }
      rows := rows[id := rows[id].(status := Issuing)];
      IssueAndDeploy(id, outcome);
    }

    /** The flag tells the router to queue the issuance. */
    method AuthorizeDnsPersist(id: nat)
      returns (r: Result<bool, ServiceError>)
      modifies this
      ensures r.Err? <==> id !in old(rows) || old(rows)[id].challenge != DnsPersist
      ensures id !in old(rows) ==> r == Err(NotFound) && rows == old(rows)
      ensures id in old(rows) ==>
                && rows == old(rows)[id := Solo(old(rows)[id], Authorize(0), Failure).row]
                && (r == Ok(true) <==> old(rows)[id].status != Issuing && rows[id].status == Issuing)
      ensures id in old(rows) && old(rows)[id].challenge != DnsPersist ==> r == Err(NotDnsPersist) && rows == old(rows)
      ensures id in old(rows) && old(rows)[id].challenge == DnsPersist ==>
                var row := old(rows)[id];
                if row.status == Held then
                  && r == Ok(false)
                  && rows == old(rows)[id := row.(status := AuthorizationReady, revision := row.revision + 1,
                                                  events := row.events + [AuthorizationIsReady])]
                else if row.status == PendingDns || row.status == Failed then
                  && r == Ok(true)
                  && rows == old(rows)[id := row.(status := Issuing, events := row.events + [AuthorizationRequested])]
                else r == Ok(false) && rows == old(rows)
      ensures old(RowsFit(rows)) ==> RowsFit(rows)
    {
      hide RowsFit;
      if id in rows { UpdateKeeps(rows, id, Authorize(0), Failure); }
      if id !in rows {
        return Err(NotFound);
      }
      var row := rows[id];
      if row.challenge != DnsPersist {
        return Err(NotDnsPersist);
      }
      if row.status == Held {
        rows := rows[id := row.(status := AuthorizationReady, revision := row.revision + 1,
                                events := row.events + [AuthorizationIsReady])];
        return Ok(false);
      }
      if row.status != PendingDns && row.status != Failed {
        return Ok(false);
      }
      rows := rows[id := row.(status := Issuing, events := row.events + [AuthorizationRequested])];
      return Ok(true);
    }

    /** Accepted exactly when the machine accepts; the flag tells the router to queue the issuance. */
    method ReleaseHeld(id: nat, revision: int, key: string)
      returns (r: Result<bool, ServiceError>)
      modifies this
      ensures id !in old(rows) ==> r == Err(NotFound) && rows == old(rows)
      ensures id in old(rows) ==>
                var solo := Solo(old(rows)[id], Release(0, revision, key), Failure);
                && rows == old(rows)[id := solo.row]
                && solo.replies == [if r.Ok? then ReleaseAccepted(key) else ReleaseRefused(key)]
                && (r.Ok? ==> r.value == (rows[id].status == Released))
      ensures id in old(rows) && old(rows)[id].challenge != DnsPersist ==> r == Err(NotDnsPersist) && rows == old(rows)
      ensures id in old(rows) && old(rows)[id].challenge == DnsPersist ==>
                var row := old(rows)[id];
                if row.key == Some(key) then r == Ok(row.status == Released) && rows == old(rows)
                else if row.key == None && row.revision == revision
                        && (row.status == Held || row.status == AuthorizationReady) then
                  && r == Ok(true)
                  && rows == old(rows)[id := row.(status := Released, revision := revision + 1, key := Some(key),
                                                  events := row.events + [WasReleased])]
                else r == Err(StaleRevision) && rows == old(rows)
      ensures old(RowsFit(rows)) ==> RowsFit(rows)
    {
      hide RowsFit;
      if id in rows { UpdateKeeps(rows, id, Release(0, revision, key), Failure); }
      if id !in rows {
        return Err(NotFound);
      }
      var row := rows[id];
      if row.challenge != DnsPersist {
        return Err(NotDnsPersist);
      }
      if row.key == Some(key) {
        return Ok(row.status == Released);
      }
      if row.revision == revision && row.key == None
         && (row.status == Held || row.status == AuthorizationReady) {
        rows := rows[id := row.(status := Released, revision := row.revision + 1, key := Some(key),
                                events := row.events + [WasReleased])];
        return Ok(true);
      }
      return Err(StaleRevision);
    }

    method IssueReleasedDnsPersist(id: nat, outcome: Outcome)
      modifies this
      ensures id !in old(rows) ==> rows == old(rows)
      ensures id in old(rows) ==> rows == old(rows)[id := Solo(old(rows)[id], IssueReleased(0), outcome).row]
      ensures id in old(rows) && old(rows)[id].status != Released ==> rows == old(rows)
      ensures id in old(rows) && old(rows)[id].status == Released ==> EndsWith(old(rows), rows, id, outcome)
      ensures old(RowsFit(rows)) ==> RowsFit(rows)
    {
      hide RowsFit;
      if id in rows { UpdateKeeps(rows, id, IssueReleased(0), outcome); }
      if id !in rows || rows[id].status != Released {
        return;
      }
      rows := rows[id := rows[id].(status := Issuing)];
      IssueAndDeploy(id, outcome);
    }

    method IssueAuthorizedDnsPersist(id: nat, outcome: Outcome)
      modifies this
      ensures id !in old(rows) ==> rows == old(rows)
      ensures id in old(rows) ==> rows == old(rows)[id := Solo(old(rows)[id], IssueDnsPersist(0), outcome).row]
      ensures id in old(rows) && old(rows)[id].status != Issuing ==> rows == old(rows)
      ensures id in old(rows) && old(rows)[id].status == Issuing ==> EndsWith(old(rows), rows, id, outcome)
      ensures old(RowsFit(rows)) ==> RowsFit(rows)
    {
      hide RowsFit;
      if id in rows { UpdateKeeps(rows, id, IssueDnsPersist(0), outcome); }
      if id !in rows || rows[id].status != Issuing {
        return;
      }
      IssueAndDeploy(id, outcome);
    }

    /** Soft delete. */
    method RevokeCertificate(id: nat)
      returns (r: Result<(), ServiceError>)
      modifies this
      ensures r.Ok? <==> id in old(rows)
      ensures id !in old(rows) ==> rows == old(rows)
      ensures id in old(rows) ==>
                && rows == old(rows)[id := Solo(old(rows)[id], DeleteCall(0), Failure).row]
                && Terminal(rows[id].status)
      ensures id in old(rows) ==>
                var row := old(rows)[id];
                var cancels := || row.status in {Held, AuthorizationReady, Cancelled}
                               || (row.status == Released && row.revision > 0)
                               || (row.status == Issuing && row.key != None);
                rows == old(rows)[id := row.(status := if cancels then Cancelled else Revoked,
                                             events := row.events + [if cancels then WasCancelled else WasRevoked])]
      ensures old(RowsFit(rows)) ==> RowsFit(rows)
    {
      hide RowsFit;
      if id in rows { UpdateKeeps(rows, id, DeleteCall(0), Failure); }
      if id !in rows {
        return Err(NotFound);
      }
      var row := rows[id];
      var held := row.status in {Held, AuthorizationReady, Cancelled}
                  || (row.status == Released && row.revision > 0)
                  || (row.status == Issuing && row.key.Some?);
      rows := rows[id := row.(status := if held then Cancelled else Revoked,
                              events := row.events + [if held then WasCancelled else WasRevoked])];
      return Ok(());
    }

    method RequestManualRenewal(id: nat)
      returns (r: Result<(), ServiceError>)
      modifies this
      ensures r.Ok? <==> id in old(rows) && old(rows)[id].status == Valid
      ensures id !in old(rows) ==> rows == old(rows)
      ensures id in old(rows) ==> rows == old(rows)[id := Solo(old(rows)[id], Action.ManualRenewal(0), Failure).row]
      ensures r.Err? ==> rows == old(rows) && r.error == if id in old(rows) then NotRenewable else NotFound
      ensures r.Ok? ==>
                rows == old(rows)[id := old(rows)[id].(events := old(rows)[id].events + [RenewalRequested])]
      ensures old(RowsFit(rows)) ==> RowsFit(rows)
    {
      hide RowsFit;
      if id in rows { UpdateKeeps(rows, id, Action.ManualRenewal(0), Failure); }
      if id !in rows {
        return Err(NotFound);
      }
      if rows[id].status != Valid {
        return Err(NotRenewable);
      }
      rows := rows[id := rows[id].(events := rows[id].events + [RenewalRequested])];
      return Ok(());
    }

    /** The rows of the startup query with the status they have now, in any order. */
    method ReleasedRows() returns (found: seq<(nat, Status)>)
      ensures forall i :: 0 <= i < |found| ==>
                && found[i].0 in rows && Resumable(rows[found[i].0]) && found[i].1 == rows[found[i].0].status
                && rows[found[i].0].challenge == DnsPersist && rows[found[i].0].key != None
                && found[i].1 in {Released, Issuing}
      ensures forall i, j :: 0 <= i < j < |found| ==> found[i].0 != found[j].0
      ensures forall id :: id in rows && Resumable(rows[id]) ==> exists i :: 0 <= i < |found| && found[i].0 == id
      ensures forall id ::
                (id in rows && rows[id].challenge == DnsPersist && rows[id].key != None
                 && rows[id].status in {Released, Issuing})
                ==> exists i :: 0 <= i < |found| && found[i].0 == id
    {
      var left := rows.Keys;
      found := [];
      while left != {}
        invariant left <= rows.Keys
        invariant forall i :: 0 <= i < |found| ==>
                    && found[i].0 in rows && found[i].0 !in left
                    && Resumable(rows[found[i].0]) && found[i].1 == rows[found[i].0].status
        invariant forall i, j :: 0 <= i < j < |found| ==> found[i].0 != found[j].0
        invariant forall id :: id in rows && Resumable(rows[id]) ==>
                    id in left || exists i :: 0 <= i < |found| && found[i].0 == id
        decreases left
      {
        var id :| id in left;
        left := left - {id};
        if Resumable(rows[id]) {
          ghost var before := found;
          found := found + [(id, rows[id].status)];
          assert found[|before|].0 == id;
          assert forall i :: 0 <= i < |before| ==> found[i] == before[i];
        }
      }
    }

    method ResumeOne(id: nat, status: Status, outcome: Outcome)
      requires id in rows && Resumable(rows[id]) && status == rows[id].status
      modifies this
      ensures rows == old(rows)[id := Recovered(old(rows)[id], outcome)]
    {
      if status == Released {
        IssueReleasedDnsPersist(id, outcome);
      } else {
        IssueAuthorizedDnsPersist(id, outcome);
      }
    }

    /**
     Startup recovery. Every row of the query gets its outcome, no other row changes, and nothing is
     left for a second recovery.
     */
    method ResumeReleased(outcome: nat -> Outcome)
      modifies this
      ensures rows == RecoveredAll(old(rows), outcome)
      ensures forall id :: id in rows ==> !Resumable(rows[id])
      ensures rows.Keys == old(rows).Keys
      ensures forall id :: id in rows ==>
                var (before, after) := (old(rows)[id], rows[id]);
                if before.challenge == DnsPersist && before.key != None && before.status in {Released, Issuing}
                then after.status == (if outcome(id).Success? then Valid else Failed)
                     && after.events == before.events + [if outcome(id).Success? then Issued else IssuanceFailed]
                else after == before
      ensures old(RowsFit(rows)) ==> RowsFit(rows)
    {
      hide Recovered, Resumable, RowsFit;
      var found := ReleasedRows();
      ghost var before := rows;
      ghost var goal := RecoveredAll(rows, outcome);
      for k := 0 to |found|
        invariant rows.Keys == before.Keys
        invariant forall i :: 0 <= i < k ==> rows[found[i].0] == goal[found[i].0]
        invariant forall i :: k <= i < |found| ==> rows[found[i].0] == before[found[i].0]
        invariant forall id :: id in rows && !Resumable(before[id]) ==> rows[id] == before[id]
      {
        ResumeOne(found[k].0, found[k].1, outcome(found[k].0));
      }
      assert rows == goal;
      hide RecoveredAll;
      RecoveredAllIsDone(before, outcome);
      RecoveredAllEnds(before, outcome);
      RecoveredAllFits(before, outcome);
    }
  }

  /** The rows after a full recovery. */
  function RecoveredAll(rows: map<nat, Row>, outcome: nat -> Outcome): (r: map<nat, Row>)
    ensures r.Keys == rows.Keys
  {
    map id | id in rows :: if Resumable(rows[id]) then Recovered(rows[id], outcome(id)) else rows[id]
  }

  lemma {:induction false} RecoveredAllIsDone(rows: map<nat, Row>, outcome: nat -> Outcome)
    ensures forall id :: id in rows ==> !Resumable(RecoveredAll(rows, outcome)[id])
  {
  }

  /** Each row of the query ends VALID or FAILED, with its event; the others are as they were. */
  lemma {:induction false} RecoveredAllEnds(rows: map<nat, Row>, outcome: nat -> Outcome)
    ensures forall id :: id in rows ==>
              var (before, after) := (rows[id], RecoveredAll(rows, outcome)[id]);
              if before.challenge == DnsPersist && before.key != None && before.status in {Released, Issuing}
              then after.status == (if outcome(id).Success? then Valid else Failed)
                   && after.events == before.events + [if outcome(id).Success? then Issued else IssuanceFailed]
              else after == before
  {
  }

  lemma {:induction false} RecoveredAllFits(rows: map<nat, Row>, outcome: nat -> Outcome)
    ensures RowsFit(rows) ==> RowsFit(RecoveredAll(rows, outcome))
  {
    hide Solo, Resumable, RowFits;
    if RowsFit(rows) {
      forall id | id in rows ensures RowFits(RecoveredAll(rows, outcome)[id]) {
        if Resumable(rows[id]) {
          var call := if rows[id].status == Released then IssueReleased(0) else IssueDnsPersist(0);
          SoloKeeps(rows[id], call, outcome(id));
        }
      }
    }
  }
}
