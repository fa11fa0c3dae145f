/**
 The renewal scheduler: a job table in memory, attempts that are counted over the lifetime of a
 certificate, and exponential backoff. Times are microseconds. Operations here run one at a time.
 */
module Scheduler {
  import opened Basics
  import opened Lifecycle

  const MINUTE := 60_000_000
  const DAY := 24 * 60 * MINUTE

  datatype Cert = Cert(status: Status, expiry: Option<int>)

  datatype Attempt = Attempt(certificate: string, failed: bool, retryAfter: Option<nat>)   // minutes

  /** A queued call of the renewal, with its argument. */
  datatype Job = Job(certificate: string, runAt: int)

  /** A new expiry, a transient error, or any other caught error. */
  datatype RenewalResult = NewExpiry(expiry: int) | TransientError | TerminalError

  datatype Ledger = Ledger(certs: map<string, Cert>, attempts: seq<Attempt>, jobs: map<string, Job>)

  datatype Config = Config(windowDays: nat, maxRetries: nat)

  function JobId(id: string): string { "renew:" + id }

  function RetryJobId(id: string): string { "renew-retry:" + id }

  /** The two kinds of ids never meet, and each determines its certificate. */
  lemma {:induction false} JobIdsAreDistinct(a: string, b: string)
    ensures JobId(a) != RetryJobId(b)
    ensures JobId(a) == JobId(b) ==> a == b
    ensures RetryJobId(a) == RetryJobId(b) ==> a == b
  {
    assert JobId(a)[5] == ':' && RetryJobId(b)[5] == '-';
    assert JobId(a)[6..] == a && JobId(b)[6..] == b;
    assert RetryJobId(a)[12..] == a && RetryJobId(b)[12..] == b;
  }

  function Pow2(n: nat): (p: nat)
    ensures p >= 1
  {
    if n == 0 then 1 else 2 * Pow2(n - 1)
  }

  function NextRunTime(expiry: Option<int>, windowDays: nat, now: int): Option<int> {
    if expiry.None? then None
    else
      var scheduled := expiry.value - windowDays * DAY;
      Some(if scheduled <= now then now else scheduled)
  }

  function FailedAttempts(attempts: seq<Attempt>, id: string): nat {
    if attempts == [] then 0
    else FailedAttempts(attempts[..|attempts| - 1], id)
         + (if attempts[|attempts| - 1].certificate == id && attempts[|attempts| - 1].failed then 1 else 0)
  }

  /** The failed attempts of a certificate, as positions in the list of all attempts. */
  ghost function Failures(attempts: seq<Attempt>, id: string): set<int> {
    set i | 0 <= i < |attempts| && attempts[i].certificate == id && attempts[i].failed
  }

  lemma {:induction false} FailuresAreCounted(attempts: seq<Attempt>, id: string)
    ensures FailedAttempts(attempts, id) == |Failures(attempts, id)|
    decreases |attempts|
  {
    if attempts != [] {
      var n := |attempts| - 1;
      FailuresAreCounted(attempts[..n], id);
      var last := if attempts[n].certificate == id && attempts[n].failed then {n} else {};
      assert Failures(attempts, id) == Failures(attempts[..n], id) + last;
    }
  }

  /** The delays are the powers of two. */
  lemma {:induction false} PowersMultiply(a: nat, b: nat)
    ensures Pow2(0) == 1 && Pow2(1) == 2 && Pow2(a + b) == Pow2(a) * Pow2(b)
    decreases a
  {
    if a > 0 {
      PowersMultiply(a - 1, b);
      assert Pow2(a) == 2 * Pow2(a - 1) && Pow2(a + b) == 2 * Pow2(a - 1 + b);
    }
  }

  // ---- Operations -----------------------------------------------------------------------

  function Schedule(s: Ledger, c: Config, id: string, now: int): Ledger
    requires id in s.certs
  {
    match NextRunTime(s.certs[id].expiry, c.windowDays, now)
    case None => s
    case Some(t) => s.(jobs := s.jobs[JobId(id) := Job(id, t)])
  }

  function Remove(s: Ledger, id: string): Ledger {
    s.(jobs := s.jobs - {JobId(id), RetryJobId(id)})
  }

  function RecordFailure(s: Ledger, c: Config, id: string, transient: bool, now: int): Ledger
    requires id in s.certs
  {
    var attempts := FailedAttempts(s.attempts, id);
    if transient && attempts < c.maxRetries then
      s.(certs := s.certs[id := s.certs[id].(status := Valid)],
         jobs := s.jobs[RetryJobId(id) := Job(id, now + Pow2(attempts) * MINUTE)],
         attempts := s.attempts + [Attempt(id, true, Some(Pow2(attempts)))])
    else
      s.(certs := s.certs[id := s.certs[id].(status := Failed)],
         attempts := s.attempts + [Attempt(id, true, None)])
  }

  function Renewal(s: Ledger, c: Config, id: string, result: RenewalResult, now: int): Ledger {
    if id !in s.certs || s.certs[id].status != Valid then s
    else match result
      case NewExpiry(expiry) =>
        var t := s.(certs := s.certs[id := Cert(Valid, Some(expiry))],
                    attempts := s.attempts + [Attempt(id, false, None)]);
        Schedule(t, c, id, now)
      case TransientError => RecordFailure(s, c, id, true, now)
      case TerminalError => RecordFailure(s, c, id, false, now)
  }

  /** Schedules one certificate after another. */
  function ScheduleAll(s: Ledger, c: Config, ids: seq<string>, now: int): (r: Ledger)
    requires forall i :: 0 <= i < |ids| ==> ids[i] in s.certs
    ensures r.certs == s.certs && r.attempts == s.attempts
    ensures forall id :: id in ids && s.certs[id].expiry.Some? ==> JobId(id) in r.jobs
    decreases |ids|
  {
    if ids == [] then s
    else
      var front := ids[..|ids| - 1];
      assert ids == front + [ids[|ids| - 1]];
      Schedule(ScheduleAll(s, c, front, now), c, ids[|ids| - 1], now)
  }

  /** The primary job of a certificate that has been scheduled. */
  lemma {:induction false} ScheduledJob(s: Ledger, c: Config, ids: seq<string>, now: int, id: string)
    requires forall i :: 0 <= i < |ids| ==> ids[i] in s.certs
    requires id in ids && s.certs[id].expiry != None
    ensures var opens := s.certs[id].expiry.value - c.windowDays * 86_400_000_000;
            var jobs := ScheduleAll(s, c, ids, now).jobs;
            "renew:" + id in jobs && jobs["renew:" + id] == Job(id, if opens < now then now else opens)
    decreases |ids|
  {
    var front, last := ids[..|ids| - 1], ids[|ids| - 1];
    assert ids == front + [last];
    JobIdsAreDistinct(last, id);
    if last != id { ScheduledJob(s, c, front, now, id); }
  }

  /** Other entries of the table stay. */
  lemma {:induction false} OtherJobs(s: Ledger, c: Config, ids: seq<string>, now: int, k: string)
    requires forall i :: 0 <= i < |ids| ==> ids[i] in s.certs
    requires forall id :: id in ids && s.certs[id].expiry != None ==> k != "renew:" + id
    ensures var jobs := ScheduleAll(s, c, ids, now).jobs;
            (k in jobs <==> k in s.jobs) && (k in jobs ==> jobs[k] == s.jobs[k])
    decreases |ids|
  {
    if ids != [] {
      var front, last := ids[..|ids| - 1], ids[|ids| - 1];
      assert ids == front + [last];
      OtherJobs(s, c, front, now, k);
    }
  }

  /** The query finds exactly the valid certificates. */
  ghost predicate FindsValid(s: Ledger, ids: seq<string>) {
    forall id :: id in ids <==> id in s.certs && s.certs[id].status == Valid
  }

  lemma {:induction false} RebuiltJobs(s: Ledger, c: Config, ids: seq<string>, now: int)
    requires FindsValid(s, ids)
    ensures var jobs := ScheduleAll(s, c, ids, now).jobs;
            && (forall id :: id in s.certs && s.certs[id].status == Valid && s.certs[id].expiry != None ==>
                  var opens := s.certs[id].expiry.value - c.windowDays * 86_400_000_000;
                  "renew:" + id in jobs && jobs["renew:" + id] == Job(id, if opens < now then now else opens))
            && forall k ::
                 (forall id :: id in s.certs && s.certs[id].status == Valid && s.certs[id].expiry != None ==>
                    k != "renew:" + id)
                 ==> (k in jobs <==> k in s.jobs) && (k in jobs ==> jobs[k] == s.jobs[k])
  {
    hide ScheduleAll;
    forall id | id in s.certs && s.certs[id].status == Valid && s.certs[id].expiry != None {
      ScheduledJob(s, c, ids, now, id);
    }
    forall k
      | forall id :: id in s.certs && s.certs[id].status == Valid && s.certs[id].expiry != None ==> k != "renew:" + id
    {
      OtherJobs(s, c, ids, now, k);
    }
  }

  class RenewalScheduler {
    const config: Config
    var certs: map<string, Cert>
    var attempts: seq<Attempt>
    var jobs: map<string, Job>

    constructor (config: Config)
      ensures this.config == config && Contents() == Ledger(map[], [], map[])
    {
      this.config := config;
      certs, attempts, jobs := map[], [], map[];
    }

    ghost function Contents(): Ledger
      reads this
    {
      Ledger(certs, attempts, jobs)
    }

    /** The primary job starts with the window before this expiry, or now if the window has begun. */
    ghost predicate Opened(before: map<string, Job>, after: map<string, Job>, id: string, expiry: int, now: int)
      reads this
    {
      var opens := expiry - config.windowDays * 86_400_000_000;
      after == before["renew:" + id := Job(id, if opens < now then now else opens)]
    }

    method ScheduleCertificate(id: string, now: int) returns (runAt: Option<int>)
      requires id in certs
      modifies `jobs
      ensures runAt == NextRunTime(certs[id].expiry, config.windowDays, now)
      ensures Contents() == Schedule(old(Contents()), config, id, now)
      ensures certs[id].expiry == None ==> runAt == None && jobs == old(jobs)
      ensures certs[id].expiry != None ==> runAt != None && Opened(old(jobs), jobs, id, certs[id].expiry.value, now)
    {
      if certs[id].expiry.None? {
        return None;
      }
      var scheduled := certs[id].expiry.value - config.windowDays * DAY;
      var run := scheduled;
      if scheduled <= now {
        run := now;
      }
      jobs := jobs[JobId(id) := Job(id, run)];
      return Some(run);
    }

    method RemoveCertificate(id: string)
      modifies `jobs
      ensures Contents() == Remove(old(Contents()), id)
      ensures jobs == old(jobs) - {"renew:" + id, "renew-retry:" + id}
    {
      var ids := [JobId(id), RetryJobId(id)];
      for i := 0 to 2
        invariant jobs == old(jobs) - set k | k in ids[..i]
      {
        assert ids[..i + 1] == ids[..i] + [ids[i]];
        if ids[i] in jobs {
          jobs := jobs - {ids[i]};
        }
      }
      assert ids[..2] == ids;
    }

    method AttemptCount(id: string) returns (n: nat)
      ensures n == FailedAttempts(attempts, id) == |Failures(attempts, id)|
    {
      FailuresAreCounted(attempts, id);
      n := 0;
      for i := 0 to |attempts|
        invariant n == FailedAttempts(attempts[..i], id)
      {
        assert attempts[..i + 1][..i] == attempts[..i];
        if attempts[i].certificate == id && attempts[i].failed {
          n := n + 1;
        }
      }
      assert attempts[..|attempts|] == attempts;
    }

    method RetryDelay(previous: nat) returns (minutes: nat)
      ensures minutes == Pow2(previous)
    {
      minutes := 1;
      for i := 0 to previous
        invariant minutes == Pow2(i)
      {
        minutes := 2 * minutes;
      }
    }

    /** The row is VALID, to be renewed again so many minutes from now, with one more failed attempt. */
    ghost predicate Retries(before: Ledger, id: string, minutes: nat, now: int)
      requires id in before.certs
      reads this
    {
      && certs == before.certs[id := Cert(Valid, before.certs[id].expiry)]
      && jobs == before.jobs["renew-retry:" + id := Job(id, now + minutes * 60_000_000)]
      && attempts == before.attempts + [Attempt(id, true, Some(minutes))]
    }

    /** The row is FAILED with one more failed attempt, and no job is added. */
    ghost predicate Fails(before: Ledger, id: string)
      requires id in before.certs
      reads this
    {
      && certs == before.certs[id := Cert(Failed, before.certs[id].expiry)]
      && jobs == before.jobs
      && attempts == before.attempts + [Attempt(id, true, None)]
    }

    method RecordRenewalFailure(id: string, transient: bool, now: int)
      requires id in certs
      modifies this
      ensures Contents() == RecordFailure(old(Contents()), config, id, transient, now)
      ensures var n := |Failures(old(attempts), id)|;
              if transient && n < config.maxRetries
              then Retries(old(Contents()), id, Pow2(n), now)
              else Fails(old(Contents()), id)
    {
      var previous := AttemptCount(id);
      var retryAfter := None;
      if transient && previous < config.maxRetries {
        var delay := RetryDelay(previous);
        retryAfter := Some(delay);
        certs := certs[id := certs[id].(status := Valid)];
        jobs := jobs[RetryJobId(id) := Job(id, now + delay * MINUTE)];
      } else {
        certs := certs[id := certs[id].(status := Failed)];
      }
      attempts := attempts + [Attempt(id, true, retryAfter)];
    }

    /** One renewal, from the VALID check to the stored result. */
    method RenewCertificate(id: string, result: RenewalResult, now: int)
      modifies this
      ensures Contents() == Renewal(old(Contents()), config, id, result, now)
      ensures id !in old(certs) || old(certs)[id].status != Valid ==> Contents() == old(Contents())
      ensures id in old(certs) && old(certs)[id].status == Valid ==>
                var n := |Failures(old(attempts), id)|;
                match result
                case TerminalError => Fails(old(Contents()), id)
                case TransientError =>
                  if n < config.maxRetries then Retries(old(Contents()), id, Pow2(n), now)
                  else Fails(old(Contents()), id)
                case NewExpiry(expiry) =>
                  && certs == old(certs)[id := Cert(Valid, Some(expiry))]
                  && attempts == old(attempts) + [Attempt(id, false, None)]
                  && Opened(old(jobs), jobs, id, expiry, now)
    {
      if id !in certs || certs[id].status != Valid {
        return;
      }
      certs := certs[id := certs[id].(status := Renewing)];
      match result {
        case TransientError => RecordRenewalFailure(id, true, now);
        case TerminalError => RecordRenewalFailure(id, false, now);
        case NewExpiry(expiry) =>
          certs := certs[id := certs[id].(expiry := Some(expiry), status := Valid)];
          attempts := attempts + [Attempt(id, false, None)];
          var _ := ScheduleCertificate(id, now);
      }
    }

    /** The query for valid certificates, in any order. */
    method ValidCertificates() returns (ids: seq<string>)
      ensures FindsValid(Contents(), ids)
      ensures forall i, j :: 0 <= i < j < |ids| ==> ids[i] != ids[j]
    {
      var left := certs.Keys;
      ids := [];
      while left != {}
        invariant left <= certs.Keys
        invariant forall id :: id in ids <==> id in certs.Keys - left && certs[id].status == Valid
        invariant forall i, j :: 0 <= i < j < |ids| ==> ids[i] != ids[j]
        decreases left
      {
        var id :| id in left;
        left := left - {id};
        if certs[id].status == Valid {
          assert id !in ids;
          ids := ids + [id];
        }
      }
    }

    /** Schedules every valid certificate, in the order the query gives them. */
    method RebuildJobs(now: int) returns (count: nat, ghost ids: seq<string>)
      modifies `jobs
      ensures FindsValid(old(Contents()), ids) && count == |ids|
      ensures Contents() == ScheduleAll(old(Contents()), config, ids, now)
      ensures forall id :: id in certs && certs[id].status == Valid && certs[id].expiry != None ==>
                var opens := certs[id].expiry.value - config.windowDays * 86_400_000_000;
                "renew:" + id in jobs && jobs["renew:" + id] == Job(id, if opens < now then now else opens)
      ensures forall k ::
                (forall id :: id in certs && certs[id].status == Valid && certs[id].expiry != None ==>
                   k != "renew:" + id)
                ==> (k in jobs <==> k in old(jobs)) && (k in jobs ==> jobs[k] == old(jobs)[k])
    {
      var found := ValidCertificates();
      ids := found;
      for i := 0 to |found|
        invariant Contents() == ScheduleAll(old(Contents()), config, found[..i], now)
      {
        assert found[..i + 1][..i] == found[..i];
        var _ := ScheduleCertificate(found[i], now);
      }
      assert found[..|found|] == found;
      count := |found|;
      RebuiltJobs(old(Contents()), config, found, now);
    }
  }

  // ---- Whole runs -----------------------------------------------------------------------

  /** The operations that touch the rows or the jobs, each run to its end. */
  datatype Operation =
    | Create(id: string)
    | Issue(id: string, result: RenewalResult)
    | Fire(job: string, result: RenewalResult)
    | ManualRenew(id: string, result: RenewalResult)
    | SelectGeneration(id: string, expiry: int)
    | DeleteCert(id: string, target: Status)
    | Restart(valid: seq<string>)       // the ids of the query, in some order

  /** The statuses in which an issuance can be claimed. */
  predicate Issuable(status: Status) {
    status in {Pending, PendingDns, Released, Issuing, Failed}
  }

  /** An operation that is not possible changes nothing. */
  ghost function Perform(s: Ledger, c: Config, op: Operation, now: int): Ledger {
    match op
    case Create(id) => if id in s.certs then s else s.(certs := s.certs[id := Cert(Pending, None)])
    case Issue(id, result) =>
      if id !in s.certs || !Issuable(s.certs[id].status) then s
      else if result.NewExpiry?
      then Schedule(s.(certs := s.certs[id := Cert(Valid, Some(result.expiry))]), c, id, now)
      else s.(certs := s.certs[id := s.certs[id].(status := Failed)])
    case Fire(job, result) =>
      if job !in s.jobs then s
      else Renewal(s.(jobs := s.jobs - {job}), c, s.jobs[job].certificate, result, now)
    case ManualRenew(id, result) => Renewal(s, c, id, result, now)
    case SelectGeneration(id, expiry) =>
      if id !in s.certs then s
      else Schedule(s.(certs := s.certs[id := s.certs[id].(expiry := Some(expiry))]), c, id, now)
    case DeleteCert(id, target) =>
      if id !in s.certs || !Terminal(target) then s
      else Remove(s.(certs := s.certs[id := s.certs[id].(status := target)]), id)
    case Restart(ids) =>
      if !FindsValid(s, ids) then s else ScheduleAll(s.(jobs := map[]), c, ids, now)
  }

  ghost function Run(s: Ledger, c: Config, ops: seq<(Operation, int)>): Ledger
    decreases |ops|
  {
    if ops == [] then s else Run(Perform(s, c, ops[0].0, ops[0].1), c, ops[1..])
  }

  const Start := Ledger(map[], [], map[])

  // ---- The job table --------------------------------------------------------------------

  function JobsOf(s: Ledger, id: string): set<string> {
    set k | k in s.jobs && s.jobs[k].certificate == id
  }

  /** Every entry stands under one of the two ids of the certificate that it renews. */
  ghost predicate OwnIds(s: Ledger) {
    forall k :: k in s.jobs ==> k == JobId(s.jobs[k].certificate) || k == RetryJobId(s.jobs[k].certificate)
  }

  lemma {:induction false} ScheduleAllOwn(s: Ledger, c: Config, ids: seq<string>, now: int)
    requires OwnIds(s) && forall i :: 0 <= i < |ids| ==> ids[i] in s.certs
    ensures OwnIds(ScheduleAll(s, c, ids, now))
    decreases |ids|
  {
    if ids != [] { ScheduleAllOwn(s, c, ids[..|ids| - 1], now); }
  }

  lemma {:induction false} OwnIdsStep(s: Ledger, c: Config, op: Operation, now: int)
    requires OwnIds(s)
    ensures OwnIds(Perform(s, c, op, now))
  {
    if op.Restart? && FindsValid(s, op.valid) { ScheduleAllOwn(s.(jobs := map[]), c, op.valid, now); }
    hide FailedAttempts, Pow2, ScheduleAll;
  }

  lemma {:induction false} OwnIdsRun(s: Ledger, c: Config, ops: seq<(Operation, int)>)
    requires OwnIds(s)
    ensures OwnIds(Run(s, c, ops))
    decreases |ops|
  {
    hide Perform, OwnIds;
    if ops != [] {
      OwnIdsStep(s, c, ops[0].0, ops[0].1);
      OwnIdsRun(Perform(s, c, ops[0].0, ops[0].1), c, ops[1..]);
    }
  }

  // ---- No lost renewal ------------------------------------------------------------------

  /** Every valid certificate with an expiry has a job. */
  ghost predicate Covered(s: Ledger) {
    forall id :: id in s.certs && s.certs[id].status == Valid && s.certs[id].expiry.Some? ==>
      JobId(id) in s.jobs || RetryJobId(id) in s.jobs
  }

  lemma {:induction false} CoveredFire(s: Ledger, c: Config, job: string, result: RenewalResult, now: int)
    requires Covered(s) && OwnIds(s) && job in s.jobs
    ensures Covered(Perform(s, c, Fire(job, result), now))
  {
    var id, t := s.jobs[job].certificate, Perform(s, c, Fire(job, result), now);
    hide FailedAttempts, Pow2;
    forall x | x in t.certs && t.certs[x].status == Valid && t.certs[x].expiry.Some?
      ensures JobId(x) in t.jobs || RetryJobId(x) in t.jobs
    {
      JobIdsAreDistinct(x, id);
      JobIdsAreDistinct(id, x);
    }
  }

  lemma {:induction false} CoveredDelete(s: Ledger, c: Config, id: string, target: Status, now: int)
    requires Covered(s)
    ensures Covered(Perform(s, c, DeleteCert(id, target), now))
  {
    var t := Perform(s, c, DeleteCert(id, target), now);
    forall x | x in t.certs && t.certs[x].status == Valid && t.certs[x].expiry.Some?
      ensures JobId(x) in t.jobs || RetryJobId(x) in t.jobs
    {
      JobIdsAreDistinct(x, id);
      JobIdsAreDistinct(id, x);
    }
  }

  lemma {:induction false} CoveredStep(s: Ledger, c: Config, op: Operation, now: int)
    requires OwnIds(s)
    requires Covered(s) || (op.Restart? && FindsValid(s, op.valid))
    ensures Covered(Perform(s, c, op, now))
  {
    if op.Fire? {
      if op.job in s.jobs { CoveredFire(s, c, op.job, op.result, now); }
    } else if op.DeleteCert? {
      CoveredDelete(s, c, op.id, op.target, now);
    } else {
      hide FailedAttempts, Pow2, JobId, RetryJobId;
    }
  }

  /** After any sequence of whole operations every valid certificate with an expiry has a job. */
  lemma {:induction false} NoLostRenewal(s: Ledger, c: Config, ops: seq<(Operation, int)>)
    requires OwnIds(s) && Covered(s)
    ensures Covered(Run(s, c, ops))
    decreases |ops|
  {
    hide Perform, OwnIds, Covered;
    if ops != [] {
      CoveredStep(s, c, ops[0].0, ops[0].1);
      OwnIdsStep(s, c, ops[0].0, ops[0].1);
      NoLostRenewal(Perform(s, c, ops[0].0, ops[0].1), c, ops[1..]);
    }
  }

  /** A restart covers every valid certificate again, whatever the stopped process had left undone. */
  lemma {:induction false} RestartCovers(s: Ledger, c: Config, ids: seq<string>, now: int)
    requires FindsValid(s, ids)
    ensures Covered(Perform(s, c, Restart(ids), now))
    ensures Perform(s, c, Restart(ids), now).certs == s.certs
  {
  }

  /** However often a certificate is scheduled, retried and rescheduled, it has at most two entries. */
  lemma {:induction false} AtMostTwoJobs(c: Config, ops: seq<(Operation, int)>, id: string)
    ensures var s := Run(Start, c, ops);
            JobsOf(s, id) <= {JobId(id), RetryJobId(id)} && |JobsOf(s, id)| <= 2
  {
    OwnIdsRun(Start, c, ops);
    var s := Run(Start, c, ops);
    hide Run, JobId, RetryJobId;
    var mine, both := JobsOf(s, id), {JobId(id), RetryJobId(id)};
    assert both == mine + (both - mine);
  }

  /** A deleted certificate without an entry. */
  ghost predicate Silent(s: Ledger, id: string) {
    id in s.certs && Terminal(s.certs[id].status) && JobsOf(s, id) == {}
  }

  lemma {:induction false} ScheduleAllSilent(s: Ledger, c: Config, ids: seq<string>, now: int, id: string)
    requires id !in ids && JobsOf(s, id) == {} && forall i :: 0 <= i < |ids| ==> ids[i] in s.certs
    ensures JobsOf(ScheduleAll(s, c, ids, now), id) == {}
    decreases |ids|
  {
    if ids != [] { ScheduleAllSilent(s, c, ids[..|ids| - 1], now, id); }
  }

  lemma {:induction false} SilentStep(s: Ledger, c: Config, op: Operation, now: int, id: string)
    requires OwnIds(s) && (op.SelectGeneration? ==> op.id != id)
    requires Silent(s, id) || (op.DeleteCert? && op.id == id && id in s.certs && Terminal(op.target))
    ensures Silent(Perform(s, c, op, now), id)
  {
    if op.Restart? && FindsValid(s, op.valid) {
      ScheduleAllSilent(s.(jobs := map[]), c, op.valid, now, id);
    }
    hide FailedAttempts, Pow2, ScheduleAll;
  }

  lemma {:induction false} SilentRun(s: Ledger, c: Config, ops: seq<(Operation, int)>, id: string)
    requires OwnIds(s) && Silent(s, id)
    requires forall op :: op in ops ==> !op.0.SelectGeneration? || op.0.id != id
    ensures Silent(Run(s, c, ops), id)
    decreases |ops|
  {
    if ops != [] {
      hide Perform, OwnIds, Silent;
      SilentStep(s, c, ops[0].0, ops[0].1, id);
      OwnIdsStep(s, c, ops[0].0, ops[0].1);
      SilentRun(Perform(s, c, ops[0].0, ops[0].1), c, ops[1..], id);
    }
  }

  /**
   A delete is the end of the renewals of a certificate: no later operation, restarts included, queues
   one again, unless somebody selects one of its generations.
   */
  lemma {:induction false} DeleteEndsRenewals(c: Config, ops: seq<(Operation, int)>, id: string, target: Status,
                                              now: int, more: seq<(Operation, int)>)
    requires id in Run(Start, c, ops).certs && Terminal(target)
    requires forall op :: op in more ==> !op.0.SelectGeneration? || op.0.id != id
    ensures var s := Run(Perform(Run(Start, c, ops), c, DeleteCert(id, target), now), c, more);
            JobsOf(s, id) == {} && id in s.certs && Terminal(s.certs[id].status)
  {
    OwnIdsRun(Start, c, ops);
    var s := Run(Start, c, ops);
    hide Run, Perform;
    OwnIdsStep(s, c, DeleteCert(id, target), now);
    SilentStep(s, c, DeleteCert(id, target), now, id);
    SilentRun(Perform(s, c, DeleteCert(id, target), now), c, more, id);
  }

  /** A job that fires leaves an attempt exactly on a valid certificate, and otherwise only its entry goes. */
  lemma {:induction false} FiringOnInvalidIsHarmless(s: Ledger, c: Config, job: string, result: RenewalResult, now: int)
    requires job in s.jobs
    ensures var id, t := s.jobs[job].certificate, Perform(s, c, Fire(job, result), now);
            var valid := id in s.certs && s.certs[id].status == Valid;
            && |t.attempts| == |s.attempts| + (if valid then 1 else 0)
            && (!valid ==> t == s.(jobs := s.jobs - {job}))
  {
  }

  // ---- When renewals run ----------------------------------------------------------------

  /** The start of the renewal window. */
  function Opens(s: Ledger, c: Config, id: string): int
    requires id in s.certs && s.certs[id].expiry.Some?
  {
    s.certs[id].expiry.value - c.windowDays * DAY
  }

  /** The primary job of a certificate belongs to the expiry that is stored now. */
  ghost predicate OnTime(s: Ledger, c: Config, now: int) {
    forall id :: JobId(id) in s.jobs ==>
      && id in s.certs && s.certs[id].expiry.Some?
      && Opens(s, c, id) <= s.jobs[JobId(id)].runAt
      && (s.jobs[JobId(id)].runAt <= now || s.jobs[JobId(id)].runAt == Opens(s, c, id))
  }

  lemma {:induction false} ScheduleOnTime(s: Ledger, c: Config, id: string, now: int)
    requires id in s.certs
    requires OnTime(s.(jobs := s.jobs - {JobId(id)}), c, now)
    ensures s.certs[id].expiry.Some? ==> OnTime(Schedule(s, c, id, now), c, now)
  {
    var t := Schedule(s, c, id, now);
    var rest := s.(jobs := s.jobs - {JobId(id)});
    if s.certs[id].expiry.Some? {
      forall x | JobId(x) in t.jobs ensures
          && x in t.certs && t.certs[x].expiry.Some?
          && Opens(t, c, x) <= t.jobs[JobId(x)].runAt
          && (t.jobs[JobId(x)].runAt <= now || t.jobs[JobId(x)].runAt == Opens(t, c, x))
      {
        JobIdsAreDistinct(x, id);
        if x != id { assert JobId(x) in rest.jobs; }
      }
    }
  }

  lemma {:induction false} ScheduleAllOnTime(s: Ledger, c: Config, ids: seq<string>, now: int)
    requires OnTime(s, c, now) && forall i :: 0 <= i < |ids| ==> ids[i] in s.certs
    ensures OnTime(ScheduleAll(s, c, ids, now), c, now)
    decreases |ids|
  {
    if ids != [] {
      var front, last := ids[..|ids| - 1], ids[|ids| - 1];
      ScheduleAllOnTime(s, c, front, now);
      ScheduleOnTime(ScheduleAll(s, c, front, now), c, last, now);
    }
  }

  /** A row whose expiry changes is scheduled anew. */
  lemma {:induction false} ChangeOnTime(s: Ledger, c: Config, id: string, row: Cert, now: int, attempts: seq<Attempt>)
    requires OnTime(s, c, now)
    ensures var t := Ledger(s.certs[id := row], attempts, s.jobs);
            row.expiry.Some? ==> OnTime(Schedule(t, c, id, now), c, now)
  {
    var t := Ledger(s.certs[id := row], attempts, s.jobs);
    if row.expiry.Some? {
      var rest := t.(jobs := t.jobs - {JobId(id)});
      forall x | JobId(x) in rest.jobs ensures x != id && JobId(x) in s.jobs { }
      hide JobId;
      assert OnTime(rest, c, now);
      ScheduleOnTime(t, c, id, now);
    }
  }

  lemma {:induction false} RenewalOnTime(s: Ledger, c: Config, id: string, result: RenewalResult, now: int)
    requires OnTime(s, c, now)
    ensures OnTime(Renewal(s, c, id, result, now), c, now)
  {
    var t := Renewal(s, c, id, result, now);
    if result.NewExpiry? {
      ChangeOnTime(s, c, id, Cert(Valid, Some(result.expiry)), now, s.attempts + [Attempt(id, false, None)]);
    } else {
      forall x | JobId(x) in t.jobs ensures JobId(x) in s.jobs && t.jobs[JobId(x)] == s.jobs[JobId(x)] {
        JobIdsAreDistinct(x, id);
      }
      assert forall x :: x in s.certs ==> x in t.certs && t.certs[x].expiry == s.certs[x].expiry;
    }
    hide Renewal, JobId;
  }

  lemma {:induction false} OnTimeLater(s: Ledger, c: Config, before: int, now: int)
    requires OnTime(s, c, before) && before <= now
    ensures OnTime(s, c, now)
  {
  }

  /** Rows that keep their expiry and entries that go do not matter. */
  lemma {:induction false} FewerOnTime(s: Ledger, t: Ledger, c: Config, now: int)
    requires OnTime(s, c, now)
    requires forall k :: k in t.jobs ==> k in s.jobs && t.jobs[k] == s.jobs[k]
    requires forall x :: x in s.certs ==> x in t.certs && t.certs[x].expiry == s.certs[x].expiry
    ensures OnTime(t, c, now)
  {
    hide JobId;
  }

  lemma {:induction false} OnTimeStep(s: Ledger, c: Config, op: Operation, before: int, now: int)
    requires OnTime(s, c, before) && before <= now
    ensures OnTime(Perform(s, c, op, now), c, now)
  {
    hide FailedAttempts, Pow2, ScheduleAll, JobId, RetryJobId, Renewal, Schedule, OnTime;
    OnTimeLater(s, c, before, now);
    match op
    case Create(id) => FewerOnTime(s, Perform(s, c, op, now), c, now);
    case Issue(id, result) =>
      if result.NewExpiry? {
        ChangeOnTime(s, c, id, Cert(Valid, Some(result.expiry)), now, s.attempts);
      } else {
        FewerOnTime(s, Perform(s, c, op, now), c, now);
      }
    case Fire(job, result) =>
      if job in s.jobs {
        FewerOnTime(s, s.(jobs := s.jobs - {job}), c, now);
        RenewalOnTime(s.(jobs := s.jobs - {job}), c, s.jobs[job].certificate, result, now);
      }
    case ManualRenew(id, result) => RenewalOnTime(s, c, id, result, now);
    case SelectGeneration(id, expiry) =>
      if id in s.certs { ChangeOnTime(s, c, id, s.certs[id].(expiry := Some(expiry)), now, s.attempts); }
    case DeleteCert(id, target) => FewerOnTime(s, Perform(s, c, op, now), c, now);
    case Restart(ids) =>
      if FindsValid(s, ids) {
        FewerOnTime(s, s.(jobs := map[]), c, now);
        ScheduleAllOnTime(s.(jobs := map[]), c, ids, now);
      }
  }

  /** The clock does not go back between operations. */
  ghost predicate Clocked(ops: seq<(Operation, int)>, start: int) {
    && (forall i :: 0 <= i < |ops| ==> start <= ops[i].1)
    && forall i, j :: 0 <= i < j < |ops| ==> ops[i].1 <= ops[j].1
  }

  lemma {:induction false} ClockedRest(ops: seq<(Operation, int)>, start: int)
    requires Clocked(ops, start) && ops != []
    ensures start <= ops[0].1 && Clocked(ops[1..], ops[0].1)
  {
  }

  /**
   In every run the primary renewal of a certificate is queued for the time its window opens, for the
   expiry that is stored now, or for a time that has come, and never before the window.
   */
  lemma {:induction false} RenewalsRunInWindow(s: Ledger, c: Config, ops: seq<(Operation, int)>, start: int)
    requires OnTime(s, c, start) && Clocked(ops, start)
    ensures OnTime(Run(s, c, ops), c, if ops == [] then start else ops[|ops| - 1].1)
    decreases |ops|
  {
    if ops != [] {
      hide Perform, OnTime;
      OnTimeStep(s, c, ops[0].0, start, ops[0].1);
      ClockedRest(ops, start);
      hide Clocked;
      RenewalsRunInWindow(Perform(s, c, ops[0].0, ops[0].1), c, ops[1..], ops[0].1);
    }
  }

  // ---- The retry bound ------------------------------------------------------------------

  /** The delays of the retries of a certificate, oldest first. */
  function Delays(attempts: seq<Attempt>, id: string): seq<nat> {
    if attempts == [] then []
    else
      var last := attempts[|attempts| - 1];
      Delays(attempts[..|attempts| - 1], id)
        + (if last.certificate == id && last.retryAfter.Some? then [last.retryAfter.value] else [])
  }

  /** Retries come before the limit, with the delay of their position among the failures. */
  predicate AttemptsFit(attempts: seq<Attempt>, c: Config) {
    forall i :: 0 <= i < |attempts| && attempts[i].retryAfter.Some? ==>
      && attempts[i].failed
      && FailedAttempts(attempts[..i], attempts[i].certificate) < c.maxRetries
      && attempts[i].retryAfter.value == Pow2(FailedAttempts(attempts[..i], attempts[i].certificate))
  }

  lemma {:induction false} AppendFits(attempts: seq<Attempt>, a: Attempt, c: Config)
    requires AttemptsFit(attempts, c)
    requires a.retryAfter.Some? ==>
               && a.failed && FailedAttempts(attempts, a.certificate) < c.maxRetries
               && a.retryAfter.value == Pow2(FailedAttempts(attempts, a.certificate))
    ensures AttemptsFit(attempts + [a], c)
  {
    hide FailedAttempts, Pow2;
    forall i | 0 <= i <= |attempts| ensures (attempts + [a])[..i] == attempts[..i] {}
    assert attempts[..|attempts|] == attempts;
  }

  lemma {:induction false} RenewalAttempts(s: Ledger, c: Config, id: string, result: RenewalResult, now: int)
    requires AttemptsFit(s.attempts, c)
    ensures AttemptsFit(Renewal(s, c, id, result, now).attempts, c)
  {
    hide FailedAttempts, Pow2, AttemptsFit, JobId, RetryJobId;
    var previous := FailedAttempts(s.attempts, id);
    AppendFits(s.attempts, Attempt(id, false, None), c);
    AppendFits(s.attempts, Attempt(id, true, None), c);
    if previous < c.maxRetries { AppendFits(s.attempts, Attempt(id, true, Some(Pow2(previous))), c); }
  }

  lemma {:induction false} AttemptsStep(s: Ledger, c: Config, op: Operation, now: int)
    requires AttemptsFit(s.attempts, c)
    ensures AttemptsFit(Perform(s, c, op, now).attempts, c)
  {
    hide Renewal, AttemptsFit, JobId, RetryJobId;
    match op
    case Fire(job, result) =>
      if job in s.jobs { RenewalAttempts(s.(jobs := s.jobs - {job}), c, s.jobs[job].certificate, result, now); }
    case ManualRenew(id, result) => RenewalAttempts(s, c, id, result, now);
    case _ => assert Perform(s, c, op, now).attempts == s.attempts;
  }

  lemma {:induction false} AttemptsRun(s: Ledger, c: Config, ops: seq<(Operation, int)>)
    requires AttemptsFit(s.attempts, c)
    ensures AttemptsFit(Run(s, c, ops).attempts, c)
    decreases |ops|
  {
    if ops != [] {
      AttemptsStep(s, c, ops[0].0, ops[0].1);
      AttemptsRun(Perform(s, c, ops[0].0, ops[0].1), c, ops[1..]);
    }
  }

  function Sum(xs: seq<nat>): nat {
    if xs == [] then 0 else Sum(xs[..|xs| - 1]) + xs[|xs| - 1]
  }

  predicate PowerOfTwo(n: nat, below: nat) { exists k: nat :: k < below && n == Pow2(k) }

  function Least(a: nat, b: nat): nat { if a < b then a else b }

  lemma {:induction false} Pow2Monotone(a: nat, b: nat)
    requires a < b
    ensures Pow2(a) < Pow2(b)
    decreases b
  {
    if a < b - 1 { Pow2Monotone(a, b - 1); }
  }

  /** The delays so far lie below the count of failures. */
  lemma {:induction false} DelaysFit(attempts: seq<Attempt>, c: Config, id: string)
    requires AttemptsFit(attempts, c)
    ensures DelaysBelow(Delays(attempts, id), Least(FailedAttempts(attempts, id), c.maxRetries))
    decreases |attempts|
  {
    if attempts != [] {
      var n := |attempts| - 1;
      var front := attempts[..n];
      forall i | 0 <= i < n && front[i].retryAfter.Some?
        ensures front[..i] == attempts[..i] && front[i] == attempts[i]
      {
      }
      DelaysFit(front, c, id);
      var ds, f := Delays(front, id), FailedAttempts(front, id);
      var last := attempts[n];
      if last.certificate == id && last.retryAfter.Some? {
        assert last.failed && f < c.maxRetries && last.retryAfter.value == Pow2(f);
        assert Delays(attempts, id) == ds + [Pow2(f)];
        NextDelay(ds, f);
      } else {
        assert Delays(attempts, id) == ds;
        MoreRoom(ds, Least(f, c.maxRetries), Least(FailedAttempts(attempts, id), c.maxRetries));
      }
    }
  }

  /** Distinct powers of two below this one, in rising order: their sum stays below the power. */
  ghost predicate DelaysBelow(ds: seq<nat>, f: nat) {
    && |ds| <= f
    && Sum(ds) <= Pow2(f) - 1
    && (forall i :: 0 <= i < |ds| ==> PowerOfTwo(ds[i], f))
    && (forall i, j :: 0 <= i < j < |ds| ==> ds[i] < ds[j])
  }

  lemma {:induction false} NextDelay(ds: seq<nat>, f: nat)
    requires DelaysBelow(ds, f)
    ensures DelaysBelow(ds + [Pow2(f)], f + 1)
  {
  }

  lemma {:induction false} MoreRoom(ds: seq<nat>, f: nat, g: nat)
    requires DelaysBelow(ds, f) && f <= g
    ensures DelaysBelow(ds, g)
  {
    if f < g { Pow2Monotone(f, g); }
    forall i | 0 <= i < |ds| ensures PowerOfTwo(ds[i], g) {
      var k: nat :| k < f && ds[i] == Pow2(k);
    }
  }

  /**
   Over any run the retries of one certificate number at most the limit, however many successes lie
   between them; their delays are strictly increasing powers of two and add up to less than the next.
   */
  lemma {:induction false} RetryBound(c: Config, ops: seq<(Operation, int)>, id: string)
    ensures var ds := Delays(Run(Start, c, ops).attempts, id);
            DelaysBelow(ds, c.maxRetries) && |ds| <= c.maxRetries && Sum(ds) <= Pow2(c.maxRetries) - 1
  {
    AttemptsRun(Start, c, ops);
    var attempts := Run(Start, c, ops).attempts;
    DelaysFit(attempts, c, id);
    MoreRoom(Delays(attempts, id), Least(FailedAttempts(attempts, id), c.maxRetries), c.maxRetries);
  }

  /** Transient failures of one certificate, back to back. */
  function FailRepeatedly(s: Ledger, c: Config, id: string, times: seq<int>): Ledger
    decreases |times|
  {
    if times == [] then s
    else FailRepeatedly(Renewal(s, c, id, TransientError, times[0]), c, id, times[1..])
  }

  /**
   The certificate stays valid exactly as long as its lifetime failures do not exceed the limit. So
   an unbroken run of transient failures reaches FAILED within one run more than the limit.
   */
  lemma {:induction false} TransientRunEnds(s: Ledger, c: Config, id: string, times: seq<int>)
    requires id in s.certs && s.certs[id].status == Valid && times != []
    ensures var t := FailRepeatedly(s, c, id, times);
            && id in t.certs
            && t.certs[id].status ==
                 (if FailedAttempts(s.attempts, id) + |times| <= c.maxRetries then Valid else Failed)
    ensures |times| > c.maxRetries ==> FailRepeatedly(s, c, id, times).certs[id].status == Failed
    decreases |times|
  {
    var t := Renewal(s, c, id, TransientError, times[0]);
    TransientStep(s, c, id, times[0]);
    assert FailRepeatedly(s, c, id, times) == FailRepeatedly(t, c, id, times[1..]);
    hide Renewal, FailedAttempts;
    if times[1..] == [] {
      assert FailRepeatedly(t, c, id, times[1..]) == t;
    } else {
      hide FailRepeatedly;
      if t.certs[id].status == Valid {
        TransientRunEnds(t, c, id, times[1..]);
      } else {
        FailedStays(t, c, id, times[1..]);
      }
    }
  }

  lemma {:induction false} TransientStep(s: Ledger, c: Config, id: string, now: int)
    requires id in s.certs && s.certs[id].status == Valid
    ensures var t := Renewal(s, c, id, TransientError, now);
            && FailedAttempts(t.attempts, id) == FailedAttempts(s.attempts, id) + 1
            && id in t.certs
            && t.certs[id].status == (if FailedAttempts(s.attempts, id) < c.maxRetries then Valid else Failed)
  {
    var t := Renewal(s, c, id, TransientError, now);
    assert t.attempts[..|s.attempts|] == s.attempts;
    hide Pow2, JobId, RetryJobId;
  }

  lemma {:induction false} FailedStays(s: Ledger, c: Config, id: string, times: seq<int>)
    requires id in s.certs && s.certs[id].status != Valid
    ensures FailRepeatedly(s, c, id, times) == s
    decreases |times|
  {
    if times != [] { FailedStays(s, c, id, times[1..]); }
  }
}
