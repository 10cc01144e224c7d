/** A delivered message whose receiver stays online but silent: what the retry thread makes of it,
    whatever the workers do meanwhile for other messages. */
module Progress {
  import opened Options
  import opened SortedSet
  import opened Ledger
  import opened Scans
  import opened Delivery
  import opened EndToEnd
  import opened RetryBound
  import opened Snapshots
  import UserState

  /** A scan at clock t takes r up: it was delivered ten seconds ago or earlier. */
  predicate Due(r: Record, t: nat) {
    r.status == Delivered && 0 < r.deliveredAt && r.deliveredAt + 10000 <= t
  }

  /** The pass in progress will still count a retry of r or give it up. */
  ghost predicate Holds(j: RetryJob, r: Record) {
    match j
    case Sleeping => false
    case OverdueRead(t) => Due(r, t)
    case OverdueFetch(t, ids, got) => (r.msgId in ids && Due(r, t)) || InBatch(got, r.msgId)
    case RetryNext(todo) => InBatch(todo, r.msgId)
    case RetryFail(todo) => InBatch(todo, r.msgId)
    case RetryPend(todo) => InBatch(todo, r.msgId)
    case RetryCount(_, todo) => InBatch(todo, r.msgId)
    case RetrySend(_, todo) => todo != [] && InBatch(todo[1..], r.msgId)
    case RetryMark(todo) => todo != [] && InBatch(todo[1..], r.msgId)
  }

  /** The pass has found the receiver of m offline and is about to put m back to Pending. */
  predicate Returning(j: RetryJob, m: MsgId) {
    j.RetryPend? && j.todo != [] && j.todo[0].msgId == m
  }

  /** Snapshots of r are of a message that was Delivered, to the same receiver. */
  ghost predicate Faithful(rs: seq<Record>, r: Record) {
    forall i :: 0 <= i < |rs| && rs[i].msgId == r.msgId ==> rs[i].status == Delivered && rs[i].toUid == r.toUid
  }

  ghost function Held(j: RetryJob, r: Record): nat {
    if Holds(j, r) then 1 else 0
  }

  /** m is Delivered, and its retries and the one this pass will still count make n; or m is
      Failed after three retries, and the pass is done with it. */
  ghost predicate Tally(s: System, m: MsgId, n: nat) {
    && m in s.ledger.msgs && s.ledger.msgs[m].msgId == m
    && var r := s.ledger.msgs[m];
       if r.status == Delivered then
         !Returning(s.retry, m) && Faithful(ToRetry(s.retry), r) && r.retryCount + Held(s.retry, r) == n
       else r.status == Failed && n == 4 && !InBatch(ToRetry(s.retry), m)
  }

  /** No worker is about to change the state of m (no ACK, no login delivery of it), and its
      receiver is bound. */
  ghost predicate Silent(s: System, m: MsgId) {
    && m in s.ledger.msgs
    && UserState.ConnOf(s.users, s.ledger.msgs[m].toUid).Some?
    && forall w :: 0 <= w < |s.jobs| ==> !Touches(s.jobs[w], m)
  }

  predicate Touches(j: Job, m: MsgId) {
    || ((j.TryPend? || j.TryMark?) && j.todo != [] && j.todo[0].msgId == m)
    || (j.AckMark? && j.msgId == m)
  }

  /** When the retry thread asks whether the receiver of m is connected, it is. */
  predicate Connected(s: System, a: Label, m: MsgId) {
    a.Retry? && s.retry.RetryNext? && s.retry.todo != [] && s.retry.todo[0].msgId == m ==> a.up
  }

  /** The step starts a scan for which m is due. */
  predicate StartsDue(s: System, a: Label, m: MsgId) {
    a.Retry? && s.retry.Sleeping? && m in s.ledger.msgs && Due(s.ledger.msgs[m], a.now)
  }

  function Starts(s: System, a: Label, m: MsgId): nat {
    if StartsDue(s, a, m) then 1 else 0
  }

  // ------------------------------------------------------------- one step

  lemma UntouchedRecord(l: Ledger, script: Option<Script>, m: MsgId)
    requires m in l.msgs && (script.Some? ==> if script.value.DoCreate? then IdsDense(l) else script.value.id != m)
    ensures m in ExecOption(l, script).msgs && ExecOption(l, script).msgs[m] == l.msgs[m]
  {
    if script.Some? && !script.value.DoCreate? { MarkElsewhere(l, script.value, m); }
  }

  lemma MarkElsewhere(l: Ledger, script: Script, m: MsgId)
    requires m in l.msgs && !script.DoCreate? && script.id != m
    ensures m in Exec(l, script).msgs && Exec(l, script).msgs[m] == l.msgs[m]
  {
  }

  /** Workers leave m and the retry thread alone. */
  lemma WorkerSilent(s: System, a: Label, m: MsgId)
    requires IdsDense(s.ledger) && Silent(s, m) && !a.Retry?
    ensures var t := Step(s, a); t.retry == s.retry && m in t.ledger.msgs && t.ledger.msgs[m] == s.ledger.msgs[m]
  {
    if a.Work? && a.worker < |s.jobs| {
      AdvanceRunsScript(s.jobs[a.worker], s.ledger, s.users, a.now, a.up);
      UntouchedRecord(s.ledger, ScriptOf(s.jobs[a.worker], a.now), m);
    } else {
      OtherTables(s, a);
    }
  }

  lemma TailOf(todo: seq<Record>, m: MsgId)
    requires Distinct(todo) && todo != []
    ensures InBatch(todo, m) <==> todo[0].msgId == m || InBatch(todo[1..], m)
    ensures todo[0].msgId == m ==> !InBatch(todo[1..], m)
  {
    if InBatch(todo, m) {
      var i :| 0 <= i < |todo| && todo[i].msgId == m;
      if i > 0 { assert todo[1..][i - 1].msgId == m; }
    }
  }

  lemma ScanTally(s: System, now: nat, up: bool, m: MsgId, n: nat)
    requires Consistent(s.ledger) && Tally(s, m, n) && s.retry.OverdueRead?
    ensures Tally(Step(s, Retry(now, up)), m, n)
  {
    var q := Overdue(s.retry.now, AckTimeoutMs);
    CandidatesComplete(s.ledger, q, m);
    assert IsListing(Candidates(s.ledger, q), Listed(s.ledger, q));
  }

  lemma FetchTally(s: System, now: nat, up: bool, m: MsgId, n: nat)
    requires IdsDense(s.ledger) && BatchOk(s.ledger, s.retry) && Tally(s, m, n) && s.retry.OverdueFetch?
    ensures Tally(Step(s, Retry(now, up)), m, n)
  {
    var j := s.retry;
    if j.ids != [] {
      KeepBatch(s.ledger, Overdue(j.now, AckTimeoutMs), j.ids[0], j.got, m);
      assert m in j.ids <==> m == j.ids[0] || m in j.ids[1..];
    }
  }

  lemma NextTally(s: System, now: nat, up: bool, m: MsgId, n: nat)
    requires BatchOk(s.ledger, s.retry) && Tally(s, m, n) && Connected(s, Retry(now, up), m)
    requires s.retry.RetryNext? && s.retry.todo != []
    requires UserState.ConnOf(s.users, s.ledger.msgs[m].toUid).Some?
    ensures Tally(Step(s, Retry(now, up)), m, n)
  {
    TailOf(s.retry.todo, m);
  }

  lemma FailTally(s: System, now: nat, up: bool, m: MsgId, n: nat)
    requires RetryInv(s) && Tally(s, m, n) && s.retry.RetryFail? && s.retry.todo != []
    ensures Tally(Step(s, Retry(now, up)), m, n)
  {
    TailOf(s.retry.todo, m);
  }

  lemma MarkTally(s: System, now: nat, up: bool, m: MsgId, n: nat)
    requires BatchOk(s.ledger, s.retry) && Tally(s, m, n) && (s.retry.RetryPend? || s.retry.RetryMark?) && s.retry.todo != []
    ensures Tally(Step(s, Retry(now, up)), m, n)
  {
    TailOf(s.retry.todo, m);
  }

  lemma PushTally(s: System, now: nat, up: bool, m: MsgId, n: nat)
    requires BatchOk(s.ledger, s.retry) && Tally(s, m, n)
    requires (s.retry.RetryCount? || s.retry.RetrySend?) && s.retry.todo != []
    ensures Tally(Step(s, Retry(now, up)), m, n)
  {
    TailOf(s.retry.todo, m);
  }

  lemma EmptyTally(s: System, now: nat, up: bool, m: MsgId, n: nat)
    requires Tally(s, m, n) && !s.retry.Sleeping? && !s.retry.OverdueRead? && !s.retry.OverdueFetch? && s.retry.todo == []
    ensures Tally(Step(s, Retry(now, up)), m, n)
  {
  }

  lemma RetryTally(s: System, now: nat, up: bool, m: MsgId, n: nat)
    requires Consistent(s.ledger) && RetryInv(s)
    requires Tally(s, m, n) && Silent(s, m) && Connected(s, Retry(now, up), m)
    ensures Tally(Step(s, Retry(now, up)), m, n + Starts(s, Retry(now, up), m))
  {
    var j := s.retry;
    if j.Sleeping? {
    } else if j.OverdueRead? {
      ScanTally(s, now, up, m, n);
    } else if j.OverdueFetch? {
      FetchTally(s, now, up, m, n);
    } else if j.todo == [] {
      EmptyTally(s, now, up, m, n);
    } else if j.RetryNext? {
      NextTally(s, now, up, m, n);
    } else if j.RetryCount? || j.RetrySend? {
      PushTally(s, now, up, m, n);
    } else if j.RetryFail? {
      FailTally(s, now, up, m, n);
    } else {
      MarkTally(s, now, up, m, n);
    }
  }

  // ------------------------------------------------------------------ runs

  /** Along the run the receiver stays bound, connected and silent. */
  ghost predicate SilentRun(s: System, labels: seq<Label>, m: MsgId) {
    forall i :: 0 <= i < |labels| ==> Silent(Run(s, labels[..i]), m) && Connected(Run(s, labels[..i]), labels[i], m)
  }

  /** How many scans that are due for m the retry thread starts in the run. */
  ghost function DueScans(s: System, labels: seq<Label>, m: MsgId): nat {
    if labels == [] then 0
    else DueScans(s, labels[..|labels| - 1], m) + Starts(Run(s, labels[..|labels| - 1]), labels[|labels| - 1], m)
  }

  lemma SilentPrefix(s: System, labels: seq<Label>, m: MsgId)
    requires SilentRun(s, labels, m) && labels != []
    ensures var n := |labels| - 1;
            && SilentRun(s, labels[..n], m)
            && Silent(Run(s, labels[..n]), m) && Connected(Run(s, labels[..n]), labels[n], m)
  {
    var before := labels[..|labels| - 1];
    assert forall i :: 0 <= i < |before| ==> before[..i] == labels[..i];
  }

  /** What the proofs use of a reachable state. */
  ghost predicate Reached(s: System) {
    var tables := Consistent(s.ledger) && UserState.MutuallyInverse(s.users);
    tables && RetryInv(s)
  }

  lemma StepReached(s: System, a: Label)
    requires Reached(s)
    ensures Reached(Step(s, a))
  {
    StepTables(s, a);
    StepRetryInv(s, a);
  }

  lemma {:induction false} RunReached(s: System, labels: seq<Label>)
    requires Reached(s)
    ensures Reached(Run(s, labels))
  {
    if labels != [] {
      RunReached(s, labels[..|labels| - 1]);
      StepReached(Run(s, labels[..|labels| - 1]), labels[|labels| - 1]);
    }
  }

  lemma {:induction false} RunTally(s: System, labels: seq<Label>, m: MsgId, n: nat)
    requires Reached(s) && Tally(s, m, n) && SilentRun(s, labels, m)
    ensures Tally(Run(s, labels), m, n + DueScans(s, labels, m))
  {
    if labels != [] {
      var before, a := labels[..|labels| - 1], labels[|labels| - 1];
      SilentPrefix(s, labels, m);
      RunTally(s, before, m, n);
      RunReached(s, before);
      StepTally(Run(s, before), a, m, n + DueScans(s, before, m));
    }
  }

  lemma StepTally(s: System, a: Label, m: MsgId, n: nat)
    requires Reached(s) && Tally(s, m, n) && Silent(s, m) && Connected(s, a, m)
    ensures Tally(Step(s, a), m, n + Starts(s, a, m))
  {
    if a.Retry? {
      RetryTally(s, a.now, a.up, m, n);
    } else {
      WorkerSilent(s, a, m);
    }
  }

  /** About to go back to Pending, or back already and out of the pass. */
  ghost predicate Parked(s: System, m: MsgId) {
    && m in s.ledger.msgs && s.ledger.msgs[m].msgId == m
    && if s.ledger.msgs[m].status == Delivered then Returning(s.retry, m)
       else s.ledger.msgs[m].status == Pending && !InBatch(ToRetry(s.retry), m)
  }

  lemma RetryParked(s: System, now: nat, up: bool, m: MsgId)
    requires RetryInv(s) && Parked(s, m)
    ensures Parked(Step(s, Retry(now, up)), m)
  {
    if s.ledger.msgs[m].status == Delivered {
      ReturnStep(s, now, up, m);
    } else {
      RetryKeepsOut(s.retry, s.ledger, s.users, now, up, m);
      RetryRunsScript(s.retry, s.ledger, s.users, now, up);
      UntouchedRecord(s.ledger, RetryScriptOf(s.retry, now), m);
    }
  }

  lemma ReturnStep(s: System, now: nat, up: bool, m: MsgId)
    requires BatchOk(s.ledger, s.retry) && m in s.ledger.msgs && s.ledger.msgs[m].msgId == m && Returning(s.retry, m)
    ensures var t := Step(s, Retry(now, up));
            && m in t.ledger.msgs && t.ledger.msgs[m].msgId == m && t.ledger.msgs[m].status == Pending
            && !InBatch(ToRetry(t.retry), m)
  {
    TailOf(s.retry.todo, m);
  }

  lemma {:induction false} RunParked(s: System, labels: seq<Label>, m: MsgId)
    requires Reached(s) && Parked(s, m) && SilentRun(s, labels, m)
    ensures Parked(Run(s, labels), m)
  {
    if labels != [] {
      var before, a := labels[..|labels| - 1], labels[|labels| - 1];
      SilentPrefix(s, labels, m);
      RunParked(s, before, m);
      RunReached(s, before);
      var t := Run(s, before);
      if a.Retry? { RetryParked(t, a.now, a.up, m); } else { WorkerSilent(t, a, m); }
    }
  }

  lemma ReachedFaithful(workers: nat, trusted: set<Uid>, past: seq<Label>, m: MsgId)
    requires m in Run(Init(workers, trusted), past).ledger.msgs
    ensures var s := Run(Init(workers, trusted), past);
            Reached(s) && s.ledger.msgs[m].msgId == m && Faithful(ToRetry(s.retry), s.ledger.msgs[m])
  {
    EndToEnd.RunInv(workers, trusted, past);
    RunRetryInv(workers, trusted, past);
    RunSeen(workers, trusted, past);
    var s := Run(Init(workers, trusted), past);
    assert IdsDense(s.ledger);
    SnapshotsKnown(s);
  }

  lemma SnapshotsKnown(s: System)
    requires RetryOk(s, s.retry)
    ensures AllKnown(s, ToRetry(s.retry))
  {
  }

  /** From any reachable state in which m is Delivered, over any run in which its receiver stays
      bound, connected and silent, and which ends between two passes. Count the retries so far, the
      one the pass in progress still owes, and every scan started when m is due. If this makes four,
      m is Failed; if it makes less, m is Delivered with exactly that many retries; it never makes
      more. The one exception is a pass that has already found the receiver offline: then m is
      Pending. */
  lemma SilentOutcome(workers: nat, trusted: set<Uid>, past: seq<Label>, labels: seq<Label>, m: MsgId)
    requires var s := Run(Init(workers, trusted), past);
             && m in s.ledger.msgs && s.ledger.msgs[m].status == Delivered
             && SilentRun(s, labels, m) && Run(s, labels).retry.Sleeping?
    ensures var s := Run(Init(workers, trusted), past);
            var t := Run(s, labels);
            && m in t.ledger.msgs
            && var n := s.ledger.msgs[m].retryCount + Held(s.retry, s.ledger.msgs[m]) + DueScans(s, labels, m);
            if Returning(s.retry, m) then t.ledger.msgs[m].status == Pending
            else if n < 4 then t.ledger.msgs[m].status == Delivered && t.ledger.msgs[m].retryCount == n
            else n == 4 && t.ledger.msgs[m].status == Failed
  {
    var s := Run(Init(workers, trusted), past);
    ReachedFaithful(workers, trusted, past, m);
    RunReached(s, labels);
    if Returning(s.retry, m) {
      RunParked(s, labels, m);
    } else {
      RunTally(s, labels, m, s.ledger.msgs[m].retryCount + Held(s.retry, s.ledger.msgs[m]));
    }
  }

  /** So 4 - retry_count due scans are enough, from four down, whatever was going on at the start. */
  lemma SilentMessageFails(workers: nat, trusted: set<Uid>, past: seq<Label>, labels: seq<Label>, m: MsgId)
    requires var s := Run(Init(workers, trusted), past);
             && m in s.ledger.msgs && s.ledger.msgs[m].status == Delivered && !Returning(s.retry, m)
             && SilentRun(s, labels, m) && Run(s, labels).retry.Sleeping?
             && s.ledger.msgs[m].retryCount + DueScans(s, labels, m) >= 4
    ensures var t := Run(Run(Init(workers, trusted), past), labels);
            m in t.ledger.msgs && t.ledger.msgs[m].status == Failed
  {
    SilentOutcome(workers, trusted, past, labels, m);
  }
}
