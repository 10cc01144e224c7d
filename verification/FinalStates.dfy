/** When Acked and Failed are final under interleaving: exactly when no thread carries a snapshot of
    the message that it will still mark. */
module FinalStates {
  import opened Options
  import opened Ledger
  import opened Scans
  import opened Delivery
  import opened EndToEnd
  import opened RetryBound
  import opened Progress
  import opened Snapshots
  import opened Solo
  import opened Handlers
  import opened HandlerRuns
  import opened RetryPass
  import opened Serial
  import UserState

  /** Some worker or the retry thread still has a snapshot of m to mark. */
  ghost predicate Carried(s: System, m: MsgId) {
    || (exists w :: 0 <= w < |s.jobs| && InBatch(ToMark(s.jobs[w]), m))
    || InBatch(ToRetry(s.retry), m)
  }

  ghost predicate IsAcked(s: System, m: MsgId) {
    m in s.ledger.msgs && s.ledger.msgs[m].status == Acked
  }

  // ------------------------------------------------------------ nobody carries it

  lemma CarriedKept(s: System, a: Label, m: MsgId)
    requires IdsDense(s.ledger) && IsAcked(s, m) && !Carried(s, m)
    ensures !Carried(Step(s, a), m) && !Overwrites(s, a, m)
  {
    if a.Retry? {
      RetryKeepsOut(s.retry, s.ledger, s.users, a.now, a.up, m);
    } else if a.Work? {
      if a.worker < |s.jobs| { WorkKeepsOut(s.jobs[a.worker], s.ledger, s.users, a.now, a.up, m); }
    }
  }

  ghost predicate TablesOk(s: System) {
    var tables := Consistent(s.ledger) && UserState.MutuallyInverse(s.users);
    tables
  }

  lemma {:induction false} StaysAcked(s: System, labels: seq<Label>, m: MsgId)
    requires TablesOk(s) && IsAcked(s, m) && !Carried(s, m)
    ensures var t := Run(s, labels); TablesOk(t) && IsAcked(t, m) && !Carried(t, m)
  {
    if labels != [] {
      var before, a := labels[..|labels| - 1], labels[|labels| - 1];
      StaysAcked(s, before, m);
      var t := Run(s, before);
      StepTables(t, a);
      CarriedKept(t, a, m);
      AckedLeftIff(t, a, m);
    }
  }

  // --------------------------------------------------------------- a worker carries it

  /** m is neither Acked nor Failed. */
  ghost predicate Left(w: World, m: MsgId) {
    m in w.ledger.msgs && w.ledger.msgs[m].status != Acked && w.ledger.msgs[m].status != Failed
  }

  ghost predicate NotAcked(w: World, m: MsgId) {
    m in w.ledger.msgs && w.ledger.msgs[m].status != Acked
  }

  lemma {:induction false} TryAllKeepsIds(w: World, rs: seq<Record>, env: nat -> Tick, m: MsgId)
    requires m in w.ledger.msgs
    ensures m in TryAll(w, rs, env).ledger.msgs
  {
    if rs != [] { TryAllKeepsIds(w, rs[..|rs| - 1], env, m); }
  }

  lemma TryOneLeaves(w: World, r: Record, t: Tick)
    requires r.msgId in w.ledger.msgs && r.status == Pending
    ensures Left(TryOne(w, r, t), r.msgId)
  {
  }

  lemma BatchLeaves(w: World, rs: seq<Record>, after: Option<Outgoing>, ticks: Ticks, m: MsgId) returns (n: nat, b: Machine)
    requires InBatch(rs, m) && AllOf(rs, Pending) && m in w.ledger.msgs
    ensures Leads(With(Try(rs, after), w), ticks, n, b) && Left(b.world, m)
  {
    var i :| 0 <= i < |rs| && rs[i].msgId == m;
    var env;
    n, env := TryAllRuns(w, rs, after, ticks, i + 1);
    b := With(Onward(rs[i + 1..], after), TryAll(w, rs[..i + 1], env));
    TryAllNext(w, rs, env, i);
    TryAllKeepsIds(w, rs[..i], env, m);
    TryOneLeaves(TryAll(w, rs[..i], env), rs[i], env(i));
  }

  /** From b on, one leg after n steps. */
  lemma Onto(a: Machine, ticks: Ticks, n: nat, b: Machine, k: nat, c: Machine) returns (total: nat)
    requires Leads(a, ticks, n, b) && Leads(b, Shift(ticks, n), k, c)
    ensures Leads(a, ticks, total, c)
  {
    total := n + k;
    LeadsVia(a, ticks, n, b, k, c);
  }

  lemma RestOf(rs: seq<Record>, m: MsgId)
    requires InBatch(rs, m) && rs[0].msgId != m
    ensures rs[1..] != [] && InBatch(rs[1..], m)
  {
    var i :| 0 <= i < |rs| && rs[i].msgId == m;
    assert rs[1..][i - 1].msgId == m;
  }

  /** The mark of the head is next: it is m's, or the loop goes on with the rest. */
  lemma HeadLeaves(w: World, j: Job, ticks: Ticks, m: MsgId) returns (n: nat, b: Machine)
    requires (j.TryPend? || j.TryMark?) && InBatch(j.todo, m) && AllOf(j.todo, Pending) && m in w.ledger.msgs
    ensures Leads(With(j, w), ticks, n, b) && Left(b.world, m)
  {
    LeadsOne(With(j, w), ticks);
    n, b := 1, Tock(With(j, w), ticks(0));
    if j.todo[0].msgId != m {
      RestOf(j.todo, m);
      var k, c := BatchLeaves(b.world, j.todo[1..], j.after, Shift(ticks, 1), m);
      n := Onto(With(j, w), ticks, 1, b, k, c);
      b := c;
    }
  }

  lemma SendLeaves(w: World, j: Job, ticks: Ticks, m: MsgId) returns (n: nat, b: Machine)
    requires j.TrySend? && InBatch(j.todo, m) && AllOf(j.todo, Pending) && m in w.ledger.msgs
    ensures Leads(With(j, w), ticks, n, b) && Left(b.world, m)
  {
    LeadsOne(With(j, w), ticks);
    var next := Tock(With(j, w), ticks(0));
    var k;
    k, b := HeadLeaves(next.world, TryMark(j.todo, j.after), Shift(ticks, 1), m);
    n := Onto(With(j, w), ticks, 1, next, k, b);
  }

  lemma {:induction false} FetchLeaves(w: World, uid: Uid, ids: seq<MsgId>, got: seq<Record>, ticks: Ticks, m: MsgId)
      returns (n: nat, b: Machine)
    requires InBatch(got, m) && AllOf(got, Pending) && m in w.ledger.msgs
    ensures Leads(With(PendingFetch(uid, ids, got), w), ticks, n, b) && Left(b.world, m)
    decreases |ids|
  {
    var a := With(PendingFetch(uid, ids, got), w);
    LeadsOne(a, ticks);
    var k;
    if ids == [] {
      k, b := BatchLeaves(w, got, None, Shift(ticks, 1), m);
      n := Onto(a, ticks, 1, With(Try(got, None), w), k, b);
    } else {
      var more := Keep(w.ledger, PendingTo(uid), ids[0], got);
      var i :| 0 <= i < |got| && got[i].msgId == m;
      assert more[i].msgId == m;
      k, b := FetchLeaves(w, uid, ids[1..], more, Shift(ticks, 1), m);
      n := Onto(a, ticks, 1, With(PendingFetch(uid, ids[1..], more), w), k, b);
    }
  }

  lemma WorkerLeaves(w: World, j: Job, ticks: Ticks, m: MsgId) returns (n: nat, b: Machine)
    requires InBatch(ToMark(j), m) && AllOf(ToMark(j), Pending) && m in w.ledger.msgs
    ensures Leads(With(j, w), ticks, n, b) && Left(b.world, m)
  {
    if j.PendingFetch? {
      n, b := FetchLeaves(w, j.uid, j.ids, j.got, ticks, m);
    } else if j.Try? {
      n, b := BatchLeaves(w, j.todo, j.after, ticks, m);
    } else if j.TrySend? {
      n, b := SendLeaves(w, j, ticks, m);
    } else {
      n, b := HeadLeaves(w, j, ticks, m);
    }
  }

  // --------------------------------------------------------- the retry thread carries it

  lemma {:induction false} RetryAllKeepsIds(w: World, rs: seq<Record>, env: nat -> Tick, m: MsgId)
    requires m in w.ledger.msgs
    ensures m in RetryAll(w, rs, env).ledger.msgs
  {
    if rs != [] { RetryAllKeepsIds(w, rs[..|rs| - 1], env, m); }
  }

  lemma RetryOneLeaves(w: World, r: Record, t: Tick)
    requires r.msgId in w.ledger.msgs && r.status == Delivered
    ensures NotAcked(RetryOne(w, r, t), r.msgId)
  {
  }

  lemma PassLeaves(w: World, rs: seq<Record>, ticks: Ticks, m: MsgId) returns (n: nat, b: Machine)
    requires InBatch(rs, m) && AllOf(rs, Delivered) && m in w.ledger.msgs
    ensures Leads(Retrying(RetryNext(rs), w), ticks, n, b) && NotAcked(b.world, m)
  {
    var i :| 0 <= i < |rs| && rs[i].msgId == m;
    var env;
    n, env := RetryAllRuns(w, rs, ticks, i + 1);
    b := Retrying(RetryNext(rs[i + 1..]), RetryAll(w, rs[..i + 1], env));
    RetryAllNext(w, rs, env, i);
    RetryAllKeepsIds(w, rs[..i], env, m);
    RetryOneLeaves(RetryAll(w, rs[..i], env), rs[i], env(i));
  }

  lemma RetryHeadLeaves(w: World, j: RetryJob, ticks: Ticks, m: MsgId) returns (n: nat, b: Machine)
    requires j.RetryFail? || j.RetryPend? || j.RetryMark?
    requires InBatch(j.todo, m) && AllOf(j.todo, Delivered) && m in w.ledger.msgs
    ensures Leads(Retrying(j, w), ticks, n, b) && NotAcked(b.world, m)
  {
    LeadsOne(Retrying(j, w), ticks);
    n, b := 1, Tock(Retrying(j, w), ticks(0));
    if j.todo[0].msgId != m {
      RestOf(j.todo, m);
      var k, c := PassLeaves(b.world, j.todo[1..], Shift(ticks, 1), m);
      n := Onto(Retrying(j, w), ticks, 1, b, k, c);
      b := c;
    }
  }

  lemma RetrySendLeaves(w: World, j: RetryJob, ticks: Ticks, m: MsgId) returns (n: nat, b: Machine)
    requires j.RetrySend? && InBatch(j.todo, m) && AllOf(j.todo, Delivered) && m in w.ledger.msgs
    ensures Leads(Retrying(j, w), ticks, n, b) && NotAcked(b.world, m)
  {
    LeadsOne(Retrying(j, w), ticks);
    var next := Tock(Retrying(j, w), ticks(0));
    var k;
    k, b := RetryHeadLeaves(next.world, RetryMark(j.todo), Shift(ticks, 1), m);
    n := Onto(Retrying(j, w), ticks, 1, next, k, b);
  }

  lemma RetryCountLeaves(w: World, j: RetryJob, ticks: Ticks, m: MsgId) returns (n: nat, b: Machine)
    requires j.RetryCount? && InBatch(j.todo, m) && AllOf(j.todo, Delivered) && m in w.ledger.msgs
    ensures Leads(Retrying(j, w), ticks, n, b) && NotAcked(b.world, m)
  {
    LeadsOne(Retrying(j, w), ticks);
    var next := Tock(Retrying(j, w), ticks(0));
    var k;
    k, b := RetrySendLeaves(next.world, RetrySend(j.target, j.todo), Shift(ticks, 1), m);
    n := Onto(Retrying(j, w), ticks, 1, next, k, b);
  }

  lemma {:induction false} OverdueLeaves(w: World, now: nat, ids: seq<MsgId>, got: seq<Record>, ticks: Ticks, m: MsgId)
      returns (n: nat, b: Machine)
    requires InBatch(got, m) && AllOf(got, Delivered) && m in w.ledger.msgs
    ensures Leads(Retrying(OverdueFetch(now, ids, got), w), ticks, n, b) && NotAcked(b.world, m)
    decreases |ids|
  {
    var a := Retrying(OverdueFetch(now, ids, got), w);
    LeadsOne(a, ticks);
    var k;
    if ids == [] {
      k, b := PassLeaves(w, got, Shift(ticks, 1), m);
      n := Onto(a, ticks, 1, Retrying(RetryNext(got), w), k, b);
    } else {
      var more := Keep(w.ledger, Overdue(now, AckTimeoutMs), ids[0], got);
      var i :| 0 <= i < |got| && got[i].msgId == m;
      assert more[i].msgId == m;
      k, b := OverdueLeaves(w, now, ids[1..], more, Shift(ticks, 1), m);
      n := Onto(a, ticks, 1, Retrying(OverdueFetch(now, ids[1..], more), w), k, b);
    }
  }

  lemma RetryLeaves(w: World, j: RetryJob, ticks: Ticks, m: MsgId) returns (n: nat, b: Machine)
    requires InBatch(ToRetry(j), m) && AllOf(ToRetry(j), Delivered) && m in w.ledger.msgs
    ensures Leads(Retrying(j, w), ticks, n, b) && NotAcked(b.world, m)
  {
    if j.OverdueFetch? {
      n, b := OverdueLeaves(w, j.now, j.ids, j.got, ticks, m);
    } else if j.RetryNext? {
      n, b := PassLeaves(w, j.todo, ticks, m);
    } else if j.RetryCount? {
      n, b := RetryCountLeaves(w, j, ticks, m);
    } else if j.RetrySend? {
      n, b := RetrySendLeaves(w, j, ticks, m);
    } else {
      n, b := RetryHeadLeaves(w, j, ticks, m);
    }
  }

  // ------------------------------------------------------------------- the condition

  /** Whoever carries m, scheduled alone, overwrites it. */
  lemma CarriedIsOverwritten(s: System, m: MsgId) returns (labels: seq<Label>)
    requires SeenRight(s) && m in s.ledger.msgs && Carried(s, m)
    ensures m in Run(s, labels).ledger.msgs && Run(s, labels).ledger.msgs[m].status != Acked
  {
    var ticks: Ticks := (i: nat) => Tick(0, true);
    if InBatch(ToRetry(s.retry), m) {
      var n, b := RetryLeaves(WorldOf(s), s.retry, ticks, m);
      LeadsIff(Retrying(s.retry, WorldOf(s)), ticks, n, b);
      RetryDrives(s, ticks, n);
      labels := RetryLabels(ticks, n);
    } else {
      var w :| 0 <= w < |s.jobs| && InBatch(ToMark(s.jobs[w]), m);
      var n, b := WorkerLeaves(WorldOf(s), s.jobs[w], ticks, m);
      LeadsIff(With(s.jobs[w], WorldOf(s)), ticks, n, b);
      WorkerDrives(s, w, ticks, n);
      labels := WorkLabels(w, ticks, n);
    }
  }

  /** From a reachable state in which m is Acked: m is Acked after every continuation if and only if
      no worker and no retry batch holds a snapshot of m that is still to be marked. */
  lemma AckedFinalIff(workers: nat, trusted: set<Uid>, past: seq<Label>, m: MsgId)
    requires IsAcked(Run(Init(workers, trusted), past), m)
    ensures var s := Run(Init(workers, trusted), past);
            (forall labels :: IsAcked(Run(s, labels), m)) <==> !Carried(s, m)
  {
    var s := Run(Init(workers, trusted), past);
    EndToEnd.RunInv(workers, trusted, past);
    RunSeen(workers, trusted, past);
    if Carried(s, m) {
      var labels := CarriedIsOverwritten(s, m);
      assert !IsAcked(Run(s, labels), m);
    } else {
      forall labels ensures IsAcked(Run(s, labels), m) { StaysAcked(s, labels, m); }
    }
  }

  // ------------------------------------------------------------------------- Failed

  ghost predicate Finished(s: System, m: MsgId) {
    m in s.ledger.msgs && (s.ledger.msgs[m].status == Failed || s.ledger.msgs[m].status == Acked)
  }

  /** Some worker still has a snapshot of m to mark. */
  ghost predicate WorkerCarries(s: System, m: MsgId) {
    exists w :: 0 <= w < |s.jobs| && InBatch(ToMark(s.jobs[w]), m)
  }

  /** The retry thread is done with what it has failed. */
  ghost predicate FailedOut(s: System) {
    forall m :: m in s.ledger.msgs && s.ledger.msgs[m].status == Failed ==> !InBatch(ToRetry(s.retry), m)
  }

  lemma WorkNeverFails(j: Job, l: Ledger, users: UserState.Table, now: nat, up: bool, m: MsgId)
    requires IdsDense(l)
    ensures var k := Advance(j, l, users, now, up).ledger;
            m in k.msgs && k.msgs[m].status == Failed ==> m in l.msgs && l.msgs[m].status == Failed
  {
    AdvanceRunsScript(j, l, users, now, up);
  }

  /** Only the script that fails m makes it Failed, and m is then the head of the batch. */
  lemma RetryFailsHead(j: RetryJob, l: Ledger, users: UserState.Table, now: nat, up: bool, m: MsgId)
    requires m in l.msgs && l.msgs[m].status != Failed
    requires var k := AdvanceRetry(j, l, users, now, up).ledger; m in k.msgs && k.msgs[m].status == Failed
    ensures j.RetryFail? && j.todo != [] && j.todo[0].msgId == m
  {
    RetryRunsScript(j, l, users, now, up);
  }

  lemma RetryAddsNone(j: RetryJob, l: Ledger, users: UserState.Table, now: nat, up: bool, m: MsgId)
    requires m in AdvanceRetry(j, l, users, now, up).ledger.msgs
    ensures m in l.msgs
  {
    RetryRunsScript(j, l, users, now, up);
  }

  lemma RetryFailedOut(s: System, now: nat, up: bool)
    requires RetryInv(s) && FailedOut(s)
    ensures FailedOut(Step(s, Retry(now, up)))
  {
    var t := Step(s, Retry(now, up));
    forall m | m in t.ledger.msgs && t.ledger.msgs[m].status == Failed ensures !InBatch(ToRetry(t.retry), m) {
      RetryAddsNone(s.retry, s.ledger, s.users, now, up, m);
      if s.ledger.msgs[m].status == Failed {
        RetryKeepsOut(s.retry, s.ledger, s.users, now, up, m);
      } else {
        RetryFailsHead(s.retry, s.ledger, s.users, now, up, m);
        TailOf(s.retry.todo, m);
      }
    }
  }

  lemma StepFailedOut(s: System, a: Label)
    requires RetryInv(s) && FailedOut(s)
    ensures FailedOut(Step(s, a))
  {
    if a.Retry? {
      RetryFailedOut(s, a.now, a.up);
    } else if a.Work? && a.worker < |s.jobs| {
      forall m ensures var k := Step(s, a).ledger;
                       m in k.msgs && k.msgs[m].status == Failed ==> m in s.ledger.msgs && s.ledger.msgs[m].status == Failed
      {
        WorkNeverFails(s.jobs[a.worker], s.ledger, s.users, a.now, a.up, m);
      }
    } else {
      OtherTables(s, a);
    }
  }

  lemma {:induction false} RunFailedOut(workers: nat, trusted: set<Uid>, labels: seq<Label>)
    ensures FailedOut(Run(Init(workers, trusted), labels))
  {
    if labels != [] {
      var n := |labels| - 1;
      RunFailedOut(workers, trusted, labels[..n]);
      RunRetryInv(workers, trusted, labels[..n]);
      StepFailedOut(Run(Init(workers, trusted), labels[..n]), labels[n]);
    }
  }

  /** Nobody is going to mark m, except that an ACK may come. */
  ghost predicate Settled(s: System, m: MsgId) {
    Finished(s, m) && !WorkerCarries(s, m) && !InBatch(ToRetry(s.retry), m)
  }

  lemma SettledRecord(l: Ledger, script: Option<Script>, m: MsgId)
    requires IdsDense(l) && m in l.msgs && (l.msgs[m].status == Failed || l.msgs[m].status == Acked)
    requires script.Some? ==> script.value.DoCreate? || script.value.DoAcked? || script.value.id != m
    ensures var k := ExecOption(l, script); m in k.msgs && (k.msgs[m].status == Failed || k.msgs[m].status == Acked)
  {
    if script.Some? && script.value.DoAcked? && script.value.id == m {
    } else {
      UntouchedRecord(l, script, m);
    }
  }

  lemma StepSettled(s: System, a: Label, m: MsgId)
    requires IdsDense(s.ledger) && Settled(s, m)
    ensures Settled(Step(s, a), m)
  {
    if a.Retry? {
      RetryKeepsOut(s.retry, s.ledger, s.users, a.now, a.up, m);
      RetryRunsScript(s.retry, s.ledger, s.users, a.now, a.up);
      SettledRecord(s.ledger, RetryScriptOf(s.retry, a.now), m);
    } else if a.Work? && a.worker < |s.jobs| {
      WorkSettled(s, a.worker, a.now, a.up, m);
    } else {
      OtherTables(s, a);
      NewJobsEmpty(s, a, m);
    }
  }

  lemma WorkSettled(s: System, w: nat, now: nat, up: bool, m: MsgId)
    requires IdsDense(s.ledger) && Settled(s, m) && w < |s.jobs|
    ensures Settled(Step(s, Work(w, now, up)), m)
  {
    assert !InBatch(ToMark(s.jobs[w]), m);
    WorkKeepsOut(s.jobs[w], s.ledger, s.users, now, up, m);
    AdvanceRunsScript(s.jobs[w], s.ledger, s.users, now, up);
    SettledRecord(s.ledger, ScriptOf(s.jobs[w], now), m);
  }

  /** A worker that picks something up starts without snapshots. */
  lemma NewJobsEmpty(s: System, a: Label, m: MsgId)
    requires !a.Retry? && (a.Work? ==> a.worker >= |s.jobs|) && !WorkerCarries(s, m)
    ensures !WorkerCarries(Step(s, a), m)
  {
  }

  lemma {:induction false} StaysSettled(s: System, labels: seq<Label>, m: MsgId)
    requires TablesOk(s) && Settled(s, m)
    ensures TablesOk(Run(s, labels)) && Settled(Run(s, labels), m)
  {
    if labels != [] {
      var before, a := labels[..|labels| - 1], labels[|labels| - 1];
      StaysSettled(s, before, m);
      StepTables(Run(s, before), a);
      StepSettled(Run(s, before), a, m);
    }
  }

  lemma WorkerOverwrites(s: System, m: MsgId) returns (labels: seq<Label>)
    requires SeenRight(s) && m in s.ledger.msgs && WorkerCarries(s, m)
    ensures !Finished(Run(s, labels), m)
  {
    var ticks: Ticks := Always(Tick(0, true));
    var w :| 0 <= w < |s.jobs| && InBatch(ToMark(s.jobs[w]), m);
    var n, b := WorkerLeaves(WorldOf(s), s.jobs[w], ticks, m);
    LeadsIff(With(s.jobs[w], WorldOf(s)), ticks, n, b);
    WorkerDrives(s, w, ticks, n);
    labels := WorkLabels(w, ticks, n);
  }

  /** From a reachable state in which m is Failed: m is Failed, or Acked by a late ACK, after every
      continuation if and only if no worker holds a snapshot of m that is still to be marked. */
  lemma FailedFinalIff(workers: nat, trusted: set<Uid>, past: seq<Label>, m: MsgId)
    requires var s := Run(Init(workers, trusted), past); m in s.ledger.msgs && s.ledger.msgs[m].status == Failed
    ensures var s := Run(Init(workers, trusted), past);
            (forall labels :: Finished(Run(s, labels), m)) <==> !WorkerCarries(s, m)
  {
    var s := Run(Init(workers, trusted), past);
    EndToEnd.RunInv(workers, trusted, past);
    RunSeen(workers, trusted, past);
    RunFailedOut(workers, trusted, past);
    if WorkerCarries(s, m) {
      var labels := WorkerOverwrites(s, m);
      assert !Finished(Run(s, labels), m);
    } else {
      forall labels ensures Finished(Run(s, labels), m) { StaysSettled(s, labels, m); }
    }
  }
}
