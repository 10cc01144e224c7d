/** The retry counter under every interleaving: it never exceeds three and counts exactly the
    pushes of the retry thread. */
module RetryBound {
  import opened Options
  import opened SortedSet
  import opened Ledger
  import opened Scans
  import opened Delivery
  import opened EndToEnd
  import UserState

  /** The snapshot's count is still the current one. */
  ghost predicate CountCurrent(l: Ledger, r: Record) {
    r.msgId in l.msgs && l.msgs[r.msgId].retryCount == r.retryCount
  }

  ghost predicate Batch(l: Ledger, todo: seq<Record>) {
    Distinct(todo) && forall i :: 0 <= i < |todo| ==> CountCurrent(l, todo[i])
  }

  /** The head is being retried; the others still wait. */
  ghost predicate Busy(l: Ledger, todo: seq<Record>) {
    Distinct(todo) && (forall i :: 1 <= i < |todo| ==> CountCurrent(l, todo[i])) && (todo != [] ==> todo[0].msgId in l.msgs)
  }

  /** Ids still to be fetched are distinct and not fetched yet. */
  ghost predicate CountFetching(l: Ledger, ids: seq<MsgId>, got: seq<Record>) {
    && Batch(l, got)
    && (forall i, j :: 0 <= i < j < |ids| ==> ids[i] != ids[j])
    && (forall i, j :: 0 <= i < |ids| && 0 <= j < |got| ==> ids[i] != got[j].msgId)
  }

  ghost predicate BatchOk(l: Ledger, j: RetryJob) {
    match j
    case Sleeping => true
    case OverdueRead(_) => true
    case OverdueFetch(_, ids, got) => CountFetching(l, ids, got)
    case RetryNext(todo) => Batch(l, todo)
    case RetryFail(todo) => Batch(l, todo) && (todo != [] ==> todo[0].retryCount >= MaxRetryCount)
    case RetryPend(todo) => Batch(l, todo)
    case RetryCount(_, todo) => Batch(l, todo) && (todo != [] ==> todo[0].retryCount < MaxRetryCount)
    case RetrySend(_, todo) => Busy(l, todo)
    case RetryMark(todo) => Busy(l, todo)
  }

  /** The retry thread has counted a push of id that it has not sent yet. */
  predicate Sending(j: RetryJob, id: MsgId) {
    j.RetrySend? && j.todo != [] && j.todo[0].msgId == id
  }

  ghost predicate Counted(s: System) {
    && (forall id :: id in s.ledger.msgs ==>
          s.ledger.msgs[id].retryCount <= MaxRetryCount
          && s.ledger.msgs[id].retryCount == Pushes(s, id) + if Sending(s.retry, id) then 1 else 0)
    && (forall id :: id in s.pushed ==> id in s.ledger.msgs)
  }

  ghost predicate RetryInv(s: System) {
    IdsDense(s.ledger) && BatchOk(s.ledger, s.retry) && Counted(s)
  }

  /** Only incrementRetryCount changes a counter; new messages start at zero. */
  lemma ExecCounts(l: Ledger, s: Script, id: MsgId)
    requires IdsDense(l) && id in Exec(l, s).msgs
    ensures id in l.msgs ==> Exec(l, s).msgs[id].retryCount == l.msgs[id].retryCount + if s == DoRetry(id) then 1 else 0
    ensures id !in l.msgs ==> Exec(l, s).msgs[id].retryCount == 0
  {
  }

  lemma BatchOkKept(l: Ledger, m: Ledger, j: RetryJob)
    requires BatchOk(l, j)
    requires forall id :: id in l.msgs ==> id in m.msgs && m.msgs[id].retryCount == l.msgs[id].retryCount
    ensures BatchOk(m, j)
  {
  }

  lemma CountedKept(s: System, t: System)
    requires Counted(s) && BatchOk(s.ledger, s.retry) && t.retry == s.retry && t.pushed == s.pushed
    requires forall id :: id in s.ledger.msgs ==> id in t.ledger.msgs
    requires forall id :: id in t.ledger.msgs ==>
               t.ledger.msgs[id].retryCount == if id in s.ledger.msgs then s.ledger.msgs[id].retryCount else 0
    ensures Counted(t)
  {
    forall id | id in t.ledger.msgs ensures t.ledger.msgs[id].retryCount == Pushes(t, id) + if Sending(t.retry, id) then 1 else 0 {
      assert Sending(s.retry, id) ==> id in s.ledger.msgs;
    }
  }

  lemma ExecGrowsMsgs(l: Ledger, script: Option<Script>, id: MsgId)
    requires id in l.msgs
    ensures id in ExecOption(l, script).msgs
  {
  }

  /** A step of a business worker leaves counters and batch alone. */
  lemma WorkKeeps(s: System, w: nat, now: nat, up: bool)
    requires RetryInv(s) && w < |s.jobs|
    ensures BatchOk(Step(s, Work(w, now, up)).ledger, s.retry) && Counted(Step(s, Work(w, now, up)))
  {
    var t := Step(s, Work(w, now, up));
    var script := ScriptOf(s.jobs[w], now);
    AdvanceRunsScript(s.jobs[w], s.ledger, s.users, now, up);
    assert t.ledger == ExecOption(s.ledger, script);
    WorkerCounts(s, t, script);
  }

  lemma WorkerCounts(s: System, t: System, script: Option<Script>)
    requires RetryInv(s) && t.retry == s.retry && t.pushed == s.pushed
    requires t.ledger == ExecOption(s.ledger, script) && (script.Some? ==> !script.value.DoRetry?)
    ensures BatchOk(t.ledger, s.retry) && Counted(t)
  {
    forall id | id in s.ledger.msgs ensures id in t.ledger.msgs { ExecGrowsMsgs(s.ledger, script, id); }
    forall id | id in t.ledger.msgs
      ensures t.ledger.msgs[id].retryCount == if id in s.ledger.msgs then s.ledger.msgs[id].retryCount else 0
    {
      if script.Some? { ExecCounts(s.ledger, script.value, id); }
    }
    BatchOkKept(s.ledger, t.ledger, s.retry);
    CountedKept(s, t);
  }

  lemma OthersKeep(s: System, a: Label)
    requires RetryInv(s) && !a.Retry? && !a.Work?
    ensures BatchOk(Step(s, a).ledger, Step(s, a).retry) && Counted(Step(s, a))
  {
    OtherTables(s, a);
  }

  lemma CountFetchingStep(l: Ledger, q: Query, ids: seq<MsgId>, got: seq<Record>)
    requires IdsDense(l) && CountFetching(l, ids, got) && ids != []
    ensures CountFetching(l, ids[1..], Keep(l, q, ids[0], got))
  {
  }

  lemma CountListed(l: Ledger, q: Query)
    ensures CountFetching(l, Listed(l, q), [])
  {
    assert IsListing(Candidates(l, q), Listed(l, q));
  }

  /** After its head is dealt with, the rest of the batch is still current. */
  lemma TailBatch(l: Ledger, m: Ledger, todo: seq<Record>)
    requires Busy(l, todo) && todo != []
    requires forall id :: id in l.msgs ==> id in m.msgs && (id != todo[0].msgId ==> m.msgs[id].retryCount == l.msgs[id].retryCount)
    ensures Batch(m, todo[1..]) && Busy(m, todo)
  {
  }

  lemma MarksKeepCounts(l: Ledger, id: MsgId, now: nat, k: MsgId)
    requires k in l.msgs
    ensures k in MarkDelivered(l, id, now).msgs && MarkDelivered(l, id, now).msgs[k].retryCount == l.msgs[k].retryCount
    ensures k in MarkPending(l, id).msgs && MarkPending(l, id).msgs[k].retryCount == l.msgs[k].retryCount
    ensures k in MarkFailed(l, id).msgs && MarkFailed(l, id).msgs[k].retryCount == l.msgs[k].retryCount
  {
  }

  /** The retry thread itself: its snapshot is current when it counts. */
  lemma RetryKeepsBatch(j: RetryJob, l: Ledger, users: UserState.Table, now: nat, up: bool)
    requires IdsDense(l) && BatchOk(l, j)
    ensures BatchOk(AdvanceRetry(j, l, users, now, up).ledger, AdvanceRetry(j, l, users, now, up).job)
  {
    var m := AdvanceRetry(j, l, users, now, up).ledger;
    if j.OverdueRead? {
      CountListed(l, Overdue(j.now, AckTimeoutMs));
    } else if j.OverdueFetch? {
      if j.ids != [] { CountFetchingStep(l, Overdue(j.now, AckTimeoutMs), j.ids, j.got); }
    } else if !j.Sleeping? && j.todo != [] {
      forall k | k in l.msgs
        ensures k in m.msgs && (k != j.todo[0].msgId ==> m.msgs[k].retryCount == l.msgs[k].retryCount)
      {
        MarksKeepCounts(l, j.todo[0].msgId, now, k);
      }
      TailBatch(l, m, j.todo);
    }
  }

  lemma RetryKeepsCounts(s: System, now: nat, up: bool)
    requires RetryInv(s)
    ensures Counted(Step(s, Retry(now, up)))
  {
    var t := Step(s, Retry(now, up));
    if s.retry.RetryCount? || s.retry.RetrySend? {
      assert s.retry.todo != [] ==> s.retry.todo[0].msgId in s.ledger.msgs;
      PushCounts(s, t);
    } else {
      var script := RetryScriptOf(s.retry, now);
      RetryRunsScript(s.retry, s.ledger, s.users, now, up);
      assert t.pushed == s.pushed;
      var u := t.(retry := s.retry);
      WorkerCounts(s, u, script);
    }
  }

  lemma PushCounts(s: System, t: System)
    requires RetryInv(s) && (s.retry.RetryCount? || s.retry.RetrySend?)
    requires t.pushed == CountPush(s)
    requires s.retry.todo == [] ==> t.ledger == s.ledger && t.retry == Sleeping
    requires s.retry.todo != [] && s.retry.RetryCount? ==>
               t.ledger == IncrementRetry(s.ledger, s.retry.todo[0].msgId) && t.retry == RetrySend(s.retry.target, s.retry.todo)
    requires s.retry.todo != [] && s.retry.RetrySend? ==> t.ledger == s.ledger && t.retry == RetryMark(s.retry.todo)
    ensures Counted(t)
  {
  }

  lemma StepRetryInv(s: System, a: Label)
    requires RetryInv(s) && IdsDense(Step(s, a).ledger)
    ensures RetryInv(Step(s, a))
  {
    if a.Retry? {
      RetryKeepsBatch(s.retry, s.ledger, s.users, a.now, a.up);
      RetryKeepsCounts(s, a.now, a.up);
    } else if a.Work? {
      if a.worker < |s.jobs| { WorkKeeps(s, a.worker, a.now, a.up); }
    } else {
      OthersKeep(s, a);
    }
  }

  lemma {:induction false} RunRetryInv(workers: nat, trusted: set<Uid>, labels: seq<Label>)
    ensures RetryInv(Run(Init(workers, trusted), labels))
  {
    if labels != [] {
      var before, a := labels[..|labels| - 1], labels[|labels| - 1];
      RunRetryInv(workers, trusted, before);
      RunDense(workers, trusted, labels);
      StepRetryInv(Run(Init(workers, trusted), before), a);
    }
  }

  /** In every reachable state retry_count is at most three, and it is the number of pushes the
      retry thread has sent for the message, plus the one it is about to send. */
  lemma RetriesBounded(workers: nat, trusted: set<Uid>, labels: seq<Label>, id: MsgId)
    requires id in Run(Init(workers, trusted), labels).ledger.msgs
    ensures var s := Run(Init(workers, trusted), labels);
            && s.ledger.msgs[id].retryCount <= 3
            && s.ledger.msgs[id].retryCount == Pushes(s, id) + if Sending(s.retry, id) then 1 else 0
  {
    RunRetryInv(workers, trusted, labels);
  }
}
