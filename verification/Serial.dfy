/** Acked and Failed as final states when handlers and retry passes run one at a time, and which
    single steps leave Acked when they interleave. */
module Serial {
  import opened SortedSet
  import opened Ledger
  import opened Scans
  import opened Delivery
  import opened EndToEnd
  import UserState

  // -------------------------------------------------- one handler at a time

  predicate AllIdleBut(s: System, w: nat) {
    forall v :: 0 <= v < |s.jobs| && v != w ==> s.jobs[v].Idle?
  }

  predicate AllIdle(s: System) {
    forall v :: 0 <= v < |s.jobs| ==> s.jobs[v].Idle?
  }

  /** The thread that moves is the only one in the middle of something. */
  predicate Alone(s: System, a: Label) {
    match a
    case Take(w, _, _) => AllIdleBut(s, w) && s.retry.Sleeping?
    case TakeClose(w, _) => AllIdleBut(s, w) && s.retry.Sleeping?
    case Work(w, _, _) => AllIdleBut(s, w) && s.retry.Sleeping?
    case Retry(_, _) => AllIdle(s)
    case _ => true
  }

  ghost predicate SerialRun(s: System, labels: seq<Label>) {
    forall i :: 0 <= i < |labels| ==> Alone(Run(s, labels[..i]), labels[i])
  }

  // ------------------------------------------------- snapshots stay current

  /** Every snapshot has this status, and so has the message now. */
  ghost predicate StatusCurrent(l: Ledger, rs: seq<Record>, st: Status) {
    && Distinct(rs)
    && forall i :: 0 <= i < |rs| ==> rs[i].msgId in l.msgs && l.msgs[rs[i].msgId].status == st && rs[i].status == st
  }

  ghost predicate StatusFetching(l: Ledger, ids: seq<MsgId>, got: seq<Record>, st: Status) {
    && StatusCurrent(l, got, st)
    && (forall i, j :: 0 <= i < j < |ids| ==> ids[i] != ids[j])
    && (forall i, j :: 0 <= i < |ids| && 0 <= j < |got| ==> ids[i] != got[j].msgId)
  }

  ghost predicate FreshJob(l: Ledger, j: Job) {
    match j
    case PendingFetch(_, ids, got) => StatusFetching(l, ids, got, Pending)
    case Try(todo, _) => StatusCurrent(l, todo, Pending)
    case TryPend(todo, _) => StatusCurrent(l, todo, Pending)
    case TrySend(_, todo, _) => StatusCurrent(l, todo, Pending)
    case TryMark(todo, _) => StatusCurrent(l, todo, Pending)
    case _ => true
  }

  ghost predicate FreshRetry(l: Ledger, j: RetryJob) {
    match j
    case Sleeping => true
    case OverdueRead(_) => true
    case OverdueFetch(_, ids, got) => StatusFetching(l, ids, got, Delivered)
    case RetryNext(todo) => StatusCurrent(l, todo, Delivered)
    case RetryFail(todo) => StatusCurrent(l, todo, Delivered)
    case RetryPend(todo) => StatusCurrent(l, todo, Delivered)
    case RetryCount(_, todo) => StatusCurrent(l, todo, Delivered)
    case RetrySend(_, todo) => StatusCurrent(l, todo, Delivered)
    case RetryMark(todo) => StatusCurrent(l, todo, Delivered)
  }

  ghost predicate SerialInv(s: System) {
    && IdsDense(s.ledger) && FreshRetry(s.ledger, s.retry)
    && forall w :: 0 <= w < |s.jobs| ==> FreshJob(s.ledger, s.jobs[w])
  }

  /** Acked is kept, Failed is kept or becomes Acked. */
  ghost predicate FinalKept(l: Ledger, m: Ledger) {
    forall id :: id in l.msgs ==>
      && id in m.msgs
      && (l.msgs[id].status == Acked ==> m.msgs[id].status == Acked)
      && (l.msgs[id].status == Failed ==> m.msgs[id].status == Failed || m.msgs[id].status == Acked)
  }

  lemma StatusFetchingStep(l: Ledger, q: Query, ids: seq<MsgId>, got: seq<Record>, st: Status)
    requires IdsDense(l) && StatusFetching(l, ids, got, st) && ids != []
    requires forall r: Record :: Matches(q, r) ==> r.status == st
    ensures StatusFetching(l, ids[1..], Keep(l, q, ids[0], got), st)
  {
  }

  lemma StatusListed(l: Ledger, q: Query, st: Status)
    ensures StatusFetching(l, Listed(l, q), [], st)
  {
    assert IsListing(Candidates(l, q), Listed(l, q));
  }

  /** Once its head is marked, the rest of a current batch is still current. */
  lemma TailCurrent(l: Ledger, m: Ledger, todo: seq<Record>, st: Status)
    requires StatusCurrent(l, todo, st) && todo != []
    requires forall id :: id in l.msgs && id != todo[0].msgId ==> id in m.msgs && m.msgs[id] == l.msgs[id]
    ensures StatusCurrent(m, todo[1..], st)
  {
  }

  lemma DeliverFresh(j: Job, l: Ledger, users: UserState.Table, now: nat, up: bool)
    requires FreshJob(l, j) && (j.Try? || j.TryPend? || j.TrySend? || j.TryMark?)
    ensures var e := Advance(j, l, users, now, up); FreshJob(e.ledger, e.job)
  {
    if j.todo != [] { TailCurrent(l, Advance(j, l, users, now, up).ledger, j.todo, Pending); }
  }

  lemma WorkFresh(j: Job, l: Ledger, users: UserState.Table, now: nat, up: bool)
    requires IdsDense(l) && FreshJob(l, j)
    ensures var e := Advance(j, l, users, now, up); FreshJob(e.ledger, e.job)
  {
    if j.Try? || j.TryPend? || j.TrySend? || j.TryMark? {
      DeliverFresh(j, l, users, now, up);
    } else if j.PendingRead? {
      StatusListed(l, PendingTo(j.uid), Pending);
    } else if j.PendingFetch? && j.ids != [] {
      StatusFetchingStep(l, PendingTo(j.uid), j.ids, j.got, Pending);
    }
  }

  lemma WorkFinal(j: Job, l: Ledger, users: UserState.Table, now: nat, up: bool)
    requires IdsDense(l) && FreshJob(l, j)
    ensures FinalKept(l, Advance(j, l, users, now, up).ledger)
  {
    AdvanceRunsScript(j, l, users, now, up);
  }

  lemma RetryFresh(j: RetryJob, l: Ledger, users: UserState.Table, now: nat, up: bool)
    requires IdsDense(l) && FreshRetry(l, j)
    ensures var e := AdvanceRetry(j, l, users, now, up); FreshRetry(e.ledger, e.job)
  {
    match j
    case OverdueRead(t) => StatusListed(l, Overdue(t, AckTimeoutMs), Delivered);
    case OverdueFetch(t, ids, got) => if ids != [] { StatusFetchingStep(l, Overdue(t, AckTimeoutMs), ids, got, Delivered); }
    case RetryNext(todo) => if todo != [] { TailCurrent(l, l, todo, Delivered); }
    case RetryFail(todo) => if todo != [] { TailCurrent(l, MarkFailed(l, todo[0].msgId), todo, Delivered); }
    case RetryPend(todo) => if todo != [] { TailCurrent(l, MarkPending(l, todo[0].msgId), todo, Delivered); }
    case RetryMark(todo) => if todo != [] { TailCurrent(l, MarkDelivered(l, todo[0].msgId, now), todo, Delivered); }
    case _ =>
  }

  lemma RetryFinal(j: RetryJob, l: Ledger, users: UserState.Table, now: nat, up: bool)
    requires IdsDense(l) && FreshRetry(l, j)
    ensures FinalKept(l, AdvanceRetry(j, l, users, now, up).ledger)
  {
    RetryRunsScript(j, l, users, now, up);
  }

  lemma SerialStep(s: System, a: Label)
    requires SerialInv(s) && Alone(s, a) && IdsDense(Step(s, a).ledger)
    ensures SerialInv(Step(s, a)) && FinalKept(s.ledger, Step(s, a).ledger)
  {
    if a.Work? {
      if a.worker < |s.jobs| {
        WorkFresh(s.jobs[a.worker], s.ledger, s.users, a.now, a.up);
        WorkFinal(s.jobs[a.worker], s.ledger, s.users, a.now, a.up);
      }
    } else if a.Retry? {
      RetryFresh(s.retry, s.ledger, s.users, a.now, a.up);
      RetryFinal(s.retry, s.ledger, s.users, a.now, a.up);
    } else {
      assert Step(s, a).ledger == s.ledger && Step(s, a).retry == s.retry;
    }
  }

  lemma {:induction false} SerialRunInv(workers: nat, trusted: set<Uid>, labels: seq<Label>)
    requires SerialRun(Init(workers, trusted), labels)
    ensures SerialInv(Run(Init(workers, trusted), labels))
  {
    if labels != [] {
      var n := |labels| - 1;
      assert forall i :: 0 <= i < n ==> labels[..n][..i] == labels[..i];
      SerialRunInv(workers, trusted, labels[..n]);
      RunDense(workers, trusted, labels);
      SerialStep(Run(Init(workers, trusted), labels[..n]), labels[n]);
    }
  }

  /** In every run whose handlers and retry passes execute one at a time, between any two
      moments of the run: Acked is never left and Failed can only become Acked. */
  lemma {:induction false} FinalStatesKept(workers: nat, trusted: set<Uid>, labels: seq<Label>, i: nat)
    requires SerialRun(Init(workers, trusted), labels) && i <= |labels|
    ensures FinalKept(Run(Init(workers, trusted), labels[..i]).ledger, Run(Init(workers, trusted), labels).ledger)
    decreases |labels|
  {
    if i == |labels| {
      assert labels[..i] == labels;
    } else {
      var n := |labels| - 1;
      assert forall k :: 0 <= k <= n ==> labels[..n][..k] == labels[..k];
      FinalStatesKept(workers, trusted, labels[..n], i);
      SerialRunInv(workers, trusted, labels[..n]);
      RunDense(workers, trusted, labels);
      SerialStep(Run(Init(workers, trusted), labels[..n]), labels[n]);
    }
  }

  // -------------------------------------------------- under interleaving

  /** The thread that moves is about to run a mark script for m that is not markAcked. */
  predicate Overwrites(s: System, a: Label, m: MsgId) {
    || (a.Work? && a.worker < |s.jobs|
        && var j := s.jobs[a.worker]; (j.TryPend? || j.TryMark?) && j.todo != [] && j.todo[0].msgId == m)
    || (a.Retry?
        && (s.retry.RetryFail? || s.retry.RetryPend? || s.retry.RetryMark?)
        && s.retry.todo != [] && s.retry.todo[0].msgId == m)
  }

  lemma ScriptLeavesAcked(l: Ledger, s: Script, m: MsgId)
    requires IdsDense(l) && m in l.msgs && l.msgs[m].status == Acked
    ensures m in Exec(l, s).msgs
    ensures Exec(l, s).msgs[m].status != Acked <==> (s.DoDelivered? || s.DoPending? || s.DoFailed?) && s.id == m
  {
  }

  /** Exactly when a step takes a message out of Acked. */
  lemma AckedLeftIff(s: System, a: Label, m: MsgId)
    requires IdsDense(s.ledger) && m in s.ledger.msgs && s.ledger.msgs[m].status == Acked
    ensures m in Step(s, a).ledger.msgs
    ensures Step(s, a).ledger.msgs[m].status != Acked <==> Overwrites(s, a, m)
  {
    if a.Work? && a.worker < |s.jobs| {
      WorkLeavesAcked(s, a.worker, a.now, a.up, m);
    } else if a.Retry? {
      RetryLeavesAcked(s, a.now, a.up, m);
    } else {
      assert Step(s, a).ledger == s.ledger;
    }
  }

  lemma WorkLeavesAcked(s: System, w: nat, now: nat, up: bool, m: MsgId)
    requires IdsDense(s.ledger) && m in s.ledger.msgs && s.ledger.msgs[m].status == Acked && w < |s.jobs|
    ensures m in Step(s, Work(w, now, up)).ledger.msgs
    ensures Step(s, Work(w, now, up)).ledger.msgs[m].status != Acked <==> Overwrites(s, Work(w, now, up), m)
  {
    var script := ScriptOf(s.jobs[w], now);
    AdvanceRunsScript(s.jobs[w], s.ledger, s.users, now, up);
    if script.Some? { ScriptLeavesAcked(s.ledger, script.value, m); }
  }

  lemma RetryLeavesAcked(s: System, now: nat, up: bool, m: MsgId)
    requires IdsDense(s.ledger) && m in s.ledger.msgs && s.ledger.msgs[m].status == Acked
    ensures m in Step(s, Retry(now, up)).ledger.msgs
    ensures Step(s, Retry(now, up)).ledger.msgs[m].status != Acked <==> Overwrites(s, Retry(now, up), m)
  {
    var script := RetryScriptOf(s.retry, now);
    RetryRunsScript(s.retry, s.ledger, s.users, now, up);
    if script.Some? { ScriptLeavesAcked(s.ledger, script.value, m); }
  }
}
