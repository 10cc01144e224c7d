/** The record snapshots that threads carry: what status they show, and which of them will still be
    marked. */
module Snapshots {
  import opened Ledger
  import opened Scans
  import opened Delivery
  import opened EndToEnd
  import UserState

  /** The snapshots a worker will still mark. */
  function ToMark(j: Job): seq<Record> {
    match j
    case PendingFetch(_, _, got) => got
    case Try(todo, _) => todo
    case TryPend(todo, _) => todo
    case TrySend(_, todo, _) => todo
    case TryMark(todo, _) => todo
    case _ => []
  }

  /** The same for the retry thread. */
  function ToRetry(j: RetryJob): seq<Record> {
    match j
    case Sleeping => []
    case OverdueRead(_) => []
    case OverdueFetch(_, _, got) => got
    case RetryNext(todo) => todo
    case RetryFail(todo) => todo
    case RetryPend(todo) => todo
    case RetryCount(_, todo) => todo
    case RetrySend(_, todo) => todo
    case RetryMark(todo) => todo
  }

  ghost predicate InBatch(rs: seq<Record>, m: MsgId) {
    exists i :: 0 <= i < |rs| && rs[i].msgId == m
  }

  ghost predicate AllOf(rs: seq<Record>, st: Status) {
    forall i :: 0 <= i < |rs| ==> rs[i].status == st
  }

  /** Workers deliver only what they saw Pending, the retry thread only what it saw Delivered. */
  ghost predicate SeenRight(s: System) {
    && (forall w :: 0 <= w < |s.jobs| ==> AllOf(ToMark(s.jobs[w]), Pending))
    && AllOf(ToRetry(s.retry), Delivered)
  }

  lemma WorkSeen(j: Job, l: Ledger, users: UserState.Table, now: nat, up: bool)
    requires AllOf(ToMark(j), Pending)
    ensures AllOf(ToMark(Advance(j, l, users, now, up).job), Pending)
  {
  }

  lemma RetrySeen(j: RetryJob, l: Ledger, users: UserState.Table, now: nat, up: bool)
    requires AllOf(ToRetry(j), Delivered)
    ensures AllOf(ToRetry(AdvanceRetry(j, l, users, now, up).job), Delivered)
  {
  }

  lemma StepSeen(s: System, a: Label)
    requires SeenRight(s)
    ensures SeenRight(Step(s, a))
  {
    if a.Work? {
      if a.worker < |s.jobs| { WorkSeen(s.jobs[a.worker], s.ledger, s.users, a.now, a.up); }
    } else if a.Retry? {
      RetrySeen(s.retry, s.ledger, s.users, a.now, a.up);
    }
  }

  lemma {:induction false} RunSeen(workers: nat, trusted: set<Uid>, labels: seq<Label>)
    ensures SeenRight(Run(Init(workers, trusted), labels))
  {
    if labels != [] {
      RunSeen(workers, trusted, labels[..|labels| - 1]);
      StepSeen(Run(Init(workers, trusted), labels[..|labels| - 1]), labels[|labels| - 1]);
    }
  }

  /** Fetching m adds it to the batch exactly if it passes the check. */
  lemma KeepBatch(l: Ledger, q: Query, id: MsgId, got: seq<Record>, m: MsgId)
    requires IdsDense(l) && m in l.msgs
    ensures InBatch(Keep(l, q, id, got), m) <==> InBatch(got, m) || (id == m && Matches(q, l.msgs[m]))
  {
    var rs := Keep(l, q, id, got);
    if InBatch(got, m) {
      var i :| 0 <= i < |got| && got[i].msgId == m;
      assert rs[i].msgId == m;
    }
    if id == m && Matches(q, l.msgs[m]) { assert rs[|rs| - 1].msgId == m; }
  }

  lemma TailKeepsOut(todo: seq<Record>, m: MsgId)
    requires !InBatch(todo, m) && todo != []
    ensures todo[0].msgId != m && !InBatch(todo[1..], m)
  {
  }

  /** A message that is not Delivered and not in the batch is not marked and stays out. */
  lemma RetryKeepsOut(j: RetryJob, l: Ledger, users: UserState.Table, now: nat, up: bool, m: MsgId)
    requires IdsDense(l) && m in l.msgs && l.msgs[m].status != Delivered && !InBatch(ToRetry(j), m)
    ensures !InBatch(ToRetry(AdvanceRetry(j, l, users, now, up).job), m)
    ensures RetryScriptOf(j, now).Some? ==> !RetryScriptOf(j, now).value.DoCreate? && RetryScriptOf(j, now).value.id != m
  {
    if j.OverdueFetch? {
      if j.ids != [] { KeepBatch(l, Overdue(j.now, AckTimeoutMs), j.ids[0], j.got, m); }
    } else if !j.Sleeping? && !j.OverdueRead? && j.todo != [] {
      TailKeepsOut(j.todo, m);
    }
  }

  /** A message that is not Pending and not among a worker's snapshots is not marked, except Acked,
      and stays out. */
  lemma WorkKeepsOut(j: Job, l: Ledger, users: UserState.Table, now: nat, up: bool, m: MsgId)
    requires IdsDense(l) && m in l.msgs && l.msgs[m].status != Pending && !InBatch(ToMark(j), m)
    ensures !InBatch(ToMark(Advance(j, l, users, now, up).job), m)
    ensures ScriptOf(j, now).Some? ==>
              var script := ScriptOf(j, now).value; script.DoCreate? || script.DoAcked? || script.id != m
  {
    if j.ChatCreate? {
      CreateKeepsOut(j, l, users, now, up, m);
    } else if j.PendingFetch? {
      if j.ids != [] { KeepBatch(l, PendingTo(j.uid), j.ids[0], j.got, m); }
    } else if ToMark(j) != [] {
      TailKeepsOut(ToMark(j), m);
    }
  }

  /** A new message has a new id. */
  lemma CreateKeepsOut(j: Job, l: Ledger, users: UserState.Table, now: nat, up: bool, m: MsgId)
    requires IdsDense(l) && m in l.msgs && j.ChatCreate?
    ensures !InBatch(ToMark(Advance(j, l, users, now, up).job), m)
  {
  }
}
