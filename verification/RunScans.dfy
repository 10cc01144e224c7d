/** The scans inside the protocol: whatever runs between the reads of a worker or of the retry thread,
    what its fetch loop has collected is the scan of the ledgers at that thread's own steps. */
module RunScans {
  import opened Options
  import opened Ledger
  import opened Scans
  import opened Delivery
  import opened EndToEnd
  import UserState

  datatype Who = Worker(w: nat) | Retrier

  /** A fetch loop: the query, the ids still to fetch, and what passed the check so far. */
  datatype Loop = Loop(q: Query, ids: seq<MsgId>, got: seq<Record>)

  function LoopOfJob(j: Job): Option<Loop> {
    match j
    case PendingFetch(uid, ids, got) => Some(Loop(PendingTo(uid), ids, got))
    case RecentFetch(uid, ids, got) => Some(Loop(RecentOf(uid), ids, got))
    case _ => None
  }

  function LoopOf(s: System, who: Who): Option<Loop> {
    match who
    case Worker(w) => if w < |s.jobs| then LoopOfJob(s.jobs[w]) else None
    case Retrier =>
      if s.retry.OverdueFetch? then Some(Loop(Overdue(s.retry.now, AckTimeoutMs), s.retry.ids, s.retry.got)) else None
  }

  predicate Moves(a: Label, who: Who) {
    match who
    case Worker(w) => a.Work? && a.worker == w
    case Retrier => a.Retry?
  }

  /** What the index read of a query returns. */
  ghost function IndexRead(l: Ledger, q: Query): seq<MsgId> {
    if q.RecentOf? then Newest(l, q.uid, LoginRecentLimit) else Listed(l, q)
  }

  /** The query whose index the thread is about to read. */
  function ReadingOfJob(j: Job): Option<Query> {
    match j
    case PendingRead(uid) => Some(PendingTo(uid))
    case RecentRead(uid) => Some(RecentOf(uid))
    case _ => None
  }

  function ReadingOf(s: System, who: Who): Option<Query> {
    match who
    case Worker(w) => if w < |s.jobs| then ReadingOfJob(s.jobs[w]) else None
    case Retrier => if s.retry.OverdueRead? then Some(Overdue(s.retry.now, AckTimeoutMs)) else None
  }

  /** How a step can leave a thread in a fetch loop: it was there before and did not move, it has just
      read the index, or it has fetched one id. */
  ghost predicate LoopStep(l: Ledger, moved: bool, reading: Option<Query>, f: Option<Loop>, g: Loop) {
    || (!moved && f == Some(g))
    || (moved && f.None? && reading == Some(g.q) && g.ids == IndexRead(l, g.q) && g.got == [])
    || (moved && f.Some? && f.value.ids != []
        && g == Loop(f.value.q, f.value.ids[1..], Keep(l, f.value.q, f.value.ids[0], f.value.got)))
  }

  lemma JobLoop(j: Job, l: Ledger, users: UserState.Table, now: nat, up: bool)
    ensures var g := LoopOfJob(Advance(j, l, users, now, up).job);
            g.Some? ==> LoopStep(l, true, ReadingOfJob(j), LoopOfJob(j), g.value)
  {
  }

  lemma OneLoopStep(s: System, a: Label, who: Who)
    requires LoopOf(Step(s, a), who).Some?
    ensures LoopStep(s.ledger, Moves(a, who), ReadingOf(s, who), LoopOf(s, who), LoopOf(Step(s, a), who).value)
  {
    if a.Work? && a.worker < |s.jobs| { JobLoop(s.jobs[a.worker], s.ledger, s.users, a.now, a.up); }
  }

  // -------------------------------------------------------------------- the trace

  ghost function LedgerAt(s: System, labels: seq<Label>, k: nat): Ledger
    requires k <= |labels|
  {
    Run(s, labels[..k]).ledger
  }

  /** All steps of the thread from step at[0] on. */
  ghost predicate StepsOf(labels: seq<Label>, who: Who, at: seq<nat>) {
    && |at| > 0 && (forall i :: 0 <= i < |at| ==> at[i] < |labels| && Moves(labels[at[i]], who))
    && (forall i, j :: 0 <= i < j < |at| ==> at[i] < at[j])
    && (forall k :: at[0] <= k < |labels| && Moves(labels[k], who) ==> k in at)
  }

  /** The steps of one scan so far: the first reads the index of q, and none is left out. */
  ghost predicate ScanSteps(s: System, labels: seq<Label>, who: Who, q: Query, at: seq<nat>) {
    StepsOf(labels, who, at) && ReadingOf(Run(s, labels[..at[0]]), who) == Some(q)
  }

  /** The ledgers that the thread met at these steps. */
  ghost function Views(s: System, labels: seq<Label>, at: seq<nat>): (views: seq<Ledger>)
    requires forall i :: 0 <= i < |at| ==> at[i] < |labels|
    ensures |views| == |at| && forall i :: 0 <= i < |at| ==> views[i] == LedgerAt(s, labels, at[i])
  {
    seq(|at|, i requires 0 <= i < |at| => LedgerAt(s, labels, at[i]))
  }

  /** The loop is as far as these views take it. */
  ghost predicate Collected(views: seq<Ledger>, f: Loop) {
    && |views| > 0
    && var all := IndexRead(views[0], f.q);
    && |views| <= |all| + 1 && f.ids == all[|views| - 1..]
    && f.got == Kept(Answers(views, all[..|views| - 1]), f.q)
  }

  lemma CollectFirst(l: Ledger, q: Query)
    ensures Collected([l], Loop(q, IndexRead(l, q), []))
  {
    var all := IndexRead(l, q);
    assert all[0..] == all && all[..0] == [];
  }

  lemma CollectNext(views: seq<Ledger>, f: Loop, l: Ledger)
    requires Collected(views, f) && f.ids != []
    ensures Collected(views + [l], Loop(f.q, f.ids[1..], Keep(l, f.q, f.ids[0], f.got)))
  {
    var all, k := IndexRead(views[0], f.q), |views| - 1;
    assert f.ids[1..] == all[k + 1..] && f.ids[0] == all[k];
    var answers := Answers(views + [l], all[..k + 1]);
    assert answers[..k] == Answers(views, all[..k]);
    assert answers[k] == Fetch(l, all[k]);
  }

  lemma ViewsLonger(s: System, before: seq<Label>, a: Label, at: seq<nat>)
    requires forall i :: 0 <= i < |at| ==> at[i] < |before|
    ensures Views(s, before + [a], at) == Views(s, before, at)
  {
    forall i | 0 <= i < |at| ensures LedgerAt(s, before + [a], at[i]) == LedgerAt(s, before, at[i]) {
      assert (before + [a])[..at[i]] == before[..at[i]];
    }
  }

  /** At every moment of every run a fetch loop has collected what the ledgers at the thread's steps
      since its index read give. */
  lemma {:induction false} LoopTrace(workers: nat, trusted: set<Uid>, labels: seq<Label>, who: Who) returns (at: seq<nat>)
    requires LoopOf(Run(Init(workers, trusted), labels), who).Some?
    ensures ScanSteps(Init(workers, trusted), labels, who, LoopOf(Run(Init(workers, trusted), labels), who).value.q, at)
    ensures Collected(Views(Init(workers, trusted), labels, at), LoopOf(Run(Init(workers, trusted), labels), who).value)
  {
    var s0, n := Init(workers, trusted), |labels| - 1;
    var before, a := labels[..n], labels[n];
    assert labels == before + [a];
    var s, g := Run(s0, before), LoopOf(Run(s0, labels), who).value;
    OneLoopStep(s, a, who);
    if Moves(a, who) && LoopOf(s, who).None? {
      at := [n];
      TraceFirst(s0, before, a, who, g);
    } else {
      var earlier := LoopTrace(workers, trusted, before, who);
      at := TraceStep(s0, before, a, who, earlier, LoopOf(s, who).value, g);
    }
  }

  lemma FirstStep(before: seq<Label>, a: Label, who: Who)
    requires Moves(a, who)
    ensures StepsOf(before + [a], who, [|before|]) && (before + [a])[..|before|] == before
  {
  }

  lemma TraceFirst(s0: System, before: seq<Label>, a: Label, who: Who, g: Loop)
    requires Moves(a, who) && ReadingOf(Run(s0, before), who) == Some(g.q)
    requires g.ids == IndexRead(Run(s0, before).ledger, g.q) && g.got == []
    ensures ScanSteps(s0, before + [a], who, g.q, [|before|]) && Collected(Views(s0, before + [a], [|before|]), g)
  {
    FirstStep(before, a, who);
    CollectFirst(Run(s0, before).ledger, g.q);
    assert Views(s0, before + [a], [|before|]) == [Run(s0, before).ledger];
  }

  lemma TraceStep(s0: System, before: seq<Label>, a: Label, who: Who, earlier: seq<nat>, f: Loop, g: Loop) returns (at: seq<nat>)
    requires ScanSteps(s0, before, who, f.q, earlier) && Collected(Views(s0, before, earlier), f)
    requires if Moves(a, who) then f.ids != [] && g == Loop(f.q, f.ids[1..], Keep(Run(s0, before).ledger, f.q, f.ids[0], f.got))
             else g == f
    ensures ScanSteps(s0, before + [a], who, g.q, at) && Collected(Views(s0, before + [a], at), g)
  {
    at := if Moves(a, who) then earlier + [|before|] else earlier;
    StepsMore(before, a, who, earlier);
    assert (before + [a])[..earlier[0]] == before[..earlier[0]];
    ViewsLonger(s0, before, a, earlier);
    if Moves(a, who) {
      CollectNext(Views(s0, before, earlier), f, Run(s0, before).ledger);
      ViewsMore(s0, before, a, earlier);
    }
  }

  lemma StepsMore(before: seq<Label>, a: Label, who: Who, at: seq<nat>)
    requires StepsOf(before, who, at)
    ensures !Moves(a, who) ==> StepsOf(before + [a], who, at)
    ensures Moves(a, who) ==> StepsOf(before + [a], who, at + [|before|])
  {
    var all, more := before + [a], at + [|before|];
    if Moves(a, who) {
      forall k | more[0] <= k < |all| && Moves(all[k], who) ensures k in more {
        if k < |before| {
          assert all[k] == before[k];
          var i :| 0 <= i < |at| && at[i] == k;
          assert more[i] == k;
        } else {
          assert more[|at|] == k;
        }
      }
    } else {
      forall k | at[0] <= k < |all| && Moves(all[k], who) ensures k in at { assert all[k] == before[k]; }
    }
  }

  lemma ViewsMore(s: System, before: seq<Label>, a: Label, at: seq<nat>)
    requires forall i :: 0 <= i < |at| ==> at[i] < |before|
    ensures Views(s, before + [a], at + [|before|]) == Views(s, before, at) + [Run(s, before).ledger]
  {
    ViewsLonger(s, before, a, at);
    assert (before + [a])[..|before|] == before;
  }

  /** m satisfies the query in each of the views. */
  ghost predicate Throughout(views: seq<Ledger>, q: Query, m: MsgId) {
    forall i :: 0 <= i < |views| ==> m in views[i].msgs && Matches(q, views[i].msgs[m])
  }

  ghost predicate Returned(got: seq<Record>, m: MsgId) {
    exists k :: 0 <= k < |got| && got[k].msgId == m
  }

  lemma ScanOfViews(views: seq<Ledger>, f: Loop)
    requires Collected(views, f) && f.ids == [] && !f.q.RecentOf?
    requires forall i :: 0 <= i < |views| ==> Consistent(views[i])
    ensures |views| == |Listed(views[0], f.q)| + 1 && f.got == Scan(views, f.q)
    ensures exists from :: Sound(views, f.q, f.got, from)
    ensures forall m :: Throughout(views, f.q, m) ==> Returned(f.got, m)
  {
    assert Listed(views[0], f.q)[..|views| - 1] == Listed(views[0], f.q);
    forall i | 0 <= i < |views| ensures IdsDense(views[i]) { assert Consistent(views[i]); }
    var from := ScanSound(views, f.q);
    forall m | Throughout(views, f.q, m) ensures Returned(f.got, m) {
      var k := ScanComplete(views, f.q, m);
    }
  }

  /** So when the loop of getPendingMessages or of the timeout scan is through, it holds the scan of
      the ledgers at its own steps since the index read: every record satisfied the query when it was
      fetched, no message occurs twice, and a message that satisfied the query at each of these steps
      is there. */
  lemma ScanInRun(workers: nat, trusted: set<Uid>, labels: seq<Label>, who: Who) returns (at: seq<nat>)
    requires var f := LoopOf(Run(Init(workers, trusted), labels), who);
             f.Some? && f.value.ids == [] && !f.value.q.RecentOf?
    ensures ScanSteps(Init(workers, trusted), labels, who, LoopOf(Run(Init(workers, trusted), labels), who).value.q, at)
    ensures var f, views := LoopOf(Run(Init(workers, trusted), labels), who).value, Views(Init(workers, trusted), labels, at);
            && |views| == |Listed(views[0], f.q)| + 1 && f.got == Scan(views, f.q)
            && (exists from :: Sound(views, f.q, f.got, from))
            && forall m :: Throughout(views, f.q, m) ==> Returned(f.got, m)
  {
    at := LoopTrace(workers, trusted, labels, who);
    var views := Views(Init(workers, trusted), labels, at);
    forall i | 0 <= i < |views| ensures Consistent(views[i]) { EndToEnd.RunInv(workers, trusted, labels[..at[i]]); }
    ScanOfViews(views, LoopOf(Run(Init(workers, trusted), labels), who).value);
  }
}
