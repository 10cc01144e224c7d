/** The queries of MessageStore: one index read, then one fetch per id. Other commands may
    run between any two reads, so read number i sees its own ledger views[i]. */
module Scans {
  import opened Options
  import opened Decimal
  import opened SortedSet
  import opened Ledger

  /** FetchRecord: id 0 and unknown ids give nothing. */
  function Fetch(l: Ledger, id: MsgId): Option<Record> {
    if id != 0 && id in l.msgs then Some(l.msgs[id]) else None
  }

  datatype Query =
    | PendingTo(uid: Uid)
    | RecentOf(uid: Uid)
    | Overdue(now: nat, timeout: nat)

  /** The check each query makes on a fetched record. */
  predicate Matches(q: Query, r: Record) {
    match q
    case PendingTo(u) => r.toUid == u && r.status == Pending
    case RecentOf(u) => r.fromUid == u || r.toUid == u
    case Overdue(now, timeout) =>
      r.status == Delivered && r.deliveredAt > 0 && now >= r.deliveredAt && now - r.deliveredAt >= timeout
  }

  function Score(q: Query, r: Record): nat {
    if q.Overdue? then r.deliveredAt else r.createdAt
  }

  function UpTo(z: Index, max: nat): Index {
    map id | id in z && z[id] <= max :: z[id]
  }

  /** The highest score the timeout scan asks for; nothing is due before the timeout has passed once. */
  function MaxScore(now: nat, timeout: nat): nat {
    if now >= timeout then now - timeout else 0
  }

  /** The part of the ledger's indexes that a query reads. */
  function Candidates(l: Ledger, q: Query): Index {
    match q
    case PendingTo(u) => At(l.pending, u)
    case RecentOf(u) => At(l.recent, u)
    case Overdue(now, timeout) => UpTo(l.timeout, MaxScore(now, timeout))
  }

  /** The id list of the index read. */
  ghost function Listed(l: Ledger, q: Query): seq<MsgId> {
    Ids(Candidates(l, q))
  }

  /** The loop of a query: keep the fetched records that pass the check. */
  function Kept(answers: seq<Option<Record>>, q: Query): seq<Record> {
    if answers == [] then []
    else
      var n := |answers| - 1;
      var rest := Kept(answers[..n], q);
      if answers[n].Some? && Matches(q, answers[n].value) then rest + [answers[n].value] else rest
  }

  /** Id number i is fetched by read number i + 1. */
  function Answers(views: seq<Ledger>, ids: seq<MsgId>): seq<Option<Record>>
    requires |views| == |ids| + 1
  {
    seq(|ids|, i requires 0 <= i < |ids| => Fetch(views[i + 1], ids[i]))
  }

  ghost function Scan(views: seq<Ledger>, q: Query): seq<Record>
    requires |views| > 0 && |views| == |Listed(views[0], q)| + 1
  {
    Kept(Answers(views, Listed(views[0], q)), q)
  }

  // ------------------------------------------ under arbitrary interference

  /** Where in the answers each kept record came from. */
  ghost function Origin(answers: seq<Option<Record>>, q: Query): (at: seq<nat>)
    ensures |at| == |Kept(answers, q)|
    ensures forall k :: 0 <= k < |at| ==> at[k] < |answers| && answers[at[k]] == Some(Kept(answers, q)[k])
    ensures forall j, k :: 0 <= j < k < |at| ==> at[j] < at[k]
  {
    if answers == [] then []
    else
      var n := |answers| - 1;
      var rest := Origin(answers[..n], q);
      if answers[n].Some? && Matches(q, answers[n].value) then rest + [n] else rest
  }

  lemma {:induction false} KeptExactly(answers: seq<Option<Record>>, q: Query)
    ensures forall k :: 0 <= k < |Kept(answers, q)| ==> Matches(q, Kept(answers, q)[k])
    ensures forall i :: 0 <= i < |answers| && answers[i].Some? && Matches(q, answers[i].value)
                        ==> answers[i].value in Kept(answers, q)
  {
    if answers != [] {
      var n := |answers| - 1;
      KeptExactly(answers[..n], q);
      var rest := Kept(answers[..n], q);
      forall i | 0 <= i < |answers| && answers[i].Some? && Matches(q, answers[i].value)
        ensures answers[i].value in Kept(answers, q)
      {
        if i < n {
          assert answers[..n][i].value in rest;
          var k :| 0 <= k < |rest| && rest[k] == answers[i].value;
          assert Kept(answers, q)[k] == rest[k];
        } else {
          assert Kept(answers, q)[|rest|] == answers[n].value;
        }
      }
    }
  }

  predicate Distinct(rs: seq<Record>) {
    forall i, j :: 0 <= i < j < |rs| ==> rs[i].msgId != rs[j].msgId
  }

  /** Every returned record satisfied the query at its own fetch, in index order and once. */
  ghost predicate Sound(views: seq<Ledger>, q: Query, rs: seq<Record>, at: seq<nat>)
    requires |views| > 0 && |views| == |Listed(views[0], q)| + 1
  {
    && |at| == |rs|
    && (forall k :: 0 <= k < |rs| ==>
          && at[k] < |Listed(views[0], q)|
          && Fetch(views[at[k] + 1], Listed(views[0], q)[at[k]]) == Some(rs[k])
          && Matches(q, rs[k]))
    && (forall j, k :: 0 <= j < k < |at| ==> at[j] < at[k])
    && Distinct(rs)
  }

  lemma ScanSound(views: seq<Ledger>, q: Query) returns (at: seq<nat>)
    requires |views| > 0 && |views| == |Listed(views[0], q)| + 1
    requires forall i :: 0 <= i < |views| ==> IdsDense(views[i])
    ensures Sound(views, q, Scan(views, q), at)
  {
    var ids := Listed(views[0], q);
    var answers := Answers(views, ids);
    at := Origin(answers, q);
    KeptExactly(answers, q);
    var rs := Scan(views, q);
    forall k | 0 <= k < |rs| ensures rs[k].msgId == ids[at[k]] && Fetch(views[at[k] + 1], ids[at[k]]) == Some(rs[k]) {
      assert answers[at[k]] == Some(rs[k]);
      assert IdsDense(views[at[k] + 1]);
    }
  }

  lemma AnswerKept(views: seq<Ledger>, ids: seq<MsgId>, q: Query, i: nat) returns (k: nat)
    requires |views| == |ids| + 1 && i < |ids|
    requires Fetch(views[i + 1], ids[i]).Some? && Matches(q, views[i + 1].msgs[ids[i]])
    ensures k < |Kept(Answers(views, ids), q)| && Kept(Answers(views, ids), q)[k] == views[i + 1].msgs[ids[i]]
  {
    var answers := Answers(views, ids);
    KeptExactly(answers, q);
    assert answers[i] == Some(views[i + 1].msgs[ids[i]]);
    k :| 0 <= k < |Kept(answers, q)| && Kept(answers, q)[k] == answers[i].value;
  }

  lemma CandidatesComplete(l: Ledger, q: Query, id: MsgId)
    requires Consistent(l)
    ensures id in l.msgs ==> id != 0 && l.msgs[id].msgId == id
    ensures id in l.msgs && Matches(q, l.msgs[id]) ==> id in Candidates(l, q)
    ensures id in Candidates(l, q) ==> id in l.msgs && Candidates(l, q)[id] == Score(q, l.msgs[id])
  {
  }

  lemma ListedComplete(l: Ledger, q: Query, id: MsgId) returns (i: nat)
    requires Consistent(l) && id in l.msgs && Matches(q, l.msgs[id])
    ensures i < |Listed(l, q)| && Listed(l, q)[i] == id && id != 0
  {
    CandidatesComplete(l, q, id);
    i :| 0 <= i < |Listed(l, q)| && Listed(l, q)[i] == id;
  }

  /** A message that satisfies the query in every view of the scan is returned. */
  lemma ScanComplete(views: seq<Ledger>, q: Query, id: MsgId) returns (k: nat)
    requires |views| > 0 && |views| == |Listed(views[0], q)| + 1
    requires Consistent(views[0])
    requires forall i :: 0 <= i < |views| ==> IdsDense(views[i]) && id in views[i].msgs && Matches(q, views[i].msgs[id])
    ensures k < |Scan(views, q)| && Scan(views, q)[k].msgId == id
  {
    var i := ListedComplete(views[0], q, id);
    k := AnswerKept(views, Listed(views[0], q), q, i);
    assert IdsDense(views[i + 1]);
  }

  // ---------------------------------------------------- without interference

  ghost function Still(l: Ledger, q: Query): (views: seq<Ledger>)
    ensures |views| == |Listed(l, q)| + 1 && forall i :: 0 <= i < |views| ==> views[i] == l
  {
    seq(|Listed(l, q)| + 1, _ => l)
  }

  ghost function QuietScan(l: Ledger, q: Query): seq<Record> {
    Scan(Still(l, q), q)
  }

  /** rs lists exactly the records of l that satisfy the query, ascending by (score, decimal id). */
  ghost predicate ExactlySorted(l: Ledger, q: Query, rs: seq<Record>) {
    && (forall k :: 0 <= k < |rs| ==> rs[k].msgId in l.msgs && l.msgs[rs[k].msgId] == rs[k] && Matches(q, rs[k]))
    && (forall id :: id in l.msgs && Matches(q, l.msgs[id]) ==> l.msgs[id] in rs)
    && (forall i, j :: 0 <= i < j < |rs| ==>
          && rs[i].msgId != rs[j].msgId
          && Leq(Score(q, rs[i]), ToString(rs[i].msgId), Score(q, rs[j]), ToString(rs[j].msgId)))
  }

  /** Run alone, a query is a full scan of the ledger: getPendingMessages in
      (created_at, decimal id) order, the timeout scan in (delivered_at, decimal id) order for
      every clock and timeout, including a clock smaller than the timeout. */
  lemma QuietScanExact(l: Ledger, q: Query)
    requires Consistent(l)
    ensures ExactlySorted(l, q, QuietScan(l, q))
  {
    var at := ScanSound(Still(l, q), q);
    forall id ensures id in l.msgs ==> id != 0 && l.msgs[id].msgId == id
      ensures id in Candidates(l, q) ==> id in l.msgs && Candidates(l, q)[id] == Score(q, l.msgs[id])
    {
      CandidatesComplete(l, q, id);
    }
    QuietOrder(l, q, at);
    forall id | id in l.msgs && Matches(q, l.msgs[id]) ensures l.msgs[id] in QuietScan(l, q) {
      var k := ScanComplete(Still(l, q), q, id);
    }
  }

  lemma QuietOrder(l: Ledger, q: Query, at: seq<nat>)
    requires Sound(Still(l, q), q, QuietScan(l, q), at)
    requires IsListing(Candidates(l, q), Listed(l, q))
    requires forall id :: id in l.msgs ==> l.msgs[id].msgId == id
    requires forall id :: id in Candidates(l, q) ==> id in l.msgs && Candidates(l, q)[id] == Score(q, l.msgs[id])
    ensures var rs := QuietScan(l, q);
            && (forall k :: 0 <= k < |rs| ==>
                  rs[k].msgId in l.msgs && l.msgs[rs[k].msgId] == rs[k] && Matches(q, rs[k]))
            && (forall i, j :: 0 <= i < j < |rs| ==>
                  Leq(Score(q, rs[i]), ToString(rs[i].msgId), Score(q, rs[j]), ToString(rs[j].msgId)))
  {
    var views, rs, ids := Still(l, q), QuietScan(l, q), Listed(l, q);
    forall k | 0 <= k < |rs| ensures rs[k].msgId == ids[at[k]] && rs[k] == l.msgs[ids[at[k]]] {
      assert views[at[k] + 1] == l;
    }
  }

  // ------------------------------------------------------------ recent query

  function Reverse<T>(s: seq<T>): (r: seq<T>)
    ensures |r| == |s|
    ensures forall i :: 0 <= i < |s| ==> r[i] == s[|s| - 1 - i]
  {
    if s == [] then [] else Reverse(s[1..]) + [s[0]]
  }

  function LastOf<T>(s: seq<T>, limit: nat): seq<T> {
    if |s| <= limit then s else s[|s| - limit..]
  }

  /** ZREVRANGE 0 limit-1: the highest entries, highest first. */
  ghost function Newest(l: Ledger, u: Uid, limit: nat): seq<MsgId> {
    Reverse(LastOf(Listed(l, RecentOf(u)), limit))
  }

  /** getRecentMessages, reading views[0] for the index and views[i + 1] for id number i. */
  ghost function RecentScan(views: seq<Ledger>, u: Uid, limit: nat): seq<Record>
    requires |views| > 0
    requires u != 0 && limit != 0 ==> |views| == |Newest(views[0], u, limit)| + 1
  {
    if u == 0 || limit == 0 then []
    else Reverse(Kept(Answers(views, Newest(views[0], u, limit)), RecentOf(u)))
  }

  /** What getRecentMessages returns when run alone. */
  ghost function QuietRecent(l: Ledger, u: Uid, limit: nat): seq<Record> {
    if u == 0 || limit == 0 then [] else LastOf(QuietScan(l, RecentOf(u)), limit)
  }

  lemma {:induction false} KeptAll(answers: seq<Option<Record>>, q: Query)
    requires forall i :: 0 <= i < |answers| ==> answers[i].Some? && Matches(q, answers[i].value)
    ensures |Kept(answers, q)| == |answers|
    ensures forall i :: 0 <= i < |answers| ==> Kept(answers, q)[i] == answers[i].value
  {
    if answers != [] { KeptAll(answers[..|answers| - 1], q); }
  }

  /** Run alone, the recent query returns the last `limit` records of the user's full
      (created_at, decimal id) list, oldest first; nothing for uid 0. */
  lemma QuietRecentScan(l: Ledger, u: Uid, limit: nat, views: seq<Ledger>)
    requires Consistent(l)
    requires |views| == |Newest(l, u, limit)| + 1 && forall i :: 0 <= i < |views| ==> views[i] == l
    ensures RecentScan(views, u, limit) == QuietRecent(l, u, limit)
  {
    if u == 0 || limit == 0 { return; }
    RecentFetched(l, u);
    RecentTail(l, RecentOf(u), Listed(l, RecentOf(u)), limit, Still(l, RecentOf(u)), views);
  }

  lemma RecentFetched(l: Ledger, u: Uid)
    requires Consistent(l)
    ensures forall i :: 0 <= i < |Listed(l, RecentOf(u))| ==>
              var id := Listed(l, RecentOf(u))[i]; Fetch(l, id).Some? && Matches(RecentOf(u), l.msgs[id])
  {
    var q := RecentOf(u);
    var ids := Listed(l, q);
    forall i | 0 <= i < |ids| ensures Fetch(l, ids[i]).Some? && Matches(q, l.msgs[ids[i]]) {
      assert ids[i] in Candidates(l, q);
      CandidatesComplete(l, q, ids[i]);
    }
  }

  ghost function Records(l: Ledger, ids: seq<MsgId>): (rs: seq<Record>)
    requires forall i :: 0 <= i < |ids| ==> ids[i] in l.msgs
    ensures |rs| == |ids| && forall i :: 0 <= i < |ids| ==> rs[i] == l.msgs[ids[i]]
  {
    seq(|ids|, i requires 0 <= i < |ids| => l.msgs[ids[i]])
  }

  lemma KeptRecords(l: Ledger, q: Query, ids: seq<MsgId>, views: seq<Ledger>)
    requires |views| == |ids| + 1 && forall i :: 0 <= i < |views| ==> views[i] == l
    requires forall i :: 0 <= i < |ids| ==> Fetch(l, ids[i]).Some? && Matches(q, l.msgs[ids[i]])
    ensures Kept(Answers(views, ids), q) == Records(l, ids)
  {
    KeptAll(Answers(views, ids), q);
  }

  lemma RecentTail(l: Ledger, q: Query, ids: seq<MsgId>, limit: nat, still: seq<Ledger>, views: seq<Ledger>)
    requires forall i :: 0 <= i < |ids| ==> Fetch(l, ids[i]).Some? && Matches(q, l.msgs[ids[i]])
    requires |still| == |ids| + 1 && forall i :: 0 <= i < |still| ==> still[i] == l
    requires |views| == |LastOf(ids, limit)| + 1 && forall i :: 0 <= i < |views| ==> views[i] == l
    ensures Reverse(Kept(Answers(views, Reverse(LastOf(ids, limit))), q)) == LastOf(Kept(Answers(still, ids), q), limit)
  {
    var newest := Reverse(LastOf(ids, limit));
    KeptRecords(l, q, ids, still);
    KeptRecords(l, q, newest, views);
    assert Reverse(Records(l, newest)) == LastOf(Records(l, ids), limit);
  }
}
