/** What the three queries return when nothing else runs, said of the ledger itself: which messages,
    and in which order. */
module QueryResults {
  import opened Decimal
  import opened SortedSet
  import opened Ledger
  import opened Scans

  /** a was created before b; at the same moment the text of the ids decides. */
  ghost predicate Older(a: Record, b: Record) {
    a.createdAt < b.createdAt || (a.createdAt == b.createdAt && Before(ToString(a.msgId), ToString(b.msgId)))
  }

  ghost predicate DeliveredEarlier(a: Record, b: Record) {
    a.deliveredAt < b.deliveredAt || (a.deliveredAt == b.deliveredAt && Before(ToString(a.msgId), ToString(b.msgId)))
  }

  lemma OrderOf(a: Record, b: Record)
    requires a.msgId != b.msgId
    ensures Leq(a.createdAt, ToString(a.msgId), b.createdAt, ToString(b.msgId)) <==> Older(a, b)
    ensures Leq(a.deliveredAt, ToString(a.msgId), b.deliveredAt, ToString(b.msgId)) <==> DeliveredEarlier(a, b)
  {
    LeqIs(a.createdAt, ToString(a.msgId), b.createdAt, ToString(b.msgId));
    LeqIs(a.deliveredAt, ToString(a.msgId), b.deliveredAt, ToString(b.msgId));
    if ToString(a.msgId) == ToString(b.msgId) { ToStringInjective(a.msgId, b.msgId); }
  }

  lemma OlderTotal(a: Record, b: Record)
    requires a.msgId != b.msgId
    ensures Older(a, b) || Older(b, a)
  {
    LexTotal(ToString(a.msgId), ToString(b.msgId));
    OrderOf(a, b);
    OrderOf(b, a);
  }

  /** r is a message as it stands in the ledger. */
  predicate Stored(l: Ledger, r: Record) {
    r.msgId in l.msgs && l.msgs[r.msgId] == r
  }

  lemma AllStored(l: Ledger, id: MsgId)
    requires IdsDense(l) && id in l.msgs
    ensures Stored(l, l.msgs[id])
  {
  }

  /** The messages waiting for uid, oldest first. */
  lemma PendingIs(l: Ledger, uid: Uid)
    requires Consistent(l)
    ensures var rs := QuietScan(l, PendingTo(uid));
            && (forall r :: r in rs <==> Stored(l, r) && r.status == Pending && r.toUid == uid)
            && (forall i, j :: 0 <= i < j < |rs| ==> Older(rs[i], rs[j]))
  {
    var q, rs := PendingTo(uid), QuietScan(l, PendingTo(uid));
    QuietScanExact(l, q);
    forall r ensures r in rs <==> Stored(l, r) && r.status == Pending && r.toUid == uid {
      if Stored(l, r) && r.status == Pending && r.toUid == uid { assert Matches(q, l.msgs[r.msgId]); }
    }
    forall i, j | 0 <= i < j < |rs| ensures Older(rs[i], rs[j]) { OrderOf(rs[i], rs[j]); }
  }

  /** Every message delivered at least `timeout` ms ago, however long ago, earliest delivery first. */
  lemma OverdueIs(l: Ledger, now: nat, timeout: nat)
    requires Consistent(l)
    ensures var rs := QuietScan(l, Overdue(now, timeout));
            && (forall r :: r in rs <==>
                  Stored(l, r) && r.status == Delivered && 0 < r.deliveredAt && r.deliveredAt + timeout <= now)
            && (forall i, j :: 0 <= i < j < |rs| ==> DeliveredEarlier(rs[i], rs[j]))
  {
    var q, rs := Overdue(now, timeout), QuietScan(l, Overdue(now, timeout));
    QuietScanExact(l, q);
    forall r ensures r in rs <==>
        Stored(l, r) && r.status == Delivered && 0 < r.deliveredAt && r.deliveredAt + timeout <= now
    {
      if Stored(l, r) && r.status == Delivered && 0 < r.deliveredAt && r.deliveredAt + timeout <= now {
        assert Matches(q, l.msgs[r.msgId]);
      }
    }
    forall i, j | 0 <= i < j < |rs| ensures DeliveredEarlier(rs[i], rs[j]) { OrderOf(rs[i], rs[j]); }
  }

  // ------------------------------------------------------------------ recent messages

  /** The messages from or to uid. */
  function Conversations(l: Ledger, uid: Uid): set<MsgId> {
    set id | id in l.msgs && (l.msgs[id].fromUid == uid || l.msgs[id].toUid == uid)
  }

  /** rs are the newest `limit` messages from or to uid, all of them if there are fewer, oldest first. */
  ghost predicate NewestOf(l: Ledger, uid: Uid, limit: nat, rs: seq<Record>) {
    var theirs := Conversations(l, uid);
    && |rs| == (if |theirs| < limit then |theirs| else limit)
    && (forall r :: r in rs ==> Stored(l, r) && r.msgId in theirs)
    && (forall r, id :: r in rs && id in theirs && l.msgs[id] !in rs ==> Older(l.msgs[id], r))
    && (forall i, j :: 0 <= i < j < |rs| ==> Older(rs[i], rs[j]))
  }

  lemma RecentIs(l: Ledger, uid: Uid, limit: nat)
    requires Consistent(l)
    ensures if uid == 0 then QuietRecent(l, uid, limit) == [] else NewestOf(l, uid, limit, QuietRecent(l, uid, limit))
  {
    if uid != 0 {
      var all := QuietScan(l, RecentOf(uid));
      ConversationsListed(l, uid);
      forall id | id in l.msgs ensures l.msgs[id].msgId == id { AllStored(l, id); }
      if limit > 0 { LastAreNewest(l, uid, limit, all, QuietRecent(l, uid, limit)); }
    }
  }

  /** all are the messages from or to uid, oldest first. */
  ghost predicate AllOf(l: Ledger, uid: Uid, all: seq<Record>) {
    && |all| == |Conversations(l, uid)|
    && (forall r :: r in all <==> Stored(l, r) && r.msgId in Conversations(l, uid))
    && (forall i, j :: 0 <= i < j < |all| ==> Older(all[i], all[j]))
  }

  lemma ConversationsListed(l: Ledger, uid: Uid)
    requires Consistent(l)
    ensures AllOf(l, uid, QuietScan(l, RecentOf(uid)))
  {
    var all := QuietScan(l, RecentOf(uid));
    QuietScanExact(l, RecentOf(uid));
    forall id ensures id in l.msgs ==> Stored(l, l.msgs[id]) {
      if id in l.msgs { AllStored(l, id); }
    }
    ExactlyTheirs(l, uid, all);
    forall id | id in Conversations(l, uid) ensures exists k :: 0 <= k < |all| && all[k].msgId == id {
      assert l.msgs[id] in all;
    }
    CountDistinct(all, Conversations(l, uid));
  }

  lemma ExactlyTheirs(l: Ledger, uid: Uid, all: seq<Record>)
    requires ExactlySorted(l, RecentOf(uid), all)
    ensures forall r :: r in all <==> Stored(l, r) && r.msgId in Conversations(l, uid)
    ensures forall i, j :: 0 <= i < j < |all| ==> all[i].msgId != all[j].msgId && Older(all[i], all[j])
  {
    forall r ensures r in all <==> Stored(l, r) && r.msgId in Conversations(l, uid) {
      if Stored(l, r) && r.msgId in Conversations(l, uid) { assert Matches(RecentOf(uid), l.msgs[r.msgId]); }
    }
    forall i, j | 0 <= i < j < |all| ensures Older(all[i], all[j]) { OrderOf(all[i], all[j]); }
  }

  lemma {:induction false} CountDistinct(rs: seq<Record>, ids: set<MsgId>)
    requires forall i, j :: 0 <= i < j < |rs| ==> rs[i].msgId != rs[j].msgId
    requires forall id :: id in ids <==> exists k :: 0 <= k < |rs| && rs[k].msgId == id
    ensures |ids| == |rs|
  {
    if rs == [] {
      assert ids == {};
    } else {
      var n := |rs| - 1;
      var rest := ids - {rs[n].msgId};
      forall id ensures id in rest <==> exists k :: 0 <= k < n && rs[..n][k].msgId == id {
        if id in rest {
          var k :| 0 <= k < |rs| && rs[k].msgId == id;
          assert rs[..n][k].msgId == id;
        }
      }
      CountDistinct(rs[..n], rest);
    }
  }

  lemma LastAreNewest(l: Ledger, uid: Uid, limit: nat, all: seq<Record>, rs: seq<Record>)
    requires AllOf(l, uid, all) && rs == LastOf(all, limit) && forall id :: id in l.msgs ==> l.msgs[id].msgId == id
    ensures NewestOf(l, uid, limit, rs)
  {
    var cut := |all| - |rs|;
    assert rs == all[cut..];
    LaterOnes(all, cut);
    forall r, id | r in rs && id in Conversations(l, uid) && l.msgs[id] !in rs ensures Older(l.msgs[id], r) {
      assert l.msgs[id] in all;
    }
  }

  /** Whoever is listed but not in the tail comes before everyone in it. */
  lemma LaterOnes(all: seq<Record>, cut: nat)
    requires cut <= |all| && forall i, j :: 0 <= i < j < |all| ==> Older(all[i], all[j])
    ensures forall r, x :: r in all[cut..] && x in all && x !in all[cut..] ==> Older(x, r)
    ensures forall r :: r in all[cut..] ==> r in all
    ensures forall i, j :: 0 <= i < j < |all[cut..]| ==> Older(all[cut..][i], all[cut..][j])
  {
    forall r, x | r in all[cut..] && x in all && x !in all[cut..] ensures Older(x, r) {
      var j :| 0 <= j < |all[cut..]| && all[cut..][j] == r;
      var i :| 0 <= i < |all| && all[i] == x;
      assert i < cut;
      assert all[cut + j] == r;
    }
  }
}
