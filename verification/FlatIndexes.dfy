/** What a reader of the database itself sees: plain keys and field texts, with no model in between. */
module FlatIndexes {
  import opened Decimal
  import opened SortedSet
  import opened Ledger
  import opened RedisKeys
  import opened RedisStore

  /** A member of the sorted set under key. */
  predicate InSet(db: Db, key: string, member: string) {
    key in db && db[key].Sorted? && member in db[key].z
  }

  /** The hash of message id. */
  predicate HasHash(db: Db, id: MsgId) {
    "rmd:msg:" + ToString(id) in db && db["rmd:msg:" + ToString(id)].Hash?
  }

  function HashOf(db: Db, id: MsgId): RecordText
    requires HasHash(db, id)
  {
    db["rmd:msg:" + ToString(id)].hash
  }

  lemma TextMember(z: Index, id: MsgId)
    ensures ToString(id) in Text(z) <==> id in z
    ensures id in z ==> Text(z)[ToString(id)] == z[id]
  {
    var t := Text(z);
    if ToString(id) in t {
      assert Writes(z, ToString(id));
      var n :| n in z && ToString(n) == ToString(id);
      ToStringInjective(n, id);
    }
  }

  lemma SetMember(db: Db, key: string, z: Index, id: MsgId)
    requires RepSet(db, key, z)
    ensures InSet(db, key, ToString(id)) <==> id in z
    ensures id in z ==> db[key].z[ToString(id)] == z[id]
  {
    TextMember(z, id);
  }

  lemma HashFields(db: Db, l: Ledger, id: MsgId)
    requires Represents(db, l)
    ensures HasHash(db, id) <==> id in l.msgs
    ensures id in l.msgs ==>
              var r, h := l.msgs[id], HashOf(db, id);
              && h.msgId == ToString(r.msgId) && h.fromUid == ToString(r.fromUid) && h.toUid == ToString(r.toUid)
              && h.content == r.content && h.clientMsgId == r.clientMsgId
              && h.createdAt == ToString(r.createdAt) && h.deliveredAt == ToString(r.deliveredAt)
              && h.ackedAt == ToString(r.ackedAt) && h.retryCount == ToString(r.retryCount)
              && h.status == match r.status case Pending => "Pending" case Delivered => "Delivered" case Acked => "Acked" case Failed => "Failed"
  {
    assert RepMsgs(db, l.msgs);
    assert MessageKey(id) == "rmd:msg:" + ToString(id);
  }

  /** rmd:pending:<uid> has exactly the messages whose hash says Pending and to_uid, scored by
      created_at. */
  lemma PendingOnDisk(db: Db, l: Ledger, u: Uid, id: MsgId)
    requires Represents(db, l) && Consistent(l)
    ensures var key := "rmd:pending:" + ToString(u);
            && (InSet(db, key, ToString(id)) <==>
                  HasHash(db, id) && HashOf(db, id).status == "Pending" && HashOf(db, id).toUid == ToString(u))
            && (InSet(db, key, ToString(id)) ==> ToString(db[key].z[ToString(id)]) == HashOf(db, id).createdAt)
  {
    HashFields(db, l, id);
    PendingSet(db, l, u, id);
    assert PendingAgrees(l);
    StatusTextsDiffer();
    if id in l.msgs && ToString(l.msgs[id].toUid) == ToString(u) { ToStringInjective(l.msgs[id].toUid, u); }
  }

  lemma PendingSet(db: Db, l: Ledger, u: Uid, id: MsgId)
    requires Represents(db, l)
    ensures var key, z := "rmd:pending:" + ToString(u), At(l.pending, u);
            (InSet(db, key, ToString(id)) <==> id in z) && (id in z ==> db[key].z[ToString(id)] == z[id])
  {
    assert RepPending(db, l.pending);
    SetMember(db, PendingKey(u), At(l.pending, u), id);
    assert PendingKey(u) == "rmd:pending:" + ToString(u);
  }

  lemma StatusTextsDiffer()
    ensures "Pending" != "Delivered" && "Pending" != "Acked" && "Pending" != "Failed"
    ensures "Delivered" != "Acked" && "Delivered" != "Failed" && "Acked" != "Failed"
  {
    assert |"Pending"| == 7 && |"Delivered"| == 9 && |"Acked"| == 5 && |"Failed"| == 6;
  }

  /** rmd:delivered_timeout has exactly the messages whose hash says Delivered, scored by
      delivered_at. */
  lemma TimeoutOnDisk(db: Db, l: Ledger, id: MsgId)
    requires Represents(db, l) && Consistent(l)
    ensures var key := "rmd:delivered_timeout";
            && (InSet(db, key, ToString(id)) <==> HasHash(db, id) && HashOf(db, id).status == "Delivered")
            && (InSet(db, key, ToString(id)) ==> ToString(db[key].z[ToString(id)]) == HashOf(db, id).deliveredAt)
  {
    HashFields(db, l, id);
    SetMember(db, TimeoutKey, l.timeout, id);
    assert TimeoutAgrees(l);
    StatusTextsDiffer();
  }

  /** rmd:recent:<uid> has exactly the messages from or to uid, scored by created_at. */
  lemma RecentOnDisk(db: Db, l: Ledger, u: Uid, id: MsgId)
    requires Represents(db, l) && Consistent(l)
    ensures var key := "rmd:recent:" + ToString(u);
            && (InSet(db, key, ToString(id)) <==>
                  HasHash(db, id) && (HashOf(db, id).fromUid == ToString(u) || HashOf(db, id).toUid == ToString(u)))
            && (InSet(db, key, ToString(id)) ==> ToString(db[key].z[ToString(id)]) == HashOf(db, id).createdAt)
  {
    HashFields(db, l, id);
    RecentSet(db, l, u, id);
    RecentAt(l, u, id);
    if id in l.msgs {
      SameText(l.msgs[id].fromUid, u);
      SameText(l.msgs[id].toUid, u);
    }
  }

  lemma RecentAt(l: Ledger, u: Uid, id: MsgId)
    requires RecentAgrees(l)
    ensures id in At(l.recent, u) <==> id in l.msgs && (l.msgs[id].fromUid == u || l.msgs[id].toUid == u)
    ensures id in At(l.recent, u) ==> At(l.recent, u)[id] == l.msgs[id].createdAt
  {
  }

  lemma SameText(a: nat, b: nat)
    ensures ToString(a) == ToString(b) <==> a == b
  {
    if ToString(a) == ToString(b) { ToStringInjective(a, b); }
  }

  lemma RecentSet(db: Db, l: Ledger, u: Uid, id: MsgId)
    requires Represents(db, l)
    ensures var key, z := "rmd:recent:" + ToString(u), At(l.recent, u);
            (InSet(db, key, ToString(id)) <==> id in z) && (id in z ==> db[key].z[ToString(id)] == z[id])
  {
    assert RepRecent(db, l.recent);
    SetMember(db, RecentKey(u), At(l.recent, u), id);
    assert RecentKey(u) == "rmd:recent:" + ToString(u);
  }

  /** rmd:idem:<from>:<client_msg_id> holds the id of the one message with this sender and this
      client_msg_id, and exists only if there is one; the counter is the number of messages. */
  lemma IdempotencyOnDisk(db: Db, l: Ledger, u: Uid, x: string, id: MsgId)
    requires Represents(db, l) && Consistent(l)
    ensures var key := "rmd:idem:" + (ToString(u) + ":" + x);
            (key in db && db[key] == Str(ToString(id))) <==>
            (HasHash(db, id) && HashOf(db, id).fromUid == ToString(u) && HashOf(db, id).clientMsgId == x)
    ensures if l.msgs == map[] then "rmd:msg:next_id" !in db
            else "rmd:msg:next_id" in db && db["rmd:msg:next_id"] == Str(ToString(|l.msgs|))
  {
    HashFields(db, l, id);
    IdemSet(db, l, u, x);
    assert IdemInverse(l);
    if (u, x) in l.idem && ToString(l.idem[(u, x)]) == ToString(id) { ToStringInjective(l.idem[(u, x)], id); }
    if id in l.msgs && ToString(l.msgs[id].fromUid) == ToString(u) { ToStringInjective(l.msgs[id].fromUid, u); }
    CountDense(l);
  }

  lemma IdemSet(db: Db, l: Ledger, u: Uid, x: string)
    requires Represents(db, l)
    ensures var key := "rmd:idem:" + (ToString(u) + ":" + x);
            && (key in db <==> (u, x) in l.idem)
            && ((u, x) in l.idem ==> db[key] == Str(ToString(l.idem[(u, x)])))
  {
    assert RepIdem(db, l.idem);
    assert IdempotencyKey(u, x) == "rmd:idem:" + (ToString(u) + ":" + x);
  }

  lemma CountDense(l: Ledger)
    requires IdsDense(l)
    ensures |l.msgs| == l.nextId
  {
    CountUpTo(l.nextId, l.msgs.Keys);
    assert |l.msgs| == |l.msgs.Keys|;
  }

  lemma {:induction false} CountUpTo(n: nat, ids: set<nat>)
    requires forall id :: id in ids <==> 1 <= id <= n
    ensures |ids| == n
  {
    if n == 0 {
      assert ids == {};
    } else {
      CountUpTo(n - 1, ids - {n});
    }
  }
}
