/** What each script does to a consistent ledger, message by message: the one record it writes, where
    that record then stands in the indexes, and that nothing else moves. */
module ScriptEffects {
  import opened Ledger

  /** No message but id has changed, and none but id has moved in the Pending or timeout index. */
  ghost predicate OnlyMoves(l: Ledger, m: Ledger, id: MsgId) {
    && m.nextId == l.nextId && m.idem == l.idem && m.recent == l.recent
    && (forall k :: k in m.msgs <==> k in l.msgs)
    && (forall k :: k in l.msgs && k != id ==> m.msgs[k] == l.msgs[k])
    && (forall k :: k != id ==> (k in m.timeout <==> k in l.timeout))
    && (forall u: Uid, k: MsgId :: k != id ==> (k in At(m.pending, u) <==> k in At(l.pending, u)))
  }

  /** id waits in pending:uid with this score, and in no other such index. */
  ghost predicate WaitsFor(l: Ledger, id: MsgId, uid: Uid, score: nat) {
    && id in At(l.pending, uid) && At(l.pending, uid)[id] == score
    && forall u: Uid :: id in At(l.pending, u) ==> u == uid
  }

  ghost predicate WaitsForNobody(l: Ledger, id: MsgId) {
    forall u: Uid :: id !in At(l.pending, u)
  }

  lemma Delivering(l: Ledger, id: MsgId, now: nat)
    requires Consistent(l)
    ensures var m := MarkDelivered(l, id, now);
            if id !in l.msgs then m == l
            else && OnlyMoves(l, m, id)
                 && m.msgs[id] == l.msgs[id].(status := Delivered, deliveredAt := now)
                 && id in m.timeout && m.timeout[id] == now && WaitsForNobody(m, id)
  {
    if id in l.msgs { RemoveUpdates(l.pending, l.msgs[id].toUid, id); }
  }

  lemma Returning(l: Ledger, id: MsgId)
    requires Consistent(l)
    ensures var m := MarkPending(l, id);
            if id !in l.msgs then m == l
            else && OnlyMoves(l, m, id)
                 && m.msgs[id] == l.msgs[id].(status := Pending)
                 && id !in m.timeout && WaitsFor(m, id, l.msgs[id].toUid, l.msgs[id].createdAt)
  {
    if id in l.msgs { AddUpdates(l.pending, l.msgs[id].toUid, id, l.msgs[id].createdAt); }
  }

  /** An ACK counts only from the receiver. */
  lemma Acknowledging(l: Ledger, id: MsgId, ackUid: Uid, now: nat)
    requires Consistent(l)
    ensures var m := MarkAcked(l, id, ackUid, now);
            if id !in l.msgs || l.msgs[id].toUid != ackUid then m == l
            else && OnlyMoves(l, m, id)
                 && m.msgs[id] == l.msgs[id].(status := Acked, ackedAt := now)
                 && id !in m.timeout && WaitsForNobody(m, id)
  {
    if id in l.msgs { RemoveUpdates(l.pending, l.msgs[id].toUid, id); }
  }

  lemma Failing(l: Ledger, id: MsgId)
    requires Consistent(l)
    ensures var m := MarkFailed(l, id);
            if id !in l.msgs then m == l
            else && OnlyMoves(l, m, id)
                 && m.msgs[id] == l.msgs[id].(status := Failed)
                 && id !in m.timeout && WaitsForNobody(m, id)
  {
    if id in l.msgs { RemoveUpdates(l.pending, l.msgs[id].toUid, id); }
  }

  lemma Counting(l: Ledger, id: MsgId)
    requires Consistent(l)
    ensures var m := IncrementRetry(l, id);
            if id !in l.msgs then m == l
            else && OnlyMoves(l, m, id) && m.pending == l.pending && m.timeout == l.timeout
                 && m.msgs[id] == l.msgs[id].(retryCount := l.msgs[id].retryCount + 1)
  {
  }

  /** Sent before: some message has this sender and this client_msg_id. */
  ghost predicate SentBefore(l: Ledger, from: Uid, clientMsgId: string, id: MsgId) {
    id in l.msgs && l.msgs[id].fromUid == from && l.msgs[id].clientMsgId == clientMsgId
  }

  lemma SentBeforeIff(l: Ledger, from: Uid, clientMsgId: string)
    requires Consistent(l)
    ensures (exists id :: SentBefore(l, from, clientMsgId, id)) <==> (from, clientMsgId) in l.idem
    ensures (from, clientMsgId) in l.idem ==> SentBefore(l, from, clientMsgId, l.idem[(from, clientMsgId)])
  {
    assert IdemInverse(l);
    var key := (from, clientMsgId);
    if id :| SentBefore(l, from, clientMsgId, id) { assert key in l.idem; }
    if key in l.idem { assert SentBefore(l, from, clientMsgId, l.idem[key]); }
  }

  lemma CreatingAgain(l: Ledger, from: Uid, to: Uid, content: string, clientMsgId: string, now: nat)
    requires Consistent(l) && exists id :: SentBefore(l, from, clientMsgId, id)
    ensures var c := Create(l, from, to, content, clientMsgId, now);
            && !c.created && c.ledger == l
            && SentBefore(l, from, clientMsgId, c.record.msgId) && c.record == l.msgs[c.record.msgId]
  {
    SentBeforeIff(l, from, clientMsgId);
    assert IdsDense(l);
  }

  /** A new message is Pending, numbered next, and stamped with this moment everywhere. */
  lemma Creating(l: Ledger, from: Uid, to: Uid, content: string, clientMsgId: string, now: nat)
    requires Consistent(l) && !exists id :: SentBefore(l, from, clientMsgId, id)
    ensures var c := Create(l, from, to, content, clientMsgId, now);
            && c.created && c.ledger.nextId == l.nextId + 1
            && c.record == Record(l.nextId + 1, from, to, content, clientMsgId, Pending, now, 0, 0, 0)
            && Joins(l, c.ledger, c.record, now)
  {
    SentBeforeIff(l, from, clientMsgId);
    CreateConsistent(l, from, to, content, clientMsgId, now);
    NewShape(l, from, to, content, clientMsgId, now);
    var c := Create(l, from, to, content, clientMsgId, now);
    NewJoins(l, c.ledger, c.record, now);
  }

  lemma NewShape(l: Ledger, from: Uid, to: Uid, content: string, clientMsgId: string, now: nat)
    requires (from, clientMsgId) !in l.idem
    ensures var c := Create(l, from, to, content, clientMsgId, now);
            && c.created && c.ledger.nextId == l.nextId + 1
            && c.record == Record(l.nextId + 1, from, to, content, clientMsgId, Pending, now, 0, 0, 0)
            && c.ledger.msgs == l.msgs[c.record.msgId := c.record] && c.ledger.timeout == l.timeout
            && c.ledger.pending == Add(l.pending, to, c.record.msgId, now)
  {
  }

  lemma NewJoins(l: Ledger, m: Ledger, r: Record, now: nat)
    requires PendingAgrees(l) && RecentAgrees(l) && RecentAgrees(m) && r.msgId !in l.msgs && r.createdAt == now
    requires m.msgs == l.msgs[r.msgId := r] && m.timeout == l.timeout && m.pending == Add(l.pending, r.toUid, r.msgId, now)
    ensures Joins(l, m, r, now)
  {
    CreatedPending(l, m, r.toUid, r.msgId, now);
    CreatedIndexes(l, m, r.fromUid, r.toUid, r.msgId, now);
  }

  /** r is new in m: it waits for its receiver, both users see it as recent, and the rest is as in l. */
  ghost predicate Joins(l: Ledger, m: Ledger, r: Record, now: nat) {
    && r.msgId !in l.msgs && m.msgs == l.msgs[r.msgId := r] && m.timeout == l.timeout
    && WaitsFor(m, r.msgId, r.toUid, now)
    && (forall u: Uid :: r.msgId in At(m.recent, u) <==> u == r.fromUid || u == r.toUid)
    && (forall u: Uid :: r.msgId in At(m.recent, u) ==> At(m.recent, u)[r.msgId] == now)
    && (forall u: Uid, k: MsgId :: k != r.msgId ==>
          (k in At(m.pending, u) <==> k in At(l.pending, u)) && (k in At(m.recent, u) <==> k in At(l.recent, u)))
  }

  lemma CreatedPending(l: Ledger, m: Ledger, to: Uid, id: MsgId, now: nat)
    requires PendingAgrees(l) && id !in l.msgs && m.pending == Add(l.pending, to, id, now)
    ensures WaitsFor(m, id, to, now)
    ensures forall u: Uid, k: MsgId :: k != id ==> (k in At(m.pending, u) <==> k in At(l.pending, u))
  {
    AddUpdates(l.pending, to, id, now);
  }

  lemma CreatedIndexes(l: Ledger, m: Ledger, from: Uid, to: Uid, id: MsgId, now: nat)
    requires RecentAgrees(l) && RecentAgrees(m) && id !in l.msgs && id in m.msgs && m.msgs == l.msgs[id := m.msgs[id]]
    requires m.msgs[id].fromUid == from && m.msgs[id].toUid == to && m.msgs[id].createdAt == now
    ensures forall u: Uid :: id in At(m.recent, u) <==> u == from || u == to
    ensures forall u: Uid :: id in At(m.recent, u) ==> At(m.recent, u)[id] == now
    ensures forall u: Uid, k: MsgId :: k != id ==> (k in At(m.recent, u) <==> k in At(l.recent, u))
  {
    forall u: Uid, k: MsgId | k != id ensures k in At(m.recent, u) <==> k in At(l.recent, u) {
      assert k in m.msgs <==> k in l.msgs;
      assert k in m.msgs ==> m.msgs[k] == l.msgs[k];
    }
  }
}
