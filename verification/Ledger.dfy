/** The message ledger behind MessageStore: records, the idempotency map, and the
    Pending, Delivered-timeout and recent indexes. Each Lua script is one function. */
module Ledger {
  import opened Options

  type Uid = nat
  type MsgId = nat
  type Index = map<MsgId, nat>

  datatype Status = Pending | Delivered | Acked | Failed

  datatype Record = Record(
    msgId: MsgId, fromUid: Uid, toUid: Uid, content: string, clientMsgId: string,
    status: Status, createdAt: nat, deliveredAt: nat, ackedAt: nat, retryCount: nat)

  datatype Ledger = Ledger(
    nextId: nat,
    msgs: map<MsgId, Record>,
    idem: map<(Uid, string), MsgId>,
    pending: map<Uid, Index>,
    timeout: Index,
    recent: map<Uid, Index>)

  const Empty := Ledger(0, map[], map[], map[], map[], map[])

  // A missing zset key reads as an empty set.
  function At(family: map<Uid, Index>, uid: Uid): Index {
    if uid in family then family[uid] else map[]
  }

  function Add(family: map<Uid, Index>, uid: Uid, id: MsgId, score: nat): map<Uid, Index> {
    family[uid := At(family, uid)[id := score]]
  }

  function Remove(family: map<Uid, Index>, uid: Uid, id: MsgId): map<Uid, Index> {
    family[uid := At(family, uid) - {id}]
  }

  // ---------------------------------------------------------------- scripts

  datatype CreateResult = CreateResult(ledger: Ledger, created: bool, record: Record)

  function Fresh(id: MsgId, from: Uid, to: Uid, content: string, clientMsgId: string, now: nat): Record {
    Record(id, from, to, content, clientMsgId, Pending, now, 0, 0, 0)
  }

  function Create(l: Ledger, from: Uid, to: Uid, content: string, clientMsgId: string, now: nat): CreateResult {
    var key := (from, clientMsgId);
    if key in l.idem && l.idem[key] in l.msgs then
      CreateResult(l, false, l.msgs[l.idem[key]])
    else
      var id := l.nextId + 1;
      var r := Fresh(id, from, to, content, clientMsgId, now);
      CreateResult(
        Ledger(id,
               l.msgs[id := r],
               l.idem[key := id],
               Add(l.pending, to, id, now),
               l.timeout,
               Add(Add(l.recent, from, id, now), to, id, now)),
        true, r)
  }

  function MarkDelivered(l: Ledger, id: MsgId, now: nat): Ledger {
    if id !in l.msgs then l
    else
      var r := l.msgs[id];
      l.(msgs := l.msgs[id := r.(status := Delivered, deliveredAt := now)],
         pending := Remove(l.pending, r.toUid, id),
         timeout := l.timeout[id := now])
  }

  function MarkPending(l: Ledger, id: MsgId): Ledger {
    if id !in l.msgs then l
    else
      var r := l.msgs[id];
      l.(msgs := l.msgs[id := r.(status := Pending)],
         pending := Add(l.pending, r.toUid, id, r.createdAt),
         timeout := l.timeout - {id})
  }

  function MarkAcked(l: Ledger, id: MsgId, ackUid: Uid, now: nat): Ledger {
    if id !in l.msgs || l.msgs[id].toUid != ackUid then l
    else
      var r := l.msgs[id];
      l.(msgs := l.msgs[id := r.(status := Acked, ackedAt := now)],
         pending := Remove(l.pending, r.toUid, id),
         timeout := l.timeout - {id})
  }

  function MarkFailed(l: Ledger, id: MsgId): Ledger {
    if id !in l.msgs then l
    else
      var r := l.msgs[id];
      l.(msgs := l.msgs[id := r.(status := Failed)],
         pending := Remove(l.pending, r.toUid, id),
         timeout := l.timeout - {id})
  }

  function IncrementRetry(l: Ledger, id: MsgId): Ledger {
    if id !in l.msgs then l
    else l.(msgs := l.msgs[id := l.msgs[id].(retryCount := l.msgs[id].retryCount + 1)])
  }

  /** One atomic script call. */
  datatype Script =
    | DoCreate(from: Uid, to: Uid, content: string, clientMsgId: string, now: nat)
    | DoDelivered(id: MsgId, now: nat)
    | DoPending(id: MsgId)
    | DoAcked(id: MsgId, ackUid: Uid, now: nat)
    | DoFailed(id: MsgId)
    | DoRetry(id: MsgId)

  function Exec(l: Ledger, s: Script): Ledger {
    match s
    case DoCreate(from, to, content, clientMsgId, now) => Create(l, from, to, content, clientMsgId, now).ledger
    case DoDelivered(id, now) => MarkDelivered(l, id, now)
    case DoPending(id) => MarkPending(l, id)
    case DoAcked(id, ackUid, now) => MarkAcked(l, id, ackUid, now)
    case DoFailed(id) => MarkFailed(l, id)
    case DoRetry(id) => IncrementRetry(l, id)
  }

  // -------------------------------------------------------- index agreement

  /** Ids are exactly 1..nextId and each record carries its own id. */
  ghost predicate IdsDense(l: Ledger) {
    && (forall id :: id in l.msgs <==> 1 <= id <= l.nextId)
    && (forall id :: id in l.msgs ==> l.msgs[id].msgId == id)
  }

  /** The idempotency map and the ledger are mutual inverses. */
  ghost predicate IdemInverse(l: Ledger) {
    && (forall k :: k in l.idem ==>
          l.idem[k] in l.msgs && k == (l.msgs[l.idem[k]].fromUid, l.msgs[l.idem[k]].clientMsgId))
    && (forall id :: id in l.msgs ==>
          var k := (l.msgs[id].fromUid, l.msgs[id].clientMsgId);
          k in l.idem && l.idem[k] == id)
  }

  /** pending:u holds exactly the Pending messages to u, scored by creation time. */
  ghost predicate PendingAgrees(l: Ledger) {
    forall u: Uid, id: MsgId ::
      && (id in At(l.pending, u) <==> id in l.msgs && l.msgs[id].status == Pending && l.msgs[id].toUid == u)
      && (id in At(l.pending, u) ==> At(l.pending, u)[id] == l.msgs[id].createdAt)
  }

  /** delivered_timeout holds exactly the Delivered messages, scored by delivery time. */
  ghost predicate TimeoutAgrees(l: Ledger) {
    forall id: MsgId ::
      && (id in l.timeout <==> id in l.msgs && l.msgs[id].status == Delivered)
      && (id in l.timeout ==> l.timeout[id] == l.msgs[id].deliveredAt)
  }

  /** recent:u holds exactly the messages from or to u, scored by creation time. */
  ghost predicate RecentAgrees(l: Ledger) {
    forall u: Uid, id: MsgId ::
      && (id in At(l.recent, u) <==> id in l.msgs && (l.msgs[id].fromUid == u || l.msgs[id].toUid == u))
      && (id in At(l.recent, u) ==> At(l.recent, u)[id] == l.msgs[id].createdAt)
  }

  ghost predicate Consistent(l: Ledger) {
    IdsDense(l) && IdemInverse(l) && PendingAgrees(l) && TimeoutAgrees(l) && RecentAgrees(l)
  }

  /** What no script ever changes in a record. */
  ghost predicate SameMessage(a: Record, b: Record) {
    && a.msgId == b.msgId && a.fromUid == b.fromUid && a.toUid == b.toUid
    && a.content == b.content && a.clientMsgId == b.clientMsgId && a.createdAt == b.createdAt
  }

  /** Records and idempotency entries are never removed or rewritten. */
  ghost predicate Extends(l: Ledger, m: Ledger) {
    && (forall id :: id in l.msgs ==> id in m.msgs && SameMessage(l.msgs[id], m.msgs[id]))
    && (forall k :: k in l.idem ==> k in m.idem && m.idem[k] == l.idem[k])
  }

  /** g is f except that (uid, id) is present with the given score, or absent. */
  ghost predicate Updated(f: map<Uid, Index>, g: map<Uid, Index>, uid: Uid, id: MsgId, score: Option<nat>) {
    forall u: Uid, k: MsgId ::
      && (k in At(g, u) <==> if u == uid && k == id then score.Some? else k in At(f, u))
      && (k in At(g, u) ==> At(g, u)[k] == if u == uid && k == id then score.value else At(f, u)[k])
  }

  lemma AddUpdates(f: map<Uid, Index>, uid: Uid, id: MsgId, score: nat)
    ensures Updated(f, Add(f, uid, id, score), uid, id, Some(score))
  {
  }

  lemma RemoveUpdates(f: map<Uid, Index>, uid: Uid, id: MsgId)
    ensures Updated(f, Remove(f, uid, id), uid, id, None)
  {
  }

  lemma RestatusPending(l: Ledger, m: Ledger, id: MsgId, r: Record)
    requires PendingAgrees(l)
    requires id in l.msgs && SameMessage(l.msgs[id], r) && m.msgs == l.msgs[id := r]
    requires Updated(l.pending, m.pending, r.toUid, id, if r.status == Pending then Some(r.createdAt) else None)
    ensures PendingAgrees(m)
  {
  }

  lemma RestatusTimeout(l: Ledger, m: Ledger, id: MsgId, r: Record)
    requires TimeoutAgrees(l)
    requires id in l.msgs && m.msgs == l.msgs[id := r]
    requires m.timeout == if r.status == Delivered then l.timeout[id := r.deliveredAt] else l.timeout - {id}
    ensures TimeoutAgrees(m)
  {
  }

  lemma RestatusIdentity(l: Ledger, m: Ledger, id: MsgId, r: Record)
    requires IdsDense(l) && IdemInverse(l)
    requires id in l.msgs && SameMessage(l.msgs[id], r) && m.msgs == l.msgs[id := r]
    requires m.nextId == l.nextId && m.idem == l.idem
    ensures IdsDense(m) && IdemInverse(m) && Extends(l, m)
  {
  }

  lemma RestatusRecent(l: Ledger, m: Ledger, id: MsgId, r: Record)
    requires RecentAgrees(l)
    requires id in l.msgs && SameMessage(l.msgs[id], r) && m.msgs == l.msgs[id := r] && m.recent == l.recent
    ensures RecentAgrees(m)
  {
  }

  /** A script that rewrites one record keeps every index in agreement, provided it moves
      the id to the index of the new status. */
  lemma RestatusConsistent(l: Ledger, m: Ledger, id: MsgId, r: Record)
    requires Consistent(l)
    requires id in l.msgs && SameMessage(l.msgs[id], r)
    requires m.nextId == l.nextId && m.idem == l.idem && m.recent == l.recent && m.msgs == l.msgs[id := r]
    requires Updated(l.pending, m.pending, r.toUid, id, if r.status == Pending then Some(r.createdAt) else None)
    requires m.timeout == if r.status == Delivered then l.timeout[id := r.deliveredAt] else l.timeout - {id}
    ensures Consistent(m) && Extends(l, m)
  {
    RestatusPending(l, m, id, r);
    RestatusTimeout(l, m, id, r);
    RestatusIdentity(l, m, id, r);
    RestatusRecent(l, m, id, r);
  }

  lemma CreatePending(l: Ledger, r: Record, m: Ledger)
    requires IdsDense(l) && PendingAgrees(l) && TimeoutAgrees(l)
    requires r.status == Pending && r.msgId == l.nextId + 1
    requires m.msgs == l.msgs[r.msgId := r] && m.timeout == l.timeout
    requires m.pending == Add(l.pending, r.toUid, r.msgId, r.createdAt)
    ensures PendingAgrees(m) && TimeoutAgrees(m)
  {
    AddUpdates(l.pending, r.toUid, r.msgId, r.createdAt);
  }

  lemma CreateRecent(l: Ledger, r: Record, m: Ledger)
    requires RecentAgrees(l)
    requires m.msgs == l.msgs[r.msgId := r] && r.msgId !in l.msgs
    requires m.recent == Add(Add(l.recent, r.fromUid, r.msgId, r.createdAt), r.toUid, r.msgId, r.createdAt)
    ensures RecentAgrees(m)
  {
    var f := Add(l.recent, r.fromUid, r.msgId, r.createdAt);
    AddUpdates(l.recent, r.fromUid, r.msgId, r.createdAt);
    AddUpdates(f, r.toUid, r.msgId, r.createdAt);
    forall u: Uid, k: MsgId
      ensures k in At(m.recent, u) <==> k in m.msgs && (m.msgs[k].fromUid == u || m.msgs[k].toUid == u)
      ensures k in At(m.recent, u) ==> At(m.recent, u)[k] == m.msgs[k].createdAt
    {
      assert k in At(f, u) <==> k in At(l.recent, u) || (u == r.fromUid && k == r.msgId);
    }
  }

  lemma CreateIdentity(l: Ledger, r: Record, m: Ledger)
    requires IdsDense(l) && IdemInverse(l)
    requires r.msgId == l.nextId + 1 && (r.fromUid, r.clientMsgId) !in l.idem
    requires m.nextId == r.msgId && m.msgs == l.msgs[r.msgId := r]
    requires m.idem == l.idem[(r.fromUid, r.clientMsgId) := r.msgId]
    ensures IdsDense(m) && IdemInverse(m) && Extends(l, m)
  {
  }

  lemma CreateConsistent(l: Ledger, from: Uid, to: Uid, content: string, clientMsgId: string, now: nat)
    requires Consistent(l)
    ensures var c := Create(l, from, to, content, clientMsgId, now);
            && Consistent(c.ledger) && Extends(l, c.ledger)
            && c.record.msgId in c.ledger.msgs && c.ledger.msgs[c.record.msgId] == c.record
            && c.record.fromUid == from && c.record.clientMsgId == clientMsgId
            && (c.created <==> (from, clientMsgId) !in l.idem)
            && (c.created ==> c.record.toUid == to && c.record.content == content && c.record.msgId !in l.msgs)
            && (!c.created ==> c.ledger == l)
  {
    if (from, clientMsgId) !in l.idem {
      var c := Create(l, from, to, content, clientMsgId, now);
      CreatePending(l, c.record, c.ledger);
      CreateRecent(l, c.record, c.ledger);
      CreateIdentity(l, c.record, c.ledger);
    }
  }

  lemma DeliveredConsistent(l: Ledger, id: MsgId, now: nat)
    requires Consistent(l)
    ensures Consistent(MarkDelivered(l, id, now)) && Extends(l, MarkDelivered(l, id, now))
  {
    if id in l.msgs {
      RemoveUpdates(l.pending, l.msgs[id].toUid, id);
      var m := MarkDelivered(l, id, now);
      RestatusConsistent(l, m, id, m.msgs[id]);
    }
  }

  lemma PendingConsistent(l: Ledger, id: MsgId)
    requires Consistent(l)
    ensures Consistent(MarkPending(l, id)) && Extends(l, MarkPending(l, id))
  {
    if id in l.msgs {
      AddUpdates(l.pending, l.msgs[id].toUid, id, l.msgs[id].createdAt);
      var m := MarkPending(l, id);
      RestatusConsistent(l, m, id, m.msgs[id]);
    }
  }

  lemma AckedConsistent(l: Ledger, id: MsgId, ackUid: Uid, now: nat)
    requires Consistent(l)
    ensures Consistent(MarkAcked(l, id, ackUid, now)) && Extends(l, MarkAcked(l, id, ackUid, now))
  {
    if id in l.msgs && l.msgs[id].toUid == ackUid {
      RemoveUpdates(l.pending, l.msgs[id].toUid, id);
      var m := MarkAcked(l, id, ackUid, now);
      RestatusConsistent(l, m, id, m.msgs[id]);
    }
  }

  lemma FailedConsistent(l: Ledger, id: MsgId)
    requires Consistent(l)
    ensures Consistent(MarkFailed(l, id)) && Extends(l, MarkFailed(l, id))
  {
    if id in l.msgs {
      RemoveUpdates(l.pending, l.msgs[id].toUid, id);
      var m := MarkFailed(l, id);
      RestatusConsistent(l, m, id, m.msgs[id]);
    }
  }

  lemma RetryConsistent(l: Ledger, id: MsgId)
    requires Consistent(l)
    ensures Consistent(IncrementRetry(l, id)) && Extends(l, IncrementRetry(l, id))
  {
    if id in l.msgs {
      var m := IncrementRetry(l, id);
      RestatusIdentity(l, m, id, m.msgs[id]);
      RestatusRecent(l, m, id, m.msgs[id]);
      assert PendingAgrees(m);
      assert TimeoutAgrees(m);
    }
  }

  lemma ExecConsistent(l: Ledger, s: Script)
    requires Consistent(l)
    ensures Consistent(Exec(l, s)) && Extends(l, Exec(l, s))
  {
    match s
    case DoCreate(from, to, content, clientMsgId, now) => CreateConsistent(l, from, to, content, clientMsgId, now);
    case DoDelivered(id, now) => DeliveredConsistent(l, id, now);
    case DoPending(id) => PendingConsistent(l, id);
    case DoAcked(id, ackUid, now) => AckedConsistent(l, id, ackUid, now);
    case DoFailed(id) => FailedConsistent(l, id);
    case DoRetry(id) => RetryConsistent(l, id);
  }

  function ExecAll(l: Ledger, ss: seq<Script>): Ledger {
    if ss == [] then l else Exec(ExecAll(l, ss[..|ss| - 1]), ss[|ss| - 1])
  }

  /** Whatever scripts run and in whatever order, every message is in exactly the index
      that matches its status. */
  lemma {:induction false} EveryHistoryConsistent(ss: seq<Script>)
    ensures Consistent(ExecAll(Empty, ss))
  {
    if ss != [] {
      EveryHistoryConsistent(ss[..|ss| - 1]);
      ExecConsistent(ExecAll(Empty, ss[..|ss| - 1]), ss[|ss| - 1]);
    }
  }
}
