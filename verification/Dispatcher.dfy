/** ServerEventDispatcher as an object over the message store and the user table, one handler at
    a time. */
module Dispatcher {
  import opened Options
  import opened Ledger
  import opened Scans
  import opened Delivery
  import opened RedisStore
  import opened Solo
  import opened Handlers
  import opened RetryPass
  import PassEffects
  import UserState

  class ServerEventDispatcher {
    const store: MessageStore
    const users: UserState.UserStateService
    var sent: seq<Outgoing>

    ghost predicate Valid()
      reads this, store, users
    {
      store.Valid() && users.Valid()
    }

    /** Between two handlers every message is in the index of its status. */
    ghost predicate Ready()
      reads this, store, users
    {
      var consistent := Consistent(store.ledger);
      Valid() && consistent
    }

    ghost function View(): World
      reads this, store, users
    {
      World(store.ledger, users.View(), sent)
    }

    constructor (store: MessageStore, users: UserState.UserStateService)
      requires store.Valid() && users.Valid()
      ensures this.store == store && this.users == users
      ensures Valid() && View() == World(store.ledger, users.View(), [])
    {
      this.store, this.users, this.sent := store, users, [];
    }

    method SendEnvelope(c: Conn, p: Packet)
      requires Valid()
      modifies this`sent
      ensures Valid() && View() == old(View()).(sent := old(sent) + [Outgoing(c, p)])
    {
      sent := sent + [Outgoing(c, p)];
    }

    method TryDeliverMessage(r: Record, t: Tick) returns (ok: bool)
      requires Valid()
      modifies this`sent, store
      ensures Valid() && View() == TryOne(old(View()), r, t)
      ensures ok <==> r.status != Acked && r.status != Failed && UserState.ConnOf(old(users.View()), r.toUid).Some? && t.up
      ensures r.status == Acked || r.status == Failed ==> View() == old(View())
      ensures ok ==> sent == old(sent) + [Outgoing(UserState.ConnOf(old(users.View()), r.toUid).value,
                                                   Push(r.msgId, r.fromUid, r.toUid, r.content, false))]
      ensures !ok ==> sent == old(sent)
      ensures r.msgId in old(store.ledger).msgs && r.status != Acked && r.status != Failed ==>
                var m := old(store.ledger).msgs[r.msgId];
                store.ledger.msgs == old(store.ledger).msgs[r.msgId :=
                  if ok then m.(status := Delivered, deliveredAt := t.now) else m.(status := Pending)]
    {
      if r.status == Acked || r.status == Failed { return false; }
      var target := users.GetConnByUid(r.toUid);
      if target.None? || !t.up {
        var _ := store.MarkPending(r.msgId);
        return false;
      }
      SendEnvelope(target.value, PushOf(r, false));
      var _ := store.MarkDelivered(r.msgId, t.now);
      return true;
    }

    method RetryDeliverMessage(r: Record, t: Tick) returns (ok: bool)
      requires Valid()
      modifies this`sent, store
      ensures Valid() && View() == Redeliver(old(View()), r, t)
      ensures ok <==> r.status != Acked && r.status != Failed && UserState.ConnOf(old(users.View()), r.toUid).Some? && t.up
      ensures PassEffects.Redelivered(old(View()), View(), r, t)
    {
      PassEffects.RedeliverEffect(View(), r, t);
      ok := PushAgain(r, t);
    }

    method PushAgain(r: Record, t: Tick) returns (ok: bool)
      requires Valid()
      modifies this`sent, store
      ensures Valid() && View() == Redeliver(old(View()), r, t)
      ensures ok <==> r.status != Acked && r.status != Failed && Live(old(users.View()), r, t)
    {
      if r.status == Acked || r.status == Failed { return false; }
      var target := users.GetConnByUid(r.toUid);
      if target.None? || !t.up {
        var _ := store.MarkPending(r.msgId);
        return false;
      }
      var _ := store.IncrementRetryCount(r.msgId);
      SendEnvelope(target.value, PushOf(r, false));
      var _ := store.MarkDelivered(r.msgId, t.now);
      return true;
    }

    /** One round of deliveryLoop. */
    method DeliveryPass(now: nat, env: nat -> Tick)
      requires Ready()
      modifies this`sent, store
      ensures Ready() && View() == Pass(old(View()), now, env)
      ensures forall id :: id in old(store.ledger).msgs ==>
                var r := old(store.ledger).msgs[id];
                && id in store.ledger.msgs
                && (store.ledger.msgs[id] != r <==> r.status == Delivered && 0 < r.deliveredAt && r.deliveredAt + 10000 <= now)
    {
      PassConsistent(View(), now, env);
      PassEffects.PassChanges(View(), now, env);
      var rs := store.GetTimeoutDeliveredMessages(now, AckTimeoutMs);
      RetryEach(rs, env);
    }

    method RetryEach(rs: seq<Record>, env: nat -> Tick)
      requires Valid()
      modifies this`sent, store
      ensures Valid() && View() == RetryAll(old(View()), rs, env)
    {
      var k := 0;
      while k < |rs|
        invariant 0 <= k <= |rs| && Valid()
        invariant View() == RetryAll(old(View()), rs[..k], env)
      {
        RetryAllNext(old(View()), rs, env, k);
        RetryOrFail(rs[k], env(k));
        k := k + 1;
      }
      assert rs[..k] == rs;
    }

    method RetryOrFail(r: Record, t: Tick)
      requires Valid()
      modifies this`sent, store
      ensures Valid() && View() == RetryOne(old(View()), r, t)
    {
      if r.retryCount >= MaxRetryCount {
        var _ := store.MarkFailed(r.msgId);
        return;
      }
      var _ := RetryDeliverMessage(r, t);
    }

    method DeliverPendingMessages(uid: Uid, env: nat -> Tick) returns (any: bool)
      requires Valid()
      modifies this`sent, store
      ensures var rs := QuietScan(old(store.ledger), PendingTo(uid));
              Valid() && View() == TryAll(old(View()), rs, env) && (any <==> rs != [])
    {
      var rs := store.GetPendingMessages(uid);
      TryEach(rs, env);
      return rs != [];
    }

    method TryEach(rs: seq<Record>, env: nat -> Tick)
      requires Valid()
      modifies this`sent, store
      ensures Valid() && View() == TryAll(old(View()), rs, env)
    {
      var k := 0;
      while k < |rs|
        invariant 0 <= k <= |rs| && Valid()
        invariant View() == TryAll(old(View()), rs[..k], env)
      {
        TryAllNext(old(View()), rs, env, k);
        var _ := TryDeliverMessage(rs[k], env(k));
        k := k + 1;
      }
      assert rs[..k] == rs;
    }

    method SendRecentMessages(uid: Uid, limit: nat, up: bool)
      requires Valid() && Consistent(store.ledger)
      modifies this`sent
      ensures Valid() && View() == Show(old(View()), uid, QuietRecent(old(store.ledger), uid, limit), up)
      ensures UserState.ConnOf(old(users.View()), uid).None? || !up ==> View() == old(View())
    {
      var rs := store.GetRecentMessages(uid, limit);
      var target := users.GetConnByUid(uid);
      if target.None? || !up { return; }
      PushHistory(target.value, rs);
    }

    method PushHistory(target: Conn, rs: seq<Record>)
      requires Valid()
      modifies this`sent
      ensures Valid() && View() == old(View()).(sent := old(sent) + PushAll(target, rs, true))
    {
      var k := 0;
      while k < |rs|
        invariant 0 <= k <= |rs| && Valid()
        invariant sent == old(sent) + PushAll(target, rs[..k], true)
      {
        sent := sent + [Outgoing(target, PushOf(rs[k], true))];
        k := k + 1;
      }
      assert rs[..k] == rs;
    }

    method DeliverLoginMessages(uid: Uid, env: nat -> Tick)
      requires Valid() && Consistent(store.ledger) && uid != 0
      modifies this`sent, store
      ensures Valid() && View() == DeliverLogin(old(View()), uid, env)
    {
      var any := DeliverPendingMessages(uid, env);
      if any { return; }
      SendRecentMessages(uid, LoginRecentLimit, env(0).up);
    }

    method HandleLogin(c: Conn, uid: Uid, env: nat -> Tick)
      requires Valid() && Consistent(store.ledger)
      modifies this`sent, store, users
      ensures Valid() && View() == HandleSpec(old(View()), c, Login(uid), env)
    {
      var ok := uid != 0;
      if ok { ok := users.BindUser(Some(c), uid); }
      SendEnvelope(c, LoginResp(ok));
      if ok { DeliverLoginMessages(uid, env); }
    }

    method HandleChat(c: Conn, r: Request, created: nat, t: Tick)
      requires Valid() && r.Chat?
      modifies this`sent, store
      ensures Valid() && View() == HandleChatSpec(old(View()), c, r, created, t)
    {
      var uid := users.GetUidByConn(Some(c));
      if uid == 0 || r.from != uid {
        SendEnvelope(c, ServerAck(r.seqNo, 0, false));
        return;
      }
      var made := store.CreateMessage(r.from, r.to, r.content, r.clientMsgId, created);
      var record := made.value.1;
      if made.value.0 {
        var _ := TryDeliverMessage(record, t);
      }
      SendEnvelope(c, ServerAck(r.seqNo, record.msgId, true));
    }

    method HandleAck(c: Conn, id: MsgId, t: Tick)
      requires Valid()
      modifies store
      ensures Valid() && View() == HandleAckSpec(old(View()), c, id, t)
    {
      if id == 0 { return; }
      var uid := users.GetUidByConn(Some(c));
      if uid == 0 { return; }
      var _ := store.MarkAcked(id, uid, t.now);
    }

    method Handle(c: Conn, r: Request, env: nat -> Tick)
      requires Ready()
      modifies this`sent, store, users
      ensures Ready() && View() == HandleSpec(old(View()), c, r, env)
    {
      HandleConsistent(View(), c, r, env);
      match r {
        case Login(uid) => HandleLogin(c, uid, env);
        case Chat(_, _, _, _, _) => HandleChat(c, r, env(0).now, env(1));
        case Ack(id) => HandleAck(c, id, env(0));
        case Heartbeat =>
        case Malformed(n) => SendEnvelope(c, ServerAck(n, 0, false));
      }
    }

    method HandleConnectionClosed(c: Conn)
      requires Valid()
      modifies users
      ensures Valid() && View() == old(View()).(users := UserState.Remove(old(users.View()), c))
      ensures c !in users.View().conns && forall u :: UserState.ConnOf(users.View(), u) != Some(c)
    {
      UserState.RemoveInverse(users.View(), c);
      users.RemoveConnection(Some(c));
    }
  }
}
