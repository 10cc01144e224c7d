/** What each handler does when nothing else runs, said of the messages, the packets and the user
    table themselves. */
module HandlerEffects {
  import opened Options
  import opened Ledger
  import opened Scans
  import opened QueryResults
  import opened Delivery
  import opened Solo
  import opened Handlers
  import ScriptEffects
  import Presence
  import ThreadPool
  import UserState

  // ------------------------------------------------------------------ the user table

  /** What a request means for the user table. */
  function TableJob(r: Request): Presence.Job {
    if r.Login? then Presence.LogIn(r.uid) else Presence.Other
  }

  lemma {:induction false} TryAllUsers(w: World, rs: seq<Record>, env: nat -> Tick)
    ensures TryAll(w, rs, env).users == w.users
  {
    if rs != [] { TryAllUsers(w, rs[..|rs| - 1], env); }
  }

  /** A handler leaves the user table as the task it stands for does: bind for a login with a uid,
      and no change for anything else. */
  lemma HandlerUsers(w: World, c: Conn, r: Request, env: nat -> Tick)
    ensures HandleSpec(w, c, r, env).users == Presence.Apply(w.users, ThreadPool.Task(c, TableJob(r)))
  {
    match r
    case Login(uid) => TryAllUsers(Greet(w, c, uid), QuietScan(w.ledger, PendingTo(uid)), env);
    case _ =>
  }

  /** The same for the steps of a worker: the table changes at the bind of a login and when a closed
      connection is handled, as the task does, and at no other step. */
  lemma StepUsers(j: Job, l: Ledger, users: UserState.Table, now: nat, up: bool)
    ensures Advance(j, l, users, now, up).users
         == match j
            case LoginBind(c, uid) => Presence.Apply(users, ThreadPool.Task(c, Presence.LogIn(uid)))
            case CloseConn(c) => Presence.Apply(users, ThreadPool.Task(c, Presence.Close))
            case _ => users
  {
  }

  // --------------------------------------------------------------------------- login

  /** A packet that shows r to somebody on c. */
  function Shown(c: Conn, r: Record, history: bool): Outgoing {
    Outgoing(c, Push(r.msgId, r.fromUid, r.toUid, r.content, history))
  }

  /** Everything sent before, then first, then a packet for each of rs, in order. */
  ghost predicate SendsEach(before: seq<Outgoing>, after: seq<Outgoing>, first: Outgoing, c: Conn, rs: seq<Record>, history: bool) {
    && |after| == |before| + 1 + |rs| && before <= after && after[|before|] == first
    && forall k :: 0 <= k < |rs| ==> after[|before| + 1 + k] == Shown(c, rs[k], history)
  }

  lemma SendsAll(before: seq<Outgoing>, after: seq<Outgoing>, first: Outgoing, c: Conn, rs: seq<Record>, history: bool)
    requires after == before + [first] + PushAll(c, rs, history)
    ensures SendsEach(before, after, first, c, rs, history)
  {
  }

  ghost predicate AnyWaiting(l: Ledger, uid: Uid) {
    exists id :: id in l.msgs && l.msgs[id].status == Pending && l.msgs[id].toUid == uid
  }

  /** rs are the messages waiting for uid, oldest first. */
  ghost predicate AllWaiting(l: Ledger, uid: Uid, rs: seq<Record>) {
    && (forall r :: r in rs <==> Stored(l, r) && r.status == Pending && r.toUid == uid)
    && (forall i, j :: 0 <= i < j < |rs| ==> Older(rs[i], rs[j]))
  }

  /** A login over a connection that stays up. The user is then online there and nowhere else. Every
      message waiting for it is pushed, oldest first; if none was, the newest 100 messages from or to
      it are shown as history, oldest first. */
  lemma LoginShows(w: World, c: Conn, uid: Uid, env: nat -> Tick) returns (rs: seq<Record>)
    requires Consistent(w.ledger) && UserState.MutuallyInverse(w.users) && uid != 0
    requires forall k :: env(k).up
    ensures var v := HandleSpec(w, c, Login(uid), env);
            && UserState.ConnOf(v.users, uid) == Some(c) && UserState.UidOf(v.users, c) == uid
            && SendsEach(w.sent, v.sent, Outgoing(c, LoginResp(true)), c, rs, !AnyWaiting(w.ledger, uid))
    ensures if AnyWaiting(w.ledger, uid) then AllWaiting(w.ledger, uid, rs) else NewestOf(w.ledger, uid, 100, rs)
  {
    UserState.BindInverse(w.users, c, uid);
    HandlerUsers(w, c, Login(uid), env);
    rs := LoginSends(w, c, uid, env);
  }

  lemma LoginSends(w: World, c: Conn, uid: Uid, env: nat -> Tick) returns (rs: seq<Record>)
    requires Consistent(w.ledger) && UserState.MutuallyInverse(w.users) && uid != 0
    requires forall k :: env(k).up
    ensures SendsEach(w.sent, HandleSpec(w, c, Login(uid), env).sent, Outgoing(c, LoginResp(true)), c, rs, !AnyWaiting(w.ledger, uid))
    ensures if AnyWaiting(w.ledger, uid) then AllWaiting(w.ledger, uid, rs) else NewestOf(w.ledger, uid, 100, rs)
  {
    var v, pending := HandleSpec(w, c, Login(uid), env), QuietScan(w.ledger, PendingTo(uid));
    PendingIs(w.ledger, uid);
    RecentIs(w.ledger, uid, 100);
    LoginEmptiesPending(w, c, uid, env);
    Waiting(w.ledger, uid, pending);
    rs := if pending != [] then pending else QuietRecent(w.ledger, uid, 100);
    SendsAll(w.sent, v.sent, Outgoing(c, LoginResp(true)), c, rs, pending == []);
  }

  lemma Waiting(l: Ledger, uid: Uid, rs: seq<Record>)
    requires Consistent(l) && forall r :: r in rs <==> Stored(l, r) && r.status == Pending && r.toUid == uid
    ensures rs != [] <==> AnyWaiting(l, uid)
  {
    if rs != [] {
      assert rs[0] in rs;
      assert l.msgs[rs[0].msgId] == rs[0];
    }
    forall id | id in l.msgs && l.msgs[id].status == Pending && l.msgs[id].toUid == uid ensures rs != [] {
      AllStored(l, id);
      assert l.msgs[id] in rs;
    }
  }

  /** The messages that were waiting are then Delivered, and no other has changed. */
  lemma LoginDeliversAll(w: World, c: Conn, uid: Uid, env: nat -> Tick)
    requires Consistent(w.ledger) && UserState.MutuallyInverse(w.users) && uid != 0
    requires forall k :: env(k).up
    ensures var v := HandleSpec(w, c, Login(uid), env);
            && (forall id :: id in v.ledger.msgs <==> id in w.ledger.msgs)
            && forall id :: id in w.ledger.msgs ==>
                 var r, x := w.ledger.msgs[id], v.ledger.msgs[id];
                 if r.status == Pending && r.toUid == uid then DeliveredOnce(r, env, x) else x == r
  {
    var v, rs := HandleSpec(w, c, Login(uid), env), QuietScan(w.ledger, PendingTo(uid));
    PendingIs(w.ledger, uid);
    LoginDelivers(w, c, uid, env);
    PendingDelivered(w.ledger, v.ledger, uid, rs, env);
  }

  /** x is r, Delivered at one of the readings. */
  ghost predicate DeliveredOnce(r: Record, env: nat -> Tick, x: Record) {
    exists k: nat :: x == r.(status := Delivered, deliveredAt := env(k).now)
  }

  lemma PendingDelivered(l: Ledger, m: Ledger, uid: Uid, rs: seq<Record>, env: nat -> Tick)
    requires Consistent(l) && Replaces(l, m, rs, Afters(rs, env)) && forall k :: env(k).up
    requires forall r :: r in rs <==> Stored(l, r) && r.status == Pending && r.toUid == uid
    ensures forall id :: id in m.msgs <==> id in l.msgs
    ensures forall id :: id in l.msgs ==>
              var r, x := l.msgs[id], m.msgs[id];
              if r.status == Pending && r.toUid == uid then DeliveredOnce(r, env, x) else x == r
  {
    forall id | id in l.msgs
      ensures id in m.msgs
      ensures var r, x := l.msgs[id], m.msgs[id];
              if r.status == Pending && r.toUid == uid then DeliveredOnce(r, env, x) else x == r
    {
      AllStored(l, id);
      PendingPlace(l, m, rs, env, id);
    }
  }

  lemma PendingPlace(l: Ledger, m: Ledger, rs: seq<Record>, env: nat -> Tick, id: MsgId)
    requires Replaces(l, m, rs, Afters(rs, env)) && (forall k :: env(k).up) && id in l.msgs && l.msgs[id].msgId == id
    requires forall k :: 0 <= k < |rs| ==> Stored(l, rs[k])
    ensures id in m.msgs
    ensures if l.msgs[id] in rs then DeliveredOnce(l.msgs[id], env, m.msgs[id]) else m.msgs[id] == l.msgs[id]
  {
    if Names(rs, id) {
      var k :| 0 <= k < |rs| && rs[k].msgId == id;
      assert Stored(l, rs[k]) && m.msgs[rs[k].msgId] == Afters(rs, env)[k];
    }
  }

  lemma {:induction false} PushedToNobody(c: Conn, rs: seq<Record>, env: nat -> Tick)
    requires forall k :: !env(k).up
    ensures PushLive(c, rs, env) == []
  {
    if rs != [] { PushedToNobody(c, rs[..|rs| - 1], env); }
  }

  /** When the connection is already gone a login sends its answer and nothing else, and no message
      changes. */
  lemma LoginWhileDown(w: World, c: Conn, uid: Uid, env: nat -> Tick)
    requires Consistent(w.ledger) && UserState.MutuallyInverse(w.users) && uid != 0
    requires forall k :: !env(k).up
    ensures var v := HandleSpec(w, c, Login(uid), env);
            v.sent == w.sent + [Outgoing(c, LoginResp(true))] && v.ledger.msgs == w.ledger.msgs
  {
    var v, rs := HandleSpec(w, c, Login(uid), env), QuietScan(w.ledger, PendingTo(uid));
    LoginDelivers(w, c, uid, env);
    PushedToNobody(c, rs, env);
    QuietBatch(w.ledger, uid);
    NobodyReached(w.ledger, v.ledger, rs, env);
    if rs == [] { HistoryUnshown(w, c, uid, env); }
  }

  lemma NobodyReached(l: Ledger, m: Ledger, rs: seq<Record>, env: nat -> Tick)
    requires Replaces(l, m, rs, Afters(rs, env)) && (forall k :: !env(k).up) && Current(l, rs)
    ensures m.msgs == l.msgs
  {
    forall id ensures id in m.msgs <==> id in l.msgs
      ensures id in l.msgs ==> m.msgs[id] == l.msgs[id]
    {
      if id in l.msgs { Unchanged(l, m, rs, env, id); }
    }
  }

  lemma HistoryUnshown(w: World, c: Conn, uid: Uid, env: nat -> Tick)
    requires uid != 0 && !env(0).up && QuietScan(w.ledger, PendingTo(uid)) == []
    ensures HandleSpec(w, c, Login(uid), env).sent == w.sent + [Outgoing(c, LoginResp(true))]
  {
  }

  lemma Unchanged(l: Ledger, m: Ledger, rs: seq<Record>, env: nat -> Tick, id: MsgId)
    requires Replaces(l, m, rs, Afters(rs, env)) && (forall k :: !env(k).up) && id in l.msgs
    requires forall k :: 0 <= k < |rs| ==> rs[k].msgId in l.msgs && l.msgs[rs[k].msgId] == rs[k]
    ensures id in m.msgs && m.msgs[id] == l.msgs[id]
  {
    if Names(rs, id) {
      var k :| 0 <= k < |rs| && rs[k].msgId == id;
      assert m.msgs[rs[k].msgId] == Afters(rs, env)[k];
    }
  }

  // ---------------------------------------------------------------------------- chat

  /** A chat request from a connection that is not logged in as its sender is refused. */
  lemma ChatRefused(w: World, c: Conn, r: Request, env: nat -> Tick)
    requires r.Chat? && (UserState.UidOf(w.users, c) == 0 || UserState.UidOf(w.users, c) != r.from)
    ensures HandleSpec(w, c, r, env) == w.(sent := w.sent + [Outgoing(c, ServerAck(r.seqNo, 0, false))])
  {
  }

  /** A repeated one is answered with the message it made the first time, and does nothing else. */
  lemma ChatRepeated(w: World, c: Conn, r: Request, env: nat -> Tick, id: MsgId)
    requires Consistent(w.ledger) && r.Chat? && r.from != 0 && UserState.UidOf(w.users, c) == r.from
    requires id in w.ledger.msgs && w.ledger.msgs[id].fromUid == r.from && w.ledger.msgs[id].clientMsgId == r.clientMsgId
    ensures HandleSpec(w, c, r, env) == w.(sent := w.sent + [Outgoing(c, ServerAck(r.seqNo, id, true))])
  {
    assert ScriptEffects.SentBefore(w.ledger, r.from, r.clientMsgId, id);
    ScriptEffects.CreatingAgain(w.ledger, r.from, r.to, r.content, r.clientMsgId, env(0).now);
    assert IdemInverse(w.ledger);
  }

  ghost predicate NeverSent(l: Ledger, r: Request)
    requires r.Chat?
  {
    forall id :: id in l.msgs ==> !(l.msgs[id].fromUid == r.from && l.msgs[id].clientMsgId == r.clientMsgId)
  }

  /** The message a chat request makes. */
  function Made(r: Request, id: MsgId, st: Status, created: nat, delivered: nat): Record
    requires r.Chat?
  {
    Record(id, r.from, r.to, r.content, r.clientMsgId, st, created, delivered, 0, 0)
  }

  /** v is w with r stored as the next message. With its receiver online it is pushed there first and
      is Delivered, otherwise it waits for its receiver; then the sender is told its id. */
  ghost predicate StoresNew(w: World, v: World, c: Conn, r: Request, created: nat, t: Tick)
    requires r.Chat?
  {
    var id, there := w.ledger.nextId + 1, UserState.ConnOf(w.users, r.to);
    && v.users == w.users && v.ledger.nextId == id && id !in w.ledger.msgs
    && if there.Some? && t.up then
         && v.ledger.msgs == w.ledger.msgs[id := Made(r, id, Delivered, created, t.now)]
         && v.sent == w.sent + [Outgoing(there.value, Push(id, r.from, r.to, r.content, false))]
                      + [Outgoing(c, ServerAck(r.seqNo, id, true))]
       else
         && v.ledger.msgs == w.ledger.msgs[id := Made(r, id, Pending, created, 0)]
         && v.sent == w.sent + [Outgoing(c, ServerAck(r.seqNo, id, true))]
         && ScriptEffects.WaitsFor(v.ledger, id, r.to, created)
  }

  /** A new chat request is stored, pushed or left waiting, and acknowledged. */
  lemma ChatStored(w: World, c: Conn, r: Request, env: nat -> Tick)
    requires Consistent(w.ledger) && r.Chat? && r.from != 0 && UserState.UidOf(w.users, c) == r.from
    requires NeverSent(w.ledger, r)
    ensures StoresNew(w, HandleSpec(w, c, r, env), c, r, env(0).now, env(1))
  {
    var made := Create(w.ledger, r.from, r.to, r.content, r.clientMsgId, env(0).now);
    NewMessage(w.ledger, r, env(0).now, made);
    ChatIs(w, c, r, env, made);
    StoresTried(w, made.ledger, made.record, HandleSpec(w, c, r, env), c, r, env(0).now, env(1));
  }

  lemma StoresTried(w: World, l: Ledger, m: Record, v: World, c: Conn, r: Request, created: nat, t: Tick)
    requires r.Chat? && Consistent(l) && Stored(l, m) && m == Made(r, w.ledger.nextId + 1, Pending, created, 0)
    requires l.nextId == w.ledger.nextId + 1 && l.nextId !in w.ledger.msgs && l.msgs == w.ledger.msgs[l.nextId := m]
    requires ScriptEffects.WaitsFor(l, l.nextId, r.to, created)
    requires var x := TryOne(w.(ledger := l), m, t); v == x.(sent := x.sent + [Outgoing(c, ServerAck(r.seqNo, m.msgId, true))])
    ensures StoresNew(w, v, c, r, created, t)
  {
    TriedOnce(w.(ledger := l), m, t);
  }

  lemma NewMessage(l: Ledger, r: Request, now: nat, made: CreateResult)
    requires Consistent(l) && r.Chat? && NeverSent(l, r) && made == Create(l, r.from, r.to, r.content, r.clientMsgId, now)
    ensures made.created && made.record == Made(r, l.nextId + 1, Pending, now, 0)
    ensures Consistent(made.ledger) && Stored(made.ledger, made.record) && made.ledger.nextId == l.nextId + 1
    ensures l.nextId + 1 !in l.msgs && made.ledger.msgs == l.msgs[l.nextId + 1 := made.record]
    ensures ScriptEffects.WaitsFor(made.ledger, l.nextId + 1, r.to, now)
  {
    forall id ensures !ScriptEffects.SentBefore(l, r.from, r.clientMsgId, id) {}
    ScriptEffects.Creating(l, r.from, r.to, r.content, r.clientMsgId, now);
    CreateConsistent(l, r.from, r.to, r.content, r.clientMsgId, now);
  }

  lemma ChatIs(w: World, c: Conn, r: Request, env: nat -> Tick, made: CreateResult)
    requires r.Chat? && r.from != 0 && UserState.UidOf(w.users, c) == r.from
    requires made == Create(w.ledger, r.from, r.to, r.content, r.clientMsgId, env(0).now) && made.created
    ensures var x := TryOne(w.(ledger := made.ledger), made.record, env(1));
            HandleSpec(w, c, r, env) == x.(sent := x.sent + [Outgoing(c, ServerAck(r.seqNo, made.record.msgId, true))])
  {
  }

  /** A message just stored is pushed and Delivered, or left waiting. */
  lemma TriedOnce(w: World, r: Record, t: Tick)
    requires Consistent(w.ledger) && Stored(w.ledger, r) && r.status == Pending
    ensures var v, there := TryOne(w, r, t), UserState.ConnOf(w.users, r.toUid);
            if there.Some? && t.up then
              && v.users == w.users && v.ledger.nextId == w.ledger.nextId
              && v.ledger.msgs == w.ledger.msgs[r.msgId := r.(status := Delivered, deliveredAt := t.now)]
              && v.sent == w.sent + [Shown(there.value, r, false)]
            else v == w
  {
    PendingAgain(w.ledger, r.msgId);
  }

  // ----------------------------------------------------------------------------- ACK

  /** An ACK of the receiver makes the message Acked, at this reading, and takes it out of the Pending
      and timeout indexes; of anyone else, of nobody or for an unknown message it does nothing. */
  lemma AckEffect(w: World, c: Conn, id: MsgId, env: nat -> Tick)
    requires Consistent(w.ledger)
    ensures var v, uid := HandleSpec(w, c, Ack(id), env), UserState.UidOf(w.users, c);
            if uid != 0 && id in w.ledger.msgs && w.ledger.msgs[id].toUid == uid then
              && v.sent == w.sent && v.users == w.users && ScriptEffects.OnlyMoves(w.ledger, v.ledger, id)
              && v.ledger.msgs[id] == w.ledger.msgs[id].(status := Acked, ackedAt := env(0).now)
              && id !in v.ledger.timeout && ScriptEffects.WaitsForNobody(v.ledger, id)
            else v == w
  {
    ScriptEffects.Acknowledging(w.ledger, id, UserState.UidOf(w.users, c), env(0).now);
    assert IdsDense(w.ledger);
  }

  /** Malformed requests and logins without a uid are answered and do nothing; heartbeats do nothing. */
  lemma OtherRequests(w: World, c: Conn, n: nat, env: nat -> Tick)
    ensures HandleSpec(w, c, Malformed(n), env) == w.(sent := w.sent + [Outgoing(c, ServerAck(n, 0, false))])
    ensures HandleSpec(w, c, Login(0), env) == w.(sent := w.sent + [Outgoing(c, LoginResp(false))])
    ensures HandleSpec(w, c, Heartbeat, env) == w
  {
  }
}
