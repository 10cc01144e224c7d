/** The handlers of ServerEventDispatcher when nothing else runs: each is one function from the
    world before to the world after, whatever the clock and connected() answer. */
module Handlers {
  import opened Options
  import opened Ledger
  import opened Scans
  import opened QueryResults
  import opened Delivery
  import opened Solo
  import Scripts = Ledger
  import UserState

  function PushAll(target: Conn, rs: seq<Record>, history: bool): seq<Outgoing> {
    seq(|rs|, i requires 0 <= i < |rs| => Outgoing(target, PushOf(rs[i], history)))
  }

  /** tryDeliverMessage. */
  function TryOne(w: World, r: Record, t: Tick): World {
    var target := UserState.ConnOf(w.users, r.toUid);
    if r.status == Acked || r.status == Failed then w
    else if target.None? || !t.up then w.(ledger := Scripts.MarkPending(w.ledger, r.msgId))
    else w.(ledger := Scripts.MarkDelivered(w.ledger, r.msgId, t.now),
            sent := w.sent + [Outgoing(target.value, PushOf(r, false))])
  }

  /** The loop of deliverPendingMessages; env(k) is what the world answers for record k. */
  function TryAll(w: World, rs: seq<Record>, env: nat -> Tick): World {
    if rs == [] then w else TryOne(TryAll(w, rs[..|rs| - 1], env), rs[|rs| - 1], env(|rs| - 1))
  }

  lemma TryAllNext(w: World, rs: seq<Record>, env: nat -> Tick, k: nat)
    requires k < |rs|
    ensures TryAll(w, rs[..k + 1], env) == TryOne(TryAll(w, rs[..k], env), rs[k], env(k))
  {
    assert rs[..k + 1][..k] == rs[..k];
  }

  function Show(w: World, uid: Uid, rs: seq<Record>, up: bool): World {
    var target := UserState.ConnOf(w.users, uid);
    if target.None? || !up then w else w.(sent := w.sent + PushAll(target.value, rs, true))
  }

  /** sendRecentMessages. */
  ghost function ShowRecent(w: World, uid: Uid, up: bool): World {
    Show(w, uid, QuietRecent(w.ledger, uid, LoginRecentLimit), up)
  }

  /** deliverLoginMessages: history only when nothing was pending. */
  ghost function DeliverLogin(w: World, uid: Uid, env: nat -> Tick): World {
    var rs := QuietScan(w.ledger, PendingTo(uid));
    if rs != [] then TryAll(w, rs, env) else ShowRecent(w, uid, env(0).up)
  }

  function Greet(w: World, c: Conn, uid: Uid): World {
    World(w.ledger, if uid != 0 then UserState.Bind(w.users, c, uid) else w.users,
          w.sent + [Outgoing(c, LoginResp(uid != 0))])
  }

  function Reject(w: World, c: Conn, seqNo: nat): World {
    w.(sent := w.sent + [Outgoing(c, ServerAck(seqNo, 0, false))])
  }

  /** createMessage reads the clock, and tryDeliverMessage reads it again. */
  function HandleChatSpec(w: World, c: Conn, r: Request, created: nat, t: Tick): World
    requires r.Chat?
  {
    var uid := UserState.UidOf(w.users, c);
    if uid == 0 || r.from != uid then Reject(w, c, r.seqNo)
    else
      var made := Create(w.ledger, r.from, r.to, r.content, r.clientMsgId, created);
      var v := w.(ledger := made.ledger);
      var x := if made.created then TryOne(v, made.record, t) else v;
      x.(sent := x.sent + [Outgoing(c, ServerAck(r.seqNo, made.record.msgId, true))])
  }

  function HandleAckSpec(w: World, c: Conn, id: MsgId, t: Tick): World {
    var uid := UserState.UidOf(w.users, c);
    if id == 0 || uid == 0 then w else w.(ledger := Scripts.MarkAcked(w.ledger, id, uid, t.now))
  }

  /** handle(): what one request does when nothing else runs. */
  ghost function HandleSpec(w: World, c: Conn, r: Request, env: nat -> Tick): World {
    match r
    case Login(uid) => if uid == 0 then Greet(w, c, uid) else DeliverLogin(Greet(w, c, uid), uid, env)
    case Chat(_, _, _, _, _) => HandleChatSpec(w, c, r, env(0).now, env(1))
    case Ack(id) => HandleAckSpec(w, c, id, env(0))
    case Heartbeat => w
    case Malformed(n) => Reject(w, c, n)
  }

  // ------------------------------------------------------- what a login delivers

  /** The pushes for the records at whose turn the connection was up. */
  function PushLive(c: Conn, rs: seq<Record>, env: nat -> Tick): seq<Outgoing> {
    if rs == [] then []
    else
      var n := |rs| - 1;
      PushLive(c, rs[..n], env) + if env(n).up then [Outgoing(c, PushOf(rs[n], false))] else []
  }

  lemma {:induction false} PushLiveAll(c: Conn, rs: seq<Record>, env: nat -> Tick)
    requires forall k :: 0 <= k < |rs| ==> env(k).up
    ensures PushLive(c, rs, env) == PushAll(c, rs, false)
  {
    if rs != [] {
      var n := |rs| - 1;
      PushLiveAll(c, rs[..n], env);
      assert PushAll(c, rs, false) == PushAll(c, rs[..n], false) + [Outgoing(c, PushOf(rs[n], false))];
    }
  }

  function After(r: Record, t: Tick): Record {
    if t.up then r.(status := Delivered, deliveredAt := t.now) else r
  }

  function Afters(rs: seq<Record>, env: nat -> Tick): seq<Record> {
    seq(|rs|, k requires 0 <= k < |rs| => After(rs[k], env(k)))
  }

  /** rs are distinct records as they stand in l. */
  ghost predicate Current(l: Ledger, rs: seq<Record>) {
    (forall k :: 0 <= k < |rs| ==> rs[k].msgId in l.msgs && l.msgs[rs[k].msgId] == rs[k]) && Distinct(rs)
  }

  ghost predicate AllPendingTo(uid: Uid, rs: seq<Record>) {
    forall k :: 0 <= k < |rs| ==> rs[k].status == Pending && rs[k].toUid == uid
  }

  ghost predicate Names(rs: seq<Record>, id: MsgId) {
    exists k :: 0 <= k < |rs| && rs[k].msgId == id
  }

  /** The same messages, and those not in rs as they were. */
  ghost predicate Untouched(l: Ledger, m: Ledger, rs: seq<Record>) {
    forall id :: (id in l.msgs <==> id in m.msgs) && (id in l.msgs && !Names(rs, id) ==> m.msgs[id] == l.msgs[id])
  }

  /** m is l with each record of rs replaced by its counterpart in outs. */
  ghost predicate Replaces(l: Ledger, m: Ledger, rs: seq<Record>, outs: seq<Record>) {
    && |outs| == |rs| && Untouched(l, m, rs)
    && forall k :: 0 <= k < |rs| ==> rs[k].msgId in m.msgs && m.msgs[rs[k].msgId] == outs[k]
  }

  lemma CurrentPrefix(l: Ledger, rs: seq<Record>)
    requires rs != [] && Current(l, rs)
    ensures Current(l, rs[..|rs| - 1])
    ensures forall k :: 0 <= k < |rs| - 1 ==> rs[k].msgId != rs[|rs| - 1].msgId
  {
  }

  lemma StillCurrent(l: Ledger, m: Ledger, rs: seq<Record>, outs: seq<Record>)
    requires rs != [] && Current(l, rs) && Replaces(l, m, rs[..|rs| - 1], outs)
    ensures var r := rs[|rs| - 1]; r.msgId in m.msgs && m.msgs[r.msgId] == r
  {
    if Names(rs[..|rs| - 1], rs[|rs| - 1].msgId) { assert false; }
  }

  lemma BatchGrows(l: Ledger, m: Ledger, x: Ledger, rs: seq<Record>, outs: seq<Record>)
    requires rs != [] && |outs| == |rs| && Replaces(l, m, rs[..|rs| - 1], outs[..|rs| - 1])
    requires forall k :: 0 <= k < |rs| - 1 ==> rs[k].msgId != rs[|rs| - 1].msgId
    requires var r := rs[|rs| - 1]; r.msgId in m.msgs && x.msgs == m.msgs[r.msgId := outs[|rs| - 1]]
    ensures Replaces(l, x, rs, outs)
  {
    var n := |rs| - 1;
    forall k | 0 <= k < |rs| ensures rs[k].msgId in x.msgs && x.msgs[rs[k].msgId] == outs[k] {
      if k < n { assert rs[..n][k] == rs[k] && outs[..n][k] == outs[k]; }
    }
    forall id ensures id in l.msgs && !Names(rs, id) ==> x.msgs[id] == l.msgs[id] {
      if Names(rs[..n], id) {
        var k :| 0 <= k < n && rs[..n][k].msgId == id;
        assert rs[k].msgId == id;
      }
      if id == rs[n].msgId { assert Names(rs, id); }
    }
  }

  /** Putting a message back to Pending that is Pending already changes nothing. */
  lemma PendingAgain(l: Ledger, id: MsgId)
    requires Consistent(l) && id in l.msgs && l.msgs[id].status == Pending
    ensures Scripts.MarkPending(l, id) == l
  {
    var r := l.msgs[id];
    var z := Scripts.At(l.pending, r.toUid);
    assert id in z && z[id] == r.createdAt && r.toUid in l.pending;
    assert z[id := r.createdAt] == z;
    assert id !in l.timeout;
    assert r.(status := Pending) == r;
    assert l.msgs[id := r] == l.msgs;
    assert Scripts.Add(l.pending, r.toUid, id, r.createdAt) == l.pending;
    assert l.timeout - {id} == l.timeout;
  }

  /** One record of the batch: pushed and Delivered if the connection is up, else as before. */
  lemma TryOneEffect(w: World, r: Record, c: Conn, t: Tick)
    requires Consistent(w.ledger) && r.msgId in w.ledger.msgs && w.ledger.msgs[r.msgId] == r && r.status == Pending
    requires UserState.ConnOf(w.users, r.toUid) == Some(c)
    ensures var v := TryOne(w, r, t);
            v.ledger.msgs == w.ledger.msgs[r.msgId := After(r, t)]
  {
    if !t.up { PendingAgain(w.ledger, r.msgId); }
  }

  lemma {:induction false} TryAllConsistent(w: World, rs: seq<Record>, env: nat -> Tick)
    requires Consistent(w.ledger)
    ensures Consistent(TryAll(w, rs, env).ledger) && TryAll(w, rs, env).users == w.users
  {
    if rs != [] {
      var n := |rs| - 1;
      TryAllConsistent(w, rs[..n], env);
      var l := TryAll(w, rs[..n], env).ledger;
      DeliveredConsistent(l, rs[n].msgId, env(n).now);
      PendingConsistent(l, rs[n].msgId);
    }
  }

  lemma {:induction false} TryAllSent(w: World, uid: Uid, rs: seq<Record>, c: Conn, env: nat -> Tick)
    requires AllPendingTo(uid, rs) && UserState.ConnOf(w.users, uid) == Some(c)
    ensures TryAll(w, rs, env).sent == w.sent + PushLive(c, rs, env)
    ensures TryAll(w, rs, env).users == w.users
  {
    if rs != [] { TryAllSent(w, uid, rs[..|rs| - 1], c, env); }
  }

  lemma {:induction false} TryAllEffect(w: World, uid: Uid, rs: seq<Record>, c: Conn, env: nat -> Tick)
    requires Consistent(w.ledger) && Current(w.ledger, rs) && AllPendingTo(uid, rs)
    requires UserState.ConnOf(w.users, uid) == Some(c)
    ensures Replaces(w.ledger, TryAll(w, rs, env).ledger, rs, Afters(rs, env))
  {
    if rs != [] {
      var n := |rs| - 1;
      CurrentPrefix(w.ledger, rs);
      TryAllEffect(w, uid, rs[..n], c, env);
      TryAllConsistent(w, rs[..n], env);
      var u := TryAll(w, rs[..n], env);
      StillCurrent(w.ledger, u.ledger, rs, Afters(rs[..n], env));
      TryOneEffect(u, rs[n], c, env(n));
      AftersGrow(w.ledger, u.ledger, TryAll(w, rs, env).ledger, rs, env);
    }
  }

  lemma AftersGrow(l: Ledger, m: Ledger, x: Ledger, rs: seq<Record>, env: nat -> Tick)
    requires rs != [] && Current(l, rs) && Replaces(l, m, rs[..|rs| - 1], Afters(rs[..|rs| - 1], env))
    requires var r := rs[|rs| - 1]; r.msgId in m.msgs && x.msgs == m.msgs[r.msgId := After(r, env(|rs| - 1))]
    ensures Replaces(l, x, rs, Afters(rs, env))
  {
    CurrentPrefix(l, rs);
    assert Afters(rs, env)[..|rs| - 1] == Afters(rs[..|rs| - 1], env);
    BatchGrows(l, m, x, rs, Afters(rs, env));
  }

  /** What is still Pending for uid once the batch is through. */
  lemma PendingAfter(l: Ledger, m: Ledger, uid: Uid, rs: seq<Record>, env: nat -> Tick)
    requires PendingAgrees(m) && AllPendingTo(uid, rs) && Replaces(l, m, rs, Afters(rs, env))
    requires forall id :: id in l.msgs && Matches(PendingTo(uid), l.msgs[id]) ==> l.msgs[id] in rs
    requires forall id :: id in l.msgs ==> l.msgs[id].msgId == id
    ensures forall id :: id in Scripts.At(m.pending, uid) <==> exists k :: 0 <= k < |rs| && rs[k].msgId == id && !env(k).up
  {
    forall id ensures id in Scripts.At(m.pending, uid) <==> exists k :: 0 <= k < |rs| && rs[k].msgId == id && !env(k).up {
      if id in Scripts.At(m.pending, uid) {
        assert id in m.msgs && m.msgs[id].status == Pending && m.msgs[id].toUid == uid;
        if !Names(rs, id) { assert false; }
      }
    }
  }

  lemma QuietBatch(l: Ledger, uid: Uid)
    requires Consistent(l)
    ensures var rs := QuietScan(l, PendingTo(uid));
            && Current(l, rs) && AllPendingTo(uid, rs)
            && (forall id :: id in l.msgs && Matches(PendingTo(uid), l.msgs[id]) ==> l.msgs[id] in rs)
            && ExactlySorted(l, PendingTo(uid), rs)
  {
    QuietScanExact(l, PendingTo(uid));
  }

  /** A login run alone: the reply, then every pending message of the user in (created_at,
      decimal id) order; each one pushed while the connection is up becomes Delivered, and only
      those at whose turn it was down are still in the pending index. Nothing else changes. */
  lemma LoginDelivers(w: World, c: Conn, uid: Uid, env: nat -> Tick)
    requires Consistent(w.ledger) && UserState.MutuallyInverse(w.users) && uid != 0
    ensures var v, rs := HandleSpec(w, c, Login(uid), env), QuietScan(w.ledger, PendingTo(uid));
            && ExactlySorted(w.ledger, PendingTo(uid), rs)
            && (rs != [] ==> v.sent == w.sent + [Outgoing(c, LoginResp(true))] + PushLive(c, rs, env))
            && (rs == [] ==> v.ledger == w.ledger)
            && Replaces(w.ledger, v.ledger, rs, Afters(rs, env))
            && (forall id :: id in Scripts.At(v.ledger.pending, uid)
                             <==> exists k :: 0 <= k < |rs| && rs[k].msgId == id && !env(k).up)
  {
    var g, rs := Greet(w, c, uid), QuietScan(w.ledger, PendingTo(uid));
    QuietBatch(w.ledger, uid);
    UserState.BindInverse(w.users, c, uid);
    if rs != [] {
      TryAllSent(g, uid, rs, c, env);
      TryAllEffect(g, uid, rs, c, env);
      TryAllConsistent(g, rs, env);
    }
    var v := HandleSpec(w, c, Login(uid), env);
    PendingAfter(w.ledger, v.ledger, uid, rs, env);
  }

  /** With a connection that stays up, the login pushes exactly the pending list in order and
      leaves the user's pending index empty; with nothing pending it shows the newest records
      as history. */
  lemma LoginEmptiesPending(w: World, c: Conn, uid: Uid, env: nat -> Tick)
    requires Consistent(w.ledger) && UserState.MutuallyInverse(w.users) && uid != 0
    requires forall k :: env(k).up
    ensures var v, rs := HandleSpec(w, c, Login(uid), env), QuietScan(w.ledger, PendingTo(uid));
            && Scripts.At(v.ledger.pending, uid) == map[]
            && v.sent == w.sent + [Outgoing(c, LoginResp(true))]
                         + if rs != [] then PushAll(c, rs, false)
                           else PushAll(c, QuietRecent(w.ledger, uid, 100), true)
    ensures NewestOf(w.ledger, uid, 100, QuietRecent(w.ledger, uid, 100))
  {
    RecentIs(w.ledger, uid, 100);
    var v, rs := HandleSpec(w, c, Login(uid), env), QuietScan(w.ledger, PendingTo(uid));
    LoginDelivers(w, c, uid, env);
    NoneDown(Scripts.At(v.ledger.pending, uid), rs, env);
    if rs == [] { LoginHistory(w, c, uid, env); } else { PushLiveAll(c, rs, env); }
  }

  lemma NoneDown(left: map<MsgId, nat>, rs: seq<Record>, env: nat -> Tick)
    requires forall k :: env(k).up
    requires forall id :: id in left <==> exists k :: 0 <= k < |rs| && rs[k].msgId == id && !env(k).up
    ensures left == map[]
  {
  }

  lemma LoginHistory(w: World, c: Conn, uid: Uid, env: nat -> Tick)
    requires UserState.MutuallyInverse(w.users) && uid != 0 && env(0).up && QuietScan(w.ledger, PendingTo(uid)) == []
    ensures HandleSpec(w, c, Login(uid), env).sent
         == w.sent + [Outgoing(c, LoginResp(true))] + PushAll(c, QuietRecent(w.ledger, uid, LoginRecentLimit), true)
  {
    UserState.BindInverse(w.users, c, uid);
  }

  lemma TryOneConsistent(w: World, r: Record, t: Tick)
    requires Consistent(w.ledger)
    ensures Consistent(TryOne(w, r, t).ledger)
  {
    var target := UserState.ConnOf(w.users, r.toUid);
    if r.status == Acked || r.status == Failed {
    } else if target.None? || !t.up {
      PendingConsistent(w.ledger, r.msgId);
    } else {
      DeliveredConsistent(w.ledger, r.msgId, t.now);
    }
  }

  lemma ChatConsistent(w: World, c: Conn, r: Request, created: nat, t: Tick)
    requires Consistent(w.ledger) && r.Chat?
    ensures Consistent(HandleChatSpec(w, c, r, created, t).ledger)
  {
    var made := Create(w.ledger, r.from, r.to, r.content, r.clientMsgId, created);
    CreateConsistent(w.ledger, r.from, r.to, r.content, r.clientMsgId, created);
    TryOneConsistent(w.(ledger := made.ledger), made.record, t);
  }

  /** Every handler keeps every message in the index of its status. */
  lemma HandleConsistent(w: World, c: Conn, r: Request, env: nat -> Tick)
    requires Consistent(w.ledger)
    ensures Consistent(HandleSpec(w, c, r, env).ledger)
  {
    match r
    case Login(uid) => TryAllConsistent(Greet(w, c, uid), QuietScan(w.ledger, PendingTo(uid)), env);
    case Chat(_, _, _, _, _) => ChatConsistent(w, c, r, env(0).now, env(1));
    case Ack(id) => AckedConsistent(w.ledger, id, UserState.UidOf(w.users, c), env(0).now);
    case Heartbeat =>
    case Malformed(_) =>
  }
}
