/** Every run of a worker that handles one request alone ends, and ends in what the handler's
    function says for the answers it was given along the way. */
module HandlerRuns {
  import opened Options
  import opened Ledger
  import opened Scans
  import opened Delivery
  import opened Solo
  import opened Handlers
  import opened RedisStore
  import Scripts = Ledger
  import UserState

  // -------------------------------------------------------------- the delivery loop

  /** One record takes one to three steps. */
  lemma TryRuns(w: World, r: Record, rest: seq<Record>, after: Option<Outgoing>, ticks: Ticks) returns (n: nat, t: Tick)
    ensures n > 0 && Leads(With(Try([r] + rest, after), w), ticks, n, With(Onward(rest, after), TryOne(w, r, t)))
    ensures Given(t, ticks)
  {
    var a := With(Try([r] + rest, after), w);
    assert ([r] + rest)[1..] == rest;
    LeadsOne(a, ticks);
    n, t := 1, ticks(0);
    GivenAt(ticks, 0, 0);
    if !(r.status == Acked || r.status == Failed) {
      LeadsNext(a, ticks, 1, Tock(a, ticks(0)));
      n := 2;
      if UserState.ConnOf(w.users, r.toUid).Some? && ticks(0).up {
        n, t := 3, Tick(ticks(2).now, ticks(0).up);
        GivenAt(ticks, 2, 0);
        SendThenMark(w, r, rest, after, ticks);
      }
    }
  }

  lemma SendThenMark(w: World, r: Record, rest: seq<Record>, after: Option<Outgoing>, ticks: Ticks)
    requires r.status != Acked && r.status != Failed && UserState.ConnOf(w.users, r.toUid).Some? && ticks(0).up
    ensures Leads(With(Try([r] + rest, after), w), ticks, 3, With(Onward(rest, after), TryOne(w, r, Tick(ticks(2).now, true))))
  {
    var a := With(Try([r] + rest, after), w);
    var target := UserState.ConnOf(w.users, r.toUid).value;
    assert ([r] + rest)[1..] == rest;
    LeadsOne(a, ticks);
    var b := With(TrySend(target, [r] + rest, after), w);
    LeadsNext(a, ticks, 1, b);
    LeadsNext(a, ticks, 2, With(TryMark([r] + rest, after), w.(sent := w.sent + [Outgoing(target, PushOf(r, false))])));
  }

  function Update(env: nat -> Tick, k: nat, t: Tick): nat -> Tick {
    (i: nat) => if i == k then t else env(i)
  }

  lemma GivenUpdate(env: Ticks, k: nat, t: Tick, ticks: Ticks)
    requires AllGiven(env, ticks) && Given(t, ticks)
    ensures AllGiven(Update(env, k, t), ticks)
  {
    forall i: nat ensures Given(Update(env, k, t)(i), ticks) { assert Given(env(i), ticks); }
  }

  lemma {:induction false} TryAllLocal(w: World, rs: seq<Record>, env: nat -> Tick, k: nat, t: Tick)
    requires |rs| <= k
    ensures TryAll(w, rs, Update(env, k, t)) == TryAll(w, rs, env)
  {
    if rs != [] { TryAllLocal(w, rs[..|rs| - 1], env, k, t); }
  }

  lemma TryAllStep(w: World, rs: seq<Record>, env: nat -> Tick, k: nat, t: Tick)
    requires k < |rs|
    ensures TryAll(w, rs[..k + 1], Update(env, k, t)) == TryOne(TryAll(w, rs[..k], env), rs[k], t)
  {
    assert rs[..k + 1][..k] == rs[..k];
    TryAllLocal(w, rs[..k], env, k, t);
  }

  lemma TryNext(start: Machine, ticks: Ticks, m: nat, v: World, r: Record, rest: seq<Record>, after: Option<Outgoing>)
      returns (n: nat, t: Tick)
    requires Leads(start, ticks, m, With(Try([r] + rest, after), v))
    ensures Leads(start, ticks, n, With(Onward(rest, after), TryOne(v, r, t)))
    ensures Given(t, ticks)
  {
    var d;
    d, t := TryRuns(v, r, rest, after, Shift(ticks, m));
    GivenLater(t, ticks, m);
    n := m + d;
    LeadsVia(start, ticks, m, With(Try([r] + rest, after), v), d, With(Onward(rest, after), TryOne(v, r, t)));
  }

  lemma {:induction false} TryAllRuns(w: World, rs: seq<Record>, after: Option<Outgoing>, ticks: Ticks, k: nat)
      returns (n: nat, env: nat -> Tick)
    requires 0 < |rs| && k <= |rs|
    ensures Leads(With(Try(rs, after), w), ticks, n, With(Onward(rs[k..], after), TryAll(w, rs[..k], env)))
    ensures AllGiven(env, ticks)
  {
    if k == 0 {
      assert rs[0..] == rs;
      n, env := 0, Always(ticks(0));
      AlwaysGiven(ticks, 0);
      LeadsSelf(With(Try(rs, after), w), ticks);
    } else {
      var m, e := TryAllRuns(w, rs, after, ticks, k - 1);
      assert rs[k - 1..] == [rs[k - 1]] + rs[k..];
      var t;
      n, t := TryNext(With(Try(rs, after), w), ticks, m, TryAll(w, rs[..k - 1], e), rs[k - 1], rs[k..], after);
      env := Update(e, k - 1, t);
      GivenUpdate(e, k - 1, t, ticks);
      TryAllStep(w, rs, e, k - 1, t);
    }
  }

  // -------------------------------------------------------------------- the queries

  lemma KeepIsKept(l: Ledger, q: Query, ids: seq<MsgId>, views: seq<Ledger>, k: nat)
    requires |views| == |ids| + 1 && (forall i :: 0 <= i < |views| ==> views[i] == l) && k < |ids|
    ensures Kept(Answers(views, ids)[..k + 1], q) == Keep(l, q, ids[k], Kept(Answers(views, ids)[..k], q))
  {
    KeptNext(Answers(views, ids), q, k);
  }

  lemma {:induction false} PendingFetchRuns(w: World, uid: Uid, ids: seq<MsgId>, views: seq<Ledger>, ticks: Ticks, k: nat)
    requires |views| == |ids| + 1 && (forall i :: 0 <= i < |views| ==> views[i] == w.ledger) && k <= |ids|
    ensures Leads(With(PendingFetch(uid, ids, []), w), ticks, k,
               With(PendingFetch(uid, ids[k..], Kept(Answers(views, ids)[..k], PendingTo(uid))), w))
  {
    if k == 0 {
      assert ids[0..] == ids && Answers(views, ids)[..0] == [];
      LeadsSelf(With(PendingFetch(uid, ids, []), w), ticks);
    } else {
      PendingFetchRuns(w, uid, ids, views, ticks, k - 1);
      KeepIsKept(w.ledger, PendingTo(uid), ids, views, k - 1);
      assert ids[k - 1..][1..] == ids[k..];
      LeadsNext(With(PendingFetch(uid, ids, []), w), ticks, k - 1,
                With(PendingFetch(uid, ids[k - 1..], Kept(Answers(views, ids)[..k - 1], PendingTo(uid))), w));
    }
  }

  lemma {:induction false} RecentFetchRuns(w: World, uid: Uid, ids: seq<MsgId>, views: seq<Ledger>, ticks: Ticks, k: nat)
    requires |views| == |ids| + 1 && (forall i :: 0 <= i < |views| ==> views[i] == w.ledger) && k <= |ids|
    ensures Leads(With(RecentFetch(uid, ids, []), w), ticks, k,
               With(RecentFetch(uid, ids[k..], Kept(Answers(views, ids)[..k], RecentOf(uid))), w))
  {
    if k == 0 {
      assert ids[0..] == ids && Answers(views, ids)[..0] == [];
      LeadsSelf(With(RecentFetch(uid, ids, []), w), ticks);
    } else {
      RecentFetchRuns(w, uid, ids, views, ticks, k - 1);
      KeepIsKept(w.ledger, RecentOf(uid), ids, views, k - 1);
      assert ids[k - 1..][1..] == ids[k..];
      LeadsNext(With(RecentFetch(uid, ids, []), w), ticks, k - 1,
                With(RecentFetch(uid, ids[k - 1..], Kept(Answers(views, ids)[..k - 1], RecentOf(uid))), w));
    }
  }

  lemma {:induction false} RecentSendRuns(w: World, target: Conn, rs: seq<Record>, ticks: Ticks, k: nat)
    requires k <= |rs|
    ensures Leads(With(RecentSend(target, rs), w), ticks, k,
               With(RecentSend(target, rs[k..]), w.(sent := w.sent + PushAll(target, rs[..k], true))))
  {
    if k == 0 {
      assert rs[0..] == rs && w.sent + PushAll(target, rs[..0], true) == w.sent;
      LeadsSelf(With(RecentSend(target, rs), w), ticks);
    } else {
      RecentSendRuns(w, target, rs, ticks, k - 1);
      assert rs[k - 1..][1..] == rs[k..];
      assert w.sent + PushAll(target, rs[..k - 1], true) + [Outgoing(target, PushOf(rs[k - 1], true))]
          == w.sent + PushAll(target, rs[..k], true);
      LeadsNext(With(RecentSend(target, rs), w), ticks, k - 1,
                With(RecentSend(target, rs[k - 1..]), w.(sent := w.sent + PushAll(target, rs[..k - 1], true))));
    }
  }

  lemma PendingLoopRuns(w: World, uid: Uid, ticks: Ticks)
    ensures var ids, rs := Listed(w.ledger, PendingTo(uid)), QuietScan(w.ledger, PendingTo(uid));
            Leads(With(PendingFetch(uid, ids, []), w), ticks, |ids| + 1,
                  With(if rs == [] then RecentRead(uid) else Try(rs, None), w))
  {
    var ids, views := Listed(w.ledger, PendingTo(uid)), Still(w.ledger, PendingTo(uid));
    PendingFetchRuns(w, uid, ids, views, ticks, |ids|);
    assert ids[|ids|..] == [] && Answers(views, ids)[..|ids|] == Answers(views, ids);
    LeadsNext(With(PendingFetch(uid, ids, []), w), ticks, |ids|,
              With(PendingFetch(uid, [], QuietScan(w.ledger, PendingTo(uid))), w));
  }

  lemma ReadPending(w: World, uid: Uid, ticks: Ticks)
    ensures Leads(With(PendingRead(uid), w), ticks, 1, With(PendingFetch(uid, Listed(w.ledger, PendingTo(uid)), []), w))
  {
    LeadsOne(With(PendingRead(uid), w), ticks);
  }

  /** From the index read to the list the loop works on. */
  lemma PendingRuns(w: World, uid: Uid, ticks: Ticks) returns (n: nat)
    ensures var rs := QuietScan(w.ledger, PendingTo(uid));
            Leads(With(PendingRead(uid), w), ticks, n, With(if rs == [] then RecentRead(uid) else Try(rs, None), w))
  {
    var ids, rs := Listed(w.ledger, PendingTo(uid)), QuietScan(w.ledger, PendingTo(uid));
    ReadPending(w, uid, ticks);
    PendingLoopRuns(w, uid, Shift(ticks, 1));
    LeadsVia(With(PendingRead(uid), w), ticks, 1, With(PendingFetch(uid, ids, []), w), |ids| + 1,
             With(if rs == [] then RecentRead(uid) else Try(rs, None), w));
    n := |ids| + 2;
  }

  lemma RecentLoopRuns(w: World, uid: Uid, ids: seq<MsgId>, views: seq<Ledger>, ticks: Ticks)
    requires |views| == |ids| + 1 && forall i :: 0 <= i < |views| ==> views[i] == w.ledger
    ensures Leads(With(RecentFetch(uid, ids, []), w), ticks, |ids| + 1,
               With(RecentFind(uid, Reverse(Kept(Answers(views, ids), RecentOf(uid)))), w))
  {
    RecentFetchRuns(w, uid, ids, views, ticks, |ids|);
    assert ids[|ids|..] == [] && Answers(views, ids)[..|ids|] == Answers(views, ids);
    LeadsNext(With(RecentFetch(uid, ids, []), w), ticks, |ids|,
              With(RecentFetch(uid, [], Kept(Answers(views, ids), RecentOf(uid))), w));
  }

  lemma ReadIndex(w: World, uid: Uid, ticks: Ticks)
    ensures Leads(With(RecentRead(uid), w), ticks, 1,
                  With(RecentFetch(uid, Newest(w.ledger, uid, LoginRecentLimit), []), w))
  {
    LeadsOne(With(RecentRead(uid), w), ticks);
  }

  lemma RecentScanRuns(w: World, uid: Uid, ids: seq<MsgId>, views: seq<Ledger>, ticks: Ticks)
    requires ids == Newest(w.ledger, uid, LoginRecentLimit)
    requires |views| == |ids| + 1 && forall i :: 0 <= i < |views| ==> views[i] == w.ledger
    ensures Leads(With(RecentRead(uid), w), ticks, |ids| + 2,
                  With(RecentFind(uid, Reverse(Kept(Answers(views, ids), RecentOf(uid)))), w))
  {
    ReadIndex(w, uid, ticks);
    RecentLoopRuns(w, uid, ids, views, Shift(ticks, 1));
    LeadsVia(With(RecentRead(uid), w), ticks, 1, With(RecentFetch(uid, ids, []), w), |ids| + 1,
             With(RecentFind(uid, Reverse(Kept(Answers(views, ids), RecentOf(uid)))), w));
  }

  lemma ShowRunsFrom(w: World, uid: Uid, rs: seq<Record>, ticks: Ticks, m: nat) returns (n: nat, up: bool)
    requires Leads(With(RecentRead(uid), w), ticks, m, With(RecentFind(uid, rs), w))
    ensures Leads(With(RecentRead(uid), w), ticks, n, With(Idle, Show(w, uid, rs, up)))
    ensures exists i: nat :: ticks(i).up == up
  {
    var d := RecentFindRuns(w, uid, rs, Shift(ticks, m));
    up := Shift(ticks, m)(0).up;
    assert ticks(m).up == up;
    n := m + d;
    LeadsVia(With(RecentRead(uid), w), ticks, m, With(RecentFind(uid, rs), w), d, With(Idle, Show(w, uid, rs, up)));
  }

  lemma RecentFindRuns(w: World, uid: Uid, rs: seq<Record>, ticks: Ticks) returns (n: nat)
    ensures Leads(With(RecentFind(uid, rs), w), ticks, n, With(Idle, Show(w, uid, rs, ticks(0).up)))
  {
    var a, target := With(RecentFind(uid, rs), w), UserState.ConnOf(w.users, uid);
    LeadsOne(a, ticks);
    n := 1;
    if target.Some? && ticks(0).up {
      RecentSendRuns(w, target.value, rs, Shift(ticks, 1), |rs|);
      assert rs[|rs|..] == [] && rs[..|rs|] == rs;
      var b := With(RecentSend(target.value, []), Show(w, uid, rs, true));
      LeadsVia(a, ticks, 1, With(RecentSend(target.value, rs), w), |rs|, b);
      LeadsNext(a, ticks, |rs| + 1, b);
      n := |rs| + 2;
    }
  }

  lemma ShowRecentRuns(w: World, uid: Uid, ticks: Ticks) returns (n: nat, up: bool)
    requires Consistent(w.ledger) && uid != 0
    ensures Leads(With(RecentRead(uid), w), ticks, n, With(Idle, ShowRecent(w, uid, up)))
    ensures exists i: nat :: ticks(i).up == up
  {
    var ids := Newest(w.ledger, uid, LoginRecentLimit);
    var views := Repeat(w.ledger, |ids| + 1);
    QuietRecentScan(w.ledger, uid, LoginRecentLimit, views);
    RecentScanRuns(w, uid, ids, views, ticks);
    n, up := ShowRunsFrom(w, uid, Reverse(Kept(Answers(views, ids), RecentOf(uid))), ticks, |ids| + 2);
  }

  // ------------------------------------------------------------------- the handlers

  lemma DeliverLoginRuns(w: World, uid: Uid, ticks: Ticks) returns (n: nat, env: nat -> Tick)
    requires Consistent(w.ledger) && uid != 0
    ensures Leads(With(PendingRead(uid), w), ticks, n, With(Idle, DeliverLogin(w, uid, env)))
    ensures AllGiven(env, ticks)
  {
    var m := PendingRuns(w, uid, ticks);
    if QuietScan(w.ledger, PendingTo(uid)) == [] {
      var d, up := ShowRecentRuns(w, uid, Shift(ticks, m));
      n, env := m + d, (i: nat) => Tick(ticks(0).now, up);
      ShownGiven(ticks, m, up, env);
      LeadsVia(With(PendingRead(uid), w), ticks, m, With(RecentRead(uid), w), d, With(Idle, ShowRecent(w, uid, up)));
    } else {
      n, env := DeliverBatch(With(PendingRead(uid), w), w, QuietScan(w.ledger, PendingTo(uid)), ticks, m);
    }
  }

  lemma ShownGiven(ticks: Ticks, m: nat, up: bool, env: Ticks)
    requires (exists i: nat :: Shift(ticks, m)(i).up == up) && forall k: nat :: env(k) == Tick(ticks(0).now, up)
    ensures AllGiven(env, ticks)
  {
    var i: nat :| Shift(ticks, m)(i).up == up;
    forall k: nat ensures Given(env(k), ticks) { GivenAt(ticks, 0, m + i); }
  }

  lemma DeliverBatch(start: Machine, w: World, rs: seq<Record>, ticks: Ticks, m: nat) returns (n: nat, env: nat -> Tick)
    requires rs != [] && Leads(start, ticks, m, With(Try(rs, None), w))
    ensures Leads(start, ticks, n, With(Idle, TryAll(w, rs, env)))
    ensures AllGiven(env, ticks)
  {
    var d;
    d, env := TryAllRuns(w, rs, None, Shift(ticks, m), |rs|);
    AllGivenLater(env, ticks, m);
    assert rs[|rs|..] == [] && rs[..|rs|] == rs;
    n := m + d;
    LeadsVia(start, ticks, m, With(Try(rs, None), w), d, With(Idle, TryAll(w, rs, env)));
  }

  lemma GreetRuns(w: World, c: Conn, uid: Uid, ticks: Ticks)
    ensures Leads(With(LoginBind(c, uid), w), ticks, 2, With(if uid != 0 then PendingRead(uid) else Idle, Greet(w, c, uid)))
  {
    var a := With(LoginBind(c, uid), w);
    LeadsOne(a, ticks);
    LeadsNext(a, ticks, 1, Tock(a, ticks(0)));
  }

  lemma LoginRuns(w: World, c: Conn, uid: Uid, ticks: Ticks) returns (n: nat, env: nat -> Tick)
    requires Consistent(w.ledger)
    ensures Leads(With(LoginBind(c, uid), w), ticks, n, With(Idle, HandleSpec(w, c, Login(uid), env)))
    ensures AllGiven(env, ticks)
  {
    GreetRuns(w, c, uid, ticks);
    n, env := 2, Always(ticks(0));
    AlwaysGiven(ticks, 0);
    if uid != 0 {
      var d;
      d, env := DeliverLoginRuns(Greet(w, c, uid), uid, Shift(ticks, 2));
      AllGivenLater(env, ticks, 2);
      LeadsVia(With(LoginBind(c, uid), w), ticks, 2, With(PendingRead(uid), Greet(w, c, uid)), d,
               With(Idle, DeliverLogin(Greet(w, c, uid), uid, env)));
      n := 2 + d;
    }
  }

  lemma ReplyRuns(w: World, o: Outgoing, ticks: Ticks)
    ensures Leads(With(Reply(o), w), ticks, 1, With(Idle, w.(sent := w.sent + [o])))
  {
    LeadsOne(With(Reply(o), w), ticks);
  }

  lemma DeliverThenReply(v: World, r: Record, ack: Outgoing, ticks: Ticks) returns (n: nat, t: Tick)
    ensures var x := TryOne(v, r, t);
            Leads(With(Try([r], Some(ack)), v), ticks, n, With(Idle, x.(sent := x.sent + [ack])))
    ensures Given(t, ticks)
  {
    var a := With(Try([r], Some(ack)), v);
    assert [r] + [] == [r];
    var m;
    m, t := TryRuns(v, r, [], Some(ack), ticks);
    var x := TryOne(v, r, t);
    ReplyRuns(x, ack, Shift(ticks, m));
    n := m + 1;
    LeadsVia(a, ticks, m, With(Reply(ack), x), 1, With(Idle, x.(sent := x.sent + [ack])));
  }

  lemma CreateStep(w: World, c: Conn, r: Request, ticks: Ticks) returns (made: CreateResult, ack: Outgoing)
    requires r.Chat?
    ensures made == Create(w.ledger, r.from, r.to, r.content, r.clientMsgId, ticks(0).now)
    ensures ack == Outgoing(c, ServerAck(r.seqNo, made.record.msgId, true))
    ensures Leads(With(ChatCreate(c, r), w), ticks, 1,
                  With(if made.created then Try([made.record], Some(ack)) else Reply(ack), w.(ledger := made.ledger)))
  {
    made := Create(w.ledger, r.from, r.to, r.content, r.clientMsgId, ticks(0).now);
    ack := Outgoing(c, ServerAck(r.seqNo, made.record.msgId, true));
    LeadsOne(With(ChatCreate(c, r), w), ticks);
  }

  /** After the create: deliver and acknowledge, or only acknowledge. */
  lemma FinishRuns(v: World, made: CreateResult, ack: Outgoing, ticks: Ticks) returns (d: nat, t: Tick)
    ensures var x := if made.created then TryOne(v, made.record, t) else v;
            Leads(With(if made.created then Try([made.record], Some(ack)) else Reply(ack), v), ticks, d,
                  With(Idle, x.(sent := x.sent + [ack])))
    ensures Given(t, ticks)
  {
    if made.created {
      d, t := DeliverThenReply(v, made.record, ack, ticks);
    } else {
      ReplyRuns(v, ack, ticks);
      d, t := 1, ticks(0);
      GivenAt(ticks, 0, 0);
    }
  }

  lemma CreateRuns(w: World, c: Conn, r: Request, ticks: Ticks) returns (n: nat, t: Tick)
    requires r.Chat? && UserState.UidOf(w.users, c) == r.from != 0
    ensures Leads(With(ChatCreate(c, r), w), ticks, n, With(Idle, HandleChatSpec(w, c, r, ticks(0).now, t)))
    ensures Given(t, ticks)
  {
    var made, ack := CreateStep(w, c, r, ticks);
    var v, d := w.(ledger := made.ledger), 0;
    d, t := FinishRuns(v, made, ack, Shift(ticks, 1));
    GivenLater(t, ticks, 1);
    n := 1 + d;
    LeadsVia(With(ChatCreate(c, r), w), ticks, 1,
             With(if made.created then Try([made.record], Some(ack)) else Reply(ack), v), d,
             With(Idle, HandleChatSpec(w, c, r, ticks(0).now, t)));
  }

  lemma RefuseRuns(w: World, c: Conn, r: Request, ticks: Ticks, t: Tick)
    requires r.Chat? && (UserState.UidOf(w.users, c) == 0 || r.from != UserState.UidOf(w.users, c))
    ensures Leads(With(ChatCheck(c, r), w), ticks, 2, With(Idle, HandleChatSpec(w, c, r, t.now, t)))
  {
    var a, no := With(ChatCheck(c, r), w), Outgoing(c, ServerAck(r.seqNo, 0, false));
    LeadsOne(a, ticks);
    ReplyRuns(w, no, Shift(ticks, 1));
    LeadsVia(a, ticks, 1, With(Reply(no), w), 1, With(Idle, Reject(w, c, r.seqNo)));
  }

  lemma AdmitRuns(w: World, c: Conn, r: Request, ticks: Ticks) returns (n: nat, created: nat, t: Tick)
    requires r.Chat? && UserState.UidOf(w.users, c) == r.from != 0
    ensures Leads(With(ChatCheck(c, r), w), ticks, n, With(Idle, HandleChatSpec(w, c, r, created, t)))
    ensures created == ticks(1).now && Given(t, ticks)
  {
    var a := With(ChatCheck(c, r), w);
    LeadsOne(a, ticks);
    var d;
    d, t := CreateRuns(w, c, r, Shift(ticks, 1));
    GivenLater(t, ticks, 1);
    created := Shift(ticks, 1)(0).now;
    n := 1 + d;
    LeadsVia(a, ticks, 1, With(ChatCreate(c, r), w), d, With(Idle, HandleChatSpec(w, c, r, created, t)));
  }

  lemma ChatRuns(w: World, c: Conn, r: Request, ticks: Ticks) returns (n: nat, env: nat -> Tick)
    requires r.Chat?
    ensures Leads(With(ChatCheck(c, r), w), ticks, n, With(Idle, HandleChatSpec(w, c, r, env(0).now, env(1))))
    ensures AllGiven(env, ticks)
  {
    var uid := UserState.UidOf(w.users, c);
    if uid == 0 || r.from != uid {
      RefuseRuns(w, c, r, ticks, ticks(1));
      n, env := 2, (i: nat) => ticks(1);
      GivenTwo(ticks, 1, ticks(1), env);
    } else {
      var created, t;
      n, created, t := AdmitRuns(w, c, r, ticks);
      env := (i: nat) => if i == 0 then ticks(1) else t;
      GivenTwo(ticks, 1, t, env);
    }
  }

  lemma GivenTwo(ticks: Ticks, i: nat, t: Tick, env: Ticks)
    requires (t == ticks(i) || Given(t, ticks)) && forall k: nat :: env(k) == ticks(i) || env(k) == t
    ensures AllGiven(env, ticks)
  {
    GivenAt(ticks, i, i);
    forall k: nat ensures Given(env(k), ticks) { assert env(k) == ticks(i) || env(k) == t; }
  }

  lemma AckRuns(w: World, c: Conn, id: MsgId, ticks: Ticks) returns (n: nat)
    ensures Leads(With(Start(c, Ack(id)), w), ticks, n, With(Idle, HandleAckSpec(w, c, id, ticks(1))))
  {
    var a := With(Start(c, Ack(id)), w);
    n := 0;
    LeadsSelf(a, ticks);
    if id != 0 {
      LeadsOne(a, ticks);
      LeadsNext(a, ticks, 1, Tock(a, ticks(0)));
      n := 2;
    }
  }

  lemma AckEnds(w: World, c: Conn, id: MsgId, ticks: Ticks) returns (n: nat, env: nat -> Tick)
    ensures Leads(With(Start(c, Ack(id)), w), ticks, n, With(Idle, HandleAckSpec(w, c, id, env(0))))
    ensures AllGiven(env, ticks)
  {
    n := AckRuns(w, c, id, ticks);
    env := (i: nat) => ticks(1);
    GivenTwo(ticks, 1, ticks(1), env);
  }

  lemma {:induction false} IdleStays(a: Machine, ticks: Ticks, n: nat, w: World, k: nat)
    requires Leads(a, ticks, n, With(Idle, w)) && n <= k
    ensures Leads(a, ticks, k, With(Idle, w))
    decreases k
  {
    if n < k {
      IdleStays(a, ticks, n, w, k - 1);
      LeadsNext(a, ticks, k - 1, With(Idle, w));
    }
  }

  lemma HandlerEnds(w: World, c: Conn, r: Request, ticks: Ticks) returns (n: nat, env: nat -> Tick)
    requires Consistent(w.ledger)
    ensures Leads(With(Start(c, r), w), ticks, n, With(Idle, HandleSpec(w, c, r, env)))
    ensures AllGiven(env, ticks)
  {
    AlwaysGiven(ticks, 0);
    match r
    case Login(uid) => n, env := LoginRuns(w, c, uid, ticks);
    case Chat(_, _, _, _, _) => n, env := ChatRuns(w, c, r, ticks);
    case Ack(id) => n, env := AckEnds(w, c, id, ticks);
    case Heartbeat =>
      n, env := 0, Always(ticks(0));
      LeadsSelf(With(Idle, w), ticks);
    case Malformed(m) =>
      ReplyRuns(w, Outgoing(c, ServerAck(m, 0, false)), ticks);
      n, env := 1, Always(ticks(0));
  }

  /** Whatever the clock and connected() answer, a worker that handles a request alone becomes idle
      and stays so, and the world is then what the handler's function says for answers among these. */
  lemma HandlerIsRun(w: World, c: Conn, r: Request, ticks: Ticks) returns (n: nat, env: nat -> Tick)
    requires Consistent(w.ledger)
    ensures AllGiven(env, ticks)
    ensures forall k :: n <= k ==> Leads(With(Start(c, r), w), ticks, k, With(Idle, HandleSpec(w, c, r, env)))
  {
    n, env := HandlerEnds(w, c, r, ticks);
    forall k | n <= k ensures Leads(With(Start(c, r), w), ticks, k, With(Idle, HandleSpec(w, c, r, env))) {
      IdleStays(With(Start(c, r), w), ticks, n, HandleSpec(w, c, r, env), k);
    }
  }

  /** So every such run that has ended, ended there. */
  lemma EndedRun(w: World, c: Conn, r: Request, ticks: Ticks, k: nat, v: World) returns (env: nat -> Tick)
    requires Consistent(w.ledger) && Leads(With(Start(c, r), w), ticks, k, With(Idle, v))
    ensures v == HandleSpec(w, c, r, env)
    ensures AllGiven(env, ticks)
  {
    var n;
    n, env := HandlerEnds(w, c, r, ticks);
    var a, x := With(Start(c, r), w), HandleSpec(w, c, r, env);
    var end := if n <= k then k else n;
    IdleStays(a, ticks, n, x, end);
    IdleStays(a, ticks, k, v, end);
    LeadsUnique(a, ticks, end, With(Idle, x), With(Idle, v));
  }

  /** A login run alone over a connection that stays up, in the transition system itself: whenever
      it has ended, it has pushed exactly the user's pending list in (created_at, decimal id)
      order, and the user's pending index is empty. */
  lemma LoginRunDelivers(w: World, c: Conn, uid: Uid, ticks: Ticks, k: nat, v: World)
    requires Consistent(w.ledger) && UserState.MutuallyInverse(w.users) && uid != 0 && AlwaysUp(ticks)
    requires Leads(With(Start(c, Login(uid)), w), ticks, k, With(Idle, v))
    ensures var rs := QuietScan(w.ledger, PendingTo(uid));
            && ExactlySorted(w.ledger, PendingTo(uid), rs)
            && Scripts.At(v.ledger.pending, uid) == map[]
            && v.sent == w.sent + [Outgoing(c, LoginResp(true))]
                         + if rs != [] then PushAll(c, rs, false)
                           else PushAll(c, QuietRecent(w.ledger, uid, LoginRecentLimit), true)
  {
    var env := EndedRun(w, c, Login(uid), ticks, k, v);
    QuietScanExact(w.ledger, PendingTo(uid));
    GivenUp(env, ticks);
    LoginEmptiesPending(w, c, uid, env);
  }
}
