/** Runs of the deployed server in which Failed is left: by a late ACK, and by a worker that was stalled
    between its push and its mark. */
module LateFailed {
  import opened Options
  import opened Ledger
  import opened Scans
  import opened Delivery
  import opened Solo
  import opened Handlers
  import opened HandlerRuns
  import opened RetryPass
  import opened Deployment
  import opened LateMark
  import Scripts = Ledger
  import ThreadPool
  import UserState

  // ---------------------------------------------------------- a ledger with one message

  ghost predicate Lone(l: Ledger, r: Record) {
    var only := Consistent(l) && l.msgs == map[1 := r];
    only
  }

  lemma LoneScan(l: Ledger, r: Record, q: Query)
    requires Lone(l, r) && Matches(q, r)
    ensures QuietScan(l, q) == [r]
  {
    QuietScanExact(l, q);
    var rs := QuietScan(l, q);
    assert l.msgs[1] == r && r in rs;
    assert forall k :: 0 <= k < |rs| ==> rs[k].msgId == 1 && rs[k] == r;
    OnlyOne(rs, r);
  }

  lemma OnlyOne(rs: seq<Record>, r: Record)
    requires rs != [] && Distinct(rs) && forall k :: 0 <= k < |rs| ==> rs[k] == r
    ensures rs == [r]
  {
    if |rs| > 1 { SameTwice(rs, 0, 1); }
  }

  lemma SameTwice(rs: seq<Record>, i: nat, j: nat)
    requires Distinct(rs) && i < j < |rs|
    ensures rs[i] != rs[j]
  {
  }

  /** A pass over a ledger whose one message is due. */
  lemma LonePass(w: World, r: Record, now: nat, env: nat -> Tick)
    requires Lone(w.ledger, r) && Matches(Overdue(now, AckTimeoutMs), r)
    ensures Lone(Pass(w, now, env).ledger, Outcome(w.users, r, env(0))) && Pass(w, now, env).users == w.users
  {
    LoneScan(w.ledger, r, Overdue(now, AckTimeoutMs));
    PassEffect(w, now, env);
    PassConsistent(w, now, env);
    LoneReplaced(w.ledger, Pass(w, now, env).ledger, r, Outcomes(w.users, [r], env));
  }

  lemma LoneReplaced(l: Ledger, m: Ledger, r: Record, outs: seq<Record>)
    requires Lone(l, r) && Consistent(m) && |outs| == 1 && Replaces(l, m, [r], outs)
    ensures Lone(m, outs[0])
  {
    assert IdsDense(l) && 1 in l.msgs && l.msgs[1] == r;
    OneReplaced(l, m, r, outs);
  }

  lemma OneReplaced(l: Ledger, m: Ledger, r: Record, outs: seq<Record>)
    requires l.msgs == map[1 := r] && r.msgId == 1 && |outs| == 1 && Replaces(l, m, [r], outs)
    ensures m.msgs == map[1 := outs[0]]
  {
    assert [r][0].msgId in m.msgs && m.msgs[[r][0].msgId] == outs[0];
  }

  // ------------------------------------------------------------------------ one pass

  lemma PassFromSleep(w: World, now: nat) returns (n: nat, env: nat -> Tick)
    ensures Leads(Retrying(Sleeping, w), Always(Tick(now, true)), n, Retrying(Sleeping, Pass(w, now, env)))
    ensures env(0) == Tick(now, true)
  {
    var ticks := Always(Tick(now, true));
    LeadsOne(Retrying(Sleeping, w), ticks);
    var d;
    d, env := PassIsRun(w, now, Shift(ticks, 1));
    AllGivenLater(env, ticks, 1);
    assert Given(env(0), ticks);
    LeadsVia(Retrying(Sleeping, w), ticks, 1, Retrying(OverdueRead(now), w), d, Retrying(Sleeping, Pass(w, now, env)));
    n := 1 + d;
  }

  /** The message is out with its receiver, and the retry thread asleep. */
  ghost predicate Waiting(t: System, r: Record) {
    && t.retry == Sleeping && Lone(t.ledger, r)
    && r.status == Delivered && r.deliveredAt > 0 && UserState.ConnOf(t.users, r.toUid).Some?
  }

  /** What passes leave alone. */
  ghost predicate OnlyRetried(t: System, u: System) {
    u.jobs == t.jobs && u.users == t.users && u.peers == t.peers && u.retry == Sleeping
  }

  /** One pass, ten seconds after the last delivery. */
  lemma OnePass(labels: seq<Label>, t: System, c: Conn, wc: Wire, d: Conn, wd: Wire, r: Record)
      returns (all: seq<Label>, u: System, x: seq<Packet>, y: seq<Packet>)
    requires Shows(labels, t, c, wc, d, wd) && Waiting(t, r)
    ensures labels <= all && OnlyRetried(t, u)
    ensures Shows(all, u, c, wc.(sent := wc.sent + x), d, wd.(sent := wd.sent + y))
    ensures Lone(u.ledger, Outcome(t.users, r, Tick(r.deliveredAt + AckTimeoutMs, true)))
  {
    var now := r.deliveredAt + AckTimeoutMs;
    var n, env := PassFromSleep(WorldOf(t), now);
    var m := Retrying(Sleeping, Pass(WorldOf(t), now, env));
    LonePass(WorldOf(t), r, now, env);
    all, u := RetryRunsTo(labels, t, c, wc, d, wd, Always(Tick(now, true)), n, m);
    x, y := PacketsTo(m.world.sent, c), PacketsTo(m.world.sent, d);
  }

  /** The same, k retries so far. */
  lemma {:induction false} Passes(labels: seq<Label>, t: System, c: Conn, wc: Wire, d: Conn, wd: Wire, r: Record)
      returns (all: seq<Label>, u: System, x: seq<Packet>, y: seq<Packet>, q: Record)
    requires Shows(labels, t, c, wc, d, wd) && Waiting(t, r) && r.retryCount <= MaxRetryCount
    ensures labels <= all && OnlyRetried(t, u)
    ensures Shows(all, u, c, wc.(sent := wc.sent + x), d, wd.(sent := wd.sent + y))
    ensures Lone(u.ledger, q) && q.status == Failed && q.toUid == r.toUid
    decreases MaxRetryCount - r.retryCount
  {
    all, u, x, y := OnePass(labels, t, c, wc, d, wd, r);
    q := Outcome(t.users, r, Tick(r.deliveredAt + AckTimeoutMs, true));
    if r.retryCount < MaxRetryCount {
      var next, v, x', y';
      next, v, x', y', q := Passes(all, u, c, wc.(sent := wc.sent + x), d, wd.(sent := wd.sent + y), q);
      SentTwice(wc, x, x');
      SentTwice(wd, y, y');
      all, u, x, y := next, v, x + x', y + y';
    }
  }

  lemma SentTwice(w: Wire, x: seq<Packet>, y: seq<Packet>)
    ensures w.(sent := w.sent + x).(sent := w.sent + x + y) == w.(sent := w.sent + (x + y))
  {
    assert w.sent + x + y == w.sent + (x + y);
  }

  // ------------------------------------------------------------------- the late ACK

  lemma StoredLone()
    ensures Lone(Stored, Note)
    ensures Lone(Scripts.MarkDelivered(Stored, 1, 1), Note.(status := Delivered, deliveredAt := 1))
  {
    CreateConsistent(Empty, 7, 8, "hi", Cid, 1);
    DeliveredConsistent(Stored, 1, 1);
    assert Stored.msgs == map[1 := Note];
    assert Stored.msgs[1 := Note.(status := Delivered, deliveredAt := 1)] == map[1 := Note.(status := Delivered, deliveredAt := 1)];
  }

  const Out := Note.(status := Delivered, deliveredAt := 1)

  lemma MarkStep(t: System, w: nat, a: Conn)
    requires w < |t.jobs| && t.jobs[w] == TryMark([Note], Receipt(a)) && t.ledger == Stored
    ensures var u := Step(t, Work(w, 1, true));
            && u.ledger == Scripts.MarkDelivered(Stored, 1, 1) && u.jobs == t.jobs[w := Reply(Receipt(a).value)]
            && u.users == t.users && u.peers == t.peers && u.retry == t.retry
    ensures forall c :: Emits(t, Work(w, 1, true), c) == [] && Takes(t, Work(w, 1, true), c) == []
                        && Sends(t, Work(w, 1, true), c) == [] && Gets(t, Work(w, 1, true), c) == []
  {
  }

  /** The sender's worker marks its push. */
  lemma UpToMark(a: Conn, b: Conn) returns (labels: seq<Label>, t: System, wa: Wire)
    requires Apart(a, b)
    ensures Shows(labels, t, b, LoggedIn(8).(sent := [Resp, PushOf(Note, false)]), a, wa)
    ensures t.jobs[ThreadPool.Shard(b, 8)] == Idle && t.users == Both(a, b)
    ensures t.peers.Keys == {a, b} && t.peers[b] == Client(8, 0, true, [])
    ensures Waiting(t, Out)
  {
    labels, t, wa := UpToPush(a, b);
    var w, wb := ThreadPool.Shard(a, 8), LoggedIn(8).(sent := [Resp, PushOf(Note, false)]);
    MarkStep(t, w, a);
    OneStep(labels, t, b, wb, a, wa, Work(w, 1, true));
    GrowNothing(wb);
    GrowNothing(wa);
    labels, t := labels + [Work(w, 1, true)], Step(t, Work(w, 1, true));
    StoredLone();
    BothUsers(a, b);
  }

  /** And nobody answers. */
  lemma Unanswered(a: Conn, b: Conn) returns (labels: seq<Label>, t: System, x: seq<Packet>, wa: Wire, q: Record)
    requires Apart(a, b)
    ensures Shows(labels, t, b, LoggedIn(8).(sent := [Resp, PushOf(Note, false)] + x), a, wa)
    ensures t.jobs[ThreadPool.Shard(b, 8)] == Idle && t.users == Both(a, b)
    ensures t.peers.Keys == {a, b} && t.peers[b] == Client(8, 0, true, [])
    ensures Lone(t.ledger, q) && q.status == Failed && q.toUid == 8
  {
    labels, t, wa := UpToMark(a, b);
    var y;
    labels, t, x, y, q := Passes(labels, t, b, LoggedIn(8).(sent := [Resp, PushOf(Note, false)]), a, wa, Out);
    wa := wa.(sent := wa.sent + y);
  }

  lemma AckWire(x: seq<Packet>)
    ensures var wb, push := LoggedIn(8).(sent := [Resp, PushOf(Note, false)] + x), PushOf(Note, false);
            && wb.received + [push] <= wb.sent && push in wb.sent
            && Grow(wb, [Ack(1)], [], [], [push]) == AnsweredLate(x)
            && AnsweredLate(x).taken + [Ack(1)] == AnsweredLate(x).emitted
  {
    var wb, push := LoggedIn(8).(sent := [Resp, PushOf(Note, false)] + x), PushOf(Note, false);
    assert wb.sent[1] == push && wb.received + [push] == wb.sent[..2];
  }

  function AnsweredLate(x: seq<Packet>): Wire {
    Wire([Login(8), Ack(1)], [Login(8)], [Resp, PushOf(Note, false)] + x, [Resp, PushOf(Note, false)])
  }

  /** After the four passes. */
  const Late := 50000

  lemma LoneAcked(l: Ledger, q: Record)
    requires Lone(l, q) && q.toUid == 8
    ensures var m := Scripts.MarkAcked(l, 1, 8, Late); 1 in m.msgs && m.msgs[1].status == Acked
  {
  }

  /** The client on b takes the push in and acknowledges it, and the worker of b handles the ACK. */
  lemma LateAnswer(labels: seq<Label>, t: System, a: Conn, wa: Wire, b: Conn, x: seq<Packet>, q: Record)
      returns (all: seq<Label>, u: System)
    requires a != b && Shows(labels, t, b, LoggedIn(8).(sent := [Resp, PushOf(Note, false)] + x), a, wa)
    requires t.jobs[ThreadPool.Shard(b, 8)] == Idle && t.users == Both(a, b)
    requires t.peers.Keys == {a, b} && t.peers[b] == Client(8, 0, true, []) && Lone(t.ledger, q) && q.toUid == 8
    ensures labels <= all && Deployed(Eight, all) && Run(Eight, all) == u
    ensures 1 in u.ledger.msgs && u.ledger.msgs[1].status == Acked
  {
    var wb, get := LoggedIn(8).(sent := [Resp, PushOf(Note, false)] + x), ClientReceive(b, PushOf(Note, false));
    AckWire(x);
    InFlight(labels, t, b, wb, a, wa);
    ReceivingEffect(t, a, b);
    OneStep(labels, t, b, wb, a, wa, get);
    GrowNothing(wa);
    var s := Step(t, get);
    BothUsers(a, b);
    var ticks := Always(Tick(Late, true));
    var n := AckRuns(WorldOf(s), b, 1, ticks);
    var world := HandleAckSpec(WorldOf(s), b, 1, Tick(Late, true));
    all := TakeRuns(labels + [get], s, b, AnsweredLate(x), a, wa, Ack(1), ticks, n, With(Idle, world));
    u := Moved(s, ThreadPool.Shard(b, 8), With(Idle, world));
    LoneAcked(t.ledger, q);
  }

  ghost predicate StatusAfter(labels: seq<Label>, st: Status) {
    var s := Run(Eight, labels);
    1 in s.ledger.msgs && s.ledger.msgs[1].status == st
  }

  /** A late ACK takes Failed to Acked, in the deployed server. */
  lemma FailedCanBeAcked(a: Conn, b: Conn) returns (labels: seq<Label>, all: seq<Label>)
    requires Apart(a, b)
    ensures labels <= all && Deployed(Eight, all) && StatusAfter(labels, Failed) && StatusAfter(all, Acked)
  {
    var t, x, wa, q, u;
    labels, t, x, wa, q := Unanswered(a, b);
    all, u := LateAnswer(labels, t, a, wa, b, x, q);
  }

  // -------------------------------------------------------------- the stalled worker

  lemma Rewire(labels: seq<Label>, t: System, b: Conn, wb: Wire, a: Conn, wa: Wire, c: Conn) returns (wc: Wire)
    requires Shows(labels, t, b, wb, a, wa) && c !in t.peers
    ensures Shows(labels, t, c, wc, b, wb) && wc.emitted == [] && wc.taken == []
  {
    wc := WireOf(Eight, labels, c);
    SilentSoFar(labels, c);
  }

  lemma TryAllOne(w: World, r: Record, env: nat -> Tick)
    ensures TryAll(w, [r], env) == TryOne(w, r, env(0))
  {
    assert [r][..0] == [];
    assert TryAll(w, [r][..0], env) == w;
  }

  /** A second login of user 8 finds the message still Pending, pushes it and marks it. */
  lemma SecondLogin(w: World, c: Conn, env: nat -> Tick)
    requires w.ledger == Stored && UserState.MutuallyInverse(w.users) && env(0) == Tick(1, true)
    ensures var v := HandleSpec(w, c, Login(8), env);
            v.ledger == Scripts.MarkDelivered(Stored, 1, 1) && v.users == UserState.Bind(w.users, c, 8)
    ensures UserState.ConnOf(UserState.Bind(w.users, c, 8), 8) == Some(c)
  {
    StoredLone();
    LoneScan(Stored, Note, PendingTo(8));
    UserState.BindInverse(w.users, c, 8);
    TryAllOne(Greet(w, c, 8), Note, env);
    PushedAgain(Greet(w, c, 8), c);
  }

  lemma PushedAgain(g: World, c: Conn)
    requires g.ledger == Stored && UserState.ConnOf(g.users, 8) == Some(c)
    ensures var v := TryOne(g, Note, Tick(1, true)); v.ledger == Scripts.MarkDelivered(Stored, 1, 1) && v.users == g.users
  {
  }

  lemma SecondLoginRuns(w: World, c: Conn) returns (n: nat, v: World)
    requires w.ledger == Stored && UserState.MutuallyInverse(w.users)
    ensures Leads(With(LoginBind(c, 8), w), Ticking(), n, With(Idle, v))
    ensures v.ledger == Scripts.MarkDelivered(Stored, 1, 1) && UserState.ConnOf(v.users, 8) == Some(c)
  {
    StoredLone();
    var env;
    n, env := LoginRuns(w, c, 8, Ticking());
    assert Given(env(0), Ticking());
    SecondLogin(w, c, env);
    v := HandleSpec(w, c, Login(8), env);
  }

  lemma BothInverse(a: Conn, b: Conn)
    ensures UserState.MutuallyInverse(Both(a, b))
  {
    UserState.BindInverse(UserState.NoUsers, a, 7);
    UserState.BindInverse(UserState.Bind(UserState.NoUsers, a, 7), b, 8);
  }

  /** User 8 logs in once more, over connection c, while the sender's worker is stalled. */
  lemma LoginAgain(labels: seq<Label>, t: System, a: Conn, b: Conn, wb: Wire, c: Conn, wc: Wire)
      returns (all: seq<Label>, u: System, x: Wire, y: Wire)
    requires Apart(a, c) && b != c && Pushed(t, a, b) && c !in t.peers
    requires Shows(labels, t, c, wc, b, wb) && wc.emitted == [] && wc.taken == []
    ensures Shows(all, u, c, x, b, y) && Waiting(u, Out)
    ensures u.jobs[ThreadPool.Shard(a, 8)] == TryMark([Note], Receipt(a))
  {
    var next, s := OpenConnection(labels, t, c, wc, 8, 1, b, wb);
    BothInverse(a, b);
    var n, v := SecondLoginRuns(WorldOf(s), c);
    var end, wire := With(Idle, v), wc.(emitted := wc.emitted + [Login(8)]);
    assert wire.taken + [Login(8)] == wire.emitted;
    all := TakeRuns(next, s, c, wire, b, wb, Login(8), Ticking(), n, end);
    u := Moved(s, ThreadPool.Shard(c, 8), end);
    x := wire.(taken := wire.taken + [Login(8)], sent := wire.sent + PacketsTo(v.sent, c));
    y := wb.(sent := wb.sent + PacketsTo(v.sent, b));
    StoredLone();
  }

  lemma LateStep(t: System, w: nat, a: Conn, q: Record)
    requires w < |t.jobs| && t.jobs[w] == TryMark([Note], Receipt(a)) && Lone(t.ledger, q)
    ensures var u := Step(t, Work(w, Late, true)); |u.jobs| == |t.jobs| && 1 in u.ledger.msgs && u.ledger.msgs[1].status == Delivered
  {
  }

  /** A worker stalled between push and mark brings a Failed message back to Delivered, in the
      deployed server: the receiver logs in a second time meanwhile, is silent through four due passes,
      and then the worker goes on. */
  lemma FailedCanBeLeft(a: Conn, b: Conn, c: Conn) returns (labels: seq<Label>, last: Label)
    requires Apart(a, b) && Apart(a, c) && b != c
    ensures Deployed(Eight, labels + [last]) && StatusAfter(labels, Failed) && StatusAfter(labels + [last], Delivered)
  {
    var t, wa, q;
    labels, t, wa := UpToPush(a, b);
    var wb := LoggedIn(8).(sent := [Resp, PushOf(Note, false)]);
    var wc := Rewire(labels, t, b, wb, a, wa, c);
    var x, y, u, v;
    labels, t, x, y := LoginAgain(labels, t, a, b, wb, c, wc);
    labels, t, u, v, q := Passes(labels, t, c, x, b, y, Out);
    last := Work(ThreadPool.Shard(a, 8), Late, true);
    LateStep(t, ThreadPool.Shard(a, 8), a, q);
    OneStep(labels, t, c, x.(sent := x.sent + u), b, y.(sent := y.sent + v), last);
  }
}
