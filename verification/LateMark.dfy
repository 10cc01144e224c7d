/** A run of the deployed server in which Acked is left again. */
module LateMark {
  import opened Options
  import opened Ledger
  import opened Scans
  import opened Delivery
  import opened Solo
  import opened Handlers
  import opened HandlerRuns
  import opened Deployment
  import ThreadPool
  import UserState

  // ------------------------------------------------------------------------ the run

  /** Connection a is the sender's, user 7; connection b is the receiver's, user 8; their keys hash
      to different workers. */
  predicate Apart(a: Conn, b: Conn) {
    ThreadPool.Shard(a, 8) != ThreadPool.Shard(b, 8)
  }

  lemma NothingThere(q: Query)
    ensures QuietScan(Empty, q) == []
  {
    QuietScanExact(Empty, q);
    if QuietScan(Empty, q) != [] { assert false; }
  }

  /** A login when there are no messages at all. */
  lemma FirstLogin(users: UserState.Table, c: Conn, uid: Uid, ticks: Ticks) returns (n: nat)
    requires uid != 0
    ensures Leads(With(LoginBind(c, uid), World(Empty, users, [])), ticks, n,
                  With(Idle, World(Empty, UserState.Bind(users, c, uid), [Outgoing(c, LoginResp(true))])))
  {
    var env;
    n, env := LoginRuns(World(Empty, users, []), c, uid, ticks);
    NothingThere(PendingTo(uid));
    NothingThere(RecentOf(uid));
    var sent := [Outgoing(c, LoginResp(true))];
    assert [] + sent == sent;
    forall target: Conn ensures sent + PushAll(target, [], true) == sent {}
  }

  lemma OnePacket(o: Outgoing, c: Conn)
    ensures PacketsTo([o], c) == if o.conn == c then [o.packet] else []
  {
    assert [o][..0] == [];
  }

  const Resp := LoginResp(true)

  function Ticking(): Ticks { (i: nat) => Tick(1, true) }

  /** No message yet, every worker idle, both peers C++ clients. */
  ghost predicate Quiet(t: System, users: UserState.Table, a: Conn, okA: bool, b: Conn, okB: bool) {
    && |t.jobs| == 8 && (forall w :: 0 <= w < 8 ==> t.jobs[w] == Idle)
    && t.ledger == Empty && t.users == users && t.retry == Sleeping && t.peers.Keys == {a, b}
    && a in t.peers && t.peers[a] == Client(7, 0, okA, []) && b in t.peers && t.peers[b] == Client(8, 0, okB, [])
  }

  lemma Connecting(a: Conn, b: Conn) returns (labels: seq<Label>, t: System)
    requires a != b
    ensures Quiet(t, UserState.NoUsers, a, false, b, false) && t.calls == map[]
    ensures Shows(labels, t, a, Wire([Login(7)], [], [], []), b, Wire([Login(8)], [], [], []))
  {
    var none := Wire([], [], [], []);
    assert Shows([], Eight, a, none, b, none);
    labels, t := OpenConnection([], Eight, a, none, 7, 0, b, none);
    assert [] + [Login(7)] == [Login(7)] && [] + [Login(8)] == [Login(8)];
    Swap(labels, t, a, Wire([Login(7)], [], [], []), b, none);
    labels, t := OpenConnection(labels, t, b, none, 8, 0, a, Wire([Login(7)], [], [], []));
    Swap(labels, t, b, Wire([Login(8)], [], [], []), a, Wire([Login(7)], [], [], []));
  }

  /** The worker of c handles the login of c. */
  lemma LoggingIn(labels: seq<Label>, t: System, c: Conn, uid: Uid, d: Conn, wd: Wire) returns (all: seq<Label>, u: System)
    requires c != d && uid != 0 && Shows(labels, t, c, Wire([Login(uid)], [], [], []), d, wd)
    requires t.ledger == Empty && t.jobs[ThreadPool.Shard(c, 8)] == Idle
    ensures u.jobs == t.jobs && u.ledger == Empty && u.users == UserState.Bind(t.users, c, uid)
    ensures u.calls == t.calls && u.peers == t.peers && u.retry == t.retry
    ensures Shows(all, u, c, Wire([Login(uid)], [Login(uid)], [Resp], []), d, wd)
  {
    var wc := Wire([Login(uid)], [], [], []);
    var n := FirstLogin(t.users, c, uid, Ticking());
    var end := With(Idle, World(Empty, UserState.Bind(t.users, c, uid), [Outgoing(c, Resp)]));
    assert wc.taken + [Login(uid)] == wc.emitted;
    all := TakeRuns(labels, t, c, wc, d, wd, Login(uid), Ticking(), n, end);
    u := Moved(t, ThreadPool.Shard(c, 8), end);
    OnePacket(Outgoing(c, Resp), c);
    OnePacket(Outgoing(c, Resp), d);
    LoginWires(Login(uid), wd);
    SameJobs(t.jobs, ThreadPool.Shard(c, 8));
  }

  lemma LoginWires(r: Request, wd: Wire)
    ensures Wire([r], [] + [r], [] + [Resp], []) == Wire([r], [r], [Resp], []) && wd.(sent := wd.sent + []) == wd
  {
  }

  lemma SameJobs(jobs: seq<Job>, w: nat)
    requires w < |jobs| && jobs[w] == Idle
    ensures jobs[w := Idle] == jobs
  {
  }

  /** The client on c hears that it is logged in. */
  lemma HearingBack(labels: seq<Label>, t: System, c: Conn, r: Request, d: Conn, wd: Wire) returns (all: seq<Label>, u: System)
    requires c != d && Shows(labels, t, c, Wire([r], [r], [Resp], []), d, wd)
    requires c in t.peers && t.peers[c].Client?
    ensures u == t.(peers := t.peers[c := t.peers[c].(loginOk := true)])
    ensures Shows(all, u, c, Wire([r], [r], [Resp], [Resp]), d, wd)
  {
    var wc, a := Wire([r], [r], [Resp], []), ClientReceive(c, Resp);
    InFlight(labels, t, c, wc, d, wd);
    assert wc.received + [Resp] == wc.sent;
    HearingEffect(t, c, d);
    OneStep(labels, t, c, wc, d, wd, a);
    all, u := labels + [a], Step(t, a);
    HearingWires(r, wd);
  }

  lemma HearingEffect(t: System, c: Conn, d: Conn)
    requires c != d && c in t.peers && t.peers[c].Client? && (c, Resp) in t.toClient
    ensures var x := ClientReceive(c, Resp);
            && Step(t, x) == t.(peers := t.peers[c := t.peers[c].(loginOk := true)])
            && Emits(t, x, c) == [] && Takes(t, x, c) == [] && Sends(t, x, c) == [] && Gets(t, x, c) == [Resp]
            && Emits(t, x, d) == [] && Takes(t, x, d) == [] && Sends(t, x, d) == [] && Gets(t, x, d) == []
  {
    assert t.toServer + {} == t.toServer;
  }

  lemma HearingWires(r: Request, wd: Wire)
    ensures Grow(Wire([r], [r], [Resp], []), [], [], [], [Resp]) == Wire([r], [r], [Resp], [Resp])
    ensures Grow(wd, [], [], [], []) == wd
  {
  }

  function Both(a: Conn, b: Conn): UserState.Table {
    UserState.Bind(UserState.Bind(UserState.NoUsers, a, 7), b, 8)
  }

  function LoggedIn(uid: Uid): Wire {
    Wire([Login(uid)], [Login(uid)], [Resp], [Resp])
  }

  /** The login of c is handled and answered. */
  lemma LoginAnswered(labels: seq<Label>, t: System, c: Conn, uid: Uid, d: Conn, wd: Wire) returns (all: seq<Label>, u: System)
    requires c != d && uid != 0 && Shows(labels, t, c, Wire([Login(uid)], [], [], []), d, wd)
    requires t.ledger == Empty && t.jobs[ThreadPool.Shard(c, 8)] == Idle && c in t.peers && t.peers[c].Client?
    ensures u.jobs == t.jobs && u.ledger == Empty && u.users == UserState.Bind(t.users, c, uid)
    ensures u.calls == t.calls && u.retry == t.retry && u.peers == t.peers[c := t.peers[c].(loginOk := true)]
    ensures Shows(all, u, c, LoggedIn(uid), d, wd)
  {
    all, u := LoggingIn(labels, t, c, uid, d, wd);
    all, u := HearingBack(all, u, c, Login(uid), d, wd);
  }

  /** Nothing else has changed. */
  lemma StillQuiet(t: System, u: System, users: UserState.Table, a: Conn, b: Conn)
    requires a != b && Quiet(t, users, a, false, b, false) && u.peers == t.peers[a := t.peers[a].(loginOk := true)]
    requires u.jobs == t.jobs && u.ledger == t.ledger && u.retry == t.retry
    ensures Quiet(u, u.users, a, true, b, false)
  {
    assert u.peers.Keys == {a, b};
  }

  /** Both are connected, user 7 is logged in and knows it. */
  lemma OneLoggedIn(a: Conn, b: Conn) returns (labels: seq<Label>, t: System)
    requires a != b
    ensures Quiet(t, UserState.Bind(UserState.NoUsers, a, 7), a, true, b, false) && t.calls == map[]
    ensures Shows(labels, t, b, Wire([Login(8)], [], [], []), a, LoggedIn(7))
  {
    var wb := Wire([Login(8)], [], [], []);
    labels, t := Connecting(a, b);
    var before := t;
    labels, t := LoginAnswered(labels, t, a, 7, b, wb);
    StillQuiet(before, t, UserState.NoUsers, a, b);
    Swap(labels, t, a, LoggedIn(7), b, wb);
  }

  /** Both users are logged in and know it. */
  lemma BothLoggedIn(a: Conn, b: Conn) returns (labels: seq<Label>, t: System)
    requires a != b
    ensures Quiet(t, Both(a, b), a, true, b, true) && t.calls == map[]
    ensures Shows(labels, t, a, LoggedIn(7), b, LoggedIn(8))
  {
    labels, t := OneLoggedIn(a, b);
    labels, t := LoginAnswered(labels, t, b, 8, a, LoggedIn(7));
    Swap(labels, t, b, LoggedIn(8), a, LoggedIn(7));
  }

  const Cid := ClientMsgId(7, 1, 1)
  const Hello := Chat(2, 7, 8, "hi", Cid)
  const Note := Fresh(1, 7, 8, "hi", Cid, 1)
  const Stored := Create(Empty, 7, 8, "hi", Cid, 1).ledger

  lemma BothUsers(a: Conn, b: Conn)
    requires a != b
    ensures var users := Both(a, b);
            UserState.UidOf(users, a) == 7 && UserState.UidOf(users, b) == 8 && UserState.ConnOf(users, 8) == Some(b)
  {
    UserState.BindInverse(UserState.NoUsers, a, 7);
    UserState.BindInverse(UserState.Bind(UserState.NoUsers, a, 7), b, 8);
  }

  /** User 7 sends a message to user 8. */
  lemma Sending(labels: seq<Label>, t: System, a: Conn, b: Conn) returns (all: seq<Label>, u: System)
    requires a != b && Quiet(t, Both(a, b), a, true, b, true) && t.calls == map[]
    requires Shows(labels, t, a, LoggedIn(7), b, LoggedIn(8))
    ensures Quiet(u, Both(a, b), a, true, b, true)
    ensures Shows(all, u, a, LoggedIn(7).(emitted := [Login(7), Hello]), b, LoggedIn(8))
  {
    var x := SendMessage(a, 2, 1, 1, 8, "hi");
    assert Chats(t, x);
    OneStep(labels, t, a, LoggedIn(7), b, LoggedIn(8), x);
    all, u := labels + [x], Step(t, x);
    assert Grow(LoggedIn(7), [Hello], [], [], []) == LoggedIn(7).(emitted := [Login(7), Hello]);
    assert Grow(LoggedIn(8), [], [], [], []) == LoggedIn(8);
  }

  function Receipt(a: Conn): Option<Outgoing> {
    Some(Outgoing(a, ServerAck(2, 1, true)))
  }

  /** Four steps of handleChat: check, create, look the receiver up, push. */
  lemma PushSteps(users: UserState.Table, a: Conn, b: Conn)
    requires UserState.UidOf(users, a) == 7 && UserState.ConnOf(users, 8) == Some(b)
    ensures Leads(With(ChatCheck(a, Hello), World(Empty, users, [])), Ticking(), 4,
                  With(TryMark([Note], Receipt(a)), World(Stored, users, [Outgoing(b, PushOf(Note, false))])))
  {
    var w, v := World(Empty, users, []), World(Stored, users, []);
    var start := With(ChatCheck(a, Hello), w);
    LeadsOne(start, Ticking());
    LeadsNext(start, Ticking(), 1, With(ChatCreate(a, Hello), w));
    LeadsNext(start, Ticking(), 2, With(Try([Note], Receipt(a)), v));
    LeadsNext(start, Ticking(), 3, With(TrySend(b, [Note], Receipt(a)), v));
  }

  /** The sender's worker has pushed the message and not marked it. */
  ghost predicate Pushed(t: System, a: Conn, b: Conn) {
    && |t.jobs| == 8 && t.jobs[ThreadPool.Shard(a, 8)] == TryMark([Note], Receipt(a))
    && (forall w :: 0 <= w < 8 && w != ThreadPool.Shard(a, 8) ==> t.jobs[w] == Idle) && t.retry == Sleeping
    && t.ledger == Stored && t.users == Both(a, b)
    && t.peers.Keys == {a, b} && t.peers[b] == Client(8, 0, true, [])
  }

  lemma Pushing(labels: seq<Label>, t: System, a: Conn, b: Conn) returns (all: seq<Label>, u: System)
    requires Apart(a, b) && Quiet(t, Both(a, b), a, true, b, true)
    requires Shows(labels, t, a, LoggedIn(7).(emitted := [Login(7), Hello]), b, LoggedIn(8))
    ensures Pushed(u, a, b)
    ensures Shows(all, u, a, LoggedIn(7).(emitted := [Login(7), Hello], taken := [Login(7), Hello]),
                  b, LoggedIn(8).(sent := [Resp, PushOf(Note, false)]))
  {
    var wa, push := LoggedIn(7).(emitted := [Login(7), Hello]), Outgoing(b, PushOf(Note, false));
    var end := With(TryMark([Note], Receipt(a)), World(Stored, t.users, [push]));
    BothUsers(a, b);
    PushSteps(t.users, a, b);
    PushWires(push.packet);
    all := TakeRuns(labels, t, a, wa, b, LoggedIn(8), Hello, Ticking(), 4, end);
    u := Moved(t, ThreadPool.Shard(a, 8), end);
    OnePacket(push, a);
    OnePacket(push, b);
    PushWires(push.packet);
  }

  lemma PushWires(p: Packet)
    ensures LoggedIn(7).sent + [] == LoggedIn(7).sent && LoggedIn(8).sent + [p] == [Resp, p]
    ensures LoggedIn(7).taken + [Hello] == [Login(7), Hello]
  {
  }

  /** The receiver queues the push and answers with its ACK. */
  lemma Receiving(labels: seq<Label>, t: System, a: Conn, wa: Wire, b: Conn) returns (all: seq<Label>, u: System)
    requires a != b && Pushed(t, a, b) && Shows(labels, t, b, LoggedIn(8).(sent := [Resp, PushOf(Note, false)]), a, wa)
    ensures u.jobs == t.jobs && u.ledger == t.ledger && u.users == t.users
    ensures Shows(all, u, b, Answered(), a, wa)
  {
    var push := PushOf(Note, false);
    var wb, x := LoggedIn(8).(sent := [Resp, push]), ClientReceive(b, push);
    InFlight(labels, t, b, wb, a, wa);
    assert push == wb.sent[1];
    assert wb.received + [push] == wb.sent;
    ReceivingEffect(t, a, b);
    OneStep(labels, t, b, wb, a, wa, x);
    all, u := labels + [x], Step(t, x);
    GrowAnswered(wa);
  }

  function Answered(): Wire {
    Wire([Login(8), Ack(1)], [Login(8)], [Resp, PushOf(Note, false)], [Resp, PushOf(Note, false)])
  }

  lemma GrowAnswered(wa: Wire)
    ensures var push := PushOf(Note, false);
            Grow(LoggedIn(8).(sent := [Resp, push]), [Ack(1)], [], [], [push]) == Answered()
    ensures Grow(wa, [], [], [], []) == wa
  {
  }

  lemma ReceivingEffect(t: System, a: Conn, b: Conn)
    requires a != b && b in t.peers && t.peers[b] == Client(8, 0, true, []) && (b, PushOf(Note, false)) in t.toClient
    ensures var x, u := ClientReceive(b, PushOf(Note, false)), Step(t, ClientReceive(b, PushOf(Note, false)));
            && u.jobs == t.jobs && u.ledger == t.ledger && u.users == t.users
            && Emits(t, x, b) == [Ack(1)] && Takes(t, x, b) == [] && Sends(t, x, b) == [] && Gets(t, x, b) == [PushOf(Note, false)]
            && Emits(t, x, a) == [] && Takes(t, x, a) == [] && Sends(t, x, a) == [] && Gets(t, x, a) == []
  {
  }

  /** The receiver's worker handles the ACK, and only then the sender's worker marks its push. */
  lemma Acking(labels: seq<Label>, t: System, a: Conn, wa: Wire, b: Conn) returns (all: seq<Label>, u: System, x: Wire, y: Wire)
    requires Apart(a, b) && Shows(labels, t, b, Answered(), a, wa)
    requires t.jobs[ThreadPool.Shard(a, 8)] == TryMark([Note], Receipt(a)) && t.jobs[ThreadPool.Shard(b, 8)] == Idle
    requires t.ledger == Stored && t.users == Both(a, b)
    ensures |u.jobs| == 8 && u.jobs[ThreadPool.Shard(a, 8)] == TryMark([Note], Receipt(a))
    ensures u.ledger == MarkAcked(Stored, 1, 8, 1)
    ensures Shows(all, u, b, x, a, y)
  {
    var world := HandleAckSpec(WorldOf(t), b, 1, Tick(1, true));
    BothUsers(a, b);
    var n := AckRuns(WorldOf(t), b, 1, Ticking());
    assert Answered().taken + [Ack(1)] == Answered().emitted;
    all := TakeRuns(labels, t, b, Answered(), a, wa, Ack(1), Ticking(), n, With(Idle, world));
    u := Moved(t, ThreadPool.Shard(b, 8), With(Idle, world));
    x := Answered().(taken := Answered().taken + [Ack(1)], sent := Answered().sent + PacketsTo(world.sent, b));
    y := wa.(sent := wa.sent + PacketsTo(world.sent, a));
  }

  lemma MarkEffect(t: System, w: nat, a: Conn)
    requires w < |t.jobs| && t.jobs[w] == TryMark([Note], Receipt(a)) && t.ledger == MarkAcked(Stored, 1, 8, 1)
    ensures 1 in t.ledger.msgs && t.ledger.msgs[1].status == Acked
    ensures var u := Step(t, Work(w, 1, true)); |u.jobs| == |t.jobs| && 1 in u.ledger.msgs && u.ledger.msgs[1].status == Delivered
  {
  }

  /** labels is a run of the deployed server that ends with message 1 Acked, and last a step that
      the server can take next and that leaves it Delivered. */
  ghost predicate LeavesAcked(labels: seq<Label>, last: Label) {
    && Deployed(Eight, labels + [last])
    && (var s := Run(Eight, labels); 1 in s.ledger.msgs && s.ledger.msgs[1].status == Acked)
    && (var s := Run(Eight, labels + [last]); 1 in s.ledger.msgs && s.ledger.msgs[1].status == Delivered)
  }

  lemma LastStep(labels: seq<Label>, t: System, a: Conn, wa: Wire, b: Conn, wb: Wire) returns (last: Label)
    requires Shows(labels, t, b, wb, a, wa) && t.jobs[ThreadPool.Shard(a, 8)] == TryMark([Note], Receipt(a))
    requires t.ledger == MarkAcked(Stored, 1, 8, 1)
    ensures LeavesAcked(labels, last)
  {
    last := Work(ThreadPool.Shard(a, 8), 1, true);
    MarkEffect(t, ThreadPool.Shard(a, 8), a);
    OneStep(labels, t, b, wb, a, wa, last);
  }

  lemma UpToPush(a: Conn, b: Conn) returns (labels: seq<Label>, t: System, wa: Wire)
    requires Apart(a, b)
    ensures Pushed(t, a, b) && Shows(labels, t, b, LoggedIn(8).(sent := [Resp, PushOf(Note, false)]), a, wa)
  {
    labels, t := BothLoggedIn(a, b);
    labels, t := Sending(labels, t, a, b);
    labels, t := Pushing(labels, t, a, b);
    wa := LoggedIn(7).(emitted := [Login(7), Hello], taken := [Login(7), Hello]);
    Swap(labels, t, a, wa, b, LoggedIn(8).(sent := [Resp, PushOf(Note, false)]));
  }

  /** Acked is not final in the deployed server. For any two connections whose keys hash to different
      workers: the receiver's ACK, sent after its push, is handled between the push and its
      markDelivered, and the message is Delivered again. */
  lemma AckedCanBeLeft(a: Conn, b: Conn) returns (labels: seq<Label>, last: Label)
    requires Apart(a, b)
    ensures LeavesAcked(labels, last)
  {
    var t, wa, x, y;
    labels, t, wa := UpToPush(a, b);
    labels, t := Receiving(labels, t, a, wa, b);
    labels, t, x, y := Acking(labels, t, a, wa, b);
    last := LastStep(labels, t, a, y, b, x);
  }
}
