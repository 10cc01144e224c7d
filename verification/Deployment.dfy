/** Runs of the server as it is deployed: eight workers, every connection on the worker its key hashes
    to, and both directions of every connection in order. */
module Deployment {
  import opened Options
  import opened Ledger
  import opened Delivery
  import opened Solo
  import ThreadPool

  // ------------------------------------------------- what a deployed run looks like

  /** The four streams of one connection: requests the peer has sent and the server has taken up,
      packets the server has sent and the peer has received. */
  datatype Wire = Wire(emitted: seq<Request>, taken: seq<Request>, sent: seq<Packet>, received: seq<Packet>)

  predicate Chats(s: System, a: Label) {
    && a.SendMessage? && a.conn in s.peers && s.peers[a.conn].Client? && s.peers[a.conn].loginOk
    && CallId(s.peers[a.conn].process, a.seqNo) !in s.calls
    && !exists m :: m in s.calls && m.process == s.peers[a.conn].process && s.calls[m].no == a.no
  }

  predicate Receives(s: System, a: Label) {
    a.ClientReceive? && a.conn in s.peers && s.peers[a.conn].Client? && (a.conn, a.packet) in s.toClient
  }

  /** The request that a step puts on the wire of c. */
  function Emits(s: System, a: Label, c: Conn): seq<Request> {
    match a
    case Connect(d, uid, _) => if d == c && c !in s.peers then [Login(uid)] else []
    case ForeignSend(d, r) =>
      if d == c && c in s.peers && s.peers[c].Foreign? && !(r.Login? && r.uid in s.trusted) then [r] else []
    case SendMessage(d, n, no, at, to, content) =>
      if d == c && Chats(s, a) then [Chat(n, s.peers[c].uid, to, content, ClientMsgId(s.peers[c].uid, at, no))] else []
    case ClientReceive(d, p) =>
      if d == c && Receives(s, a) && p.Push? && s.peers[c].loginOk && !p.history then [Ack(p.msgId)] else []
    case _ => []
  }

  function Takes(s: System, a: Label, c: Conn): seq<Request> {
    if a.Take? && a.conn == c && IdleWorker(s, a.worker) && (c, a.req) in s.toServer then [a.req] else []
  }

  function To(out: Option<Outgoing>, c: Conn): seq<Packet> {
    if out.Some? && out.value.conn == c then [out.value.packet] else []
  }

  ghost function Sends(s: System, a: Label, c: Conn): seq<Packet> {
    match a
    case Work(w, now, up) => if w < |s.jobs| then To(Advance(s.jobs[w], s.ledger, s.users, now, up).out, c) else []
    case Retry(now, up) => To(AdvanceRetry(s.retry, s.ledger, s.users, now, up).out, c)
    case _ => []
  }

  function Gets(s: System, a: Label, c: Conn): seq<Packet> {
    if Receives(s, a) && a.conn == c then [a.packet] else []
  }

  ghost function WireOf(s: System, labels: seq<Label>, c: Conn): Wire {
    if labels == [] then Wire([], [], [], [])
    else
      var before, a := labels[..|labels| - 1], labels[|labels| - 1];
      var w, t := WireOf(s, before, c), Run(s, before);
      Wire(w.emitted + Emits(t, a, c), w.taken + Takes(t, a, c), w.sent + Sends(t, a, c), w.received + Gets(t, a, c))
  }

  /** Both directions of a connection are ordered streams. */
  predicate InOrder(w: Wire) {
    w.taken <= w.emitted && w.received <= w.sent
  }

  /** A worker takes up only the connections whose key hashes to it. */
  predicate AtHome(a: Label, workers: nat)
    requires workers > 0
  {
    a.Take? || a.TakeClose? ==> a.worker == ThreadPool.Shard(a.conn, workers)
  }

  /** A run of the deployed server: per-connection sharding, and ordered streams at every moment. */
  ghost predicate Deployed(s: System, labels: seq<Label>) {
    && |s.jobs| > 0
    && (forall i :: 0 <= i < |labels| ==> AtHome(labels[i], |s.jobs|))
    && (forall i, c :: 0 <= i <= |labels| ==> InOrder(WireOf(s, labels[..i], c)))
  }

  // ------------------------------------------------------------- growing such a run

  lemma WireSnoc(s: System, labels: seq<Label>, a: Label, c: Conn)
    ensures Run(s, labels + [a]) == Step(Run(s, labels), a)
    ensures var w, t := WireOf(s, labels, c), Run(s, labels);
            WireOf(s, labels + [a], c)
            == Wire(w.emitted + Emits(t, a, c), w.taken + Takes(t, a, c), w.sent + Sends(t, a, c), w.received + Gets(t, a, c))
  {
    assert (labels + [a])[..|labels|] == labels;
  }

  lemma DeployedSnoc(s: System, labels: seq<Label>, a: Label)
    requires Deployed(s, labels) && AtHome(a, |s.jobs|)
    requires forall c :: InOrder(WireOf(s, labels + [a], c))
    ensures Deployed(s, labels + [a])
  {
    var all := labels + [a];
    forall i, c | 0 <= i <= |all| ensures InOrder(WireOf(s, all[..i], c)) {
      if i <= |labels| { assert all[..i] == labels[..i]; } else { assert all[..i] == all; }
    }
  }

  lemma {:induction false} DeployedPrefix(s: System, labels: seq<Label>)
    requires Deployed(s, labels)
    ensures forall c :: InOrder(WireOf(s, labels, c))
  {
    assert labels[..|labels|] == labels;
  }

  /** Steps that only add to what has been emitted or sent are always in order. */
  lemma FreeStep(s: System, labels: seq<Label>, a: Label)
    requires Deployed(s, labels) && !a.Take? && !a.TakeClose? && !a.ClientReceive?
    ensures Deployed(s, labels + [a])
  {
    DeployedPrefix(s, labels);
    forall c ensures InOrder(WireOf(s, labels + [a], c)) { WireSnoc(s, labels, a, c); }
    DeployedSnoc(s, labels, a);
  }

  /** Taking up the next request of a connection at its own worker. */
  lemma TakeStep(s: System, labels: seq<Label>, a: Label)
    requires Deployed(s, labels) && a.Take? && AtHome(a, |s.jobs|)
    requires var w := WireOf(s, labels, a.conn); w.taken + [a.req] <= w.emitted
    ensures Deployed(s, labels + [a])
  {
    DeployedPrefix(s, labels);
    forall c ensures InOrder(WireOf(s, labels + [a], c)) { WireSnoc(s, labels, a, c); }
    DeployedSnoc(s, labels, a);
  }

  /** Receiving the next packet of a connection. */
  lemma ReceiveStep(s: System, labels: seq<Label>, a: Label)
    requires Deployed(s, labels) && a.ClientReceive?
    requires var w := WireOf(s, labels, a.conn); w.received + [a.packet] <= w.sent
    ensures Deployed(s, labels + [a])
  {
    DeployedPrefix(s, labels);
    forall c ensures InOrder(WireOf(s, labels + [a], c)) { WireSnoc(s, labels, a, c); }
    DeployedSnoc(s, labels, a);
  }

  function PacketsTo(sent: seq<Outgoing>, c: Conn): seq<Packet> {
    if sent == [] then [] else PacketsTo(sent[..|sent| - 1], c) + To(Some(sent[|sent| - 1]), c)
  }

  /** The wires of labels, with what a worker that is now at m has sent since. */
  ghost predicate SentSince(s: System, labels: seq<Label>, all: seq<Label>, m: Machine) {
    forall c :: WireOf(s, all, c) == WireOf(s, labels, c).(sent := WireOf(s, labels, c).sent + PacketsTo(m.world.sent, c))
  }

  /** Since labels, worker w alone has moved, and is now at m. */
  ghost predicate Drove(s: System, labels: seq<Label>, w: nat, all: seq<Label>, m: Machine) {
    var drove := Deployed(s, all) && WorkerAt(Run(s, labels), w, m, Run(s, all)) && SentSince(s, labels, all, m);
    drove
  }

  /** A worker running alone along a path of n steps. */
  lemma {:induction false} WorkSteps(s: System, labels: seq<Label>, w: nat, ticks: Ticks, path: seq<Machine>, n: nat)
    requires Deployed(s, labels) && w < |Run(s, labels).jobs| && n < |path|
    requires path[0] == With(Run(s, labels).jobs[w], WorldOf(Run(s, labels)))
    requires forall i :: 0 <= i < n ==> Moves(path, ticks, i)
    ensures Drove(s, labels, w, labels + WorkLabels(w, ticks, n), path[n])
  {
    if n == 0 {
      NoSteps(s, labels, w, ticks);
    } else {
      WorkSteps(s, labels, w, ticks, path, n - 1);
      WorkLabelsSnoc(labels, w, ticks, n);
      assert Moves(path, ticks, n - 1);
      OneMore(s, labels, labels + WorkLabels(w, ticks, n - 1), w, path[n - 1], ticks(n - 1));
    }
  }

  lemma WorkLabelsSnoc(labels: seq<Label>, w: nat, ticks: Ticks, n: nat)
    requires n > 0
    ensures labels + WorkLabels(w, ticks, n)
         == labels + WorkLabels(w, ticks, n - 1) + [Work(w, ticks(n - 1).now, ticks(n - 1).up)]
  {
  }

  lemma NoSteps(s: System, labels: seq<Label>, w: nat, ticks: Ticks)
    requires Deployed(s, labels) && w < |Run(s, labels).jobs|
    ensures labels + WorkLabels(w, ticks, 0) == labels
    ensures Drove(s, labels, w, labels, With(Run(s, labels).jobs[w], WorldOf(Run(s, labels))))
  {
    var t := Run(s, labels);
    assert t.jobs[w := t.jobs[w]] == t.jobs && t.toClient + Packets([]) == t.toClient;
  }

  lemma OneMore(s: System, labels: seq<Label>, before: seq<Label>, w: nat, m: Machine, k: Tick)
    requires Drove(s, labels, w, before, m)
    ensures Drove(s, labels, w, before + [Work(w, k.now, k.up)], Tock(m, k))
  {
    var t, a := Run(s, labels), Work(w, k.now, k.up);
    FreeStep(s, before, a);
    WorkerStep(t, w, m, Run(s, before), k);
    WireSnoc(s, before, a, 0);
    forall c
      ensures WireOf(s, before + [a], c)
           == WireOf(s, labels, c).(sent := WireOf(s, labels, c).sent + PacketsTo(Tock(m, k).world.sent, c))
    {
      WorkWire(s, t, labels, before, w, m, k, c);
    }
  }

  lemma WorkWire(s: System, t: System, labels: seq<Label>, before: seq<Label>, w: nat, m: Machine, k: Tick, c: Conn)
    requires WorkerAt(t, w, m, Run(s, before))
    requires WireOf(s, before, c) == WireOf(s, labels, c).(sent := WireOf(s, labels, c).sent + PacketsTo(m.world.sent, c))
    ensures var a := Work(w, k.now, k.up);
            && Run(s, before + [a]) == Step(Run(s, before), a)
            && WireOf(s, before + [a], c)
               == WireOf(s, labels, c).(sent := WireOf(s, labels, c).sent + PacketsTo(Tock(m, k).world.sent, c))
  {
    var a := Work(w, k.now, k.up);
    var out := Advance(m.thread.job, m.world.ledger, m.world.users, k.now, k.up).out;
    WireSnoc(s, before, a, c);
    WorkSends(t, w, m, Run(s, before), k, c);
    PacketsToAppend(m.world.sent, out, c);
    AddSent(WireOf(s, labels, c), PacketsTo(m.world.sent, c), To(out, c));
  }

  lemma WorkSends(t: System, w: nat, m: Machine, u: System, k: Tick, c: Conn)
    requires WorkerAt(t, w, m, u)
    ensures Sends(u, Work(w, k.now, k.up), c) == To(Advance(m.thread.job, m.world.ledger, m.world.users, k.now, k.up).out, c)
  {
  }

  lemma AddSent(x: Wire, some: seq<Packet>, more: seq<Packet>)
    ensures var y := x.(sent := x.sent + some);
            Wire(y.emitted + [], y.taken + [], y.sent + more, y.received + []) == x.(sent := x.sent + (some + more))
  {
    assert x.sent + some + more == x.sent + (some + more);
  }

  lemma PacketsToAppend(sent: seq<Outgoing>, out: Option<Outgoing>, c: Conn)
    ensures PacketsTo(Append(sent, out), c) == PacketsTo(sent, c) + To(out, c)
  {
    if out.Some? { assert (sent + [out.value])[..|sent|] == sent; }
  }

  /** What was emitted or sent is on its way. */
  lemma {:induction false} WireInFlight(s: System, labels: seq<Label>, c: Conn)
    ensures forall r :: r in WireOf(s, labels, c).emitted ==> (c, r) in Run(s, labels).toServer
    ensures forall p :: p in WireOf(s, labels, c).sent ==> (c, p) in Run(s, labels).toClient
  {
    if labels != [] {
      WireInFlight(s, labels[..|labels| - 1], c);
      FlightStep(Run(s, labels[..|labels| - 1]), labels[|labels| - 1], c);
    }
  }

  lemma FlightStep(s: System, a: Label, c: Conn)
    ensures var t := Step(s, a);
            && s.toServer <= t.toServer && s.toClient <= t.toClient
            && (forall r :: r in Emits(s, a, c) ==> (c, r) in t.toServer)
            && (forall p :: p in Sends(s, a, c) ==> (c, p) in t.toClient)
  {
  }

  // ------------------------------------------------- two connections, eight workers

  const Eight := Init(8, {7, 8})

  /** After this deployed run the system is t, and the wires of c and d are these. */
  ghost predicate Shows(labels: seq<Label>, t: System, c: Conn, wc: Wire, d: Conn, wd: Wire) {
    var shown := Deployed(Eight, labels) && Run(Eight, labels) == t && WireOf(Eight, labels, c) == wc && WireOf(Eight, labels, d) == wd;
    shown && |t.jobs| == 8
  }

  lemma Swap(labels: seq<Label>, t: System, c: Conn, wc: Wire, d: Conn, wd: Wire)
    requires Shows(labels, t, c, wc, d, wd)
    ensures Shows(labels, t, d, wd, c, wc)
  {
  }

  lemma InFlight(labels: seq<Label>, t: System, c: Conn, wc: Wire, d: Conn, wd: Wire)
    requires Shows(labels, t, c, wc, d, wd)
    ensures forall r :: r in wc.emitted ==> (c, r) in t.toServer
    ensures forall p :: p in wc.sent ==> (c, p) in t.toClient
  {
    WireInFlight(Eight, labels, c);
  }

  function Grow(w: Wire, emitted: seq<Request>, taken: seq<Request>, sent: seq<Packet>, received: seq<Packet>): Wire {
    Wire(w.emitted + emitted, w.taken + taken, w.sent + sent, w.received + received)
  }

  /** One step of a client or of the network. */
  lemma OneStep(labels: seq<Label>, t: System, c: Conn, wc: Wire, d: Conn, wd: Wire, a: Label)
    requires Shows(labels, t, c, wc, d, wd) && |Step(t, a).jobs| == 8 && !a.TakeClose? && AtHome(a, 8)
    requires a.Take? ==> a.conn == c && wc.taken + [a.req] <= wc.emitted
    requires a.ClientReceive? ==> a.conn == c && wc.received + [a.packet] <= wc.sent
    ensures Shows(labels + [a], Step(t, a), c, Grow(wc, Emits(t, a, c), Takes(t, a, c), Sends(t, a, c), Gets(t, a, c)),
                  d, Grow(wd, Emits(t, a, d), Takes(t, a, d), Sends(t, a, d), Gets(t, a, d)))
  {
    if a.Take? {
      TakeStep(Eight, labels, a);
    } else if a.ClientReceive? {
      ReceiveStep(Eight, labels, a);
    } else {
      FreeStep(Eight, labels, a);
    }
    WireSnoc(Eight, labels, a, c);
    WireSnoc(Eight, labels, a, d);
  }

  /** t with worker w where m is. */
  ghost function Moved(t: System, w: nat, m: Machine): System
    requires w < |t.jobs| && m.thread.Worker?
  {
    t.(jobs := t.jobs[w := m.thread.job], ledger := m.world.ledger, users := m.world.users,
       toClient := t.toClient + Packets(m.world.sent))
  }

  lemma WorkRuns(labels: seq<Label>, t: System, c: Conn, wc: Wire, d: Conn, wd: Wire, w: nat, ticks: Ticks, n: nat, m: Machine)
      returns (all: seq<Label>)
    requires Shows(labels, t, c, wc, d, wd) && w < 8 && m.thread.Worker? && Leads(With(t.jobs[w], WorldOf(t)), ticks, n, m)
    ensures labels <= all
    ensures Shows(all, Moved(t, w, m), c, wc.(sent := wc.sent + PacketsTo(m.world.sent, c)),
                  d, wd.(sent := wd.sent + PacketsTo(m.world.sent, d)))
  {
    var start := With(t.jobs[w], WorldOf(t));
    var path :| |path| == n + 1 && path[0] == start && path[n] == m && forall i :: 0 <= i < n ==> Moves(path, ticks, i);
    WorkSteps(Eight, labels, w, ticks, path, n);
    all := labels + WorkLabels(w, ticks, n);
  }

  /** The worker of c takes up the next request of c and runs alone for n steps. */
  lemma TakeRuns(labels: seq<Label>, t: System, c: Conn, wc: Wire, d: Conn, wd: Wire, r: Request, ticks: Ticks, n: nat, m: Machine)
      returns (all: seq<Label>)
    requires Shows(labels, t, c, wc, d, wd) && c != d && wc.taken + [r] <= wc.emitted && m.thread.Worker?
    requires t.jobs[ThreadPool.Shard(c, 8)] == Idle && Leads(With(Start(c, r), WorldOf(t)), ticks, n, m)
    ensures labels <= all
    ensures Shows(all, Moved(t, ThreadPool.Shard(c, 8), m), c,
                  wc.(taken := wc.taken + [r], sent := wc.sent + PacketsTo(m.world.sent, c)),
                  d, wd.(sent := wd.sent + PacketsTo(m.world.sent, d)))
  {
    var w := ThreadPool.Shard(c, 8);
    var u := TakeOne(labels, t, c, wc, d, wd, r);
    all := WorkRuns(labels + [Take(w, c, r)], u, c, wc.(taken := wc.taken + [r]), d, wd, w, ticks, n, m);
    MovedAfterTake(t, u, w, Start(c, r), m);
  }

  lemma MovedAfterTake(t: System, u: System, w: nat, j: Job, m: Machine)
    requires w < |t.jobs| && u == t.(jobs := t.jobs[w := j]) && m.thread.Worker?
    ensures Moved(u, w, m) == Moved(t, w, m)
  {
    assert u.jobs[w := m.thread.job] == t.jobs[w := m.thread.job];
  }

  lemma TakeOne(labels: seq<Label>, t: System, c: Conn, wc: Wire, d: Conn, wd: Wire, r: Request) returns (u: System)
    requires Shows(labels, t, c, wc, d, wd) && c != d && wc.taken + [r] <= wc.emitted
    requires t.jobs[ThreadPool.Shard(c, 8)] == Idle
    ensures var w := ThreadPool.Shard(c, 8);
            && u == t.(jobs := t.jobs[w := Start(c, r)])
            && Shows(labels + [Take(w, c, r)], u, c, wc.(taken := wc.taken + [r]), d, wd)
  {
    var take := Take(ThreadPool.Shard(c, 8), c, r);
    assert r == wc.emitted[|wc.taken|];
    InFlight(labels, t, c, wc, d, wd);
    u := Step(t, take);
    OneStep(labels, t, c, wc, d, wd, take);
    assert Grow(wc, [], [r], [], []) == wc.(taken := wc.taken + [r]) && Grow(wd, [], [], [], []) == wd;
  }

  // ------------------------------------------------------------------ the retry thread

  /** Since labels, the retry thread alone has moved, and is now at m. */
  ghost predicate RetryDrove(s: System, labels: seq<Label>, all: seq<Label>, m: Machine) {
    var drove := Deployed(s, all) && RetryAt(Run(s, labels), m, Run(s, all)) && SentSince(s, labels, all, m);
    drove
  }

  lemma RetryNone(s: System, labels: seq<Label>, ticks: Ticks)
    requires Deployed(s, labels)
    ensures labels + RetryLabels(ticks, 0) == labels
    ensures RetryDrove(s, labels, labels, Retrying(Run(s, labels).retry, WorldOf(Run(s, labels))))
  {
    assert Run(s, labels).toClient + Packets([]) == Run(s, labels).toClient;
  }

  lemma RetrySends(t: System, m: Machine, u: System, k: Tick, c: Conn)
    requires RetryAt(t, m, u)
    ensures Sends(u, Retry(k.now, k.up), c)
         == To(AdvanceRetry(m.thread.pass, m.world.ledger, m.world.users, k.now, k.up).out, c)
  {
  }

  lemma RetryWire(s: System, t: System, labels: seq<Label>, before: seq<Label>, m: Machine, k: Tick, c: Conn)
    requires RetryAt(t, m, Run(s, before))
    requires WireOf(s, before, c) == WireOf(s, labels, c).(sent := WireOf(s, labels, c).sent + PacketsTo(m.world.sent, c))
    ensures WireOf(s, before + [Retry(k.now, k.up)], c)
         == WireOf(s, labels, c).(sent := WireOf(s, labels, c).sent + PacketsTo(Tock(m, k).world.sent, c))
  {
    var a := Retry(k.now, k.up);
    var out := AdvanceRetry(m.thread.pass, m.world.ledger, m.world.users, k.now, k.up).out;
    WireSnoc(s, before, a, c);
    RetrySends(t, m, Run(s, before), k, c);
    PacketsToAppend(m.world.sent, out, c);
    AddSent(WireOf(s, labels, c), PacketsTo(m.world.sent, c), To(out, c));
  }

  lemma RetryMore(s: System, labels: seq<Label>, before: seq<Label>, m: Machine, k: Tick)
    requires RetryDrove(s, labels, before, m)
    ensures RetryDrove(s, labels, before + [Retry(k.now, k.up)], Tock(m, k))
  {
    var t, a := Run(s, labels), Retry(k.now, k.up);
    FreeStep(s, before, a);
    RetryStep(t, m, Run(s, before), k);
    WireSnoc(s, before, a, 0);
    forall c
      ensures WireOf(s, before + [a], c)
           == WireOf(s, labels, c).(sent := WireOf(s, labels, c).sent + PacketsTo(Tock(m, k).world.sent, c))
    {
      RetryWire(s, t, labels, before, m, k, c);
    }
  }

  lemma RetryLabelsSnoc(labels: seq<Label>, ticks: Ticks, n: nat)
    requires n > 0
    ensures labels + RetryLabels(ticks, n) == labels + RetryLabels(ticks, n - 1) + [Retry(ticks(n - 1).now, ticks(n - 1).up)]
  {
  }

  lemma {:induction false} RetrySteps(s: System, labels: seq<Label>, ticks: Ticks, path: seq<Machine>, n: nat)
    requires Deployed(s, labels) && n < |path| && path[0] == Retrying(Run(s, labels).retry, WorldOf(Run(s, labels)))
    requires forall i :: 0 <= i < n ==> Moves(path, ticks, i)
    ensures RetryDrove(s, labels, labels + RetryLabels(ticks, n), path[n])
  {
    if n == 0 {
      RetryNone(s, labels, ticks);
    } else {
      RetrySteps(s, labels, ticks, path, n - 1);
      RetryLabelsSnoc(labels, ticks, n);
      assert Moves(path, ticks, n - 1);
      RetryMore(s, labels, labels + RetryLabels(ticks, n - 1), path[n - 1], ticks(n - 1));
    }
  }

  /** The retry thread runs alone for n steps. */
  lemma RetryRunsTo(labels: seq<Label>, t: System, c: Conn, wc: Wire, d: Conn, wd: Wire, ticks: Ticks, n: nat, m: Machine)
      returns (all: seq<Label>, u: System)
    requires Shows(labels, t, c, wc, d, wd) && Leads(Retrying(t.retry, WorldOf(t)), ticks, n, m)
    ensures labels <= all && RetryAt(t, m, u)
    ensures Shows(all, u, c, wc.(sent := wc.sent + PacketsTo(m.world.sent, c)),
                  d, wd.(sent := wd.sent + PacketsTo(m.world.sent, d)))
  {
    var start := Retrying(t.retry, WorldOf(t));
    var path :| |path| == n + 1 && path[0] == start && path[n] == m && forall i :: 0 <= i < n ==> Moves(path, ticks, i);
    RetrySteps(Eight, labels, ticks, path, n);
    all := labels + RetryLabels(ticks, n);
    u := Run(Eight, all);
  }

  /** A connection that is not there yet has sent nothing. */
  lemma SilentSoFar(labels: seq<Label>, c: Conn)
    requires Deployed(Eight, labels) && c !in Run(Eight, labels).peers
    ensures WireOf(Eight, labels, c).emitted == [] && WireOf(Eight, labels, c).taken == []
  {
    if labels != [] { NothingEmitted(labels, c); }
    DeployedPrefix(Eight, labels);
    assert InOrder(WireOf(Eight, labels, c));
  }

  lemma {:induction false} NothingEmitted(labels: seq<Label>, c: Conn)
    requires c !in Run(Eight, labels).peers
    ensures WireOf(Eight, labels, c).emitted == []
  {
    if labels != [] {
      var n := |labels| - 1;
      NotYetThere(Run(Eight, labels[..n]), labels[n], c);
      NothingEmitted(labels[..n], c);
    }
  }

  lemma NotYetThere(s: System, a: Label, c: Conn)
    requires c !in Step(s, a).peers
    ensures c !in s.peers && Emits(s, a, c) == []
  {
  }

  lemma ConnectEffect(t: System, c: Conn, uid: Uid, process: nat, d: Conn)
    requires c !in t.peers && c != d
    ensures var x := Connect(c, uid, process);
            && Step(t, x) == t.(peers := t.peers[c := Client(uid, process, false, [])], toServer := t.toServer + {(c, Login(uid))})
            && Emits(t, x, c) == [Login(uid)] && Takes(t, x, c) == [] && Sends(t, x, c) == [] && Gets(t, x, c) == []
            && Emits(t, x, d) == [] && Takes(t, x, d) == [] && Sends(t, x, d) == [] && Gets(t, x, d) == []
  {
  }

  lemma GrowNothing(w: Wire)
    ensures Grow(w, [], [], [], []) == w
  {
  }

  /** A client opens a connection and asks to log in. */
  lemma OpenConnection(labels: seq<Label>, t: System, c: Conn, wc: Wire, uid: Uid, process: nat, d: Conn, wd: Wire)
      returns (all: seq<Label>, u: System)
    requires Shows(labels, t, c, wc, d, wd) && c !in t.peers && c != d
    ensures labels <= all && Shows(all, u, c, wc.(emitted := wc.emitted + [Login(uid)]), d, wd)
    ensures u == t.(peers := t.peers[c := Client(uid, process, false, [])], toServer := t.toServer + {(c, Login(uid))})
  {
    var x := Connect(c, uid, process);
    ConnectEffect(t, c, uid, process, d);
    OneStep(labels, t, c, wc, d, wd, x);
    all, u := labels + [x], Step(t, x);
    GrowNothing(wd);
    GrowEmitted(wc, Login(uid));
  }

  lemma GrowEmitted(w: Wire, r: Request)
    ensures Grow(w, [r], [], [], []) == w.(emitted := w.emitted + [r])
  {
  }
}
