/** One thread of the transition system with nothing else running: a worker or the retry thread,
    driven by whatever the clock and connected() answer at each of its steps. */
module Solo {
  import opened Options
  import opened Ledger
  import opened Delivery
  import UserState

  /** What connected() and NowMs() answer at one step. */
  datatype Tick = Tick(now: nat, up: bool)

  /** The answers along a run, step by step. */
  type Ticks = nat -> Tick

  datatype Thread = Worker(job: Job) | RetryThread(pass: RetryJob)

  /** What threads share, with the packets this one has sent, in order. */
  datatype World = World(ledger: Ledger, users: UserState.Table, sent: seq<Outgoing>)

  datatype Machine = Machine(thread: Thread, world: World)

  function With(j: Job, w: World): Machine { Machine(Worker(j), w) }
  function Retrying(j: RetryJob, w: World): Machine { Machine(RetryThread(j), w) }

  function Append(sent: seq<Outgoing>, out: Option<Outgoing>): seq<Outgoing> {
    if out.Some? then sent + [out.value] else sent
  }

  ghost function Tock(m: Machine, t: Tick): Machine {
    var w := m.world;
    match m.thread
    case Worker(j) =>
      var e := Advance(j, w.ledger, w.users, t.now, t.up);
      With(e.job, World(e.ledger, e.users, Append(w.sent, e.out)))
    case RetryThread(j) =>
      var e := AdvanceRetry(j, w.ledger, w.users, t.now, t.up);
      Retrying(e.job, World(e.ledger, w.users, Append(w.sent, e.out)))
  }

  /** The machine after n steps. */
  ghost function Flow(m: Machine, ticks: Ticks, n: nat): Machine {
    if n == 0 then m else Tock(Flow(m, ticks, n - 1), ticks(n - 1))
  }

  function Shift(ticks: Ticks, n: nat): Ticks {
    (i: nat) => ticks(n + i)
  }

  /** The connections asked about are always up. */
  ghost predicate AlwaysUp(ticks: Ticks) {
    forall i: nat :: ticks(i).up
  }

  /** The clock reading and the answer of connected() in t are among those the run was given. */
  ghost predicate Given(t: Tick, ticks: Ticks) {
    var given := exists i: nat, j: nat :: ticks(i).now == t.now && ticks(j).up == t.up;
    given
  }

  ghost predicate AllGiven(env: Ticks, ticks: Ticks) {
    var given := forall k: nat :: Given(env(k), ticks);
    given
  }

  lemma GivenAt(ticks: Ticks, i: nat, j: nat)
    ensures Given(Tick(ticks(i).now, ticks(j).up), ticks)
  {
  }

  lemma GivenLater(t: Tick, ticks: Ticks, n: nat)
    requires Given(t, Shift(ticks, n))
    ensures Given(t, ticks)
  {
    var i: nat, j: nat :| Shift(ticks, n)(i).now == t.now && Shift(ticks, n)(j).up == t.up;
    assert ticks(n + i).now == t.now && ticks(n + j).up == t.up;
  }

  lemma AllGivenLater(env: Ticks, ticks: Ticks, n: nat)
    requires AllGiven(env, Shift(ticks, n))
    ensures AllGiven(env, ticks)
  {
    forall k: nat ensures Given(env(k), ticks) { GivenLater(env(k), ticks, n); }
  }

  lemma GivenUp(env: Ticks, ticks: Ticks)
    requires AllGiven(env, ticks) && AlwaysUp(ticks)
    ensures AlwaysUp(env)
  {
    forall k: nat ensures env(k).up { assert Given(env(k), ticks); }
  }

  /** The same answers throughout. */
  function Always(t: Tick): Ticks {
    (i: nat) => t
  }

  lemma AlwaysGiven(ticks: Ticks, i: nat)
    ensures AllGiven(Always(ticks(i)), ticks)
  {
    GivenAt(ticks, i, i);
    forall k: nat ensures Given(Always(ticks(i))(k), ticks) {}
  }

  ghost predicate Moves(path: seq<Machine>, ticks: Ticks, i: nat)
    requires i + 1 < |path|
  {
    path[i + 1] == Tock(path[i], ticks(i))
  }

  /** n steps lead from a to b. */
  ghost predicate Leads(a: Machine, ticks: Ticks, n: nat, b: Machine) {
    exists path :: |path| == n + 1 && path[0] == a && path[n] == b && forall i :: 0 <= i < n ==> Moves(path, ticks, i)
  }

  lemma {:induction false} LeadsFlow(a: Machine, ticks: Ticks, n: nat, path: seq<Machine>)
    requires |path| > n && path[0] == a && forall i :: 0 <= i < n ==> Moves(path, ticks, i)
    ensures path[n] == Flow(a, ticks, n)
  {
    if n > 0 {
      LeadsFlow(a, ticks, n - 1, path);
      assert Moves(path, ticks, n - 1);
    }
  }

  lemma LeadsIff(a: Machine, ticks: Ticks, n: nat, b: Machine)
    ensures Leads(a, ticks, n, b) <==> Flow(a, ticks, n) == b
  {
    var path := seq(n + 1, i requires 0 <= i < n + 1 => Flow(a, ticks, i));
    assert forall i :: 0 <= i < n ==> Moves(path, ticks, i);
    if Leads(a, ticks, n, b) {
      var p :| |p| == n + 1 && p[0] == a && p[n] == b && forall i :: 0 <= i < n ==> Moves(p, ticks, i);
      LeadsFlow(a, ticks, n, p);
    }
  }

  lemma LeadsSelf(a: Machine, ticks: Ticks)
    ensures Leads(a, ticks, 0, a)
  {
    LeadsIff(a, ticks, 0, a);
  }

  lemma LeadsUnique(a: Machine, ticks: Ticks, n: nat, b: Machine, c: Machine)
    requires Leads(a, ticks, n, b) && Leads(a, ticks, n, c)
    ensures b == c
  {
    LeadsIff(a, ticks, n, b);
    LeadsIff(a, ticks, n, c);
  }

  lemma LeadsNext(a: Machine, ticks: Ticks, n: nat, b: Machine)
    requires Leads(a, ticks, n, b)
    ensures Leads(a, ticks, n + 1, Tock(b, ticks(n)))
  {
    LeadsIff(a, ticks, n, b);
    LeadsIff(a, ticks, n + 1, Tock(b, ticks(n)));
  }

  lemma LeadsOne(a: Machine, ticks: Ticks)
    ensures Leads(a, ticks, 1, Tock(a, ticks(0)))
  {
    LeadsSelf(a, ticks);
    LeadsNext(a, ticks, 0, a);
  }

  lemma MovesSame(p: seq<Machine>, i: nat, ticks: Ticks, q: seq<Machine>, j: nat, others: Ticks)
    requires i + 1 < |p| && j + 1 < |q| && p[i] == q[j] && p[i + 1] == q[j + 1] && ticks(i) == others(j)
    requires Moves(p, ticks, i)
    ensures Moves(q, others, j)
  {
  }

  /** Two legs of a run are a run. */
  lemma LeadsVia(a: Machine, ticks: Ticks, n: nat, b: Machine, k: nat, c: Machine)
    requires Leads(a, ticks, n, b) && Leads(b, Shift(ticks, n), k, c)
    ensures Leads(a, ticks, n + k, c)
  {
    var p :| |p| == n + 1 && p[0] == a && p[n] == b && forall i :: 0 <= i < n ==> Moves(p, ticks, i);
    var q :| |q| == k + 1 && q[0] == b && q[k] == c && forall i :: 0 <= i < k ==> Moves(q, Shift(ticks, n), i);
    var path := p + q[1..];
    assert forall i :: 0 <= i <= k ==> path[n + i] == q[i];
    forall i | 0 <= i < n + k ensures Moves(path, ticks, i) {
      if i < n {
        MovesSame(p, i, ticks, path, i, ticks);
      } else {
        assert path[n + (i - n)] == q[i - n] && path[n + (i + 1 - n)] == q[i + 1 - n];
        MovesSame(q, i - n, Shift(ticks, n), path, i, ticks);
      }
    }
  }

  // --------------------------------------------------- inside the whole system

  function Packets(sent: seq<Outgoing>): set<(Conn, Packet)> {
    set o | o in sent :: (o.conn, o.packet)
  }

  lemma PacketsAppend(sent: seq<Outgoing>, out: Option<Outgoing>)
    ensures Packets(Append(sent, out)) == Packets(sent) + Sent(out)
  {
  }

  function WorkLabels(w: nat, ticks: Ticks, n: nat): (labels: seq<Label>)
    ensures |labels| == n
  {
    seq(n, i requires 0 <= i < n => Work(w, ticks(i).now, ticks(i).up))
  }

  function RetryLabels(ticks: Ticks, n: nat): (labels: seq<Label>)
    ensures |labels| == n
  {
    seq(n, i requires 0 <= i < n => Retry(ticks(i).now, ticks(i).up))
  }

  ghost function WorldOf(s: System): World {
    World(s.ledger, s.users, [])
  }

  /** t is s with worker w where m is. */
  ghost predicate WorkerAt(s: System, w: nat, m: Machine, t: System) {
    && w < |s.jobs| && m.thread.Worker?
    && t == s.(jobs := s.jobs[w := m.thread.job], ledger := m.world.ledger, users := m.world.users,
               toClient := s.toClient + Packets(m.world.sent))
  }

  lemma WorkerStep(s: System, w: nat, m: Machine, t: System, k: Tick)
    requires WorkerAt(s, w, m, t)
    ensures WorkerAt(s, w, Tock(m, k), Step(t, Work(w, k.now, k.up)))
  {
    var e, sent := Advance(m.thread.job, m.world.ledger, m.world.users, k.now, k.up), m.world.sent;
    PacketsAppend(sent, e.out);
    assert s.jobs[w := m.thread.job][w := e.job] == s.jobs[w := e.job];
    assert s.toClient + Packets(sent) + Sent(e.out) == s.toClient + Packets(Append(sent, e.out));
  }

  /** The labels of one worker, run alone, drive the whole system exactly so. */
  lemma {:induction false} WorkerDrives(s: System, w: nat, ticks: Ticks, n: nat)
    requires w < |s.jobs|
    ensures WorkerAt(s, w, Flow(With(s.jobs[w], WorldOf(s)), ticks, n), Run(s, WorkLabels(w, ticks, n)))
  {
    if n == 0 {
      assert s.jobs[w := s.jobs[w]] == s.jobs && s.toClient + Packets([]) == s.toClient;
    } else {
      WorkerDrives(s, w, ticks, n - 1);
      assert WorkLabels(w, ticks, n)[..n - 1] == WorkLabels(w, ticks, n - 1);
      WorkerStep(s, w, Flow(With(s.jobs[w], WorldOf(s)), ticks, n - 1), Run(s, WorkLabels(w, ticks, n - 1)), ticks(n - 1));
    }
  }

  /** t is s with the retry thread where m is; only the push counts are left open. */
  ghost predicate RetryAt(s: System, m: Machine, t: System) {
    && m.thread.RetryThread? && m.world.users == s.users
    && t == s.(retry := m.thread.pass, ledger := m.world.ledger, toClient := s.toClient + Packets(m.world.sent),
               pushed := t.pushed)
  }

  lemma RetryStep(s: System, m: Machine, t: System, k: Tick)
    requires RetryAt(s, m, t)
    ensures RetryAt(s, Tock(m, k), Step(t, Retry(k.now, k.up)))
  {
    var e, sent := AdvanceRetry(m.thread.pass, m.world.ledger, m.world.users, k.now, k.up), m.world.sent;
    PacketsAppend(sent, e.out);
    assert s.toClient + Packets(sent) + Sent(e.out) == s.toClient + Packets(Append(sent, e.out));
  }

  /** The labels of the retry thread, run alone, drive the whole system exactly so. */
  lemma {:induction false} RetryDrives(s: System, ticks: Ticks, n: nat)
    ensures RetryAt(s, Flow(Retrying(s.retry, WorldOf(s)), ticks, n), Run(s, RetryLabels(ticks, n)))
  {
    if n == 0 {
      assert s.toClient + Packets([]) == s.toClient;
    } else {
      RetryDrives(s, ticks, n - 1);
      assert RetryLabels(ticks, n)[..n - 1] == RetryLabels(ticks, n - 1);
      RetryStep(s, Flow(Retrying(s.retry, WorldOf(s)), ticks, n - 1), Run(s, RetryLabels(ticks, n - 1)), ticks(n - 1));
    }
  }
}
