/** No ghost online users: the handlers run on the sharded pool, keyed by connection, and change
    the user table one at a time in whatever order the workers get to it. */
module Presence {
  import opened Options
  import opened ThreadPool
  import UserState
  import Framing
  import Streams
  import Sessions

  /** What a handler does to the user table: bind for a login, remove for a close. Every other
      handler only reads it. The key of a task is its connection. */
  datatype Job = LogIn(uid: nat) | Close | Other

  function Apply(t: UserState.Table, task: Task<Job>): UserState.Table {
    match task.job
    case LogIn(uid) => if uid == 0 then t else UserState.Bind(t, task.key, uid)
    case Close => UserState.Remove(t, task.key)
    case Other => t
  }

  /** done[w]: what worker w started last has made its change. */
  datatype State = State(pool: Pool<Job>, users: UserState.Table, done: seq<bool>, effects: seq<Task<Job>>)

  function Init(workers: nat, submitters: nat): State {
    State(Started(workers, submitters), UserState.NoUsers, seq(workers, _ => true), [])
  }

  datatype Move = Pooled(a: Label<Job>) | Change(w: nat)

  predicate Takes(p: Pool<Job>, a: Label<Job>) {
    a.Poll? && a.w < |p.workers| && p.workers[a.w].holder.None? && !p.workers[a.w].running && !p.workers[a.w].exited
    && p.workers[a.w].queue != []
  }

  function Next(s: State, m: Move): State {
    match m
    case Pooled(a) =>
      if a.Finish? && a.w < |s.done| && !s.done[a.w] then s
      else s.(pool := ThreadPool.Step(s.pool, a),
              done := if Takes(s.pool, a) && a.w < |s.done| then s.done[a.w := false] else s.done)
    case Change(w) =>
      if w < |s.done| && w < |s.pool.workers| && !s.done[w] && s.pool.workers[w].started != [] then
        var k := s.pool.workers[w];
        var task := k.started[|k.started| - 1];
        s.(users := Apply(s.users, task), done := s.done[w := true], effects := s.effects + [task])
      else s
  }

  function Run(s: State, moves: seq<Move>): State {
    if moves == [] then s else Next(Run(s, moves[..|moves| - 1]), moves[|moves| - 1])
  }

  function ApplyAll(tasks: seq<Task<Job>>): UserState.Table {
    if tasks == [] then UserState.NoUsers else Apply(ApplyAll(tasks[..|tasks| - 1]), tasks[|tasks| - 1])
  }

  function Front<T>(s: seq<T>): seq<T> {
    if s == [] then [] else s[..|s| - 1]
  }

  /** A worker's changes are its started tasks in order, but for one that is still to come. */
  ghost predicate InStep(s: State, w: nat)
    requires w < |s.pool.workers| == |s.done|
  {
    var k := s.pool.workers[w];
    && Of(s.effects, w, |s.pool.workers|) == (if s.done[w] then k.started else Front(k.started))
    && (!s.done[w] ==> k.running && k.started != [])
  }

  ghost predicate Inv(s: State) {
    && ThreadPool.Inv(s.pool) && |s.done| == |s.pool.workers| && s.users == ApplyAll(s.effects)
    && forall w :: 0 <= w < |s.done| ==> InStep(s, w)
  }

  lemma {:induction false} OfHome(tasks: seq<Task<Job>>, w: nat, workers: nat)
    requires workers > 0
    ensures forall i :: 0 <= i < |Of(tasks, w, workers)| ==> Shard(Of(tasks, w, workers)[i].key, workers) == w
  {
    if tasks != [] { OfHome(tasks[..|tasks| - 1], w, workers); }
  }

  lemma LastHome(p: Pool<Job>, w: nat)
    requires w < |p.workers| && Accounted(p, w) && p.workers[w].started != []
    ensures var k := p.workers[w]; Shard(k.started[|k.started| - 1].key, |p.workers|) == w
  {
    var k := p.workers[w];
    OfHome(p.accepted, w, |p.workers|);
    assert (k.started + k.queue)[|k.started| - 1] == k.started[|k.started| - 1];
  }

  /** One more change, by worker v. */
  lemma OfGrows(effects: seq<Task<Job>>, task: Task<Job>, v: nat, w: nat, workers: nat)
    requires workers > 0 && Shard(task.key, workers) == v
    ensures Of(effects + [task], w, workers) == if v == w then Of(effects, w, workers) + [task] else Of(effects, w, workers)
  {
    assert (effects + [task])[..|effects|] == effects;
  }

  lemma ChangeInStep(s: State, v: nat, w: nat)
    requires |s.done| == |s.pool.workers| && v < |s.done| && w < |s.done| && InStep(s, v) && InStep(s, w)
    requires var k := s.pool.workers[v];
             k.started != [] ==> Shard(k.started[|k.started| - 1].key, |s.pool.workers|) == v
    ensures InStep(Next(s, Change(v)), w)
  {
    if !s.done[v] { ChangeMade(s, v, w); }
  }

  lemma ChangeMade(s: State, v: nat, w: nat)
    requires |s.done| == |s.pool.workers| && v < |s.done| && w < |s.done| && InStep(s, v) && InStep(s, w) && !s.done[v]
    requires var k := s.pool.workers[v]; Shard(k.started[|k.started| - 1].key, |s.pool.workers|) == v
    ensures InStep(Next(s, Change(v)), w)
  {
    var k := s.pool.workers[v];
    var task := k.started[|k.started| - 1];
    OfGrows(s.effects, task, v, w, |s.pool.workers|);
    assert k.started == Front(k.started) + [task];
  }

  lemma PollInStep(s: State, v: nat, w: nat)
    requires |s.done| == |s.pool.workers| && w < |s.done| && InStep(s, w)
    ensures InStep(Next(s, Pooled(Poll(v))), w)
  {
    if v == w && Takes(s.pool, Poll(v)) {
      TakeInStep(s, w);
    } else {
      var k, l := s.pool.workers[w], Next(s, Pooled(Poll(v))).pool.workers[w];
      assert l.started == k.started && l.running == k.running;
    }
  }

  lemma TakeInStep(s: State, w: nat)
    requires |s.done| == |s.pool.workers| && w < |s.done| && InStep(s, w) && Takes(s.pool, Poll(w))
    ensures InStep(Next(s, Pooled(Poll(w))), w)
  {
    var k := s.pool.workers[w];
    assert Front(k.started + [k.queue[0]]) == k.started;
  }

  lemma FrameInStep(s: State, t: State, w: nat)
    requires |s.done| == |s.pool.workers| == |t.pool.workers| && t.done == s.done && t.effects == s.effects
    requires w < |s.done| && InStep(s, w) && t.pool.workers[w].started == s.pool.workers[w].started
    requires !s.done[w] ==> t.pool.workers[w].running
    ensures InStep(t, w)
  {
  }

  lemma PooledInStep(s: State, a: Label<Job>, w: nat)
    requires Inv(s) && w < |s.done| && !a.Poll? && !(a.Finish? && a.w < |s.done| && !s.done[a.w])
    ensures |ThreadPool.Step(s.pool, a).workers| == |s.pool.workers| && InStep(Next(s, Pooled(a)), w)
  {
    assert InStep(s, w);
    FrameInStep(s, Next(s, Pooled(a)), w);
  }

  lemma NextInv(s: State, m: Move)
    requires Inv(s)
    ensures Inv(Next(s, m)) && |Next(s, m).done| == |s.done|
  {
    var t := Next(s, m);
    if m.Pooled? { ThreadPool.StepInv(s.pool, m.a); }
    if m.Change? && t != s { assert t.effects[..|s.effects|] == s.effects; }
    forall w | 0 <= w < |t.done| ensures InStep(t, w) {
      assert InStep(s, w);
      if m.Change? {
        if m.w < |s.done| {
          assert InStep(s, m.w) && Accounted(s.pool, m.w);
          if s.pool.workers[m.w].started != [] { LastHome(s.pool, m.w); }
          ChangeInStep(s, m.w, w);
        }
      } else if m.a.Poll? {
        PollInStep(s, m.a.w, w);
      } else if t != s {
        PooledInStep(s, m.a, w);
      }
    }
  }

  lemma {:induction false} RunInv(workers: nat, submitters: nat, moves: seq<Move>)
    ensures var s := Run(Init(workers, submitters), moves); Inv(s) && |s.done| == workers
  {
    if moves != [] {
      var n := |moves| - 1;
      RunInv(workers, submitters, moves[..n]);
      NextInv(Run(Init(workers, submitters), moves[..n]), moves[n]);
    } else {
      assert forall w :: 0 <= w < workers ==> InStep(Init(workers, submitters), w);
    }
  }

  // ------------------------------------------------------------------ main claims

  /** Nothing of c comes after its close. */
  ghost predicate CloseLast(tasks: seq<Task<Job>>, c: nat) {
    forall i :: 0 <= i < |Keyed(tasks, c)| - 1 ==> Keyed(tasks, c)[i].job != Close
  }

  lemma {:induction false} KeyedMember(tasks: seq<Task<Job>>, task: Task<Job>)
    ensures task in tasks ==> task in Keyed(tasks, task.key)
  {
    if tasks != [] {
      var n := |tasks| - 1;
      KeyedMember(tasks[..n], task);
      assert tasks == tasks[..n] + [tasks[n]];
    }
  }

  lemma {:induction false} ClosedIsAbsent(tasks: seq<Task<Job>>, c: nat)
    requires CloseLast(tasks, c)
    ensures UserState.MutuallyInverse(ApplyAll(tasks))
    ensures Task(c, Close) in tasks ==> c !in ApplyAll(tasks).conns
  {
    if tasks != [] {
      var n := |tasks| - 1;
      var last, t := tasks[n], ApplyAll(tasks[..n]);
      var before := Keyed(tasks[..n], c);
      assert tasks == tasks[..n] + [last];
      assert Keyed(tasks, c) == before + if last.key == c then [last] else [];
      forall i | 0 <= i < |before| - 1 ensures before[i].job != Close { assert Keyed(tasks, c)[i] == before[i]; }
      ClosedIsAbsent(tasks[..n], c);
      ApplyKeeps(t, last);
      if last.key == c {
        forall i | 0 <= i < |before| ensures before[i] != Task(c, Close) { assert Keyed(tasks, c)[i] == before[i]; }
        KeyedMember(tasks[..n], Task(c, Close));
      }
    }
  }

  lemma ApplyKeeps(t: UserState.Table, task: Task<Job>)
    requires UserState.MutuallyInverse(t)
    ensures UserState.MutuallyInverse(Apply(t, task))
    ensures forall c :: c != task.key ==> (c in Apply(t, task).conns <==> c in t.conns)
    ensures task.job == Close ==> task.key !in Apply(t, task).conns
  {
    match task.job
    case LogIn(uid) => if uid != 0 { UserState.BindInverse(t, task.key, uid); }
    case Close => UserState.RemoveInverse(t, task.key);
    case Other =>
  }

  lemma PrefixKeyed(a: seq<Task<Job>>, b: seq<Task<Job>>, c: nat)
    requires a <= b
    ensures Keyed(a, c) <= Keyed(b, c)
  {
    assert b == a + b[|a|..];
    KeyedAppend(a, b[|a|..], c);
  }

  /** The changes made for a connection are the first of its accepted tasks, in order. */
  lemma EffectsInOrder(workers: nat, submitters: nat, moves: seq<Move>, c: nat)
    requires workers > 0
    ensures var s := Run(Init(workers, submitters), moves); Keyed(s.effects, c) <= Keyed(s.pool.accepted, c)
  {
    RunInv(workers, submitters, moves);
    var s, w := Run(Init(workers, submitters), moves), Shard(c, workers);
    var k := s.pool.workers[w];
    assert InStep(s, w) && Accounted(s.pool, w);
    var mine := Of(s.effects, w, workers);
    assert mine <= k.started <= Of(s.pool.accepted, w, workers);
    PrefixKeyed(mine, Of(s.pool.accepted, w, workers), c);
    KeyedOf(s.effects, c, w, workers);
    KeyedOf(s.pool.accepted, c, w, workers);
  }

  /** In every interleaving: once the close of a connection has been handled, it is in neither
      table and never comes back, whatever logins were queued before and whichever newer
      connections took its user over. All that is needed is that nothing of the connection is
      accepted after its close. */
  lemma NoGhostUsers(workers: nat, submitters: nat, moves: seq<Move>, c: nat)
    requires workers > 0 && CloseLast(Run(Init(workers, submitters), moves).pool.accepted, c)
    ensures var s := Run(Init(workers, submitters), moves);
            && UserState.MutuallyInverse(s.users)
            && (Task(c, Close) in s.effects ==> c !in s.users.conns && forall u :: UserState.ConnOf(s.users, u) != Some(c))
  {
    RunInv(workers, submitters, moves);
    var s := Run(Init(workers, submitters), moves);
    EffectsInOrder(workers, submitters, moves, c);
    assert forall i :: 0 <= i < |Keyed(s.effects, c)| ==> Keyed(s.effects, c)[i] == Keyed(s.pool.accepted, c)[i];
    ClosedIsAbsent(s.effects, c);
  }

  // ------------------------------------------------------------------- who is online

  /** This change ends u's being online on c: c closes or logs in as somebody else, or u logs in on
      another connection. */
  predicate Displaces(task: Task<Job>, c: nat, u: nat) {
    || (task.key == c && (task.job == Close || (task.job.LogIn? && task.job.uid != 0 && task.job.uid != u)))
    || (task.key != c && task.job == LogIn(u))
  }

  /** Change number i logs u in on c, and nothing after it displaces u. */
  ghost predicate LastsFrom(tasks: seq<Task<Job>>, c: nat, u: nat, i: nat) {
    && i < |tasks| && tasks[i] == Task(c, LogIn(u))
    && forall j :: i < j < |tasks| ==> !Displaces(tasks[j], c, u)
  }

  ghost predicate Lasts(tasks: seq<Task<Job>>, c: nat, u: nat) {
    exists i: nat :: LastsFrom(tasks, c, u, i)
  }

  lemma LastsNext(tasks: seq<Task<Job>>, c: nat, u: nat)
    requires tasks != []
    ensures var n := |tasks| - 1;
            Lasts(tasks, c, u) <==> tasks[n] == Task(c, LogIn(u)) || (!Displaces(tasks[n], c, u) && Lasts(tasks[..n], c, u))
  {
    var n := |tasks| - 1;
    if tasks[n] == Task(c, LogIn(u)) {
      assert LastsFrom(tasks, c, u, n);
    } else if Lasts(tasks, c, u) {
      var i: nat :| LastsFrom(tasks, c, u, i);
      assert LastsFrom(tasks[..n], c, u, i);
    } else if !Displaces(tasks[n], c, u) && Lasts(tasks[..n], c, u) {
      var i: nat :| LastsFrom(tasks[..n], c, u, i);
      assert forall j :: i < j < n ==> tasks[j] == tasks[..n][j];
      assert LastsFrom(tasks, c, u, i);
    }
  }

  lemma ApplyOnline(t: UserState.Table, task: Task<Job>, c: nat, u: nat)
    requires UserState.MutuallyInverse(t) && u != 0
    ensures UserState.MutuallyInverse(Apply(t, task))
    ensures UserState.ConnOf(Apply(t, task), u) == Some(c)
       <==> task == Task(c, LogIn(u)) || (!Displaces(task, c, u) && UserState.ConnOf(t, u) == Some(c))
  {
    ApplyKeeps(t, task);
    match task.job
    case LogIn(v) => if v != 0 { UserState.BindInverse(t, task.key, v); }
    case Close => UserState.RemoveInverse(t, task.key);
    case Other =>
  }

  lemma {:induction false} OnlineIff(tasks: seq<Task<Job>>, c: nat, u: nat)
    requires u != 0
    ensures UserState.MutuallyInverse(ApplyAll(tasks))
    ensures UserState.ConnOf(ApplyAll(tasks), u) == Some(c) <==> Lasts(tasks, c, u)
  {
    if tasks != [] {
      var n := |tasks| - 1;
      OnlineIff(tasks[..n], c, u);
      ApplyOnline(ApplyAll(tasks[..n]), tasks[n], c, u);
      LastsNext(tasks, c, u);
    }
  }

  /** In every interleaving: u is online on c if and only if a login of u on c has been handled and,
      since then, c has neither closed nor logged in as somebody else and u has logged in nowhere
      else. Both tables say so. */
  lemma PresentIff(workers: nat, submitters: nat, moves: seq<Move>, c: nat, u: nat)
    requires workers > 0 && u != 0
    ensures var s := Run(Init(workers, submitters), moves);
            && (UserState.ConnOf(s.users, u) == Some(c) <==> Lasts(s.effects, c, u))
            && (UserState.UidOf(s.users, c) == u <==> Lasts(s.effects, c, u))
  {
    RunInv(workers, submitters, moves);
    var s := Run(Init(workers, submitters), moves);
    OnlineIff(s.effects, c, u);
    UserState.LookupsAgree(s.users, c, u);
  }

  /** A worker that is not in the middle of a task has made the changes of all it has started; one
      that is, of all but possibly the last. */
  lemma NoChangeMissing(workers: nat, submitters: nat, moves: seq<Move>, c: nat)
    requires workers > 0
    ensures var s := Run(Init(workers, submitters), moves);
            && |s.pool.workers| == workers
            && var k := s.pool.workers[Shard(c, workers)];
               && (!k.running ==> Keyed(s.effects, c) == Keyed(k.started, c))
               && (!k.running && k.queue == [] ==> Keyed(s.effects, c) == Keyed(s.pool.accepted, c))
  {
    RunInv(workers, submitters, moves);
    var s, w := Run(Init(workers, submitters), moves), Shard(c, workers);
    var k := s.pool.workers[w];
    assert InStep(s, w) && Accounted(s.pool, w);
    KeyedOf(s.effects, c, w, workers);
    KeyedOf(s.pool.accepted, c, w, workers);
    if k.queue == [] { assert k.started + k.queue == k.started; }
  }

  lemma RunOne(s: State, moves: seq<Move>, m: Move)
    ensures Run(s, moves + [m]) == Next(Run(s, moves), m)
  {
    assert (moves + [m])[..|moves|] == moves;
  }

  /** And a task in hand always makes its change when its turn comes. */
  lemma ChangeComes(workers: nat, submitters: nat, moves: seq<Move>, w: nat)
    requires w < workers && var s := Run(Init(workers, submitters), moves); |s.done| == workers && !s.done[w]
    ensures var s, t := Run(Init(workers, submitters), moves), Run(Init(workers, submitters), moves + [Change(w)]);
            && |s.pool.workers| == workers && s.pool.workers[w].started != []
            && var started := s.pool.workers[w].started;
               t.effects == s.effects + [started[|started| - 1]] && t.pool == s.pool && |t.done| == workers && t.done[w]
  {
    RunInv(workers, submitters, moves);
    RunOne(Init(workers, submitters), moves, Change(w));
    assert InStep(Run(Init(workers, submitters), moves), w);
  }

  // --------------------------------------------- together with the network side

  /** What the handler of an event does; loginUid tells a login envelope's uid. */
  function JobOf<E>(event: Sessions.Event<E>, loginUid: E -> Option<nat>): Job {
    match event
    case Closed => Close
    case Envelope(e) => (match loginUid(e) case Some(u) => LogIn(u) case None => Other)
  }

  /** They are some of the events, in their order: at[i] is the event of task i. The rest was
      refused by a pool that is stopping. */
  ghost predicate SubmittedInOrder<E>(
      tasks: seq<Task<Job>>, events: seq<Sessions.Event<E>>, loginUid: E -> Option<nat>, at: seq<nat>)
  {
    && |at| == |tasks|
    && (forall i :: 0 <= i < |at| ==> at[i] < |events| && tasks[i].job == JobOf(events[at[i]], loginUid))
    && (forall i, j :: 0 <= i < j < |at| ==> at[i] < at[j])
  }

  /** From callbacks to tables: when a connection's own thread submits its events in order, then
      once its close has been handled the connection is in neither table, whatever came over the
      wire, however it was cut into chunks, and whatever the other connections did. */
  lemma ClosedConnectionStaysOut<E>(
      cbs: seq<Sessions.Callback>, max: nat, parse: Framing.Bytes -> Option<E>, loginUid: E -> Option<nat>,
      workers: nat, submitters: nat, moves: seq<Move>, c: nat, at: seq<nat>)
    requires workers > 0 && Sessions.OneLife(cbs, c)
    requires var events := Sessions.EventsOf(Sessions.ReactAll(cbs, max, parse).events, c);
             var s := Run(Init(workers, submitters), moves);
             SubmittedInOrder(Keyed(s.pool.accepted, c), events, loginUid, at)
    ensures var s := Run(Init(workers, submitters), moves);
            Task(c, Close) in s.effects ==> c !in s.users.conns && forall u :: UserState.ConnOf(s.users, u) != Some(c)
  {
    var s := Run(Init(workers, submitters), moves);
    var events := Sessions.EventsOf(Sessions.ReactAll(cbs, max, parse).events, c);
    CloseComesLast(cbs, c, max, parse);
    forall i | 0 <= i < |Keyed(s.pool.accepted, c)| - 1 ensures Keyed(s.pool.accepted, c)[i].job != Close {
      assert at[i] < at[i + 1];
      assert events[at[i]] != Sessions.Closed;
    }
    NoGhostUsers(workers, submitters, moves, c);
  }

  /** Every event of c has been submitted and accepted, and its worker is through with them. */
  ghost predicate AllHandled<E>(s: State, events: seq<Sessions.Event<E>>, loginUid: E -> Option<nat>, c: nat) {
    && |s.pool.workers| > 0
    && (var k := s.pool.workers[Shard(c, |s.pool.workers|)]; !k.running && k.queue == [])
    && |Keyed(s.pool.accepted, c)| == |events|
    && forall i :: 0 <= i < |events| ==> Keyed(s.pool.accepted, c)[i].job == JobOf(events[i], loginUid)
  }

  lemma {:induction false} KeyedAre(tasks: seq<Task<Job>>, c: nat)
    ensures forall i :: 0 <= i < |Keyed(tasks, c)| ==> Keyed(tasks, c)[i].key == c && Keyed(tasks, c)[i] in tasks
  {
    if tasks != [] {
      var n := |tasks| - 1;
      KeyedAre(tasks[..n], c);
      assert tasks == tasks[..n] + [tasks[n]];
    }
  }

  /** A connection that was reported down, with everything it caused handled, is in neither table. */
  lemma GoneIsAbsent<E>(
      cbs: seq<Sessions.Callback>, max: nat, parse: Framing.Bytes -> Option<E>, loginUid: E -> Option<nat>,
      workers: nat, submitters: nat, moves: seq<Move>, c: nat)
    requires workers > 0 && Sessions.OneLife(cbs, c) && Sessions.PhaseOf(cbs, c) == Sessions.Gone
    requires var events := Sessions.EventsOf(Sessions.ReactAll(cbs, max, parse).events, c);
             AllHandled(Run(Init(workers, submitters), moves), events, loginUid, c)
    ensures var s := Run(Init(workers, submitters), moves);
            c !in s.users.conns && forall u :: UserState.ConnOf(s.users, u) != Some(c)
  {
    var s := Run(Init(workers, submitters), moves);
    var events := Sessions.EventsOf(Sessions.ReactAll(cbs, max, parse).events, c);
    Sessions.ConnectionEvents(cbs, c, max, parse);
    CloseComesLast(cbs, c, max, parse);
    NoChangeMissing(workers, submitters, moves, c);
    KeyedAre(s.effects, c);
    var last := |events| - 1;
    assert events[last] == Sessions.Closed;
    assert Keyed(s.effects, c)[last] == Task(c, Close);
    NoGhostUsers(workers, submitters, moves, c);
  }

  /** A user whose login came over the wire, and was neither followed by another login or the close of
      that connection nor by a login of the user elsewhere, is online there once all is handled. */
  lemma LoggedInIsOnline<E>(
      cbs: seq<Sessions.Callback>, max: nat, parse: Framing.Bytes -> Option<E>, loginUid: E -> Option<nat>,
      workers: nat, submitters: nat, moves: seq<Move>, c: nat, k: nat, u: nat)
    requires workers > 0 && u != 0
    requires var events := Sessions.EventsOf(Sessions.ReactAll(cbs, max, parse).events, c);
             && AllHandled(Run(Init(workers, submitters), moves), events, loginUid, c)
             && k < |events| && events[k].Envelope? && loginUid(events[k].e) == Some(u)
             && forall j :: k < j < |events| ==> events[j].Envelope? && loginUid(events[j].e).None?
    requires forall i :: 0 <= i < |Run(Init(workers, submitters), moves).effects| ==>
               var task := Run(Init(workers, submitters), moves).effects[i]; task.job == LogIn(u) ==> task.key == c
    ensures var s := Run(Init(workers, submitters), moves);
            UserState.ConnOf(s.users, u) == Some(c) && UserState.UidOf(s.users, c) == u
  {
    var s := Run(Init(workers, submitters), moves);
    NoChangeMissing(workers, submitters, moves, c);
    KeyedAre(s.effects, c);
    LastLogin(s.effects, c, u, k);
    PresentIff(workers, submitters, moves, c, u);
  }

  /** If change k of c logs u in and the later ones of c change nothing, u's login lasts. */
  lemma {:induction false} LastLogin(tasks: seq<Task<Job>>, c: nat, u: nat, k: nat)
    requires k < |Keyed(tasks, c)| && Keyed(tasks, c)[k] == Task(c, LogIn(u))
    requires forall j :: k < j < |Keyed(tasks, c)| ==> Keyed(tasks, c)[j].job == Other
    requires forall i :: 0 <= i < |tasks| && tasks[i].job == LogIn(u) ==> tasks[i].key == c
    ensures Lasts(tasks, c, u)
  {
    var n := |tasks| - 1;
    var before := Keyed(tasks[..n], c);
    assert Keyed(tasks, c) == before + if tasks[n].key == c then [tasks[n]] else [];
    assert forall j :: 0 <= j < |before| ==> before[j] == Keyed(tasks, c)[j];
    assert forall i :: 0 <= i < n ==> tasks[..n][i] == tasks[i];
    LastsNext(tasks, c, u);
    if tasks[n].key == c {
      assert Keyed(tasks, c)[|before|] == tasks[n];
      if k < |before| { LastLogin(tasks[..n], c, u, k); }
    } else {
      LastLogin(tasks[..n], c, u, k);
    }
  }

  lemma CloseComesLast<E>(cbs: seq<Sessions.Callback>, c: nat, max: nat, parse: Framing.Bytes -> Option<E>)
    requires Sessions.OneLife(cbs, c)
    ensures var events := Sessions.EventsOf(Sessions.ReactAll(cbs, max, parse).events, c);
            forall i :: 0 <= i < |events| - 1 ==> events[i] != Sessions.Closed
  {
    Sessions.ConnectionEvents(cbs, c, max, parse);
    var events := Sessions.EventsOf(Sessions.ReactAll(cbs, max, parse).events, c);
    var handled := Streams.Receive(Sessions.Inputs(cbs, c), Streams.Server, max, parse).handled;
    forall i | 0 <= i < |events| - 1 ensures events[i] != Sessions.Closed {
      assert events[i] == Sessions.Wrapped(handled)[i];
    }
  }
}
