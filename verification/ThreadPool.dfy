/** ShardedThreadPool within one start/stop cycle: submitters, workers and stop() interleave at
    every access to a lock, a queue or the stop flag. */
module ThreadPool {
  import opened Options

  /** Bitwise exclusive or. */
  function Xor(a: nat, b: nat): nat {
    if a == 0 then b else if b == 0 then a
    else 2 * Xor(a / 2, b / 2) + (a % 2 + b % 2) % 2
  }

  const TwoTo33 := 0x2_0000_0000
  const TwoTo64 := 0x1_0000_0000_0000_0000

  /** The mixing of submit(), on 64-bit words. */
  function Mix(key: nat): nat {
    var a := Xor(key, key / TwoTo33) * 0xff51_afd7_ed55_8ccd % TwoTo64;
    var b := Xor(a, a / TwoTo33) * 0xc4ce_b9fe_1a85_ec53 % TwoTo64;
    Xor(b, b / TwoTo33)
  }

  /** The worker of a key: always the same one. */
  function Shard(key: nat, workers: nat): (w: nat)
    requires workers > 0
    ensures w < workers
  {
    Mix(key) % workers
  }

  datatype Task<T> = Task(key: nat, job: T)

  /** running: the last started task has not returned yet. holder: the submitter inside the lock. */
  datatype Worker<T> = Worker(queue: seq<Task<T>>, started: seq<Task<T>>, running: bool, exited: bool, holder: Option<nat>)

  /** Where a submitting thread is: before the first test of the stop flag, before the lock, in
      the lock before the second test, or past that test and about to push. */
  datatype Submit<T> = Outside | Checked(task: Task<T>) | Locked(task: Task<T>) | Passed(task: Task<T>)

  /** accepted lists the tasks for which submit() returned true, in the order they were pushed. */
  datatype Pool<T> = Pool(workers: seq<Worker<T>>, submitters: seq<Submit<T>>, stopped: bool, accepted: seq<Task<T>>)

  function Started<T>(workers: nat, submitters: nat): Pool<T> {
    Pool(seq(workers, _ => Worker([], [], false, false, None)), seq(submitters, _ => Outside), false, [])
  }

  datatype Label<T> =
    | Begin(i: nat, task: Task<T>)
    | Acquire(i: nat)
    | Check(i: nat)
    | Push(i: nat)
    | Stop
    | Poll(w: nat)
    | Finish(w: nat)

  function Home<T>(p: Pool<T>, t: Task<T>): (w: nat)
    requires |p.workers| > 0
    ensures w < |p.workers|
  {
    Shard(t.key, |p.workers|)
  }

  predicate At<T>(p: Pool<T>, i: nat) {
    i < |p.submitters| && |p.workers| > 0
  }

  function Release<T>(w: Worker<T>): Worker<T> { w.(holder := None) }

  /** A label that is not enabled leaves the pool as it is. */
  function Step<T>(p: Pool<T>, a: Label<T>): Pool<T> {
    match a
    case Begin(i, task) =>
      if At(p, i) && p.submitters[i].Outside? && !p.stopped then p.(submitters := p.submitters[i := Checked(task)]) else p
    case Acquire(i) =>
      if At(p, i) && p.submitters[i].Checked? then
        var t := p.submitters[i].task;
        var w := Home(p, t);
        if p.workers[w].holder.Some? then p
        else p.(workers := p.workers[w := p.workers[w].(holder := Some(i))], submitters := p.submitters[i := Locked(t)])
      else p
    case Check(i) =>
      if At(p, i) && p.submitters[i].Locked? then
        var t := p.submitters[i].task;
        var w := Home(p, t);
        if p.stopped then p.(workers := p.workers[w := Release(p.workers[w])], submitters := p.submitters[i := Outside])
        else p.(submitters := p.submitters[i := Passed(t)])
      else p
    case Push(i) =>
      if At(p, i) && p.submitters[i].Passed? then
        var t := p.submitters[i].task;
        var w := Home(p, t);
        p.(workers := p.workers[w := Release(p.workers[w].(queue := p.workers[w].queue + [t]))],
           submitters := p.submitters[i := Outside],
           accepted := p.accepted + [t])
      else p
    case Stop => p.(stopped := true)
    case Poll(w) =>
      if w < |p.workers| && p.workers[w].holder.None? && !p.workers[w].running && !p.workers[w].exited then
        var k := p.workers[w];
        if k.queue != [] then
          p.(workers := p.workers[w := k.(queue := k.queue[1..], started := k.started + [k.queue[0]], running := true)])
        else if p.stopped then p.(workers := p.workers[w := k.(exited := true)])
        else p
      else p
    case Finish(w) =>
      if w < |p.workers| then p.(workers := p.workers[w := p.workers[w].(running := false)]) else p
  }

  function Run<T>(p: Pool<T>, labels: seq<Label<T>>): Pool<T> {
    if labels == [] then p else Step(Run(p, labels[..|labels| - 1]), labels[|labels| - 1])
  }

  // ------------------------------------------------------------------ accounting

  /** The tasks of one worker, in order. */
  function Of<T>(tasks: seq<Task<T>>, w: nat, workers: nat): seq<Task<T>>
    requires workers > 0
  {
    if tasks == [] then []
    else
      var n := |tasks| - 1;
      Of(tasks[..n], w, workers) + if Shard(tasks[n].key, workers) == w then [tasks[n]] else []
  }

  /** Every accepted task has been started or is queued, once, in the order of acceptance; a
      worker that has exited left nothing behind. */
  ghost predicate Accounted<T>(p: Pool<T>, w: nat)
    requires w < |p.workers|
  {
    var k := p.workers[w];
    && Of(p.accepted, w, |p.workers|) == k.started + k.queue
    && (k.running ==> k.started != [])
    && (k.exited ==> p.stopped && k.queue == [] && !k.running)
  }

  /** Who is inside the lock of a worker is its holder, and whoever passed the second test found
      the worker still there. */
  ghost predicate LockHeld<T>(p: Pool<T>, i: nat)
    requires At(p, i)
  {
    var s := p.submitters[i];
    && (s.Locked? || s.Passed? ==> p.workers[Home(p, s.task)].holder == Some(i))
    && (s.Passed? ==> !p.workers[Home(p, s.task)].exited)
  }

  ghost predicate Inv<T>(p: Pool<T>) {
    && (forall w :: 0 <= w < |p.workers| ==> Accounted(p, w))
    && (forall i :: 0 <= i < |p.submitters| && |p.workers| > 0 ==> LockHeld(p, i))
  }

  lemma PushAccounted<T>(p: Pool<T>, i: nat, w: nat)
    requires At(p, i) && p.submitters[i].Passed? && LockHeld(p, i) && w < |p.workers| && Accounted(p, w)
    ensures Accounted(Step(p, Push(i)), w)
  {
    var t := p.submitters[i].task;
    var k := p.workers[w];
    assert (p.accepted + [t])[..|p.accepted|] == p.accepted;
    if w == Home(p, t) { assert k.started + k.queue + [t] == k.started + (k.queue + [t]); }
  }

  lemma PollAccounted<T>(p: Pool<T>, v: nat, w: nat)
    requires w < |p.workers| && Accounted(p, w)
    ensures Accounted(Step(p, Poll(v)), w)
  {
    var k := p.workers[w];
    if v == w && k.holder.None? && !k.running && !k.exited && k.queue != [] {
      TakeAccounted(p, w);
    } else if v == w {
      assert Step(p, Poll(v)).workers[w].started == k.started && Step(p, Poll(v)).workers[w].queue == k.queue;
    } else {
      assert Step(p, Poll(v)).workers[w] == k;
    }
  }

  /** Taking the first queued task moves it over to the started ones. */
  lemma TakeAccounted<T>(p: Pool<T>, w: nat)
    requires w < |p.workers| && Accounted(p, w)
    requires var k := p.workers[w]; k.holder.None? && !k.running && !k.exited && k.queue != []
    ensures Accounted(Step(p, Poll(w)), w)
  {
    var k := p.workers[w];
    assert k.started + k.queue == k.started + [k.queue[0]] + k.queue[1..];
  }

  lemma FrameAccounted<T>(p: Pool<T>, q: Pool<T>, w: nat)
    requires w < |p.workers| == |q.workers| && Accounted(p, w)
    requires q.accepted == p.accepted && (p.stopped ==> q.stopped)
    requires var k, l := p.workers[w], q.workers[w];
             l.queue == k.queue && l.started == k.started && l.exited == k.exited && (l.running ==> k.running)
    ensures Accounted(q, w)
  {
  }

  lemma StepAccounted<T>(p: Pool<T>, a: Label<T>, w: nat)
    requires Inv(p) && w < |p.workers|
    ensures |Step(p, a).workers| == |p.workers| && Accounted(Step(p, a), w)
  {
    assert Accounted(p, w);
    if a.Push? {
      if At(p, a.i) && p.submitters[a.i].Passed? { assert LockHeld(p, a.i); PushAccounted(p, a.i, w); }
    } else if a.Poll? {
      PollAccounted(p, a.w, w);
    } else {
      OtherAccounted(p, a, w);
    }
  }

  lemma OtherAccounted<T>(p: Pool<T>, a: Label<T>, w: nat)
    requires Inv(p) && w < |p.workers| && !a.Push? && !a.Poll?
    ensures |Step(p, a).workers| == |p.workers| && Accounted(Step(p, a), w)
  {
    assert Accounted(p, w);
    FrameAccounted(p, Step(p, a), w);
  }

  lemma StepLockHeld<T>(p: Pool<T>, a: Label<T>, i: nat)
    requires Inv(p) && At(p, i)
    ensures At(Step(p, a), i) && LockHeld(Step(p, a), i)
  {
    assert LockHeld(p, i);
    match a
    case Begin(_, _) =>
    case Acquire(j) =>
    case Check(j) =>
      if At(p, j) && p.submitters[j].Locked? {
        assert LockHeld(p, j);
        assert Accounted(p, Home(p, p.submitters[j].task));
      }
    case Push(j) => if At(p, j) && p.submitters[j].Passed? { assert LockHeld(p, j); }
    case Stop =>
    case Poll(_) =>
    case Finish(_) =>
  }

  lemma StepInv<T>(p: Pool<T>, a: Label<T>)
    requires Inv(p)
    ensures Inv(Step(p, a)) && |Step(p, a).workers| == |p.workers|
  {
    var q := Step(p, a);
    forall w | 0 <= w < |q.workers| ensures Accounted(q, w) { StepAccounted(p, a, w); }
    forall i | 0 <= i < |q.submitters| && |q.workers| > 0 ensures LockHeld(q, i) { StepLockHeld(p, a, i); }
  }

  lemma {:induction false} RunInv<T>(workers: nat, submitters: nat, labels: seq<Label<T>>)
    ensures var p := Run(Started(workers, submitters), labels); Inv(p) && |p.workers| == workers
  {
    if labels != [] {
      var n := |labels| - 1;
      RunInv(workers, submitters, labels[..n]);
      StepInv(Run(Started(workers, submitters), labels[..n]), labels[n]);
    }
  }

  // ------------------------------------------------------------------- main claims

  /** The tasks with one key, in order. */
  function Keyed<T>(tasks: seq<Task<T>>, key: nat): seq<Task<T>> {
    if tasks == [] then []
    else Keyed(tasks[..|tasks| - 1], key) + if tasks[|tasks| - 1].key == key then [tasks[|tasks| - 1]] else []
  }

  lemma {:induction false} KeyedAppend<T>(a: seq<Task<T>>, b: seq<Task<T>>, key: nat)
    ensures Keyed(a + b, key) == Keyed(a, key) + Keyed(b, key)
  {
    if b == [] {
      assert a + b == a;
    } else {
      var n := |b| - 1;
      KeyedAppend(a, b[..n], key);
      assert (a + b)[..|a + b| - 1] == a + b[..n];
    }
  }

  /** All tasks of a key are among those of its worker, and of no other. */
  lemma {:induction false} KeyedOf<T>(tasks: seq<Task<T>>, key: nat, w: nat, workers: nat)
    requires workers > 0
    ensures Keyed(Of(tasks, w, workers), key) == if w == Shard(key, workers) then Keyed(tasks, key) else []
  {
    if tasks != [] {
      var n := |tasks| - 1;
      KeyedOf(tasks[..n], key, w, workers);
      var last := if Shard(tasks[n].key, workers) == w then [tasks[n]] else [];
      KeyedAppend(Of(tasks[..n], w, workers), last, key);
      assert last != [] ==> last[..0] == [];
    }
  }

  /** In every run, the tasks of a key that have been started are the first accepted ones of that
      key, in order and once each, all on one worker; since a worker starts a task only when the
      one before has returned, they do not overlap. */
  lemma KeyOrder<T>(workers: nat, submitters: nat, labels: seq<Label<T>>, key: nat, w: nat)
    requires w < workers
    ensures var p := Run(Started(workers, submitters), labels);
            && |p.workers| == workers
            && (w == Shard(key, workers) ==>
                  Keyed(p.workers[w].started, key) + Keyed(p.workers[w].queue, key) == Keyed(p.accepted, key))
            && (w != Shard(key, workers) ==> Keyed(p.workers[w].started, key) == [] && Keyed(p.workers[w].queue, key) == [])
  {
    RunInv(workers, submitters, labels);
    var p := Run(Started(workers, submitters), labels);
    assert Accounted(p, w);
    KeyedOf(p.accepted, key, w, workers);
    KeyedAppend(p.workers[w].started, p.workers[w].queue, key);
  }

  /** Once a worker has exited, every task ever accepted for it has been run to its end, and no
      task can be accepted for it any more. */
  lemma ExitedRanAll<T>(workers: nat, submitters: nat, labels: seq<Label<T>>, w: nat, more: seq<Label<T>>)
    requires w < workers
    requires var p := Run(Started(workers, submitters), labels); |p.workers| == workers && p.workers[w].exited
    ensures var p, q := Run(Started(workers, submitters), labels), Run(Started(workers, submitters), labels + more);
            && p.workers[w].started == Of(p.accepted, w, workers) && !p.workers[w].running
            && |q.workers| == workers && q.workers[w].started == p.workers[w].started && q.workers[w].exited
            && Of(q.accepted, w, workers) == p.workers[w].started
    decreases |more|
  {
    RunInv(workers, submitters, labels);
    var p := Run(Started(workers, submitters), labels);
    assert Accounted(p, w);
    RunInv(workers, submitters, labels + more);
    var q := Run(Started(workers, submitters), labels + more);
    assert Accounted(q, w);
    if more == [] {
      assert labels + more == labels;
    } else {
      var n := |more| - 1;
      ExitedRanAll(workers, submitters, labels, w, more[..n]);
      assert (labels + more)[..|labels + more| - 1] == labels + more[..n];
      RunInv(workers, submitters, labels + more[..n]);
      StaysExited(Run(Started(workers, submitters), labels + more[..n]), more[n], w);
    }
  }

  lemma StaysExited<T>(p: Pool<T>, a: Label<T>, w: nat)
    requires Inv(p) && w < |p.workers| && p.workers[w].exited
    ensures var q := Step(p, a); |q.workers| == |p.workers| && q.workers[w].exited && q.workers[w].started == p.workers[w].started
  {
    StepInv(p, a);
  }

  // -------------------------------------------------------------- nothing gets stuck

  lemma RunOne<T>(p: Pool<T>, labels: seq<Label<T>>, a: Label<T>)
    ensures Run(p, labels + [a]) == Step(Run(p, labels), a)
  {
    assert (labels + [a])[..|labels|] == labels;
  }

  lemma {:induction false} RunBoth<T>(p: Pool<T>, a: seq<Label<T>>, b: seq<Label<T>>)
    ensures Run(p, a + b) == Run(Run(p, a), b)
  {
    if b == [] {
      assert a + b == a;
    } else {
      var n := |b| - 1;
      RunBoth(p, a, b[..n]);
      assert (a + b)[..|a + b| - 1] == a + b[..n];
    }
  }

  /** A call of submit that nobody disturbs. */
  function Submitted<T>(p: Pool<T>, i: nat, task: Task<T>): Pool<T> {
    Step(Step(Step(Step(p, Begin(i, task)), Acquire(i)), Check(i)), Push(i))
  }

  /** While the pool is not stopping the task is accepted and queued last on the worker of its key,
      and afterwards it is refused; nothing else changes. */
  lemma SubmitAlone<T>(p: Pool<T>, i: nat, task: Task<T>)
    requires At(p, i) && p.submitters[i].Outside? && p.workers[Shard(task.key, |p.workers|)].holder.None?
    ensures var q := Submitted(p, i, task);
            && q.stopped == p.stopped && |q.workers| == |p.workers| && q.submitters == p.submitters
            && q.accepted == (if p.stopped then p.accepted else p.accepted + [task])
            && forall w :: 0 <= w < |p.workers| ==>
                 q.workers[w] == if w == Shard(task.key, |p.workers|) && !p.stopped
                                 then p.workers[w].(queue := p.workers[w].queue + [task]) else p.workers[w]
  {
    SubmitSteps(p, i, task);
  }

  lemma SubmitSteps<T>(p: Pool<T>, i: nat, task: Task<T>)
    requires At(p, i) && p.submitters[i].Outside? && p.workers[Shard(task.key, |p.workers|)].holder.None?
    ensures var w := Shard(task.key, |p.workers|);
            Submitted(p, i, task)
            == if p.stopped then p
               else p.(workers := p.workers[w := p.workers[w].(queue := p.workers[w].queue + [task])],
                       accepted := p.accepted + [task])
  {
    var w := Shard(task.key, |p.workers|);
    if !p.stopped {
      var k := p.workers[w];
      var x := p.submitters[i := Checked(task)];
      assert x[i := Locked(task)][i := Passed(task)][i := Outside] == p.submitters;
      assert p.workers[w := k.(holder := Some(i))][w := k.(queue := k.queue + [task])] == p.workers[w := k.(queue := k.queue + [task])];
    }
  }

  /** The holder of a worker's lock is a submitter inside it. */
  ghost predicate HolderInside<T>(p: Pool<T>, w: nat)
    requires w < |p.workers|
  {
    p.workers[w].holder.Some? ==>
      var i := p.workers[w].holder.value;
      At(p, i) && (p.submitters[i].Locked? || p.submitters[i].Passed?) && Home(p, p.submitters[i].task) == w
  }

  lemma StepHolder<T>(p: Pool<T>, a: Label<T>, w: nat)
    requires Inv(p) && w < |p.workers| && HolderInside(p, w)
    ensures |Step(p, a).workers| == |p.workers| && HolderInside(Step(p, a), w)
  {
    StepInv(p, a);
    match a
    case Begin(_, _) =>
    case Acquire(_) =>
    case Check(j) => if At(p, j) { assert LockHeld(p, j); }
    case Push(j) => if At(p, j) { assert LockHeld(p, j); }
    case Stop =>
    case Poll(_) =>
    case Finish(_) =>
  }

  lemma {:induction false} RunHolder<T>(workers: nat, submitters: nat, labels: seq<Label<T>>, w: nat)
    requires w < workers
    ensures var p := Run(Started(workers, submitters), labels); |p.workers| == workers && HolderInside(p, w)
  {
    RunInv(workers, submitters, labels);
    if labels != [] {
      var n := |labels| - 1;
      RunHolder(workers, submitters, labels[..n], w);
      RunInv(workers, submitters, labels[..n]);
      StepHolder(Run(Started(workers, submitters), labels[..n]), labels[n], w);
    }
  }

  /** With the pool stopping and the lock free, the worker can run its queue to the end and exit. */
  lemma {:induction false} Drains<T>(p: Pool<T>, w: nat) returns (more: seq<Label<T>>)
    requires Inv(p) && w < |p.workers| && p.stopped && p.workers[w].holder.None?
    ensures var q := Run(p, more); |q.workers| == |p.workers| && q.workers[w].exited && q.accepted == p.accepted
    decreases |p.workers[w].queue|, p.workers[w].running
  {
    var k := p.workers[w];
    var none: seq<Label<T>> := [];
    if k.exited {
      more := [];
    } else {
      var a: Label<T> := if k.running then Finish(w) else Poll(w);
      StepInv(p, a);
      RunOne(p, none, a);
      assert none + [a] == [a] && Run(p, none) == p;
      if k.running || k.queue != [] {
        var rest := Drains(Step(p, a), w);
        RunBoth(p, [a], rest);
        more := [a] + rest;
      } else {
        more := [a];
      }
    }
  }

  /** From every reachable state the pool can be stopped and each worker be brought to its end, with
      every task that was ever accepted for it run: no submitter and no queue is in the way. */
  lemma CanAlwaysExit<T>(workers: nat, submitters: nat, labels: seq<Label<T>>, w: nat) returns (more: seq<Label<T>>)
    requires w < workers
    ensures var q := Run(Started(workers, submitters), labels + more);
            && |q.workers| == workers && q.stopped && q.workers[w].exited
            && q.workers[w].started == Of(q.accepted, w, workers) && !q.workers[w].running
  {
    var start: Pool<T> := Started(workers, submitters);
    var p := Run(start, labels);
    RunInv(workers, submitters, labels);
    RunHolder(workers, submitters, labels, w);
    var leave := LeavesLock(p, w);
    RunBoth(start, labels, leave);
    RunInv(workers, submitters, labels + leave);
    var rest := Drains(Run(p, leave), w);
    RunBoth(p, leave, rest);
    more := leave + rest;
    RunBoth(start, labels, more);
    RunInv(workers, submitters, labels + more);
    assert Accounted(Run(start, labels + more), w);
  }

  /** Stop, and let whoever is inside the lock of w leave it. */
  lemma LeavesLock<T>(p: Pool<T>, w: nat) returns (more: seq<Label<T>>)
    requires Inv(p) && w < |p.workers| && HolderInside(p, w)
    ensures var q := Run(p, more); |q.workers| == |p.workers| && q.stopped && q.workers[w].holder.None?
  {
    var stop: Label<T> := Stop;
    var none: seq<Label<T>> := [];
    RunOne(p, none, stop);
    assert none + [stop] == [stop] && Run(p, none) == p;
    more := [stop];
    if p.workers[w].holder.Some? {
      var i := p.workers[w].holder.value;
      var a: Label<T> := if p.submitters[i].Locked? then Check(i) else Push(i);
      RunOne(p, [stop], a);
      more := [stop] + [a];
    }
  }
}
