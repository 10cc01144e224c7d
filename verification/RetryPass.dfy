/** One round of deliveryLoop when nothing else runs: as a function of the world, as the end of every
    run of the transition system's retry thread, and what it does to every overdue message. */
module RetryPass {
  import opened Ledger
  import opened Scans
  import opened Delivery
  import opened Solo
  import opened Handlers
  import opened HandlerRuns
  import Scripts = Ledger
  import UserState

  predicate Live(users: UserState.Table, r: Record, t: Tick) {
    UserState.ConnOf(users, r.toUid).Some? && t.up
  }

  /** retryDeliverMessage. */
  function Redeliver(w: World, r: Record, t: Tick): World {
    if r.status == Acked || r.status == Failed then w
    else if !Live(w.users, r, t) then w.(ledger := Scripts.MarkPending(w.ledger, r.msgId))
    else w.(ledger := Scripts.MarkDelivered(IncrementRetry(w.ledger, r.msgId), r.msgId, t.now),
            sent := w.sent + [Outgoing(UserState.ConnOf(w.users, r.toUid).value, PushOf(r, false))])
  }

  /** The body of the loop over the timeout records. */
  function RetryOne(w: World, r: Record, t: Tick): World {
    if r.retryCount >= MaxRetryCount then w.(ledger := Scripts.MarkFailed(w.ledger, r.msgId)) else Redeliver(w, r, t)
  }

  function RetryAll(w: World, rs: seq<Record>, env: nat -> Tick): World {
    if rs == [] then w else RetryOne(RetryAll(w, rs[..|rs| - 1], env), rs[|rs| - 1], env(|rs| - 1))
  }

  lemma RetryAllNext(w: World, rs: seq<Record>, env: nat -> Tick, k: nat)
    requires k < |rs|
    ensures RetryAll(w, rs[..k + 1], env) == RetryOne(RetryAll(w, rs[..k], env), rs[k], env(k))
  {
    assert rs[..k + 1][..k] == rs[..k];
  }

  ghost function Pass(w: World, now: nat, env: nat -> Tick): World {
    RetryAll(w, QuietScan(w.ledger, Overdue(now, AckTimeoutMs)), env)
  }

  // ------------------------------------------------- a pass is a run of the thread

  /** One record takes one to four steps. */
  lemma RetryRuns(w: World, r: Record, rest: seq<Record>, ticks: Ticks) returns (n: nat, t: Tick)
    ensures n > 0 && Leads(Retrying(RetryNext([r] + rest), w), ticks, n, Retrying(RetryNext(rest), RetryOne(w, r, t)))
    ensures Given(t, ticks)
  {
    var a := Retrying(RetryNext([r] + rest), w);
    assert ([r] + rest)[1..] == rest;
    LeadsOne(a, ticks);
    n, t := 1, ticks(0);
    GivenAt(ticks, 0, 0);
    var b := Tock(a, ticks(0));
    if b.thread.pass.RetryCount? {
      t := Tick(ticks(3).now, ticks(0).up);
      GivenAt(ticks, 3, 0);
      CountPushMark(w, r, rest, Shift(ticks, 1));
      LeadsVia(a, ticks, 1, b, 3, Retrying(RetryNext(rest), Redeliver(w, r, t)));
      n := 4;
    } else if b.thread.pass != RetryNext(rest) {
      LeadsNext(a, ticks, 1, b);
      n := 2;
    }
  }

  lemma CountPushMark(w: World, r: Record, rest: seq<Record>, ticks: Ticks)
    requires UserState.ConnOf(w.users, r.toUid).Some? && r.status != Acked && r.status != Failed
    ensures Leads(Retrying(RetryCount(UserState.ConnOf(w.users, r.toUid).value, [r] + rest), w), ticks, 3,
                  Retrying(RetryNext(rest), Redeliver(w, r, Tick(ticks(2).now, true))))
  {
    var b := Retrying(RetryCount(UserState.ConnOf(w.users, r.toUid).value, [r] + rest), w);
    assert ([r] + rest)[1..] == rest;
    LeadsOne(b, ticks);
    var c := Tock(b, ticks(0));
    LeadsNext(b, ticks, 1, c);
    LeadsNext(b, ticks, 2, Tock(c, ticks(1)));
  }

  lemma {:induction false} RetryAllLocal(w: World, rs: seq<Record>, env: nat -> Tick, k: nat, t: Tick)
    requires |rs| <= k
    ensures RetryAll(w, rs, Update(env, k, t)) == RetryAll(w, rs, env)
  {
    if rs != [] { RetryAllLocal(w, rs[..|rs| - 1], env, k, t); }
  }

  lemma RetryAllStep(w: World, rs: seq<Record>, env: nat -> Tick, k: nat, t: Tick)
    requires k < |rs|
    ensures RetryAll(w, rs[..k + 1], Update(env, k, t)) == RetryOne(RetryAll(w, rs[..k], env), rs[k], t)
  {
    assert rs[..k + 1][..k] == rs[..k];
    RetryAllLocal(w, rs[..k], env, k, t);
  }

  lemma RetryThen(start: Machine, ticks: Ticks, m: nat, v: World, r: Record, rest: seq<Record>) returns (n: nat, t: Tick)
    requires Leads(start, ticks, m, Retrying(RetryNext([r] + rest), v))
    ensures Leads(start, ticks, n, Retrying(RetryNext(rest), RetryOne(v, r, t)))
    ensures Given(t, ticks)
  {
    var d;
    d, t := RetryRuns(v, r, rest, Shift(ticks, m));
    GivenLater(t, ticks, m);
    n := m + d;
    LeadsVia(start, ticks, m, Retrying(RetryNext([r] + rest), v), d, Retrying(RetryNext(rest), RetryOne(v, r, t)));
  }

  lemma {:induction false} RetryAllRuns(w: World, rs: seq<Record>, ticks: Ticks, k: nat) returns (n: nat, env: nat -> Tick)
    requires k <= |rs|
    ensures Leads(Retrying(RetryNext(rs), w), ticks, n, Retrying(RetryNext(rs[k..]), RetryAll(w, rs[..k], env)))
    ensures AllGiven(env, ticks)
  {
    if k == 0 {
      assert rs[0..] == rs;
      n, env := 0, Always(ticks(0));
      AlwaysGiven(ticks, 0);
      LeadsSelf(Retrying(RetryNext(rs), w), ticks);
    } else {
      var m, e := RetryAllRuns(w, rs, ticks, k - 1);
      assert rs[k - 1..] == [rs[k - 1]] + rs[k..];
      var t;
      n, t := RetryThen(Retrying(RetryNext(rs), w), ticks, m, RetryAll(w, rs[..k - 1], e), rs[k - 1], rs[k..]);
      env := Update(e, k - 1, t);
      GivenUpdate(e, k - 1, t, ticks);
      RetryAllStep(w, rs, e, k - 1, t);
    }
  }

  lemma {:induction false} FetchRuns(w: World, now: nat, ids: seq<MsgId>, views: seq<Ledger>, ticks: Ticks, k: nat)
    requires |views| == |ids| + 1 && (forall i :: 0 <= i < |views| ==> views[i] == w.ledger) && k <= |ids|
    ensures Leads(Retrying(OverdueFetch(now, ids, []), w), ticks, k,
                  Retrying(OverdueFetch(now, ids[k..], Kept(Answers(views, ids)[..k], Overdue(now, AckTimeoutMs))), w))
  {
    var start, q := Retrying(OverdueFetch(now, ids, []), w), Overdue(now, AckTimeoutMs);
    if k == 0 {
      assert ids[0..] == ids && Answers(views, ids)[..0] == [];
      LeadsSelf(start, ticks);
    } else {
      FetchRuns(w, now, ids, views, ticks, k - 1);
      KeepIsKept(w.ledger, q, ids, views, k - 1);
      assert ids[k - 1..][1..] == ids[k..];
      LeadsNext(start, ticks, k - 1, Retrying(OverdueFetch(now, ids[k - 1..], Kept(Answers(views, ids)[..k - 1], q)), w));
    }
  }

  lemma ScanRuns(w: World, now: nat, ticks: Ticks) returns (n: nat)
    ensures Leads(Retrying(OverdueRead(now), w), ticks, n,
                  Retrying(RetryNext(QuietScan(w.ledger, Overdue(now, AckTimeoutMs))), w))
  {
    var a, q := Retrying(OverdueRead(now), w), Overdue(now, AckTimeoutMs);
    var ids, views := Listed(w.ledger, q), Still(w.ledger, q);
    LeadsOne(a, ticks);
    FetchRuns(w, now, ids, views, Shift(ticks, 1), |ids|);
    assert ids[|ids|..] == [] && Answers(views, ids)[..|ids|] == Answers(views, ids);
    var b := Retrying(OverdueFetch(now, [], QuietScan(w.ledger, q)), w);
    LeadsVia(a, ticks, 1, Retrying(OverdueFetch(now, ids, []), w), |ids|, b);
    LeadsNext(a, ticks, |ids| + 1, b);
    n := |ids| + 2;
  }

  /** Whatever the clock and connected() answer, a pass that runs alone comes to an end, and the
      world is then what the pass's function says for answers among these. */
  lemma PassIsRun(w: World, now: nat, ticks: Ticks) returns (n: nat, env: nat -> Tick)
    ensures Leads(Retrying(OverdueRead(now), w), ticks, n, Retrying(Sleeping, Pass(w, now, env)))
    ensures AllGiven(env, ticks)
  {
    var a, rs := Retrying(OverdueRead(now), w), QuietScan(w.ledger, Overdue(now, AckTimeoutMs));
    var m := ScanRuns(w, now, ticks);
    var d;
    d, env := RetryAllRuns(w, rs, Shift(ticks, m), |rs|);
    AllGivenLater(env, ticks, m);
    assert rs[|rs|..] == [] && rs[..|rs|] == rs;
    LeadsVia(a, ticks, m, Retrying(RetryNext(rs), w), d, Retrying(RetryNext([]), Pass(w, now, env)));
    PassEnds(a, ticks, m + d, Pass(w, now, env));
    n := m + d + 1;
  }

  lemma PassEnds(a: Machine, ticks: Ticks, n: nat, v: World)
    requires Leads(a, ticks, n, Retrying(RetryNext([]), v))
    ensures Leads(a, ticks, n + 1, Retrying(Sleeping, v))
  {
    LeadsNext(a, ticks, n, Retrying(RetryNext([]), v));
  }

  // ---------------------------------------------------- what a pass does

  /** Where an overdue record ends up: Failed once its retries are used up, pushed again with
      one more retry while its receiver is reachable, back to Pending otherwise. */
  function Outcome(users: UserState.Table, r: Record, t: Tick): Record {
    if r.retryCount >= MaxRetryCount then r.(status := Failed)
    else if !Live(users, r, t) then r.(status := Pending)
    else r.(status := Delivered, deliveredAt := t.now, retryCount := r.retryCount + 1)
  }

  function Outcomes(users: UserState.Table, rs: seq<Record>, env: nat -> Tick): seq<Record> {
    seq(|rs|, k requires 0 <= k < |rs| => Outcome(users, rs[k], env(k)))
  }

  function RetryPushes(users: UserState.Table, rs: seq<Record>, env: nat -> Tick): seq<Outgoing> {
    if rs == [] then []
    else
      var n := |rs| - 1;
      RetryPushes(users, rs[..n], env)
      + if rs[n].retryCount < MaxRetryCount && Live(users, rs[n], env(n))
        then [Outgoing(UserState.ConnOf(users, rs[n].toUid).value, PushOf(rs[n], false))] else []
  }

  ghost predicate AllDelivered(rs: seq<Record>) {
    forall k :: 0 <= k < |rs| ==> rs[k].status == Delivered
  }

  lemma {:induction false} RetryAllSent(w: World, rs: seq<Record>, env: nat -> Tick)
    requires AllDelivered(rs)
    ensures RetryAll(w, rs, env).users == w.users
    ensures RetryAll(w, rs, env).sent == w.sent + RetryPushes(w.users, rs, env)
  {
    if rs != [] { RetryAllSent(w, rs[..|rs| - 1], env); }
  }

  lemma OutcomesGrow(l: Ledger, m: Ledger, x: Ledger, users: UserState.Table, rs: seq<Record>, env: nat -> Tick)
    requires rs != [] && Current(l, rs) && Replaces(l, m, rs[..|rs| - 1], Outcomes(users, rs[..|rs| - 1], env))
    requires var r := rs[|rs| - 1]; r.msgId in m.msgs && x.msgs == m.msgs[r.msgId := Outcome(users, r, env(|rs| - 1))]
    ensures Replaces(l, x, rs, Outcomes(users, rs, env))
  {
    CurrentPrefix(l, rs);
    assert Outcomes(users, rs, env)[..|rs| - 1] == Outcomes(users, rs[..|rs| - 1], env);
    BatchGrows(l, m, x, rs, Outcomes(users, rs, env));
  }

  lemma RetryOneEffect(w: World, r: Record, t: Tick)
    requires r.msgId in w.ledger.msgs && w.ledger.msgs[r.msgId] == r && r.status == Delivered
    ensures RetryOne(w, r, t).ledger.msgs == w.ledger.msgs[r.msgId := Outcome(w.users, r, t)]
  {
  }

  lemma {:induction false} RetryAllEffect(w: World, rs: seq<Record>, env: nat -> Tick)
    requires Current(w.ledger, rs) && AllDelivered(rs)
    ensures Replaces(w.ledger, RetryAll(w, rs, env).ledger, rs, Outcomes(w.users, rs, env))
  {
    if rs != [] {
      var n := |rs| - 1;
      CurrentPrefix(w.ledger, rs);
      RetryAllEffect(w, rs[..n], env);
      RetryAllSent(w, rs[..n], env);
      var u := RetryAll(w, rs[..n], env);
      StillCurrent(w.ledger, u.ledger, rs, Outcomes(w.users, rs[..n], env));
      RetryOneEffect(u, rs[n], env(n));
      OutcomesGrow(w.ledger, u.ledger, RetryAll(w, rs, env).ledger, w.users, rs, env);
    }
  }

  /** A pass run alone treats exactly the messages overdue at its start, each according to its
      retry count and whether its receiver is reachable, and touches no other message. */
  lemma PassEffect(w: World, now: nat, env: nat -> Tick)
    requires Consistent(w.ledger)
    ensures var rs, v := QuietScan(w.ledger, Overdue(now, AckTimeoutMs)), Pass(w, now, env);
            && ExactlySorted(w.ledger, Overdue(now, AckTimeoutMs), rs)
            && Replaces(w.ledger, v.ledger, rs, Outcomes(w.users, rs, env))
            && v.sent == w.sent + RetryPushes(w.users, rs, env)
            && v.users == w.users
  {
    var rs := QuietScan(w.ledger, Overdue(now, AckTimeoutMs));
    QuietScanExact(w.ledger, Overdue(now, AckTimeoutMs));
    RetryAllSent(w, rs, env);
    RetryAllEffect(w, rs, env);
  }

  lemma {:induction false} RetryAllConsistent(w: World, rs: seq<Record>, env: nat -> Tick)
    requires Consistent(w.ledger)
    ensures Consistent(RetryAll(w, rs, env).ledger)
  {
    if rs != [] {
      var n := |rs| - 1;
      RetryAllConsistent(w, rs[..n], env);
      RetryOneConsistent(RetryAll(w, rs[..n], env), rs[n], env(n));
    }
  }

  lemma RetryOneConsistent(w: World, r: Record, t: Tick)
    requires Consistent(w.ledger)
    ensures Consistent(RetryOne(w, r, t).ledger)
  {
    if r.retryCount >= MaxRetryCount {
      FailedConsistent(w.ledger, r.msgId);
    } else if r.status == Acked || r.status == Failed {
    } else if !Live(w.users, r, t) {
      PendingConsistent(w.ledger, r.msgId);
    } else {
      RetryConsistent(w.ledger, r.msgId);
      DeliveredConsistent(IncrementRetry(w.ledger, r.msgId), r.msgId, t.now);
    }
  }

  /** A pass keeps every message in the index of its status. */
  lemma PassConsistent(w: World, now: nat, env: nat -> Tick)
    requires Consistent(w.ledger)
    ensures Consistent(Pass(w, now, env).ledger)
  {
    RetryAllConsistent(w, QuietScan(w.ledger, Overdue(now, AckTimeoutMs)), env);
  }
}
