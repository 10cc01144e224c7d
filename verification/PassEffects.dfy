/** What one round of deliveryLoop does when nothing else runs, message by message. */
module PassEffects {
  import opened Options
  import opened Ledger
  import opened Scans
  import opened Delivery
  import opened Solo
  import opened Handlers
  import opened RetryPass
  import QueryResults
  import UserState

  /** Delivered ten seconds ago or earlier. */
  predicate TenSecondsOut(r: Record, now: nat) {
    r.status == Delivered && 0 < r.deliveredAt && r.deliveredAt + 10000 <= now
  }

  /** What the pass makes of an overdue record r when the world answers t at its turn. */
  ghost predicate BecomesAt(users: UserState.Table, r: Record, t: Tick, x: Record) {
    if r.retryCount >= 3 then x == r.(status := Failed)
    else if UserState.ConnOf(users, r.toUid).Some? && t.up
    then x == r.(status := Delivered, deliveredAt := t.now, retryCount := r.retryCount + 1)
    else x == r.(status := Pending)
  }

  ghost predicate Becomes(users: UserState.Table, r: Record, env: nat -> Tick, x: Record) {
    exists k: nat :: BecomesAt(users, r, env(k), x)
  }

  /** rs are the messages out for ten seconds, each once. */
  ghost predicate AllOverdue(l: Ledger, rs: seq<Record>, now: nat) {
    && Current(l, rs) && (forall k :: 0 <= k < |rs| ==> TenSecondsOut(rs[k], now))
    && (forall id :: id in l.msgs && TenSecondsOut(l.msgs[id], now) ==> Names(rs, id))
  }

  lemma OverdueBatch(l: Ledger, now: nat)
    requires Consistent(l)
    ensures AllOverdue(l, QuietScan(l, Overdue(now, AckTimeoutMs)), now)
  {
    var rs := QuietScan(l, Overdue(now, AckTimeoutMs));
    QuietScanExact(l, Overdue(now, AckTimeoutMs));
    QueryResults.OverdueIs(l, now, AckTimeoutMs);
    forall id | id in l.msgs && TenSecondsOut(l.msgs[id], now) ensures Names(rs, id) {
      QueryResults.AllStored(l, id);
      assert l.msgs[id] in rs;
    }
  }

  /** Where id stands in the batch, or |rs|: what has become of it. */
  lemma Place(l: Ledger, m: Ledger, users: UserState.Table, rs: seq<Record>, env: nat -> Tick, id: MsgId) returns (k: nat)
    requires Replaces(l, m, rs, Outcomes(users, rs, env)) && Current(l, rs) && id in l.msgs
    ensures id in m.msgs
    ensures k < |rs| ==> rs[k] == l.msgs[id] && rs[k].msgId == id && m.msgs[id] == Outcome(users, l.msgs[id], env(k))
    ensures k >= |rs| ==> !Names(rs, id) && m.msgs[id] == l.msgs[id]
  {
    if Names(rs, id) {
      k :| 0 <= k < |rs| && rs[k].msgId == id;
      assert m.msgs[rs[k].msgId] == Outcomes(users, rs, env)[k];
    } else {
      k := |rs|;
    }
  }

  lemma OneChanges(users: UserState.Table, r: Record, env: nat -> Tick, k: nat)
    requires r.status == Delivered
    ensures Outcome(users, r, env(k)) != r && Becomes(users, r, env, Outcome(users, r, env(k)))
  {
    assert BecomesAt(users, r, env(k), Outcome(users, r, env(k)));
  }

  /** A pass changes every message that was delivered ten seconds ago or earlier, however long ago,
      and no other message; each becomes Failed, Delivered with one more retry, or Pending. */
  lemma PassChanges(w: World, now: nat, env: nat -> Tick)
    requires Consistent(w.ledger)
    ensures var v := Pass(w, now, env);
            && (forall id :: id in v.ledger.msgs <==> id in w.ledger.msgs)
            && forall id :: id in w.ledger.msgs ==>
                 var r, x := w.ledger.msgs[id], v.ledger.msgs[id];
                 && (x != r <==> r.status == Delivered && 0 < r.deliveredAt && r.deliveredAt + 10000 <= now)
                 && (x != r ==> Becomes(w.users, r, env, x))
  {
    PassEffect(w, now, env);
    OverdueBatch(w.ledger, now);
    var v, rs := Pass(w, now, env), QuietScan(w.ledger, Overdue(now, AckTimeoutMs));
    forall id | id in w.ledger.msgs
      ensures id in v.ledger.msgs
      ensures var r, x := w.ledger.msgs[id], v.ledger.msgs[id];
              (x != r <==> TenSecondsOut(r, now)) && (x != r ==> Becomes(w.users, r, env, x))
    {
      var k := Place(w.ledger, v.ledger, w.users, rs, env, id);
      if k < |rs| { OneChanges(w.users, rs[k], env, k); }
    }
  }

  /** retryDeliverMessage, whatever has become of the message since r was read: a final record is left
      alone, one that cannot be reached waits again, any other is pushed and has one more retry. */
  ghost predicate Redelivered(w: World, v: World, r: Record, t: Tick) {
    var there, final := UserState.ConnOf(w.users, r.toUid), r.status == Acked || r.status == Failed;
    && (final ==> v == w)
    && v.sent == w.sent + (if !final && there.Some? && t.up
                           then [Outgoing(there.value, Push(r.msgId, r.fromUid, r.toUid, r.content, false))] else [])
    && (!final && r.msgId in w.ledger.msgs ==>
          var m := w.ledger.msgs[r.msgId];
          v.ledger.msgs == w.ledger.msgs[r.msgId :=
            if there.Some? && t.up then m.(status := Delivered, deliveredAt := t.now, retryCount := m.retryCount + 1)
            else m.(status := Pending)])
  }

  lemma RedeliverEffect(w: World, r: Record, t: Tick)
    ensures Redelivered(w, Redeliver(w, r, t), r, t)
  {
  }

  // ---------------------------------------------------------------- what it sends

  predicate PushedAgain(r: Record, x: Record) {
    x.retryCount == r.retryCount + 1
  }

  /** o is a push of r on its receiver's connection, not marked as history. */
  predicate PushFor(users: UserState.Table, r: Record, o: Outgoing) {
    && UserState.ConnOf(users, r.toUid) == Some(o.conn)
    && o.packet == Push(r.msgId, r.fromUid, r.toUid, r.content, false)
  }

  /** o pushes a message that has one more retry in m. */
  ghost predicate ForRetried(l: Ledger, m: Ledger, users: UserState.Table, o: Outgoing) {
    exists id :: id in l.msgs && id in m.msgs && PushedAgain(l.msgs[id], m.msgs[id]) && PushFor(users, l.msgs[id], o)
  }

  ghost predicate IsPushed(users: UserState.Table, r: Record, sent: seq<Outgoing>) {
    exists o :: o in sent && PushFor(users, r, o)
  }

  /** A pass sends a push for exactly the messages it retries, with the message's own content and on
      the connection of its receiver. */
  lemma PassSends(w: World, now: nat, env: nat -> Tick)
    requires Consistent(w.ledger)
    ensures var v := Pass(w, now, env);
            && w.sent <= v.sent
            && (forall o :: o in v.sent[|w.sent|..] ==> ForRetried(w.ledger, v.ledger, w.users, o))
            && (forall id :: id in w.ledger.msgs && id in v.ledger.msgs && PushedAgain(w.ledger.msgs[id], v.ledger.msgs[id]) ==>
                  IsPushed(w.users, w.ledger.msgs[id], v.sent[|w.sent|..]))
  {
    PassEffect(w, now, env);
    OverdueBatch(w.ledger, now);
    var v, rs := Pass(w, now, env), QuietScan(w.ledger, Overdue(now, AckTimeoutMs));
    var pushes := RetryPushes(w.users, rs, env);
    assert v.sent[|w.sent|..] == pushes;
    forall o | o in pushes ensures ForRetried(w.ledger, v.ledger, w.users, o) {
      var k := PushOrigin(w.users, rs, env, pushes, o);
      SentForRetried(w.ledger, v.ledger, w.users, rs, env, k, o);
    }
    forall id | id in w.ledger.msgs && id in v.ledger.msgs && PushedAgain(w.ledger.msgs[id], v.ledger.msgs[id])
      ensures IsPushed(w.users, w.ledger.msgs[id], pushes)
    {
      var k := Place(w.ledger, v.ledger, w.users, rs, env, id);
      PushMade(w.users, rs, env, k);
    }
  }

  lemma SentForRetried(l: Ledger, m: Ledger, users: UserState.Table, rs: seq<Record>, env: nat -> Tick, k: nat, o: Outgoing)
    requires Replaces(l, m, rs, Outcomes(users, rs, env)) && Current(l, rs) && k < |rs|
    requires rs[k].retryCount < MaxRetryCount && Live(users, rs[k], env(k)) && PushFor(users, rs[k], o)
    ensures ForRetried(l, m, users, o)
  {
    var id := rs[k].msgId;
    assert m.msgs[id] == Outcomes(users, rs, env)[k];
    assert l.msgs[id] == rs[k];
  }

  lemma {:induction false} PushOrigin(users: UserState.Table, rs: seq<Record>, env: nat -> Tick, pushes: seq<Outgoing>, o: Outgoing)
      returns (k: nat)
    requires pushes == RetryPushes(users, rs, env) && o in pushes
    ensures k < |rs| && rs[k].retryCount < MaxRetryCount && Live(users, rs[k], env(k)) && PushFor(users, rs[k], o)
  {
    var n := |rs| - 1;
    var before := RetryPushes(users, rs[..n], env);
    if o in before { k := PushOrigin(users, rs[..n], env, before, o); } else { k := n; }
  }

  lemma {:induction false} PushMade(users: UserState.Table, rs: seq<Record>, env: nat -> Tick, k: nat)
    requires k < |rs| && rs[k].retryCount < MaxRetryCount && Live(users, rs[k], env(k))
    ensures IsPushed(users, rs[k], RetryPushes(users, rs, env))
  {
    var n := |rs| - 1;
    var before, all := RetryPushes(users, rs[..n], env), RetryPushes(users, rs, env);
    if k < n {
      PushMade(users, rs[..n], env, k);
      var o :| o in before && PushFor(users, rs[k], o);
      assert o in all;
    } else {
      var o := Outgoing(UserState.ConnOf(users, rs[n].toUid).value, PushOf(rs[n], false));
      assert o in all && PushFor(users, rs[k], o);
    }
  }
}
