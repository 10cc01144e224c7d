/** The client's retransmission of unacknowledged requests: linear backoff, a bounded number of
    retries, 64-bit clock arithmetic. Sending threads, the receiver and the retry thread
    interleave at every critical section, every send and every reading of the clock. */
module ClientRetry {
  import opened Options

  const BaseRetryTimeoutMs := 2000
  const MaxRetryCount := 5
  const RetryScanIntervalMs := 1000
  const TwoTo64 := 0x1_0000_0000_0000_0000

  /** What nowMs() returns. */
  type Ms = n: nat | n < 0x1_0000_0000_0000_0000

  datatype Envelope = ChatRequest(seqNo: nat, from: nat, to: nat, content: string, clientMsgId: string)

  datatype Pending = Pending(envelope: Envelope, lastSendMs: Ms, retryCount: nat)

  /** now - last on unsigned 64-bit words: a reading behind last gives a huge difference. */
  function Elapsed(now: Ms, last: Ms): nat {
    (now - last) % TwoTo64
  }

  function Wait(p: Pending): nat {
    BaseRetryTimeoutMs * (p.retryCount + 1)
  }

  predicate Due(p: Pending, now: Ms) {
    Elapsed(now, p.lastSendMs) >= Wait(p)
  }

  predicate Resends(p: Pending, now: Ms) { Due(p, now) && p.retryCount < MaxRetryCount }
  predicate GivesUp(p: Pending, now: Ms) { Due(p, now) && p.retryCount >= MaxRetryCount }

  function Retried(p: Pending, now: Ms): Pending {
    if Resends(p, now) then p.(retryCount := p.retryCount + 1, lastSendMs := now) else p
  }

  /** The table after a scan. */
  function Scanned(m: map<nat, Pending>, now: Ms): map<nat, Pending> {
    map n | n in m && !GivesUp(m[n], now) :: Retried(m[n], now)
  }

  /** The requests a scan sends again. */
  function Resent(m: map<nat, Pending>, now: Ms): set<(nat, Envelope)> {
    set n | n in m && Resends(m[n], now) :: (n, m[n].envelope)
  }

  // ------------------------------------------------------------ all interleavings

  /** clock is what the retry thread has read for the scan to come; outbox holds what some thread is
      about to send. born, retries and dropped are history: when and with which envelope a request
      was registered, how often a scan chose it, and when it was given up. */
  datatype State = State(
    pending: map<nat, Pending>, nextSeq: nat, clock: Option<Ms>,
    outbox: multiset<(nat, Envelope)>, sent: multiset<(nat, Envelope)>,
    born: map<nat, (Ms, Envelope)>, retries: map<nat, nat>, dropped: map<nat, Ms>)

  const Init := State(map[], 2, None, multiset{}, multiset{}, map[], map[], map[])

  datatype Label =
    | Send(envelope: Envelope, now: Ms)           // sendMessage registers the request
    | Acked(n: nat)                               // an ACK, or the clean-up after a failed send
    | ReadClock(now: Ms)                          // retryLoop reads the clock, before it locks
    | Scan                                        // and makes one pass under the lock
    | Transmit(n: nat, envelope: Envelope)
    | Discard(n: nat, envelope: Envelope)         // the send fails, or the client stops first
    | Restart                                     // startClient

  function ScanStep(s: State, now: Ms): State {
    s.(pending := Scanned(s.pending, now),
       clock := None,
       outbox := s.outbox + multiset(Resent(s.pending, now)),
       retries := map n | n in s.retries ::
                    if n in s.pending && Resends(s.pending[n], now) then s.retries[n] + 1 else s.retries[n],
       dropped := s.dropped + map n | n in s.pending && GivesUp(s.pending[n], now) :: now)
  }

  function SendStep(s: State, e: Envelope, now: Ms): State {
    var n := s.nextSeq;
    s.(pending := s.pending[n := Pending(e, now, 0)], nextSeq := n + 1, outbox := s.outbox + multiset{(n, e)},
       born := s.born[n := (now, e)], retries := s.retries[n := 0])
  }

  function Step(s: State, a: Label): State {
    match a
    case Send(e, now) => SendStep(s, e, now)
    case Acked(n) => s.(pending := s.pending - {n})
    case ReadClock(now) => if s.clock.Some? then s else s.(clock := Some(now))
    case Scan => if s.clock.Some? then ScanStep(s, s.clock.value) else s
    case Transmit(n, e) =>
      if (n, e) !in s.outbox then s
      else s.(outbox := s.outbox - multiset{(n, e)}, sent := s.sent + multiset{(n, e)})
    case Discard(n, e) => s.(outbox := s.outbox - multiset{(n, e)})
    case Restart => s.(pending := map[])
  }

  function Run(labels: seq<Label>): State {
    if labels == [] then Init else Step(Run(labels[..|labels| - 1]), labels[|labels| - 1])
  }

  // ------------------------------------------------------------------ the object

  class Client {
    var pendingAcks: map<nat, Pending>
    var nextSeq: nat
    var clock: Option<Ms>
    ghost var outbox: multiset<(nat, Envelope)>
    ghost var sent: multiset<(nat, Envelope)>
    ghost var born: map<nat, (Ms, Envelope)>
    ghost var retries: map<nat, nat>
    ghost var dropped: map<nat, Ms>

    ghost function View(): State
      reads this
    {
      State(pendingAcks, nextSeq, clock, outbox, sent, born, retries, dropped)
    }

    constructor ()
      ensures View() == Init
      ensures pendingAcks == map[] && nextSeq == 2 && clock == None && outbox == sent == multiset{}
    {
      pendingAcks, nextSeq, clock := map[], 2, None;
      outbox, sent, born, retries, dropped := multiset{}, multiset{}, map[], map[], map[];
    }

    /** sendMessage up to the send: the request is registered before it goes out. */
    method Register(envelope: Envelope, now: Ms) returns (n: nat)
      modifies this
      ensures View() == Step(old(View()), Send(envelope, now))
      ensures n == old(nextSeq) && nextSeq == n + 1 && n in pendingAcks && pendingAcks[n] == Pending(envelope, now, 0)
      ensures forall k :: k != n ==> (k in pendingAcks <==> k in old(pendingAcks))
                                     && (k in pendingAcks ==> pendingAcks[k] == old(pendingAcks)[k])
      ensures outbox == old(outbox) + multiset{(n, envelope)} && sent == old(sent)
    {
      n := nextSeq;
      nextSeq := nextSeq + 1;
      pendingAcks := pendingAcks[n := Pending(envelope, now, 0)];
      outbox := outbox + multiset{(n, envelope)};
      born, retries := born[n := (now, envelope)], retries[n := 0];
    }

    /** handleAck, and the clean-up after a failed send. */
    method Erase(n: nat)
      modifies this
      ensures View() == Step(old(View()), Acked(n))
      ensures n !in pendingAcks
      ensures forall k :: k != n ==> (k in pendingAcks <==> k in old(pendingAcks))
                                     && (k in pendingAcks ==> pendingAcks[k] == old(pendingAcks)[k])
      ensures outbox == old(outbox) && sent == old(sent)
    {
      pendingAcks := pendingAcks - {n};
    }

    /** retryLoop up to the lock. */
    method BeginScan(now: Ms)
      requires clock == None
      modifies this
      ensures View() == Step(old(View()), ReadClock(now))
    {
      clock := Some(now);
    }

    /** The critical section of retryLoop: one pass over the table, in any order, erasing and
        updating as it goes. */
    method FinishScan() returns (messages: seq<(nat, Envelope)>)
      requires clock.Some?
      modifies this
      ensures View() == Step(old(View()), Scan)
      ensures multiset(messages) == multiset(Resent(old(pendingAcks), old(clock).value))
      ensures clock == None && outbox == old(outbox) + multiset(messages) && sent == old(sent)
      ensures forall n :: n in pendingAcks ==> n in old(pendingAcks)
      ensures forall n :: n in old(pendingAcks) ==> Treated(old(pendingAcks)[n], n, old(clock).value, pendingAcks, messages)
    {
      ghost var after := ScanStep(View(), clock.value);
      messages := ScanTable(clock.value);
      outbox := outbox + multiset(messages);
      retries, dropped := after.retries, after.dropped;
      clock := None;
    }

    method ScanTable(now: Ms) returns (messages: seq<(nat, Envelope)>)
      modifies this`pendingAcks
      ensures pendingAcks == Scanned(old(pendingAcks), now)
      ensures multiset(messages) == multiset(Resent(old(pendingAcks), now))
      ensures forall n :: n in pendingAcks ==> n in old(pendingAcks)
      ensures forall n :: n in old(pendingAcks) ==> Treated(old(pendingAcks)[n], n, now, pendingAcks, messages)
    {
      messages := [];
      SeenTreated(pendingAcks, now);
      ghost var before := pendingAcks;
      var todo := pendingAcks.Keys;
      while todo != {}
        invariant todo <= before.Keys
        invariant HalfScanned(before, todo, pendingAcks, now)
        invariant multiset(messages) == multiset(Resent(Seen(before, todo), now))
      {
        var n :| n in todo;
        var p := pendingAcks[n];
        SeeOne(before, todo, n, now);
        HalfNext(before, todo, pendingAcks, n, now);
        todo := todo - {n};
        if Elapsed(now, p.lastSendMs) < BaseRetryTimeoutMs * (p.retryCount + 1) { continue; }
        if p.retryCount >= MaxRetryCount {
          pendingAcks := pendingAcks - {n};
          continue;
        }
        pendingAcks := pendingAcks[n := p.(retryCount := p.retryCount + 1, lastSendMs := now)];
        messages := messages + [(n, p.envelope)];
      }
      assert Seen(before, {}) == before;
      SameMessages(messages, Resent(before, now));
    }
  }

  /** What a scan that reads now does with an entry p of the table: it waits for 2, 4, 6, 8, 10 and
      12 seconds, one more retry after each of the first five, and is dropped after the last. A
      reading behind the last send counts as one that is far ahead. */
  ghost predicate Treated(p: Pending, n: nat, now: Ms, after: map<nat, Pending>, messages: seq<(nat, Envelope)>) {
    var waiting := p.lastSendMs <= now < p.lastSendMs + 2000 * (p.retryCount + 1)
                   || now + 0x1_0000_0000_0000_0000 < p.lastSendMs + 2000 * (p.retryCount + 1);
    if waiting then n in after && after[n] == p && (n, p.envelope) !in messages
    else if p.retryCount < 5 then n in after && after[n] == Pending(p.envelope, now, p.retryCount + 1) && (n, p.envelope) in messages
    else n !in after && (n, p.envelope) !in messages
  }

  lemma SeenTreated(m: map<nat, Pending>, now: Ms)
    ensures forall n, messages: seq<(nat, Envelope)> :: n in m && (forall x :: x in messages <==> x in Resent(m, now)) ==>
              Treated(m[n], n, now, Scanned(m, now), messages)
  {
    forall n | n in m ensures Due(m[n], now) <==> Waited(m[n], now) || Ahead(m[n], now) { DueExactly(m[n], now); }
  }

  lemma SameMessages(messages: seq<(nat, Envelope)>, resent: set<(nat, Envelope)>)
    requires multiset(messages) == multiset(resent)
    ensures forall x :: x in messages <==> x in resent
  {
    forall x ensures x in messages <==> x in resent { assert x in multiset(messages) <==> x in multiset(resent); }
  }

  /** The entries a scan has dealt with. */
  function Seen(m: map<nat, Pending>, todo: set<nat>): map<nat, Pending> {
    map n | n in m && n !in todo :: m[n]
  }

  /** Entries in todo are as before, the others as the scan leaves them. */
  ghost predicate HalfScanned(before: map<nat, Pending>, todo: set<nat>, m: map<nat, Pending>, now: Ms) {
    forall n ::
      && (n in m <==> n in before && (n in todo || !GivesUp(before[n], now)))
      && (n in m ==> m[n] == if n in todo then before[n] else Retried(before[n], now))
  }

  lemma HalfNext(before: map<nat, Pending>, todo: set<nat>, m: map<nat, Pending>, n: nat, now: Ms)
    requires HalfScanned(before, todo, m, now) && n in todo && n in before
    ensures var p := before[n];
            HalfScanned(before, todo - {n}, if !Due(p, now) then m else if GivesUp(p, now) then m - {n} else m[n := Retried(p, now)], now)
  {
  }

  lemma SeeOne(before: map<nat, Pending>, todo: set<nat>, n: nat, now: Ms)
    requires todo <= before.Keys && n in todo
    ensures multiset(Resent(Seen(before, todo - {n}), now))
         == multiset(Resent(Seen(before, todo), now))
            + (if Resends(before[n], now) then multiset{(n, before[n].envelope)} else multiset{})
  {
    var seen, p := Seen(before, todo), before[n];
    var m := Seen(before, todo - {n});
    forall k, e ensures (k, e) in Resent(m, now) <==> (k, e) in Resent(seen, now) || (k == n && Resends(p, now) && e == p.envelope) {
      InResent(m, now, k, e);
      InResent(seen, now, k, e);
    }
    InResent(seen, now, n, p.envelope);
    if Resends(p, now) {
      assert Resent(m, now) == Resent(seen, now) + {(n, p.envelope)};
    } else {
      assert Resent(m, now) == Resent(seen, now);
    }
  }

  lemma InResent(m: map<nat, Pending>, now: Ms, n: nat, e: Envelope)
    ensures (n, e) in Resent(m, now) <==> n in m && Resends(m[n], now) && e == m[n].envelope
  {
  }

  // ------------------------------------------------------- bounded retransmission

  ghost predicate Booked(s: State) {
    && s.born.Keys == s.retries.Keys
    && (forall n :: n in s.born ==> n < s.nextSeq && s.retries[n] <= MaxRetryCount)
    && (forall n :: n in s.pending ==>
          n in s.born && s.pending[n].envelope == s.born[n].1 && s.pending[n].retryCount == s.retries[n])
    && DropsBooked(s)
  }

  ghost predicate DropsBooked(s: State) {
    var booked := forall n :: n in s.dropped ==> n in s.born;
    booked
  }

  /** One transmission for the call and one for every time a scan chose it, always the same. */
  ghost predicate Bounded(s: State) {
    forall n, e ::
      && ((n, e) in s.outbox || (n, e) in s.sent ==> n in s.born && e == s.born[n].1)
      && (n in s.born && n in s.retries ==> s.outbox[(n, e)] + s.sent[(n, e)] <= 1 + s.retries[n])
  }

  lemma ScanBooked(s: State, now: Ms)
    requires Booked(s)
    ensures Booked(ScanStep(s, now))
  {
    assert DropsBooked(ScanStep(s, now));
  }

  lemma StepBooked(s: State, a: Label)
    requires Booked(s)
    ensures Booked(Step(s, a))
  {
    if a.Scan? && s.clock.Some? { ScanBooked(s, s.clock.value); }
  }

  lemma ScanBounded(s: State, now: Ms)
    requires Booked(s) && Bounded(s)
    ensures Bounded(ScanStep(s, now))
  {
    var t, again := ScanStep(s, now), Resent(s.pending, now);
    forall n, e
      ensures (n, e) in t.outbox || (n, e) in t.sent ==> n in t.born && e == t.born[n].1
      ensures n in t.born && n in t.retries ==> t.outbox[(n, e)] + t.sent[(n, e)] <= 1 + t.retries[n]
    {
      InResent(s.pending, now, n, e);
      assert t.outbox[(n, e)] == s.outbox[(n, e)] + (if (n, e) in again then 1 else 0);
    }
  }

  lemma SendBounded(s: State, e: Envelope, now: Ms)
    requires Booked(s) && Bounded(s)
    ensures Bounded(SendStep(s, e, now))
  {
    var n := s.nextSeq;
    assert n !in s.born;
    forall f ensures s.outbox[(n, f)] == 0 && s.sent[(n, f)] == 0 {
      assert (n, f) !in s.outbox && (n, f) !in s.sent;
    }
  }

  lemma StepBounded(s: State, a: Label)
    requires Booked(s) && Bounded(s)
    ensures Bounded(Step(s, a))
  {
    if a.Scan? {
      if s.clock.Some? { ScanBounded(s, s.clock.value); }
    } else if a.Send? {
      SendBounded(s, a.envelope, a.now);
    }
  }

  lemma {:induction false} RunBounded(labels: seq<Label>)
    ensures Booked(Run(labels)) && Bounded(Run(labels))
  {
    if labels != [] {
      var n := |labels| - 1;
      RunBounded(labels[..n]);
      StepBooked(Run(labels[..n]), labels[n]);
      StepBounded(Run(labels[..n]), labels[n]);
    }
  }

  /** Whatever the clock does and however the threads interleave, a request is transmitted at most
      six times, always with the envelope it was registered with. */
  lemma AtMostSixTransmissions(labels: seq<Label>, n: nat, e: Envelope)
    ensures Run(labels).sent[(n, e)] <= 6
    ensures (n, e) in Run(labels).sent ==> n in Run(labels).born && Run(labels).born[n].1 == e
  {
    RunBounded(labels);
    assert (n, e) in Run(labels).sent || Run(labels).sent[(n, e)] == 0;
  }

  // --------------------------------------------------- the account of every request

  lemma RunLast(labels: seq<Label>, a: Label)
    ensures Run(labels + [a]) == Step(Run(labels), a)
  {
    assert (labels + [a])[..|labels|] == labels;
  }

  /** How many sends of (n, e) were given up. */
  function Discarded(labels: seq<Label>, n: nat, e: Envelope): nat {
    if labels == [] then 0
    else
      var k := |labels| - 1;
      Discarded(labels[..k], n, e) + if labels[k] == Discard(n, e) && (n, e) in Run(labels[..k]).outbox then 1 else 0
  }

  /** How often (n, e) was sent. */
  function Transmitted(labels: seq<Label>, n: nat, e: Envelope): nat {
    if labels == [] then 0
    else
      var k := |labels| - 1;
      Transmitted(labels[..k], n, e) + if labels[k] == Transmit(n, e) && (n, e) in Run(labels[..k]).outbox then 1 else 0
  }

  /** What is due to be sent of (n, e): once for the call and once for every retry. */
  function Owed(s: State, n: nat, e: Envelope): nat {
    if n in s.born && n in s.retries && e == s.born[n].1 then 1 + s.retries[n] else 0
  }

  lemma ScanAccount(s: State, now: Ms, n: nat, e: Envelope)
    requires Booked(s)
    ensures var t := ScanStep(s, now);
            t.sent == s.sent && t.outbox[(n, e)] + Owed(s, n, e) == s.outbox[(n, e)] + Owed(t, n, e)
  {
    InResent(s.pending, now, n, e);
    assert ScanStep(s, now).outbox[(n, e)] == s.outbox[(n, e)] + (if (n, e) in Resent(s.pending, now) then 1 else 0);
  }

  lemma SendAccount(s: State, f: Envelope, now: Ms, n: nat, e: Envelope)
    requires Booked(s)
    ensures var t := SendStep(s, f, now);
            t.sent == s.sent && t.outbox[(n, e)] + Owed(s, n, e) == s.outbox[(n, e)] + Owed(t, n, e)
  {
    assert s.nextSeq !in s.born;
  }

  lemma StepAccount(s: State, a: Label, n: nat, e: Envelope)
    requires Booked(s)
    ensures var t, gone := Step(s, a), if a == Discard(n, e) && (n, e) in s.outbox then 1 else 0;
            t.outbox[(n, e)] + t.sent[(n, e)] + gone + Owed(s, n, e) == s.outbox[(n, e)] + s.sent[(n, e)] + Owed(t, n, e)
    ensures Step(s, a).sent[(n, e)] == s.sent[(n, e)] + if a == Transmit(n, e) && (n, e) in s.outbox then 1 else 0
  {
    if a.Scan? && s.clock.Some? { ScanAccount(s, s.clock.value, n, e); }
    if a.Send? { SendAccount(s, a.envelope, a.now, n, e); }
  }

  /** Nothing is sent twice or forgotten: what is about to be sent, was sent and was given up make one
      for the call and one for every retry. */
  lemma {:induction false} EveryTransmissionCounted(labels: seq<Label>, n: nat, e: Envelope)
    ensures var s := Run(labels);
            && s.sent[(n, e)] == Transmitted(labels, n, e)
            && s.outbox[(n, e)] + Transmitted(labels, n, e) + Discarded(labels, n, e) == Owed(s, n, e)
  {
    if labels != [] {
      var k := |labels| - 1;
      EveryTransmissionCounted(labels[..k], n, e);
      RunBounded(labels[..k]);
      StepAccount(Run(labels[..k]), labels[k], n, e);
    }
  }

  /** n has been registered and is no longer waiting for an ACK. */
  predicate Settled(s: State, n: nat) {
    n in s.born && n !in s.pending && n in s.retries && n < s.nextSeq
  }

  lemma StepSettled(s: State, a: Label, n: nat)
    requires Settled(s, n)
    ensures var t := Step(s, a);
            Settled(t, n) && t.retries[n] == s.retries[n] && (n in t.dropped <==> n in s.dropped)
    ensures forall e :: Step(s, a).outbox[(n, e)] <= s.outbox[(n, e)]
  {
    if a.Scan? && s.clock.Some? {
      forall e ensures Step(s, a).outbox[(n, e)] == s.outbox[(n, e)] { InResent(s.pending, s.clock.value, n, e); }
    }
  }

  lemma {:induction false} StaysSettled(labels: seq<Label>, more: seq<Label>, n: nat)
    requires Settled(Run(labels), n)
    ensures var s, t := Run(labels), Run(labels + more);
            && Settled(t, n) && t.retries[n] == s.retries[n] && (n in t.dropped <==> n in s.dropped)
            && forall e :: t.outbox[(n, e)] <= s.outbox[(n, e)]
    decreases |more|
  {
    if more == [] {
      assert labels + more == labels;
    } else {
      var k := |more| - 1;
      assert (labels + more)[..|labels + more| - 1] == labels + more[..k];
      StaysSettled(labels, more[..k], n);
      StepSettled(Run(labels + more[..k]), more[k], n);
    }
  }

  lemma Registered(labels: seq<Label>, n: nat)
    requires n in Run(labels).born
    ensures n in Run(labels).retries && n < Run(labels).nextSeq
  {
    RunBounded(labels);
  }

  /** Once its ACK is handled, a request is never waited for, resent or given up again, whatever
      happens afterwards: no scan chooses it, and nothing is added to what is about to be sent. */
  lemma AckedForGood(labels: seq<Label>, n: nat, more: seq<Label>)
    requires n in Run(labels).born
    ensures var s, t := Run(labels), Run(labels + [Acked(n)] + more);
            && n !in t.pending && n in t.retries && n in s.retries && t.retries[n] == s.retries[n]
            && (n in t.dropped <==> n in s.dropped)
            && forall e :: t.outbox[(n, e)] <= s.outbox[(n, e)]
  {
    Registered(labels, n);
    RunLast(labels, Acked(n));
    StaysSettled(labels + [Acked(n)], more, n);
  }

  /** The same for every request there is when the client starts anew. */
  lemma RestartForgets(labels: seq<Label>, n: nat, more: seq<Label>)
    requires n in Run(labels).born
    ensures var s, t := Run(labels), Run(labels + [Restart] + more);
            && n !in t.pending && n in t.retries && n in s.retries && t.retries[n] == s.retries[n]
            && (n in t.dropped <==> n in s.dropped)
            && forall e :: t.outbox[(n, e)] <= s.outbox[(n, e)]
  {
    Registered(labels, n);
    RunLast(labels, Restart);
    StaysSettled(labels + [Restart], more, n);
  }

  predicate Answered(labels: seq<Label>, n: nat) {
    exists i :: 0 <= i < |labels| && (labels[i] == Acked(n) || labels[i] == Restart)
  }

  /** n waits for an ACK, or was dropped after five retries. */
  predicate WaitsOrDropped(s: State, n: nat) {
    if n in s.pending then n !in s.dropped else n in s.dropped && n in s.retries && s.retries[n] == 5
  }

  lemma StepWaits(s: State, a: Label, n: nat)
    requires Booked(s) && (n in s.born ==> WaitsOrDropped(s, n)) && a != Acked(n) && a != Restart
    ensures n in Step(s, a).born ==> WaitsOrDropped(Step(s, a), n)
  {
    assert DropsBooked(s) && (n in s.dropped ==> n in s.born);
  }

  /** Without an ACK a request is waited for until it has been resent five times, and only then is
      it given up. */
  lemma {:induction false} KeptUntilDropped(labels: seq<Label>, n: nat)
    requires n in Run(labels).born && !Answered(labels, n)
    ensures var s := Run(labels);
            if n in s.pending then n !in s.dropped else n in s.dropped && n in s.retries && s.retries[n] == 5
  {
    var k := |labels| - 1;
    NotAnsweredBefore(labels, n);
    RunBounded(labels[..k]);
    if n in Run(labels[..k]).born { KeptUntilDropped(labels[..k], n); }
    StepWaits(Run(labels[..k]), labels[k], n);
  }

  lemma NotAnsweredBefore(labels: seq<Label>, n: nat)
    requires !Answered(labels, n) && labels != []
    ensures var k := |labels| - 1; !Answered(labels[..k], n) && labels[k] != Acked(n) && labels[k] != Restart
  {
    var before := labels[..|labels| - 1];
    assert forall i :: 0 <= i < |before| ==> before[i] == labels[i];
  }

  // ------------------------------------------------------------- when a scan is early

  /** The full waiting time is over. */
  predicate Waited(p: Pending, now: Ms) {
    now >= p.lastSendMs && now - p.lastSendMs >= Wait(p)
  }

  /** The entry is ahead of the reading, short of the last few seconds of the 64-bit range. */
  predicate Ahead(p: Pending, now: Ms) {
    now < p.lastSendMs && p.lastSendMs - now <= TwoTo64 - Wait(p)
  }

  /** For all 64-bit readings: an entry is due exactly when its waiting time is over or it is ahead
      of the reading. */
  lemma DueExactly(p: Pending, now: Ms)
    ensures Due(p, now) <==> Waited(p, now) || Ahead(p, now)
  {
    if now < p.lastSendMs { assert Elapsed(now, p.lastSendMs) == now - p.lastSendMs + TwoTo64; }
  }

  /** Step i of the run is a scan that finds n in the table, at this reading. */
  predicate Meets(labels: seq<Label>, i: nat, n: nat) {
    i < |labels| && labels[i].Scan? && Run(labels[..i]).clock.Some? && n in Run(labels[..i]).pending
  }

  /** Every scan that resends n or gives it up has waited its full interval. */
  ghost predicate Patient(labels: seq<Label>, n: nat) {
    forall i: nat :: Meets(labels, i, n) ==>
      var s := Run(labels[..i]); Due(s.pending[n], s.clock.value) ==> Waited(s.pending[n], s.clock.value)
  }

  /** No scan finds n ahead of its reading. */
  ghost predicate NeverAhead(labels: seq<Label>, n: nat) {
    forall i: nat :: Meets(labels, i, n) ==> var s := Run(labels[..i]); !Ahead(s.pending[n], s.clock.value)
  }

  /** Over whole runs: the scans that choose n have all waited if and only if none met n ahead. */
  lemma PatientIff(labels: seq<Label>, n: nat)
    ensures Patient(labels, n) <==> NeverAhead(labels, n)
  {
    forall i: nat | Meets(labels, i, n)
      ensures var p, now := Run(labels[..i]).pending[n], Run(labels[..i]).clock.value;
              (Due(p, now) ==> Waited(p, now)) <==> !Ahead(p, now)
    {
      DueExactly(Run(labels[..i]).pending[n], Run(labels[..i]).clock.value);
    }
  }

  // ------------------------------------------------------------------- the backoff

  /** 2000 * (1 + ... + r) */
  function Backoff(r: nat): nat {
    if r == 0 then 0 else Backoff(r - 1) + BaseRetryTimeoutMs * r
  }

  lemma BackoffValues()
    ensures Backoff(1) == 2000 && Backoff(2) == 6000 && Backoff(3) == 12000
    ensures Backoff(4) == 20000 && Backoff(5) == 30000 && Backoff(6) == 42000
  {
  }

  /** When n has been sent again r times, Backoff(r) ms have passed since it was registered. */
  ghost predicate Paced(s: State, n: nat) {
    && (n in s.pending ==>
          var p := s.pending[n];
          n in s.born && p.retryCount <= MaxRetryCount && p.lastSendMs >= s.born[n].0 + Backoff(p.retryCount))
    && (n in s.dropped ==> n in s.born && s.dropped[n] >= s.born[n].0 + Backoff(MaxRetryCount + 1))
  }

  lemma PaceOne(p: Pending, born: nat, now: Ms)
    requires p.retryCount <= MaxRetryCount && p.lastSendMs >= born + Backoff(p.retryCount) && !Ahead(p, now)
    ensures var q := Retried(p, now); q.retryCount <= MaxRetryCount && q.lastSendMs >= born + Backoff(q.retryCount)
    ensures GivesUp(p, now) ==> now >= born + Backoff(MaxRetryCount + 1)
  {
    DueExactly(p, now);
    assert Backoff(p.retryCount + 1) == Backoff(p.retryCount) + BaseRetryTimeoutMs * (p.retryCount + 1);
  }

  lemma StepPaced(s: State, a: Label, n: nat)
    requires Booked(s) && Paced(s, n)
    requires a.Scan? && s.clock.Some? && n in s.pending ==> !Ahead(s.pending[n], s.clock.value)
    ensures Paced(Step(s, a), n)
  {
    if a.Scan? && s.clock.Some? && n in s.pending { PaceOne(s.pending[n], s.born[n].0, s.clock.value); }
  }

  lemma NeverAheadPrefix(labels: seq<Label>, n: nat)
    requires labels != [] && NeverAhead(labels, n)
    ensures NeverAhead(labels[..|labels| - 1], n)
  {
    var before := labels[..|labels| - 1];
    forall i: nat | Meets(before, i, n) ensures var s := Run(before[..i]); !Ahead(s.pending[n], s.clock.value) {
      assert before[..i] == labels[..i];
      assert Meets(labels, i, n);
    }
  }

  lemma {:induction false} RunPaced(labels: seq<Label>, n: nat)
    requires NeverAhead(labels, n)
    ensures Paced(Run(labels), n)
  {
    if labels != [] {
      var k := |labels| - 1;
      NeverAheadPrefix(labels, n);
      RunPaced(labels[..k], n);
      RunBounded(labels[..k]);
      if labels[k].Scan? && Run(labels[..k]).clock.Some? && n in Run(labels[..k]).pending { assert Meets(labels, k, n); }
      StepPaced(Run(labels[..k]), labels[k], n);
    }
  }

  /** An unacknowledged request that no scan finds ahead of its reading is given up no earlier than
      2000 * (1 + 2 + 3 + 4 + 5 + 6) = 42000 ms after it was registered. */
  lemma DroppedNoEarlier(labels: seq<Label>, n: nat)
    requires NeverAhead(labels, n) && n in Run(labels).dropped
    ensures n in Run(labels).born && Run(labels).dropped[n] >= Run(labels).born[n].0 as int + 42000
  {
    RunPaced(labels, n);
    BackoffValues();
  }

  // ------------------------------------------------------------- under a steady clock

  predicate ReadsClock(a: Label) {
    a.Send? || a.ReadClock?
  }

  /** No reading is smaller than an earlier one. */
  ghost predicate SteadyClock(labels: seq<Label>) {
    forall i, j :: 0 <= i < j < |labels| && ReadsClock(labels[i]) && ReadsClock(labels[j]) ==> labels[i].now <= labels[j].now
  }

  /** No reading so far is above top. */
  ghost predicate UpTo(labels: seq<Label>, top: nat) {
    forall i :: 0 <= i < |labels| && ReadsClock(labels[i]) ==> labels[i].now <= top
  }

  /** Step k is a pass of the retry thread. */
  predicate Passes(labels: seq<Label>, k: nat) {
    k < |labels| && labels[k].Scan? && Run(labels[..k]).clock.Some?
  }

  /** Between a pass and its next reading the retry thread sleeps, and meanwhile the clock runs on for
      at least nap ms. (It sleeps 1000 ms; a clock that stands still gives nap 0.) */
  ghost predicate Naps(labels: seq<Label>, nap: nat) {
    forall i, k, j :: 0 <= i < k < j < |labels| && ReadsClock(labels[i]) && Passes(labels, k) && labels[j].ReadClock? ==>
      labels[j].now >= labels[i].now as int + nap
  }

  /** From the second retry on, only the first one may have come early; and once the entry has been
      retried, the reading for the next scan is behind neither its last send nor, by less than a nap,
      its registration. top is the highest reading so far, rest the highest before the last pass. */
  ghost predicate NearlyPaced(p: Pending, born: nat, clock: Option<Ms>, top: nat, rest: Option<nat>, nap: nat) {
    && p.retryCount <= MaxRetryCount && p.lastSendMs <= top && born <= top
    && (p.retryCount >= 1 ==> rest.Some? && p.lastSendMs <= rest.value && born <= rest.value)
    && (p.retryCount >= 2 ==> p.lastSendMs as int + 6000 >= born + Backoff(p.retryCount) + nap)
    && (clock.Some? && p.retryCount >= 1 ==> clock.value >= p.lastSendMs && clock.value >= born + nap)
  }

  ghost predicate AllNearly(s: State, top: nat, rest: Option<nat>, nap: nat) {
    && (forall n :: n in s.pending ==> n in s.born && NearlyPaced(s.pending[n], s.born[n].0, s.clock, top, rest, nap))
    && (s.clock.Some? ==> s.clock.value <= top) && (rest.Some? ==> rest.value <= top)
    && (forall n :: n in s.dropped ==> n in s.born && LateDrop(s.dropped[n], s.born[n].0, nap))
  }

  predicate LateDrop(dropped: nat, born: nat, nap: nat) {
    dropped + 6000 >= born + Backoff(MaxRetryCount + 1) + nap
  }

  lemma NearlyOne(p: Pending, born: nat, now: Ms, top: nat, rest: Option<nat>, nap: nat)
    requires NearlyPaced(p, born, Some(now), top, rest, nap) && now <= top
    ensures NearlyPaced(Retried(p, now), born, None, top, Some(top), nap)
    ensures GivesUp(p, now) ==> LateDrop(now, born, nap)
  {
    BackoffValues();
    DueExactly(p, now);
    assert Backoff(p.retryCount + 1) == Backoff(p.retryCount) + BaseRetryTimeoutMs * (p.retryCount + 1);
  }

  lemma ScanNearly(s: State, top: nat, rest: Option<nat>, nap: nat)
    requires AllNearly(s, top, rest, nap) && s.clock.Some?
    ensures AllNearly(ScanStep(s, s.clock.value), top, Some(top), nap)
  {
    forall n | n in s.pending
      ensures NearlyPaced(Retried(s.pending[n], s.clock.value), s.born[n].0, None, top, Some(top), nap)
      ensures GivesUp(s.pending[n], s.clock.value) ==> LateDrop(s.clock.value, s.born[n].0, nap)
    {
      NearlyOne(s.pending[n], s.born[n].0, s.clock.value, top, rest, nap);
    }
  }

  lemma ReadNearly(s: State, now: Ms, rest: Option<nat>, nap: nat)
    requires AllNearly(s, now, rest, nap) && (rest.Some? ==> now >= rest.value + nap)
    ensures AllNearly(Step(s, ReadClock(now)), now, rest, nap)
  {
  }

  lemma OtherNearly(s: State, a: Label, top: nat, rest: Option<nat>, nap: nat)
    requires Booked(s) && AllNearly(s, top, rest, nap) && (a.Send? ==> top == a.now)
    requires !a.ReadClock? && !(a.Scan? && s.clock.Some?)
    ensures AllNearly(Step(s, a), top, rest, nap)
  {
  }

  lemma Raise(s: State, top: nat, higher: nat, rest: Option<nat>, nap: nat)
    requires AllNearly(s, top, rest, nap) && top <= higher
    ensures AllNearly(s, higher, rest, nap)
  {
  }

  /** The last reading, which under a steady clock is the highest. */
  function Latest(labels: seq<Label>): nat {
    if labels == [] then 0
    else if ReadsClock(labels[|labels| - 1]) then labels[|labels| - 1].now
    else Latest(labels[..|labels| - 1])
  }

  /** The same before the last pass. */
  function BeforePass(labels: seq<Label>): Option<nat> {
    if labels == [] then None
    else if Passes(labels, |labels| - 1) then Some(Latest(labels[..|labels| - 1]))
    else BeforePass(labels[..|labels| - 1])
  }

  lemma {:induction false} LatestBefore(labels: seq<Label>, j: nat, k: nat)
    requires SteadyClock(labels) && j <= k < |labels| && ReadsClock(labels[k])
    ensures Latest(labels[..j]) <= labels[k].now
  {
    if j > 0 {
      assert labels[..j][..j - 1] == labels[..j - 1];
      LatestBefore(labels, j - 1, k);
    }
  }

  lemma LatestRises(labels: seq<Label>)
    requires SteadyClock(labels) && labels != []
    ensures Latest(labels[..|labels| - 1]) <= Latest(labels)
  {
    var k := |labels| - 1;
    if ReadsClock(labels[k]) { LatestBefore(labels, k, k); }
  }

  lemma {:induction false} LatestRead(labels: seq<Label>, i: nat) returns (r: nat)
    requires i < |labels| && ReadsClock(labels[i])
    ensures r < |labels| && ReadsClock(labels[r]) && labels[r].now == Latest(labels)
  {
    var k := |labels| - 1;
    if ReadsClock(labels[k]) {
      r := k;
    } else {
      r := LatestRead(labels[..k], i);
    }
  }

  /** A reading that is waiting was read. */
  lemma {:induction false} ClockRead(labels: seq<Label>) returns (i: nat)
    requires Run(labels).clock.Some?
    ensures i < |labels| && ReadsClock(labels[i])
  {
    var k := |labels| - 1;
    if ReadsClock(labels[k]) { i := k; } else { i := ClockRead(labels[..k]); }
  }

  lemma {:induction false} PassWitness(labels: seq<Label>) returns (i: nat, k: nat)
    requires BeforePass(labels).Some?
    ensures i < k && Passes(labels, k) && ReadsClock(labels[i]) && labels[i].now == BeforePass(labels).value
  {
    var n := |labels| - 1;
    if Passes(labels, n) {
      var any := ClockRead(labels[..n]);
      i := LatestRead(labels[..n], any);
      k := n;
    } else {
      i, k := PassWitness(labels[..n]);
      assert labels[..n][..k] == labels[..k];
    }
  }

  /** A reading is a nap later than what was read before the last pass. */
  lemma NappedSince(labels: seq<Label>, nap: nat)
    requires Naps(labels, nap) && labels != [] && labels[|labels| - 1].ReadClock?
    ensures var rest := BeforePass(labels[..|labels| - 1]); rest.Some? ==> labels[|labels| - 1].now >= rest.value + nap
  {
    var n := |labels| - 1;
    if BeforePass(labels[..n]).Some? {
      var i, k := PassWitness(labels[..n]);
      assert labels[..n][..k] == labels[..k];
      assert Passes(labels, k);
    }
  }

  lemma NapsPrefix(labels: seq<Label>, nap: nat)
    requires SteadyClock(labels) && Naps(labels, nap) && labels != []
    ensures SteadyClock(labels[..|labels| - 1]) && Naps(labels[..|labels| - 1], nap)
  {
    var before := labels[..|labels| - 1];
    forall i, k, j | 0 <= i < k < j < |before| && ReadsClock(before[i]) && Passes(before, k) && before[j].ReadClock?
      ensures before[j].now >= before[i].now as int + nap
    {
      assert before[..k] == labels[..k];
      assert Passes(labels, k);
    }
  }

  lemma {:induction false} RunNearly(labels: seq<Label>, nap: nat)
    requires SteadyClock(labels) && Naps(labels, nap)
    ensures AllNearly(Run(labels), Latest(labels), BeforePass(labels), nap)
  {
    if labels != [] {
      var k := |labels| - 1;
      var s, rest := Run(labels[..k]), BeforePass(labels[..k]);
      NapsPrefix(labels, nap);
      RunNearly(labels[..k], nap);
      LatestRises(labels);
      Raise(s, Latest(labels[..k]), Latest(labels), rest, nap);
      RunBounded(labels[..k]);
      if Passes(labels, k) {
        ScanNearly(s, Latest(labels), rest, nap);
      } else if labels[k].ReadClock? {
        NappedSince(labels, nap);
        ReadNearly(s, labels[k].now, rest, nap);
      } else {
        OtherNearly(s, labels[k], Latest(labels), rest, nap);
      }
    }
  }

  /** With a clock that never steps back, the wait is short by at most 6000 ms less the nap: a request
      registered between a scan's reading and its pass is resent at once, and that can happen only to
      its first retry. */
  lemma SteadyDroppedNoEarlier(labels: seq<Label>, nap: nat, n: nat)
    requires SteadyClock(labels) && Naps(labels, nap) && n in Run(labels).dropped
    ensures n in Run(labels).born && Run(labels).dropped[n] >= Run(labels).born[n].0 as int + 36000 + nap
  {
    RunNearly(labels, nap);
    BackoffValues();
  }

  /** With a clock that runs through the thread's 1000 ms sleep, that is 37000 ms. */
  lemma RunningDroppedNoEarlier(labels: seq<Label>, n: nat)
    requires SteadyClock(labels) && Naps(labels, RetryScanIntervalMs) && n in Run(labels).dropped
    ensures n in Run(labels).born && Run(labels).dropped[n] >= Run(labels).born[n].0 as int + 37000
  {
    SteadyDroppedNoEarlier(labels, RetryScanIntervalMs, n);
  }

  // --------------------------------------------------------------- and that is exact

  /** The reading of scan number k. */
  function Reading(k: nat): Ms
    requires k <= 5
  {
    BackoffValues();
    Backoff(k + 1) - 2000
  }

  /** When the request is registered: as late as the nap before the second reading allows. */
  function Birth(nap: nat): Ms
    requires nap <= 4000
  {
    4000 - nap
  }

  /** The retry thread reads the clock, then a request is registered, then come k scans, each at
      the moment the request is due again, and the reading for the next. */
  function Race(e: Envelope, nap: nat, k: nat): seq<Label>
    requires nap <= 4000 && k <= 5
  {
    if k == 0 then [ReadClock(0), Send(e, Birth(nap))] else Race(e, nap, k - 1) + [Scan] + [ReadClock(Reading(k))]
  }

  /** Request 2 with k retries, and the next reading taken. */
  ghost predicate Racing(s: State, e: Envelope, nap: nat, k: nat)
    requires nap <= 4000 && k <= 5
  {
    && 2 in s.born && s.born[2] == (Birth(nap), e) && s.clock == Some(Reading(k))
    && 2 in s.pending && s.pending[2] == Pending(e, if k == 0 then Birth(nap) else Reading(k - 1), k)
  }

  lemma RaceStep(s: State, e: Envelope, nap: nat, k: nat)
    requires nap < 4000 && k < 5 && Racing(s, e, nap, k)
    ensures Racing(Step(Step(s, Scan), ReadClock(Reading(k + 1))), e, nap, k + 1)
  {
    BackoffValues();
    DueExactly(s.pending[2], Reading(k));
  }

  lemma {:induction false} RaceRuns(e: Envelope, nap: nat, k: nat)
    requires nap < 4000 && k <= 5
    ensures Racing(Run(Race(e, nap, k)), e, nap, k)
  {
    BackoffValues();
    if k == 0 {
      var first, second := ReadClock(0), Send(e, Birth(nap));
      RunLast([], first);
      RunLast([first], second);
      assert [] + [first] == [first] && [first] + [second] == Race(e, nap, 0);
    } else {
      RaceRuns(e, nap, k - 1);
      RunLast(Race(e, nap, k - 1), Scan);
      RunLast(Race(e, nap, k - 1) + [Scan], ReadClock(Reading(k)));
      RaceStep(Run(Race(e, nap, k - 1)), e, nap, k - 1);
    }
  }

  /** Every reading but the first two is a nap above all before it. */
  ghost predicate Spaced(labels: seq<Label>, nap: nat) {
    && (forall i, j :: 0 <= i < j < |labels| && ReadsClock(labels[i]) && ReadsClock(labels[j]) ==> labels[i].now <= labels[j].now)
    && (forall i, j :: 0 <= i < j < |labels| && 2 <= j && ReadsClock(labels[i]) && ReadsClock(labels[j]) ==>
          labels[j].now >= labels[i].now as int + nap)
    && (|labels| >= 2 ==> !labels[0].Scan? && !labels[1].Scan?)
  }

  lemma SpacedNaps(labels: seq<Label>, nap: nat)
    requires Spaced(labels, nap)
    ensures SteadyClock(labels) && Naps(labels, nap)
  {
  }

  lemma SpacedSnoc(labels: seq<Label>, nap: nat, top: nat, a: Label)
    requires Spaced(labels, nap) && UpTo(labels, top) && |labels| >= 2
    requires ReadsClock(a) ==> a.now >= top + nap
    ensures Spaced(labels + [a], nap) && UpTo(labels + [a], if ReadsClock(a) then a.now else top)
  {
  }

  lemma {:induction false} RaceSpaced(e: Envelope, nap: nat, k: nat)
    requires nap < 4000 && k <= 5
    ensures |Race(e, nap, k)| >= 2 && Spaced(Race(e, nap, k), nap)
    ensures UpTo(Race(e, nap, k), if k == 0 then Birth(nap) else Reading(k))
  {
    BackoffValues();
    if k > 0 {
      RaceSpaced(e, nap, k - 1);
      var before, top := Race(e, nap, k - 1), if k == 1 then Birth(nap) else Reading(k - 1);
      SpacedSnoc(before, nap, top, Scan);
      SpacedSnoc(before + [Scan], nap, top, ReadClock(Reading(k)));
    }
  }

  /** The monotone race: the clock never steps back and runs on between pass and reading, and the
      request is given up exactly 36000 ms and a nap after it was registered. */
  lemma EarlyDrop(e: Envelope, nap: nat)
    requires nap < 4000
    ensures var labels := Race(e, nap, 5) + [Scan];
            && SteadyClock(labels) && Naps(labels, nap) && !NeverAhead(labels, 2)
            && 2 in Run(labels).dropped && 2 in Run(labels).born
            && Run(labels).dropped[2] == Run(labels).born[2].0 as int + 36000 + nap
  {
    var labels := Race(e, nap, 5) + [Scan];
    RaceRuns(e, nap, 5);
    RaceSpaced(e, nap, 5);
    BackoffValues();
    SpacedSnoc(Race(e, nap, 5), nap, Reading(5), Scan);
    SpacedNaps(labels, nap);
    RunLast(Race(e, nap, 5), Scan);
    DueExactly(Run(Race(e, nap, 5)).pending[2], Reading(5));
    if NeverAhead(labels, 2) { DroppedNoEarlier(labels, 2); }
  }
}
