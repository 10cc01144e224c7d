/** ChatServer: the table of connections with their receive buffers, and the events it hands to
    the dispatcher. */
module Sessions {
  import opened Options
  import opened Framing
  import opened Streams

  type Conn = nat

  datatype Event<E> = Envelope(e: E) | Closed

  /** What the network library reports. */
  datatype Callback = Up(conn: Conn) | Data(conn: Conn, input: Bytes) | Down(conn: Conn)

  datatype Table<E> = Table(buffers: map<Conn, Bytes>, events: seq<(Conn, Event<E>)>)

  function Tagged<E>(c: Conn, es: seq<E>): seq<(Conn, Event<E>)> {
    seq(|es|, i requires 0 <= i < |es| => (c, Envelope(es[i])))
  }

  function React<E>(t: Table<E>, cb: Callback, max: nat, parse: Bytes -> Option<E>): Table<E> {
    match cb
    case Up(c) => t.(buffers := t.buffers[c := []])
    case Data(c, input) =>
      if c !in t.buffers then t
      else
        var s := Turn(Session(t.buffers[c], [], false), input, Server, max, parse);
        Table(t.buffers[c := s.buffer], t.events + Tagged(c, s.handled))
    case Down(c) => Table(t.buffers - {c}, t.events + [(c, Closed)])
  }

  function ReactAll<E>(cbs: seq<Callback>, max: nat, parse: Bytes -> Option<E>): Table<E> {
    if cbs == [] then Table(map[], [])
    else React(ReactAll(cbs[..|cbs| - 1], max, parse), cbs[|cbs| - 1], max, parse)
  }

  class ChatServer<E> {
    const parse: Bytes -> Option<E>
    var sessions: map<Conn, Bytes>
    var events: seq<(Conn, Event<E>)>
    var shutDown: set<Conn>

    ghost function View(): Table<E>
      reads this
    {
      Table(sessions, events)
    }

    constructor (parse: Bytes -> Option<E>)
      ensures this.parse == parse && View() == ReactAll([], MaxFrameLength, parse)
    {
      this.parse, sessions, events, shutDown := parse, map[], [], {};
    }

    method OnConnection(c: Conn, connected: bool)
      modifies this
      ensures View() == React(old(View()), if connected then Up(c) else Down(c), MaxFrameLength, parse)
      ensures connected ==> c in sessions && sessions[c] == [] && events == old(events)
      ensures !connected ==> c !in sessions && events == old(events) + [(c, Closed)]
      ensures forall d :: d != c ==> (d in sessions <==> d in old(sessions)) && (d in sessions ==> sessions[d] == old(sessions)[d])
      ensures shutDown == old(shutDown)
    {
      if connected {
        sessions := sessions[c := []];
        return;
      }
      sessions := sessions - {c};
      events := events + [(c, Closed)];
    }

    /** An unknown connection and a bad frame shut the connection down. */
    method OnMessage(c: Conn, input: Bytes)
      modifies this
      ensures View() == React(old(View()), Data(c, input), MaxFrameLength, parse)
      ensures var bad := c !in old(sessions) || IsError(Decode(old(sessions)[c] + input, MaxFrameLength, parse).status);
              && shutDown == old(shutDown) + (if bad then {c} else {})
              && (bad ==> events == old(events)) && sessions.Keys == old(sessions).Keys
      ensures forall d :: d != c && d in sessions ==> sessions[d] == old(sessions)[d]
    {
      if c !in sessions {
        shutDown := shutDown + {c};
        return;
      }
      var buffer := sessions[c] + input;
      var d := DecodeAll(buffer, MaxFrameLength, parse);
      sessions := sessions[c := buffer[d.consumed..]];
      if IsError(d.status) {
        assert Tagged<E>(c, []) == [];
        assert events + Tagged<E>(c, []) == events;
        shutDown := shutDown + {c};
        return;
      }
      assert [] + d.envelopes == d.envelopes;
      events := events + Tagged(c, d.envelopes);
    }
  }

  // ------------------------------------------------------------ one connection

  /** The life of a connection: reported up once, later down once. */
  datatype Phase = NotYet | Open | Gone

  function PhaseOf(cbs: seq<Callback>, c: Conn): Phase {
    if cbs == [] then NotYet
    else match cbs[|cbs| - 1]
      case Up(d) => if c == d then Open else PhaseOf(cbs[..|cbs| - 1], c)
      case Down(d) => if c == d then Gone else PhaseOf(cbs[..|cbs| - 1], c)
      case Data(_, _) => PhaseOf(cbs[..|cbs| - 1], c)
  }

  ghost predicate OneLife(cbs: seq<Callback>, c: Conn) {
    forall i :: 0 <= i < |cbs| ==>
      && (cbs[i] == Up(c) ==> PhaseOf(cbs[..i], c) == NotYet)
      && (cbs[i] == Down(c) ==> PhaseOf(cbs[..i], c) == Open)
  }

  /** The chunks received on c while it was up. */
  function Inputs(cbs: seq<Callback>, c: Conn): seq<Bytes> {
    if cbs == [] then []
    else
      var n := |cbs| - 1;
      if cbs[n].Data? && cbs[n].conn == c && PhaseOf(cbs[..n], c) == Open then Inputs(cbs[..n], c) + [cbs[n].input]
      else Inputs(cbs[..n], c)
  }

  function EventsOf<E>(events: seq<(Conn, Event<E>)>, c: Conn): seq<Event<E>> {
    if events == [] then []
    else
      var n := |events| - 1;
      EventsOf(events[..n], c) + if events[n].0 == c then [events[n].1] else []
  }

  function Wrapped<E>(es: seq<E>): seq<Event<E>> {
    seq(|es|, i requires 0 <= i < |es| => Envelope(es[i]))
  }

  lemma {:induction false} EventsAppend<E>(a: seq<(Conn, Event<E>)>, b: seq<(Conn, Event<E>)>, c: Conn)
    ensures EventsOf(a + b, c) == EventsOf(a, c) + EventsOf(b, c)
  {
    if b == [] {
      assert a + b == a;
    } else {
      var n := |b| - 1;
      EventsAppend(a, b[..n], c);
      assert (a + b)[..|a + b| - 1] == a + b[..n];
    }
  }

  lemma {:induction false} EventsTagged<E>(d: Conn, es: seq<E>, c: Conn)
    ensures EventsOf(Tagged(d, es), c) == if c == d then Wrapped(es) else []
  {
    if es != [] {
      var n := |es| - 1;
      EventsTagged(d, es[..n], c);
      assert Tagged(d, es)[..n] == Tagged(d, es[..n]);
      assert Wrapped(es) == Wrapped(es[..n]) + [Envelope(es[n])];
    }
  }

  lemma EventsOne<E>(d: Conn, e: Event<E>, c: Conn)
    ensures EventsOf([(d, e)], c) == if c == d then [e] else []
  {
    assert [(d, e)][..0] == [];
  }

  /** What the table and the event list should hold for c. */
  ghost predicate Tracks<E>(t: Table<E>, cbs: seq<Callback>, c: Conn, max: nat, parse: Bytes -> Option<E>) {
    var s, p := Receive(Inputs(cbs, c), Server, max, parse), PhaseOf(cbs, c);
    && (c in t.buffers <==> p == Open)
    && (p == Open ==> t.buffers[c] == s.buffer)
    && (p == NotYet ==> Inputs(cbs, c) == [])
    && EventsOf(t.events, c) == if p == Gone then Wrapped(s.handled) + [Closed] else Wrapped(s.handled)
  }

  /** Receiving one chunk more, as the server does it: from the buffer alone. */
  lemma ReceiveMore<E>(xs: seq<Bytes>, x: Bytes, max: nat, parse: Bytes -> Option<E>)
    ensures var s, v := Receive(xs, Server, max, parse), Receive(xs + [x], Server, max, parse);
            var u := Turn(Session(s.buffer, [], false), x, Server, max, parse);
            v.buffer == u.buffer && Wrapped(v.handled) == Wrapped(s.handled) + Wrapped(u.handled)
  {
    assert (xs + [x])[..|xs|] == xs;
    var s := Receive(xs, Server, max, parse);
    var u := Turn(Session(s.buffer, [], false), x, Server, max, parse);
    WrappedAppend(s.handled, u.handled);
    assert s.handled + [] == s.handled;
  }

  lemma WrappedAppend<E>(a: seq<E>, b: seq<E>)
    ensures Wrapped(a + b) == Wrapped(a) + Wrapped(b)
  {
  }

  lemma TrackData<E>(t: Table<E>, cbs: seq<Callback>, c: Conn, max: nat, parse: Bytes -> Option<E>)
    requires cbs != [] && cbs[|cbs| - 1].Data? && Tracks(t, cbs[..|cbs| - 1], c, max, parse)
    ensures Tracks(React(t, cbs[|cbs| - 1], max, parse), cbs, c, max, parse)
  {
    var d, input := cbs[|cbs| - 1].conn, cbs[|cbs| - 1].input;
    if d in t.buffers {
      DataEvents(t, d, input, c, max, parse);
      if d == c { TrackOwn(t, cbs, c, max, parse); }
    }
  }

  lemma DataEvents<E>(t: Table<E>, d: Conn, input: Bytes, c: Conn, max: nat, parse: Bytes -> Option<E>)
    requires d in t.buffers
    ensures var u := Turn(Session(t.buffers[d], [], false), input, Server, max, parse);
            EventsOf(React(t, Data(d, input), max, parse).events, c)
            == EventsOf(t.events, c) + if c == d then Wrapped(u.handled) else []
  {
    var u := Turn(Session(t.buffers[d], [], false), input, Server, max, parse);
    EventsAppend(t.events, Tagged(d, u.handled), c);
    EventsTagged(d, u.handled, c);
  }

  lemma TrackOwn<E>(t: Table<E>, cbs: seq<Callback>, c: Conn, max: nat, parse: Bytes -> Option<E>)
    requires cbs != [] && cbs[|cbs| - 1].Data? && cbs[|cbs| - 1].conn == c && c in t.buffers
    requires Tracks(t, cbs[..|cbs| - 1], c, max, parse)
    ensures Tracks(React(t, cbs[|cbs| - 1], max, parse), cbs, c, max, parse)
  {
    var n := |cbs| - 1;
    DataEvents(t, c, cbs[n].input, c, max, parse);
    ReceiveMore(Inputs(cbs[..n], c), cbs[n].input, max, parse);
  }

  lemma TrackLife<E>(t: Table<E>, cbs: seq<Callback>, c: Conn, max: nat, parse: Bytes -> Option<E>)
    requires cbs != [] && !cbs[|cbs| - 1].Data? && Tracks(t, cbs[..|cbs| - 1], c, max, parse)
    requires cbs[|cbs| - 1] == Up(c) ==> PhaseOf(cbs[..|cbs| - 1], c) == NotYet
    requires cbs[|cbs| - 1] == Down(c) ==> PhaseOf(cbs[..|cbs| - 1], c) == Open
    ensures Tracks(React(t, cbs[|cbs| - 1], max, parse), cbs, c, max, parse)
  {
    var last := cbs[|cbs| - 1];
    if last.Down? {
      EventsAppend(t.events, [(last.conn, Closed)], c);
      EventsOne<E>(last.conn, Closed, c);
    }
  }

  /** On every run of callbacks, however the connections interleave, the events of a connection
      are the envelopes its own chunks decode to, in order, and then at most one Closed, which is
      the last: nothing of a connection is dispatched after its close. */
  lemma {:induction false} ConnectionEvents<E>(cbs: seq<Callback>, c: Conn, max: nat, parse: Bytes -> Option<E>)
    requires OneLife(cbs, c)
    ensures Tracks(ReactAll(cbs, max, parse), cbs, c, max, parse)
  {
    if cbs != [] {
      var n := |cbs| - 1;
      forall i | 0 <= i < n
        ensures cbs[..n][i] == Up(c) ==> PhaseOf(cbs[..n][..i], c) == NotYet
        ensures cbs[..n][i] == Down(c) ==> PhaseOf(cbs[..n][..i], c) == Open
      {
        assert cbs[..n][..i] == cbs[..i];
      }
      ConnectionEvents(cbs[..n], c, max, parse);
      var t := ReactAll(cbs[..n], max, parse);
      if cbs[n].Data? { TrackData(t, cbs, c, max, parse); } else { TrackLife(t, cbs, c, max, parse); }
    }
  }
}
