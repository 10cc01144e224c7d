/** UserStateService: which connection is logged in as which user. */
module UserState {
  import opened Options

  type Uid = nat
  type Conn = nat

  datatype ConnState = Connected | Authenticated
  datatype Entry = Entry(uid: Uid, state: ConnState)

  /** conns is conn_states_, online is uid_to_conn_. */
  datatype Table = Table(conns: map<Conn, Entry>, online: map<Uid, Conn>)

  const NoUsers := Table(map[], map[])

  /** Both tables say the same: a connection is Authenticated iff its uid is non-zero iff
      that uid is online on exactly this connection. */
  ghost predicate MutuallyInverse(t: Table) {
    && (forall c :: c in t.conns ==> (t.conns[c].state == Authenticated <==> t.conns[c].uid != 0))
    && (forall c :: c in t.conns && t.conns[c].uid != 0 ==>
          t.conns[c].uid in t.online && t.online[t.conns[c].uid] == c)
    && (forall u :: u in t.online ==> u != 0 && t.online[u] in t.conns && t.conns[t.online[u]].uid == u)
  }

  function UidOf(t: Table, c: Conn): Uid {
    if c in t.conns && t.conns[c].state == Authenticated then t.conns[c].uid else 0
  }

  function ConnOf(t: Table, u: Uid): Option<Conn> {
    if u in t.online then Some(t.online[u]) else None
  }

  /** The index without the entry that the uid `was` has on c. */
  function Unindexed(online: map<Uid, Conn>, c: Conn, was: Uid): map<Uid, Conn> {
    if was != 0 && was in online && online[was] == c then online - {was} else online
  }

  function DropIndex(t: Table, c: Conn): map<Uid, Conn> {
    if c in t.conns then Unindexed(t.online, c, t.conns[c].uid) else t.online
  }

  /** The connections when any other connection of u falls back to Connected. */
  function LoggedOut(conns: map<Conn, Entry>, online: map<Uid, Conn>, c: Conn, u: Uid): map<Conn, Entry> {
    if u in online && online[u] != c && online[u] in conns
    then conns[online[u] := Entry(0, Connected)]
    else conns
  }

  function Bind(t: Table, c: Conn, u: Uid): Table {
    var online := DropIndex(t, c);
    Table(LoggedOut(t.conns, online, c, u)[c := Entry(u, Authenticated)], online[u := c])
  }

  function Remove(t: Table, c: Conn): Table {
    if c !in t.conns then t else Table(t.conns - {c}, DropIndex(t, c))
  }

  /** Binding keeps the tables inverse; it logs c in as u and out of anything else, logs any
      other connection of u out, and touches nobody else. */
  lemma BindInverse(t: Table, c: Conn, u: Uid)
    requires MutuallyInverse(t) && u != 0
    ensures MutuallyInverse(Bind(t, c, u))
    ensures UidOf(Bind(t, c, u), c) == u && ConnOf(Bind(t, c, u), u) == Some(c)
    ensures forall d :: d != c ==> UidOf(Bind(t, c, u), d) == if UidOf(t, d) == u then 0 else UidOf(t, d)
    ensures forall v :: v != u ==> ConnOf(Bind(t, c, u), v) == if ConnOf(t, v) == Some(c) then None else ConnOf(t, v)
    ensures Bind(t, c, u).conns.Keys == t.conns.Keys + {c}
  {
  }

  /** Registering an unknown connection first, as the code does, makes no difference. */
  lemma BindByUpdates(t: Table, c: Conn, u: Uid)
    ensures var conns := if c in t.conns then t.conns else t.conns[c := Entry(0, Connected)];
            var online := Unindexed(t.online, c, conns[c].uid);
            Table(LoggedOut(conns, online, c, u)[c := Entry(u, Authenticated)], online[u := c]) == Bind(t, c, u)
  {
    var conns := if c in t.conns then t.conns else t.conns[c := Entry(0, Connected)];
    var online := DropIndex(t, c);
    assert online == Unindexed(t.online, c, conns[c].uid);
    assert LoggedOut(conns, online, c, u)[c := Entry(u, Authenticated)]
        == LoggedOut(t.conns, online, c, u)[c := Entry(u, Authenticated)];
  }

  /** Removing c takes it out of both tables and changes nobody else: a newer connection of
      the same user stays online. */
  lemma RemoveInverse(t: Table, c: Conn)
    requires MutuallyInverse(t)
    ensures MutuallyInverse(Remove(t, c))
    ensures c !in Remove(t, c).conns && forall u :: ConnOf(Remove(t, c), u) != Some(c)
    ensures forall d :: d != c ==> UidOf(Remove(t, c), d) == UidOf(t, d)
    ensures forall v :: ConnOf(t, v) != Some(c) ==> ConnOf(Remove(t, c), v) == ConnOf(t, v)
    ensures Remove(t, c).conns.Keys == t.conns.Keys - {c}
  {
  }

  /** Lookups agree in both directions. */
  lemma LookupsAgree(t: Table, c: Conn, u: Uid)
    requires MutuallyInverse(t) && u != 0
    ensures UidOf(t, c) == u <==> ConnOf(t, u) == Some(c)
  {
  }

  /** The service object; a null connection is None. */
  class UserStateService {
    var connStates: map<Conn, Entry>
    var uidToConn: map<Uid, Conn>

    ghost function View(): Table
      reads this
    {
      Table(connStates, uidToConn)
    }

    ghost predicate Valid()
      reads this
    {
      MutuallyInverse(View())
    }

    constructor ()
      ensures Valid() && View() == NoUsers
    {
      connStates, uidToConn := map[], map[];
    }

    method BindUser(conn: Option<Conn>, uid: Uid) returns (ok: bool)
      requires Valid()
      modifies this
      ensures Valid()
      ensures ok <==> conn.Some? && uid != 0
      ensures View() == if ok then Bind(old(View()), conn.value, uid) else old(View())
    {
      if conn.None? || uid == 0 { return false; }
      BindInverse(View(), conn.value, uid);
      Rebind(conn.value, uid);
      return true;
    }

    /** The updates of BindUser in source order, on tables that need not be inverse yet. */
    method Rebind(c: Conn, uid: Uid)
      modifies this
      ensures View() == Bind(old(View()), c, uid)
    {
      BindByUpdates(View(), c, uid);
      if c !in connStates { connStates := connStates[c := Entry(0, Connected)]; }
      var state := connStates[c];
      if state.uid != 0 && state.uid in uidToConn && uidToConn[state.uid] == c {
        uidToConn := uidToConn - {state.uid};
      }
      if uid in uidToConn && uidToConn[uid] != c && uidToConn[uid] in connStates {
        connStates := connStates[uidToConn[uid] := Entry(0, Connected)];
      }
      connStates := connStates[c := Entry(uid, Authenticated)];
      uidToConn := uidToConn[uid := c];
    }

    method RemoveConnection(conn: Option<Conn>)
      requires Valid()
      modifies this
      ensures Valid()
      ensures View() == if conn.Some? then Remove(old(View()), conn.value) else old(View())
    {
      if conn.None? { return; }
      var c := conn.value;
      RemoveInverse(View(), c);
      if c !in connStates { return; }
      var uid := connStates[c].uid;
      if uid != 0 && uid in uidToConn && uidToConn[uid] == c {
        uidToConn := uidToConn - {uid};
      }
      connStates := connStates - {c};
    }

    method GetUidByConn(conn: Option<Conn>) returns (uid: Uid)
      requires Valid()
      ensures uid == if conn.Some? then UidOf(View(), conn.value) else 0
      ensures conn.Some? && uid != 0 ==> ConnOf(View(), uid) == conn
    {
      if conn.None? || conn.value !in connStates || connStates[conn.value].state != Authenticated { return 0; }
      return connStates[conn.value].uid;
    }

    method GetConnByUid(uid: Uid) returns (conn: Option<Conn>)
      requires Valid()
      ensures conn == ConnOf(View(), uid)
      ensures conn.Some? ==> UidOf(View(), conn.value) == uid
    {
      return if uid in uidToConn then Some(uidToConn[uid]) else None;
    }
  }
}
