/** The delivery protocol as a transition system: business workers and the retry thread run
    their handlers step by step over one ledger and one user table, each step being one
    script, one index read, one fetch, one table lookup or one send. Clients, connections and
    the network are explicit. A run is any sequence of labels, that is any interleaving. */
module Delivery {
  import opened Options
  import opened Decimal
  import opened Ledger
  import opened Scans
  import UserState

  type Conn = UserState.Conn

  const AckTimeoutMs := 10000
  const MaxRetryCount := 3
  const LoginRecentLimit := 100

  /** Client to server. Malformed stands for an envelope without a usable payload or type. */
  datatype Request =
    | Login(uid: Uid)
    | Chat(seqNo: nat, from: Uid, to: Uid, content: string, clientMsgId: string)
    | Ack(msgId: MsgId)
    | Heartbeat
    | Malformed(seqNo: nat)

  /** Server to client. */
  datatype Packet =
    | LoginResp(ok: bool)
    | ServerAck(seqNo: nat, msgId: MsgId, ok: bool)
    | Push(msgId: MsgId, from: Uid, to: Uid, content: string, history: bool)

  function PushOf(r: Record, history: bool): Packet {
    Push(r.msgId, r.fromUid, r.toUid, r.content, history)
  }

  datatype Outgoing = Outgoing(conn: Conn, packet: Packet)

  /** Program counter and locals of one business worker; `todo` holds record snapshots. */
  datatype Job =
    | Idle
    | LoginBind(conn: Conn, uid: Uid)
    | LoginReply(conn: Conn, uid: Uid)
    | PendingRead(uid: Uid)
    | PendingFetch(uid: Uid, ids: seq<MsgId>, got: seq<Record>)
    | Try(todo: seq<Record>, after: Option<Outgoing>)
    | TryPend(todo: seq<Record>, after: Option<Outgoing>)
    | TrySend(target: Conn, todo: seq<Record>, after: Option<Outgoing>)
    | TryMark(todo: seq<Record>, after: Option<Outgoing>)
    | RecentRead(uid: Uid)
    | RecentFetch(uid: Uid, ids: seq<MsgId>, got: seq<Record>)
    | RecentFind(uid: Uid, got: seq<Record>)
    | RecentSend(target: Conn, todo: seq<Record>)
    | ChatCheck(conn: Conn, req: Request)
    | ChatCreate(conn: Conn, req: Request)
    | AckCheck(conn: Conn, msgId: MsgId)
    | AckMark(conn: Conn, msgId: MsgId, uid: Uid)
    | Reply(out: Outgoing)
    | CloseConn(conn: Conn)

  /** The same for the retry thread (deliveryLoop). */
  datatype RetryJob =
    | Sleeping
    | OverdueRead(now: nat)
    | OverdueFetch(now: nat, ids: seq<MsgId>, got: seq<Record>)
    | RetryNext(todo: seq<Record>)
    | RetryFail(todo: seq<Record>)
    | RetryPend(todo: seq<Record>)
    | RetryCount(target: Conn, todo: seq<Record>)
    | RetrySend(target: Conn, todo: seq<Record>)
    | RetryMark(todo: seq<Record>)

  /** A peer is a session of the C++ client, or anything else. */
  datatype Peer = Client(uid: Uid, process: nat, loginOk: bool, queue: seq<Packet>) | Foreign

  /** sendMessage calls, by client process and by the seq that process gave them. */
  datatype CallId = CallId(process: nat, seqNo: nat)
  datatype Call = Call(conn: Conn, to: Uid, content: string, clientMsgId: string, no: nat)

  /** toServer and toClient hold every packet ever sent; each may be received any number of
      times, in any order, or never. Foreign peers never log in as a trusted uid. */
  datatype System = System(
    ledger: Ledger,
    users: UserState.Table,
    jobs: seq<Job>,
    retry: RetryJob,
    toServer: set<(Conn, Request)>,
    toClient: set<(Conn, Packet)>,
    peers: map<Conn, Peer>,
    calls: map<CallId, Call>,
    trusted: set<Uid>,
    pushed: map<MsgId, nat>)   // how often the retry thread has pushed a message

  function Init(workers: nat, trusted: set<Uid>): System {
    System(Empty, UserState.NoUsers, seq(workers, _ => Idle), Sleeping, {}, {}, map[], map[], trusted, map[])
  }

  // ------------------------------------------------------- worker handlers

  datatype Effect = Effect(job: Job, ledger: Ledger, users: UserState.Table, out: Option<Outgoing>)

  /** Where a worker goes when the loop over `todo` moves on. */
  function Onward(todo: seq<Record>, after: Option<Outgoing>): Job {
    if todo != [] then Try(todo, after) else if after.Some? then Reply(after.value) else Idle
  }

  /** handle(): the first program counter for a request. */
  function Start(c: Conn, r: Request): Job {
    match r
    case Login(uid) => LoginBind(c, uid)
    case Chat(_, _, _, _, _) => ChatCheck(c, r)
    case Ack(id) => if id == 0 then Idle else AckCheck(c, id)
    case Heartbeat => Idle
    case Malformed(n) => Reply(Outgoing(c, ServerAck(n, 0, false)))
  }

  /** One step of a worker; `now` is the clock and `up` what connected() answers. */
  ghost function Advance(j: Job, l: Ledger, users: UserState.Table, now: nat, up: bool): Effect {
    match j
    case Idle => Effect(j, l, users, None)
    case LoginBind(c, uid) =>
      Effect(LoginReply(c, uid), l, if uid != 0 then UserState.Bind(users, c, uid) else users, None)
    case LoginReply(c, uid) =>
      Effect(if uid != 0 then PendingRead(uid) else Idle, l, users, Some(Outgoing(c, LoginResp(uid != 0))))
    case PendingRead(uid) =>
      Effect(PendingFetch(uid, Listed(l, PendingTo(uid)), []), l, users, None)
    case PendingFetch(uid, ids, got) =>
      if ids != [] then Effect(PendingFetch(uid, ids[1..], Keep(l, PendingTo(uid), ids[0], got)), l, users, None)
      else if got == [] then Effect(RecentRead(uid), l, users, None)
      else Effect(Try(got, None), l, users, None)
    case Try(todo, after) =>
      if todo == [] then Effect(Onward([], after), l, users, None)
      else if todo[0].status == Acked || todo[0].status == Failed then Effect(Onward(todo[1..], after), l, users, None)
      else
        var target := UserState.ConnOf(users, todo[0].toUid);
        Effect(if target.None? || !up then TryPend(todo, after) else TrySend(target.value, todo, after), l, users, None)
    case TryPend(todo, after) =>
      if todo == [] then Effect(Idle, l, users, None)
      else Effect(Onward(todo[1..], after), MarkPending(l, todo[0].msgId), users, None)
    case TrySend(target, todo, after) =>
      if todo == [] then Effect(Idle, l, users, None)
      else Effect(TryMark(todo, after), l, users, Some(Outgoing(target, PushOf(todo[0], false))))
    case TryMark(todo, after) =>
      if todo == [] then Effect(Idle, l, users, None)
      else Effect(Onward(todo[1..], after), MarkDelivered(l, todo[0].msgId, now), users, None)
    case RecentRead(uid) =>
      Effect(RecentFetch(uid, Newest(l, uid, LoginRecentLimit), []), l, users, None)
    case RecentFetch(uid, ids, got) =>
      if ids != [] then Effect(RecentFetch(uid, ids[1..], Keep(l, RecentOf(uid), ids[0], got)), l, users, None)
      else Effect(RecentFind(uid, Reverse(got)), l, users, None)
    case RecentFind(uid, got) =>
      var target := UserState.ConnOf(users, uid);
      Effect(if target.None? || !up then Idle else RecentSend(target.value, got), l, users, None)
    case RecentSend(target, todo) =>
      if todo == [] then Effect(Idle, l, users, None)
      else Effect(RecentSend(target, todo[1..]), l, users, Some(Outgoing(target, PushOf(todo[0], true))))
    case ChatCheck(c, r) =>
      if !r.Chat? then Effect(Idle, l, users, None)
      else
        var uid := UserState.UidOf(users, c);
        Effect(if uid == 0 || r.from != uid then Reply(Outgoing(c, ServerAck(r.seqNo, 0, false))) else ChatCreate(c, r),
               l, users, None)
    case ChatCreate(c, r) =>
      if !r.Chat? then Effect(Idle, l, users, None)
      else
        var made := Create(l, r.from, r.to, r.content, r.clientMsgId, now);
        var ack := Outgoing(c, ServerAck(r.seqNo, made.record.msgId, true));
        Effect(if made.created then Try([made.record], Some(ack)) else Reply(ack), made.ledger, users, None)
    case AckCheck(c, id) =>
      var uid := UserState.UidOf(users, c);
      Effect(if uid == 0 then Idle else AckMark(c, id, uid), l, users, None)
    case AckMark(c, id, uid) => Effect(Idle, MarkAcked(l, id, uid, now), users, None)
    case Reply(o) => Effect(Idle, l, users, Some(o))
    case CloseConn(c) => Effect(Idle, l, UserState.Remove(users, c), None)
  }

  /** One iteration of a query's fetch loop. */
  function Keep(l: Ledger, q: Query, id: MsgId, got: seq<Record>): seq<Record> {
    var r := Fetch(l, id);
    if r.Some? && Matches(q, r.value) then got + [r.value] else got
  }

  // ---------------------------------------------------------- retry thread

  datatype RetryEffect = RetryEffect(job: RetryJob, ledger: Ledger, out: Option<Outgoing>)

  ghost function AdvanceRetry(j: RetryJob, l: Ledger, users: UserState.Table, now: nat, up: bool): RetryEffect {
    match j
    case Sleeping => RetryEffect(OverdueRead(now), l, None)
    case OverdueRead(t) =>
      RetryEffect(OverdueFetch(t, Listed(l, Overdue(t, AckTimeoutMs)), []), l, None)
    case OverdueFetch(t, ids, got) =>
      if ids != [] then RetryEffect(OverdueFetch(t, ids[1..], Keep(l, Overdue(t, AckTimeoutMs), ids[0], got)), l, None)
      else RetryEffect(RetryNext(got), l, None)
    case RetryNext(todo) =>
      if todo == [] then RetryEffect(Sleeping, l, None)
      else if todo[0].retryCount >= MaxRetryCount then RetryEffect(RetryFail(todo), l, None)
      else if todo[0].status == Acked || todo[0].status == Failed then RetryEffect(RetryNext(todo[1..]), l, None)
      else
        var target := UserState.ConnOf(users, todo[0].toUid);
        RetryEffect(if target.None? || !up then RetryPend(todo) else RetryCount(target.value, todo), l, None)
    case RetryFail(todo) =>
      if todo == [] then RetryEffect(Sleeping, l, None)
      else RetryEffect(RetryNext(todo[1..]), MarkFailed(l, todo[0].msgId), None)
    case RetryPend(todo) =>
      if todo == [] then RetryEffect(Sleeping, l, None)
      else RetryEffect(RetryNext(todo[1..]), MarkPending(l, todo[0].msgId), None)
    case RetryCount(target, todo) =>
      if todo == [] then RetryEffect(Sleeping, l, None)
      else RetryEffect(RetrySend(target, todo), IncrementRetry(l, todo[0].msgId), None)
    case RetrySend(target, todo) =>
      if todo == [] then RetryEffect(Sleeping, l, None)
      else RetryEffect(RetryMark(todo), l, Some(Outgoing(target, PushOf(todo[0], false))))
    case RetryMark(todo) =>
      if todo == [] then RetryEffect(Sleeping, l, None)
      else RetryEffect(RetryNext(todo[1..]), MarkDelivered(l, todo[0].msgId, now), None)
  }

  // ---------------------------------------------------------------- clients

  /** client_msg_id as sendMessage builds it. */
  function ClientMsgId(uid: Uid, now: nat, no: nat): string {
    ToString(uid) + "-" + ToString(now) + "-" + ToString(no)
  }

  /** handleLoginResponse, handleChatPush and handleAck of the C++ client. */
  function ClientAfter(p: Peer, packet: Packet): Peer
    requires p.Client?
  {
    match packet
    case LoginResp(ok) => p.(loginOk := ok)
    case ServerAck(_, _, _) => p
    case Push(_, _, _, _, _) => if p.loginOk then p.(queue := p.queue + [packet]) else p
  }

  /** The receipt the client sends back: only after queueing, and not for history. */
  function ClientReceipt(p: Peer, c: Conn, packet: Packet): set<(Conn, Request)>
    requires p.Client?
  {
    if packet.Push? && p.loginOk && !packet.history then {(c, Ack(packet.msgId))} else {}
  }

  // ------------------------------------------------------------ transitions

  datatype Label =
    | Connect(conn: Conn, uid: Uid, process: nat)    // startClient on a fresh connection
    | ConnectForeign(conn: Conn)
    | ForeignSend(conn: Conn, req: Request)
    | SendMessage(conn: Conn, seqNo: nat, no: nat, at: nat, to: Uid, content: string)
    | ClientReceive(conn: Conn, packet: Packet)
    | Take(worker: nat, conn: Conn, req: Request)    // a worker picks up a received request
    | TakeClose(worker: nat, conn: Conn)             // or a connection-closed event
    | Work(worker: nat, now: nat, up: bool)
    | Retry(now: nat, up: bool)

  function Sent(o: Option<Outgoing>): set<(Conn, Packet)> {
    if o.Some? then {(o.value.conn, o.value.packet)} else {}
  }

  function CountPush(s: System): map<MsgId, nat> {
    if s.retry.RetrySend? && s.retry.todo != [] then
      var id := s.retry.todo[0].msgId;
      s.pushed[id := Pushes(s, id) + 1]
    else s.pushed
  }

  function Pushes(s: System, id: MsgId): nat {
    if id in s.pushed then s.pushed[id] else 0
  }

  predicate IdleWorker(s: System, w: nat) {
    w < |s.jobs| && s.jobs[w].Idle?
  }

  /** A label that is not enabled leaves the state as it is. */
  ghost function Step(s: System, a: Label): System {
    match a
    case Connect(c, uid, process) =>
      if c in s.peers then s
      else s.(peers := s.peers[c := Client(uid, process, false, [])], toServer := s.toServer + {(c, Login(uid))})
    case ConnectForeign(c) =>
      if c in s.peers then s else s.(peers := s.peers[c := Foreign])
    case ForeignSend(c, r) =>
      if c !in s.peers || !s.peers[c].Foreign? || (r.Login? && r.uid in s.trusted) then s
      else s.(toServer := s.toServer + {(c, r)})
    case SendMessage(c, n, no, at, to, content) =>
      if c !in s.peers || !s.peers[c].Client? || !s.peers[c].loginOk || CallId(s.peers[c].process, n) in s.calls
         || exists m :: m in s.calls && m.process == s.peers[c].process && s.calls[m].no == no then s
      else
        var cid := ClientMsgId(s.peers[c].uid, at, no);
        s.(calls := s.calls[CallId(s.peers[c].process, n) := Call(c, to, content, cid, no)],
           toServer := s.toServer + {(c, Chat(n, s.peers[c].uid, to, content, cid))})
    case ClientReceive(c, p) =>
      if c !in s.peers || !s.peers[c].Client? || (c, p) !in s.toClient then s
      else s.(peers := s.peers[c := ClientAfter(s.peers[c], p)],
              toServer := s.toServer + ClientReceipt(s.peers[c], c, p))
    case Take(w, c, r) =>
      if !IdleWorker(s, w) || (c, r) !in s.toServer then s else s.(jobs := s.jobs[w := Start(c, r)])
    case TakeClose(w, c) =>
      if !IdleWorker(s, w) then s else s.(jobs := s.jobs[w := CloseConn(c)])
    case Work(w, now, up) =>
      if w >= |s.jobs| then s
      else
        var e := Advance(s.jobs[w], s.ledger, s.users, now, up);
        s.(jobs := s.jobs[w := e.job], ledger := e.ledger, users := e.users, toClient := s.toClient + Sent(e.out))
    case Retry(now, up) =>
      var e := AdvanceRetry(s.retry, s.ledger, s.users, now, up);
      s.(retry := e.job, ledger := e.ledger, toClient := s.toClient + Sent(e.out), pushed := CountPush(s))
  }

  /** The state after a run. */
  ghost function Run(s: System, labels: seq<Label>): System {
    if labels == [] then s else Step(Run(s, labels[..|labels| - 1]), labels[|labels| - 1])
  }
}
