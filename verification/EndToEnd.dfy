/** What holds in every reachable state of the delivery protocol, whatever the interleaving
    of workers, retry thread, clients and network. */
module EndToEnd {
  import opened Options
  import opened Decimal
  import opened Ledger
  import opened Scans
  import opened Delivery
  import UserState

  // ------------------------------------------------------------- invariants

  /** A snapshot may be stale, but it is of a message that exists and it has its content. */
  ghost predicate Known(s: System, r: Record) {
    r.msgId in s.ledger.msgs && SameMessage(s.ledger.msgs[r.msgId], r)
  }

  ghost predicate AllKnown(s: System, rs: seq<Record>) {
    forall i :: 0 <= i < |rs| ==> Known(s, rs[i])
  }

  /** msgId is the record made for a chat request that came over c with this seq. */
  ghost predicate AckNames(s: System, c: Conn, seqNo: nat, id: MsgId) {
    exists r :: (c, r) in s.toServer && r.Chat? && r.seqNo == seqNo && r.from != 0
      && (c, Login(r.from)) in s.toServer
      && (r.from, r.clientMsgId) in s.ledger.idem && s.ledger.idem[(r.from, r.clientMsgId)] == id
  }

  ghost predicate PacketOk(s: System, c: Conn, p: Packet) {
    match p
    case LoginResp(ok) => c in s.peers && (s.peers[c].Client? ==> (ok <==> s.peers[c].uid != 0))
    case ServerAck(n, id, ok) => ok ==> AckNames(s, c, n, id)
    case Push(id, from, to, content, _) =>
      id in s.ledger.msgs && s.ledger.msgs[id].fromUid == from && s.ledger.msgs[id].toUid == to
      && s.ledger.msgs[id].content == content
  }

  /** The client has put a non-history push of this message into its queue. */
  ghost predicate Queued(p: Peer, id: MsgId) {
    p.Client? && p.loginOk && exists k :: 0 <= k < |p.queue| && p.queue[k].Push? && p.queue[k].msgId == id && !p.queue[k].history
  }

  ghost predicate RequestOk(s: System, c: Conn, r: Request) {
    c in s.peers &&
    if s.peers[c].Client? then
      match r
      case Login(u) => u == s.peers[c].uid
      case Chat(n, from, to, content, cid) =>
        var k := CallId(s.peers[c].process, n);
        k in s.calls && from == s.peers[c].uid
        && s.calls[k].conn == c && s.calls[k].to == to && s.calls[k].content == content && s.calls[k].clientMsgId == cid
      case Ack(id) => Queued(s.peers[c], id)
      case Heartbeat => true
      case Malformed(_) => true
    else r.Login? ==> r.uid !in s.trusted
  }

  ghost predicate JobOk(s: System, j: Job) {
    match j
    case Idle => true
    case LoginBind(c, uid) => (c, Login(uid)) in s.toServer
    case LoginReply(c, uid) => (c, Login(uid)) in s.toServer
    case PendingRead(_) => true
    case PendingFetch(_, _, got) => AllKnown(s, got)
    case Try(todo, after) => AllKnown(s, todo) && AfterOk(s, after)
    case TryPend(todo, after) => AllKnown(s, todo) && AfterOk(s, after)
    case TrySend(_, todo, after) => AllKnown(s, todo) && AfterOk(s, after)
    case TryMark(todo, after) => AllKnown(s, todo) && AfterOk(s, after)
    case RecentRead(_) => true
    case RecentFetch(_, _, got) => AllKnown(s, got)
    case RecentFind(_, got) => AllKnown(s, got)
    case RecentSend(_, todo) => AllKnown(s, todo)
    case ChatCheck(c, r) => (c, r) in s.toServer
    case ChatCreate(c, r) => (c, r) in s.toServer && r.Chat? && r.from != 0 && (c, Login(r.from)) in s.toServer
    case AckCheck(c, id) => (c, Ack(id)) in s.toServer
    case AckMark(c, id, uid) => (c, Ack(id)) in s.toServer && (c, Login(uid)) in s.toServer
    case Reply(o) => PacketOk(s, o.conn, o.packet)
    case CloseConn(_) => true
  }

  ghost predicate AfterOk(s: System, after: Option<Outgoing>) {
    after.Some? ==> PacketOk(s, after.value.conn, after.value.packet)
  }

  ghost predicate RetryOk(s: System, j: RetryJob) {
    match j
    case Sleeping => true
    case OverdueRead(_) => true
    case OverdueFetch(_, _, got) => AllKnown(s, got)
    case RetryNext(todo) => AllKnown(s, todo)
    case RetryFail(todo) => AllKnown(s, todo)
    case RetryPend(todo) => AllKnown(s, todo)
    case RetryCount(_, todo) => AllKnown(s, todo)
    case RetrySend(_, todo) => AllKnown(s, todo)
    case RetryMark(todo) => AllKnown(s, todo)
  }

  /** Somebody logged in as u over a connection that has sent an ACK for id. */
  ghost predicate AckSent(s: System, id: MsgId, u: Uid) {
    exists c :: (c, Login(u)) in s.toServer && (c, Ack(id)) in s.toServer
  }

  /** The record was made for one of the client's sendMessage calls. */
  ghost predicate FromCall(s: System, r: Record) {
    exists n :: n in s.calls && s.calls[n].clientMsgId == r.clientMsgId
      && s.calls[n].to == r.toUid && s.calls[n].content == r.content
      && s.calls[n].conn in s.peers && s.peers[s.calls[n].conn].Client? && s.peers[s.calls[n].conn].uid == r.fromUid
  }

  ghost predicate JobsOk(s: System) { forall w :: 0 <= w < |s.jobs| ==> JobOk(s, s.jobs[w]) }
  ghost predicate PacketsOk(s: System) { forall c, p :: (c, p) in s.toClient ==> PacketOk(s, c, p) }
  ghost predicate RequestsOk(s: System) { forall c, r :: (c, r) in s.toServer ==> RequestOk(s, c, r) }
  ghost predicate UsersOk(s: System) {
    forall c: Conn :: UserState.UidOf(s.users, c) != 0 ==> (c, Login(UserState.UidOf(s.users, c))) in s.toServer
  }
  ghost predicate AckedOk(s: System) {
    forall id :: id in s.ledger.msgs && s.ledger.msgs[id].status == Acked ==> AckSent(s, id, s.ledger.msgs[id].toUid)
  }
  ghost predicate TrustedOk(s: System) {
    forall id :: id in s.ledger.msgs && s.ledger.msgs[id].fromUid in s.trusted ==> FromCall(s, s.ledger.msgs[id])
  }

  /** client_msg_ids are built from distinct counter values. */
  ghost predicate CallsOk(s: System) {
    && (forall n :: n in s.calls ==>
          s.calls[n].conn in s.peers && s.peers[s.calls[n].conn].Client? && s.peers[s.calls[n].conn].process == n.process
          && exists t :: s.calls[n].clientMsgId == ClientMsgId(s.peers[s.calls[n].conn].uid, t, s.calls[n].no))
    && (forall m, n :: m in s.calls && n in s.calls && m.process == n.process && s.calls[m].no == s.calls[n].no ==> m == n)
  }

  ghost predicate PeersOk(s: System) {
    && (forall c :: c in s.peers && s.peers[c].Client? && s.peers[c].loginOk ==> s.peers[c].uid != 0)
    && (forall c, k :: c in s.peers && s.peers[c].Client? && 0 <= k < |s.peers[c].queue| ==>
          (c, s.peers[c].queue[k]) in s.toClient)
  }

  ghost predicate Facts(s: System) {
    var wire := PeersOk(s) && PacketsOk(s) && RequestsOk(s) && CallsOk(s);
    var server := JobsOk(s) && RetryOk(s, s.retry) && UsersOk(s) && AckedOk(s) && TrustedOk(s);
    wire && server
  }

  ghost predicate Inv(s: System) {
    Consistent(s.ledger) && UserState.MutuallyInverse(s.users) && Facts(s)
  }

  // ------------------------------------------------ facts that only ever grow

  ghost predicate PeerGrows(p: Peer, q: Peer) {
    if p.Client? then q.Client? && q.uid == p.uid && q.process == p.process && (p.loginOk ==> q.loginOk) && p.queue <= q.queue else q.Foreign?
  }

  ghost predicate Grows(s: System, t: System) {
    && Extends(s.ledger, t.ledger)
    && s.toServer <= t.toServer
    && (forall c :: c in s.peers ==> c in t.peers && PeerGrows(s.peers[c], t.peers[c]))
    && (forall n :: n in s.calls ==> n in t.calls && t.calls[n] == s.calls[n])
    && s.trusted == t.trusted
  }

  lemma PacketGrows(s: System, t: System, c: Conn, p: Packet)
    requires Grows(s, t) && PacketOk(s, c, p)
    ensures PacketOk(t, c, p)
  {
    if p.ServerAck? && p.ok {
      var r :| (c, r) in s.toServer && r.Chat? && r.seqNo == p.seqNo && r.from != 0
        && (c, Login(r.from)) in s.toServer
        && (r.from, r.clientMsgId) in s.ledger.idem && s.ledger.idem[(r.from, r.clientMsgId)] == p.msgId;
      assert (c, r) in t.toServer;
    }
  }

  lemma QueuedGrows(p: Peer, q: Peer, id: MsgId)
    requires Queued(p, id) && PeerGrows(p, q)
    ensures Queued(q, id)
  {
    var k :| 0 <= k < |p.queue| && p.queue[k].Push? && p.queue[k].msgId == id && !p.queue[k].history;
    assert q.queue[k] == p.queue[k];
  }

  lemma RequestGrows(s: System, t: System, c: Conn, r: Request)
    requires Grows(s, t) && RequestOk(s, c, r)
    ensures RequestOk(t, c, r)
  {
    if s.peers[c].Client? && r.Ack? { QueuedGrows(s.peers[c], t.peers[c], r.msgId); }
  }

  lemma JobGrows(s: System, t: System, j: Job)
    requires Grows(s, t) && JobOk(s, j)
    ensures JobOk(t, j)
  {
    match j
    case Reply(o) => PacketGrows(s, t, o.conn, o.packet);
    case Try(_, after) => AfterGrows(s, t, after);
    case TryPend(_, after) => AfterGrows(s, t, after);
    case TrySend(_, _, after) => AfterGrows(s, t, after);
    case TryMark(_, after) => AfterGrows(s, t, after);
    case _ =>
  }

  lemma AfterGrows(s: System, t: System, after: Option<Outgoing>)
    requires Grows(s, t) && AfterOk(s, after)
    ensures AfterOk(t, after)
  {
    if after.Some? { PacketGrows(s, t, after.value.conn, after.value.packet); }
  }

  lemma RetryGrows(s: System, t: System, j: RetryJob)
    requires Grows(s, t) && RetryOk(s, j)
    ensures RetryOk(t, j)
  {
  }

  lemma AckSentGrows(s: System, t: System, id: MsgId, u: Uid)
    requires Grows(s, t) && AckSent(s, id, u)
    ensures AckSent(t, id, u)
  {
    var c :| (c, Login(u)) in s.toServer && (c, Ack(id)) in s.toServer;
    assert (c, Login(u)) in t.toServer;
  }

  lemma FromCallGrows(s: System, t: System, r: Record, q: Record)
    requires Grows(s, t) && FromCall(s, r) && SameMessage(r, q)
    ensures FromCall(t, q)
  {
    var n :| n in s.calls && s.calls[n].clientMsgId == r.clientMsgId
      && s.calls[n].to == r.toUid && s.calls[n].content == r.content
      && s.calls[n].conn in s.peers && s.peers[s.calls[n].conn].Client? && s.peers[s.calls[n].conn].uid == r.fromUid;
    assert n in t.calls;
  }

  // ------------------------------------------------- the parts of one step

  lemma JobsKept(s: System, t: System, w: nat)
    requires Grows(s, t) && JobsOk(s) && w < |s.jobs|
    requires |t.jobs| == |s.jobs| && t.jobs == s.jobs[w := t.jobs[w]] && JobOk(t, t.jobs[w])
    ensures JobsOk(t)
  {
    forall v | 0 <= v < |t.jobs| ensures JobOk(t, t.jobs[v]) {
      if v != w { JobGrows(s, t, s.jobs[v]); }
    }
  }

  lemma AllJobsKept(s: System, t: System)
    requires Grows(s, t) && JobsOk(s) && t.jobs == s.jobs
    ensures JobsOk(t)
  {
    forall v | 0 <= v < |t.jobs| ensures JobOk(t, t.jobs[v]) { JobGrows(s, t, s.jobs[v]); }
  }

  lemma PacketsKept(s: System, t: System, out: Option<Outgoing>)
    requires Grows(s, t) && PacketsOk(s) && t.toClient == s.toClient + Sent(out) && AfterOk(t, out)
    ensures PacketsOk(t)
  {
    forall c, p | (c, p) in t.toClient ensures PacketOk(t, c, p) {
      if (c, p) in s.toClient { PacketGrows(s, t, c, p); }
    }
  }

  lemma RequestsKept(s: System, t: System, added: set<(Conn, Request)>)
    requires Grows(s, t) && RequestsOk(s) && t.toServer == s.toServer + added
    requires forall c, r :: (c, r) in added ==> RequestOk(t, c, r)
    ensures RequestsOk(t)
  {
    forall c, r | (c, r) in t.toServer ensures RequestOk(t, c, r) {
      if (c, r) in s.toServer { RequestGrows(s, t, c, r); }
    }
  }

  lemma AckedKept(s: System, t: System)
    requires Grows(s, t) && AckedOk(s)
    requires forall id :: id in t.ledger.msgs && t.ledger.msgs[id].status == Acked ==>
               (id in s.ledger.msgs && s.ledger.msgs[id].status == Acked) || AckSent(t, id, t.ledger.msgs[id].toUid)
    ensures AckedOk(t)
  {
    forall id | id in t.ledger.msgs && t.ledger.msgs[id].status == Acked
      ensures AckSent(t, id, t.ledger.msgs[id].toUid)
    {
      if id in s.ledger.msgs && s.ledger.msgs[id].status == Acked {
        AckSentGrows(s, t, id, s.ledger.msgs[id].toUid);
      }
    }
  }

  lemma TrustedKept(s: System, t: System)
    requires Grows(s, t) && TrustedOk(s)
    requires forall id :: id in t.ledger.msgs && id !in s.ledger.msgs && t.ledger.msgs[id].fromUid in t.trusted ==>
               FromCall(t, t.ledger.msgs[id])
    ensures TrustedOk(t)
  {
    forall id | id in t.ledger.msgs && t.ledger.msgs[id].fromUid in t.trusted ensures FromCall(t, t.ledger.msgs[id]) {
      if id in s.ledger.msgs { FromCallGrows(s, t, s.ledger.msgs[id], t.ledger.msgs[id]); }
    }
  }

  // --------------------------------------------------------- client-side steps

  /** A step of clients and network only: new requests are justified, nothing else moves. */
  lemma ClientSide(s: System, t: System, added: set<(Conn, Request)>)
    requires Facts(s) && Grows(s, t)
    requires t.ledger == s.ledger && t.users == s.users && t.jobs == s.jobs && t.retry == s.retry && t.toClient == s.toClient
    requires t.toServer == s.toServer + added && forall c, r :: (c, r) in added ==> RequestOk(t, c, r)
    requires CallsOk(t) && PeersOk(t)
    ensures Facts(t)
  {
    AllJobsKept(s, t);
    RetryGrows(s, t, s.retry);
    PacketsKept(s, t, None);
    RequestsKept(s, t, added);
    AckedKept(s, t);
    TrustedKept(s, t);
  }

  lemma ExtendsReflexive(l: Ledger)
    ensures Extends(l, l)
  {
  }

  lemma CallsKept(s: System, t: System)
    requires CallsOk(s) && t.calls == s.calls
    requires forall c :: c in s.peers ==> c in t.peers && PeerGrows(s.peers[c], t.peers[c])
    ensures CallsOk(t)
  {
  }

  lemma ConnectInv(s: System, c: Conn, uid: Uid, process: nat)
    requires Facts(s)
    ensures Facts(Step(s, Connect(c, uid, process)))
  {
    ExtendsReflexive(s.ledger);
    var t := Step(s, Connect(c, uid, process));
    if c !in s.peers {
      CallsKept(s, t);
      ClientSide(s, t, {(c, Login(uid))});
    }
  }

  lemma ConnectForeignInv(s: System, c: Conn)
    requires Facts(s)
    ensures Facts(Step(s, ConnectForeign(c)))
  {
    ExtendsReflexive(s.ledger);
    var t := Step(s, ConnectForeign(c));
    if c !in s.peers {
      CallsKept(s, t);
      ClientSide(s, t, {});
    }
  }

  lemma ForeignSendInv(s: System, c: Conn, r: Request)
    requires Facts(s)
    ensures Facts(Step(s, ForeignSend(c, r)))
  {
    ExtendsReflexive(s.ledger);
    var t := Step(s, ForeignSend(c, r));
    if t != s { ClientSide(s, t, {(c, r)}); }
  }

  lemma SendMessageCalls(s: System, t: System, n: CallId, k: Call, at: nat)
    requires CallsOk(s) && t.peers == s.peers && t.calls == s.calls[n := k] && n !in s.calls
    requires forall m :: m in s.calls && m.process == n.process ==> s.calls[m].no != k.no
    requires k.conn in s.peers && s.peers[k.conn].Client? && s.peers[k.conn].process == n.process
    requires k.clientMsgId == ClientMsgId(s.peers[k.conn].uid, at, k.no)
    ensures CallsOk(t)
  {
  }

  lemma SendMessageInv(s: System, a: Label)
    requires Facts(s) && a.SendMessage?
    ensures Facts(Step(s, a))
  {
    var t := Step(s, a);
    if t != s {
      var uid := s.peers[a.conn].uid;
      var cid := ClientMsgId(uid, a.at, a.no);
      var call := Call(a.conn, a.to, a.content, cid, a.no);
      SendMessageCalls(s, t, CallId(s.peers[a.conn].process, a.seqNo), call, a.at);
      SendMessageParts(s, t, a.seqNo, call);
      ClientSide(s, t, {(a.conn, Chat(a.seqNo, uid, a.to, a.content, cid))});
    }
  }

  lemma SendMessageParts(s: System, t: System, n: nat, k: Call)
    requires k.conn in s.peers && s.peers[k.conn].Client? && CallId(s.peers[k.conn].process, n) !in s.calls && PeersOk(s)
    requires var chat := Chat(n, s.peers[k.conn].uid, k.to, k.content, k.clientMsgId);
             t == s.(calls := s.calls[CallId(s.peers[k.conn].process, n) := k], toServer := s.toServer + {(k.conn, chat)})
    ensures PeersOk(t) && Grows(s, t) && RequestOk(t, k.conn, Chat(n, s.peers[k.conn].uid, k.to, k.content, k.clientMsgId))
  {
    ExtendsReflexive(s.ledger);
  }

  /** A client that is logged in stays logged in, and sends a receipt only for what it queued. */
  lemma ReceiveGrows(s: System, c: Conn, p: Packet)
    requires c in s.peers && s.peers[c].Client? && PacketOk(s, c, p)
    requires s.peers[c].loginOk ==> s.peers[c].uid != 0
    ensures var q := ClientAfter(s.peers[c], p);
            && PeerGrows(s.peers[c], q) && (q.loginOk ==> q.uid != 0)
            && forall d, r :: (d, r) in ClientReceipt(s.peers[c], c, p) ==> d == c && r.Ack? && Queued(q, r.msgId)
  {
    var q := ClientAfter(s.peers[c], p);
    if p.Push? && s.peers[c].loginOk { assert q.queue[|q.queue| - 1] == p; }
  }

  lemma ReceiveParts(s: System, t: System, c: Conn, p: Packet)
    requires PeersOk(s) && PacketsOk(s) && c in s.peers && s.peers[c].Client? && (c, p) in s.toClient
    requires t == Step(s, ClientReceive(c, p))
    ensures PeersOk(t) && Grows(s, t)
    ensures forall d, r :: (d, r) in ClientReceipt(s.peers[c], c, p) ==> RequestOk(t, d, r)
  {
    ExtendsReflexive(s.ledger);
    ReceiveGrows(s, c, p);
  }

  lemma ReceiveInv(s: System, c: Conn, p: Packet)
    requires Facts(s)
    ensures Facts(Step(s, ClientReceive(c, p)))
  {
    var t := Step(s, ClientReceive(c, p));
    if c in s.peers && s.peers[c].Client? && (c, p) in s.toClient {
      ReceiveParts(s, t, c, p);
      CallsKept(s, t);
      ClientSide(s, t, ClientReceipt(s.peers[c], c, p));
    }
  }

  // --------------------------------------------------------- server-side steps

  /** The script a worker is about to run, if any. */
  function ScriptOf(j: Job, now: nat): Option<Script> {
    match j
    case TryPend(todo, _) => if todo != [] then Some(DoPending(todo[0].msgId)) else None
    case TryMark(todo, _) => if todo != [] then Some(DoDelivered(todo[0].msgId, now)) else None
    case AckMark(_, id, uid) => Some(DoAcked(id, uid, now))
    case ChatCreate(_, r) => if r.Chat? then Some(DoCreate(r.from, r.to, r.content, r.clientMsgId, now)) else None
    case _ => None
  }

  function RetryScriptOf(j: RetryJob, now: nat): Option<Script> {
    match j
    case RetryFail(todo) => if todo != [] then Some(DoFailed(todo[0].msgId)) else None
    case RetryPend(todo) => if todo != [] then Some(DoPending(todo[0].msgId)) else None
    case RetryCount(_, todo) => if todo != [] then Some(DoRetry(todo[0].msgId)) else None
    case RetryMark(todo) => if todo != [] then Some(DoDelivered(todo[0].msgId, now)) else None
    case _ => None
  }

  function ExecOption(l: Ledger, script: Option<Script>): Ledger {
    if script.Some? then Exec(l, script.value) else l
  }

  lemma AdvanceRunsScript(j: Job, l: Ledger, users: UserState.Table, now: nat, up: bool)
    ensures Advance(j, l, users, now, up).ledger == ExecOption(l, ScriptOf(j, now))
  {
  }

  lemma RetryRunsScript(j: RetryJob, l: Ledger, users: UserState.Table, now: nat, up: bool)
    ensures AdvanceRetry(j, l, users, now, up).ledger == ExecOption(l, RetryScriptOf(j, now))
  {
  }

  lemma ExecOptionConsistent(l: Ledger, script: Option<Script>)
    requires Consistent(l)
    ensures Consistent(ExecOption(l, script)) && Extends(l, ExecOption(l, script))
  {
    if script.Some? { ExecConsistent(l, script.value); }
  }

  lemma AdvanceUsers(j: Job, l: Ledger, users: UserState.Table, now: nat, up: bool)
    requires UserState.MutuallyInverse(users)
    ensures UserState.MutuallyInverse(Advance(j, l, users, now, up).users)
  {
    match j
    case LoginBind(c, uid) => if uid != 0 { UserState.BindInverse(users, c, uid); }
    case CloseConn(c) => UserState.RemoveInverse(users, c);
    case _ =>
  }

  lemma AdvanceUsersOk(s: System, t: System, j: Job, now: nat, up: bool)
    requires UserState.MutuallyInverse(s.users) && UsersOk(s) && JobOk(s, j)
    requires t.users == Advance(j, s.ledger, s.users, now, up).users && t.toServer == s.toServer
    ensures UsersOk(t)
  {
    match j
    case LoginBind(c, uid) => if uid != 0 { UserState.BindInverse(s.users, c, uid); }
    case CloseConn(c) => UserState.RemoveInverse(s.users, c);
    case _ =>
  }

  lemma KeepKnown(s: System, q: Query, id: MsgId, got: seq<Record>)
    requires IdsDense(s.ledger) && AllKnown(s, got)
    ensures AllKnown(s, Keep(s.ledger, q, id, got))
  {
  }

  lemma OnwardOk(s: System, todo: seq<Record>, after: Option<Outgoing>)
    requires AllKnown(s, todo) && AfterOk(s, after)
    ensures JobOk(s, Onward(todo, after))
  {
  }

  lemma DeliverJobOk(s: System, j: Job, now: nat, up: bool)
    requires JobOk(s, j) && (j.Try? || j.TryPend? || j.TrySend? || j.TryMark? || j.RecentSend?)
    ensures JobOk(s, Advance(j, s.ledger, s.users, now, up).job)
    ensures AfterOk(s, Advance(j, s.ledger, s.users, now, up).out)
  {
    if j.todo != [] && !j.RecentSend? { OnwardOk(s, j.todo[1..], j.after); }
  }

  lemma FetchJobOk(s: System, j: Job, now: nat, up: bool)
    requires IdsDense(s.ledger) && JobOk(s, j) && (j.PendingFetch? || j.RecentFetch?)
    ensures JobOk(s, Advance(j, s.ledger, s.users, now, up).job)
  {
    if j.ids != [] { KeepKnown(s, if j.PendingFetch? then PendingTo(j.uid) else RecentOf(j.uid), j.ids[0], j.got); }
  }

  lemma CheckJobOk(s: System, j: Job, now: nat, up: bool)
    requires RequestsOk(s) && UsersOk(s) && JobOk(s, j)
    requires j.LoginBind? || j.LoginReply? || j.ChatCheck? || j.AckCheck? || j.AckMark?
    ensures JobOk(s, Advance(j, s.ledger, s.users, now, up).job)
    ensures AfterOk(s, Advance(j, s.ledger, s.users, now, up).out)
  {
    if j.LoginReply? { assert RequestOk(s, j.conn, Login(j.uid)); }
  }

  /** What a handler carries on, and what it sends, is justified in the new state. */
  lemma AdvanceJobOk(s: System, t: System, j: Job, now: nat, up: bool)
    requires RequestsOk(s) && UsersOk(s) && JobOk(s, j) && Grows(s, t) && IdsDense(s.ledger) && !j.ChatCreate?
    ensures JobOk(t, Advance(j, s.ledger, s.users, now, up).job)
    ensures AfterOk(t, Advance(j, s.ledger, s.users, now, up).out)
  {
    var e := Advance(j, s.ledger, s.users, now, up);
    if j.Try? || j.TryPend? || j.TrySend? || j.TryMark? || j.RecentSend? {
      DeliverJobOk(s, j, now, up);
    } else if j.PendingFetch? || j.RecentFetch? {
      FetchJobOk(s, j, now, up);
    } else if j.LoginBind? || j.LoginReply? || j.ChatCheck? || j.AckCheck? || j.AckMark? {
      CheckJobOk(s, j, now, up);
    }
    JobGrows(s, t, e.job);
    AfterGrows(s, t, e.out);
  }

  lemma CreateJobOk(s: System, t: System, c: Conn, r: Request, now: nat)
    requires Consistent(s.ledger) && JobOk(s, ChatCreate(c, r))
    requires t.ledger == Create(s.ledger, r.from, r.to, r.content, r.clientMsgId, now).ledger && t.toServer == s.toServer
    ensures var made := Create(s.ledger, r.from, r.to, r.content, r.clientMsgId, now);
            Known(t, made.record) && AckNames(t, c, r.seqNo, made.record.msgId)
  {
    CreateConsistent(s.ledger, r.from, r.to, r.content, r.clientMsgId, now);
    assert IdemInverse(t.ledger);
    assert (c, r) in t.toServer;
  }

  /** Only markAcked makes a message Acked. */
  lemma AckOrigin(l: Ledger, s: Script, id: MsgId)
    requires id in Exec(l, s).msgs && Exec(l, s).msgs[id].status == Acked
    ensures (id in l.msgs && l.msgs[id].status == Acked)
            || (s.DoAcked? && s.id == id && s.ackUid == Exec(l, s).msgs[id].toUid)
  {
  }

  /** Only createMessage makes a message. */
  lemma CreateOrigin(l: Ledger, s: Script, id: MsgId)
    requires id in Exec(l, s).msgs && id !in l.msgs
    ensures s.DoCreate? && Exec(l, s).msgs[id] == Fresh(id, s.from, s.to, s.content, s.clientMsgId, s.now)
  {
  }

  lemma WorkAcked(s: System, t: System, j: Job, now: nat)
    requires AckedOk(s) && JobOk(s, j) && Grows(s, t) && t.toServer == s.toServer
    requires t.ledger == ExecOption(s.ledger, ScriptOf(j, now))
    ensures AckedOk(t)
  {
    forall id | id in t.ledger.msgs && t.ledger.msgs[id].status == Acked
      ensures (id in s.ledger.msgs && s.ledger.msgs[id].status == Acked) || AckSent(t, id, t.ledger.msgs[id].toUid)
    {
      if ScriptOf(j, now).Some? { AckOrigin(s.ledger, ScriptOf(j, now).value, id); }
    }
    AckedKept(s, t);
  }

  /** A message from a trusted uid can only come from a client's call: the connection that
      asked for it had logged in as that uid, and no foreign peer can. */
  lemma WorkTrusted(s: System, t: System, j: Job, now: nat)
    requires TrustedOk(s) && CallsOk(s) && RequestsOk(s) && JobOk(s, j) && Grows(s, t)
    requires t.peers == s.peers && t.calls == s.calls && t.trusted == s.trusted
    requires t.ledger == ExecOption(s.ledger, ScriptOf(j, now))
    ensures TrustedOk(t)
  {
    forall id | id in t.ledger.msgs && id !in s.ledger.msgs && t.ledger.msgs[id].fromUid in t.trusted
      ensures FromCall(t, t.ledger.msgs[id])
    {
      CreateOrigin(s.ledger, ScriptOf(j, now).value, id);
      assert RequestOk(s, j.conn, j.req) && RequestOk(s, j.conn, Login(j.req.from));
      assert CallId(s.peers[j.conn].process, j.req.seqNo) in t.calls;
    }
    TrustedKept(s, t);
  }

  /** A step of one worker, once its own parts are known to be in order. */
  lemma ServerSide(s: System, t: System, w: nat, out: Option<Outgoing>)
    requires Facts(s) && Grows(s, t) && w < |s.jobs|
    requires |t.jobs| == |s.jobs| && t.jobs == s.jobs[w := t.jobs[w]] && JobOk(t, t.jobs[w])
    requires t.toClient == s.toClient + Sent(out) && AfterOk(t, out)
    requires t.toServer == s.toServer && t.peers == s.peers && t.calls == s.calls && t.retry == s.retry
    requires UsersOk(t) && AckedOk(t) && TrustedOk(t)
    ensures Facts(t)
  {
    JobsKept(s, t, w);
    RetryGrows(s, t, s.retry);
    PacketsKept(s, t, out);
    RequestsKept(s, t, {});
    CallsKept(s, t);
  }

  lemma WorkJobOk(s: System, t: System, j: Job, now: nat, up: bool)
    requires Consistent(s.ledger) && RequestsOk(s) && UsersOk(s) && JobOk(s, j) && Grows(s, t)
    requires t.ledger == Advance(j, s.ledger, s.users, now, up).ledger && t.toServer == s.toServer
    ensures JobOk(t, Advance(j, s.ledger, s.users, now, up).job)
    ensures AfterOk(t, Advance(j, s.ledger, s.users, now, up).out)
  {
    if j.ChatCreate? {
      CreateJobOk(s, t, j.conn, j.req, now);
    } else {
      AdvanceJobOk(s, t, j, now, up);
    }
  }

  lemma WorkGrows(s: System, w: nat, now: nat, up: bool)
    requires Consistent(s.ledger) && w < |s.jobs|
    ensures Grows(s, Step(s, Work(w, now, up)))
    ensures Step(s, Work(w, now, up)).ledger == ExecOption(s.ledger, ScriptOf(s.jobs[w], now))
  {
    AdvanceRunsScript(s.jobs[w], s.ledger, s.users, now, up);
    ExecOptionConsistent(s.ledger, ScriptOf(s.jobs[w], now));
  }

  lemma WorkFacts(s: System, w: nat, now: nat, up: bool)
    requires Inv(s) && w < |s.jobs|
    ensures Facts(Step(s, Work(w, now, up)))
  {
    var j := s.jobs[w];
    var t := Step(s, Work(w, now, up));
    WorkGrows(s, w, now, up);
    WorkJobOk(s, t, j, now, up);
    AdvanceUsersOk(s, t, j, now, up);
    WorkAcked(s, t, j, now);
    WorkTrusted(s, t, j, now);
    ServerSide(s, t, w, Advance(j, s.ledger, s.users, now, up).out);
  }

  lemma RetryJobOk(s: System, t: System, now: nat, up: bool)
    requires IdsDense(s.ledger) && RetryOk(s, s.retry) && Grows(s, t)
    ensures RetryOk(t, AdvanceRetry(s.retry, s.ledger, s.users, now, up).job)
    ensures AfterOk(t, AdvanceRetry(s.retry, s.ledger, s.users, now, up).out)
  {
    var e := AdvanceRetry(s.retry, s.ledger, s.users, now, up);
    if s.retry.OverdueFetch? && s.retry.ids != [] {
      KeepKnown(s, Overdue(s.retry.now, AckTimeoutMs), s.retry.ids[0], s.retry.got);
    }
    assert RetryOk(s, e.job) && AfterOk(s, e.out);
    RetryGrows(s, t, e.job);
    AfterGrows(s, t, e.out);
  }

  lemma RetryGrowsSystem(s: System, now: nat, up: bool)
    requires Consistent(s.ledger)
    ensures Grows(s, Step(s, Retry(now, up)))
    ensures Step(s, Retry(now, up)).ledger == ExecOption(s.ledger, RetryScriptOf(s.retry, now))
  {
    RetryRunsScript(s.retry, s.ledger, s.users, now, up);
    ExecOptionConsistent(s.ledger, RetryScriptOf(s.retry, now));
  }

  lemma RetryLedgerOk(s: System, t: System, now: nat)
    requires AckedOk(s) && TrustedOk(s) && Grows(s, t)
    requires t.ledger == ExecOption(s.ledger, RetryScriptOf(s.retry, now))
    ensures AckedOk(t) && TrustedOk(t)
  {
    var script := RetryScriptOf(s.retry, now);
    forall id | id in t.ledger.msgs ensures id in s.ledger.msgs {
      if script.Some? && id !in s.ledger.msgs { CreateOrigin(s.ledger, script.value, id); }
    }
    forall id | id in t.ledger.msgs && t.ledger.msgs[id].status == Acked ensures s.ledger.msgs[id].status == Acked {
      if script.Some? { AckOrigin(s.ledger, script.value, id); }
    }
    AckedKept(s, t);
    TrustedKept(s, t);
  }

  lemma RetryFacts(s: System, now: nat, up: bool)
    requires Inv(s)
    ensures Facts(Step(s, Retry(now, up)))
  {
    var t := Step(s, Retry(now, up));
    RetryGrowsSystem(s, now, up);
    RetryJobOk(s, t, now, up);
    RetryLedgerOk(s, t, now);
    RetrySide(s, t, AdvanceRetry(s.retry, s.ledger, s.users, now, up).out);
  }

  /** A step of the retry thread, once its own parts are known to be in order. */
  lemma RetrySide(s: System, t: System, out: Option<Outgoing>)
    requires Facts(s) && Grows(s, t) && t.jobs == s.jobs && t.users == s.users
    requires t.toClient == s.toClient + Sent(out) && AfterOk(t, out)
    requires t.toServer == s.toServer && t.peers == s.peers && t.calls == s.calls
    requires RetryOk(t, t.retry) && AckedOk(t) && TrustedOk(t)
    ensures Facts(t)
  {
    AllJobsKept(s, t);
    PacketsKept(s, t, out);
    RequestsKept(s, t, {});
    CallsKept(s, t);
  }

  lemma TakeFacts(s: System, w: nat, j: Job)
    requires Facts(s) && w < |s.jobs| && JobOk(s, j)
    ensures Facts(s.(jobs := s.jobs[w := j]))
  {
    var t := s.(jobs := s.jobs[w := j]);
    ExtendsReflexive(s.ledger);
    assert Grows(s, t);
    JobGrows(s, t, j);
    JobsKept(s, t, w);
    RetryGrows(s, t, s.retry);
    PacketsKept(s, t, None);
    RequestsKept(s, t, {});
    AckedKept(s, t);
    TrustedKept(s, t);
  }

  lemma StepFacts(s: System, a: Label)
    requires Inv(s)
    ensures Facts(Step(s, a))
  {
    match a
    case Connect(c, uid, process) => ConnectInv(s, c, uid, process);
    case ConnectForeign(c) => ConnectForeignInv(s, c);
    case ForeignSend(c, r) => ForeignSendInv(s, c, r);
    case SendMessage(_, _, _, _, _, _) => SendMessageInv(s, a);
    case ClientReceive(c, p) => ReceiveInv(s, c, p);
    case Take(w, c, r) => if IdleWorker(s, w) && (c, r) in s.toServer { TakeFacts(s, w, Start(c, r)); }
    case TakeClose(w, c) => if IdleWorker(s, w) { TakeFacts(s, w, CloseConn(c)); }
    case Work(w, now, up) => if w < |s.jobs| { WorkFacts(s, w, now, up); }
    case Retry(now, up) => RetryFacts(s, now, up);
  }

  lemma StepTables(s: System, a: Label)
    requires Consistent(s.ledger) && UserState.MutuallyInverse(s.users)
    ensures Consistent(Step(s, a).ledger) && UserState.MutuallyInverse(Step(s, a).users)
    ensures Extends(s.ledger, Step(s, a).ledger)
  {
    if a.Work? && a.worker < |s.jobs| {
      WorkTables(s.jobs[a.worker], s.ledger, s.users, a.now, a.up);
    } else if a.Retry? {
      RetryTables(s.retry, s.ledger, s.users, a.now, a.up);
    } else {
      OtherTables(s, a);
      ExtendsReflexive(s.ledger);
    }
  }

  lemma OtherTables(s: System, a: Label)
    requires !a.Retry? && (a.Work? ==> a.worker >= |s.jobs|)
    ensures Step(s, a).ledger == s.ledger && Step(s, a).users == s.users && Step(s, a).retry == s.retry
    ensures Step(s, a).pushed == s.pushed
  {
  }

  lemma RetryTables(j: RetryJob, l: Ledger, users: UserState.Table, now: nat, up: bool)
    requires Consistent(l)
    ensures var m := AdvanceRetry(j, l, users, now, up).ledger; Consistent(m) && Extends(l, m)
  {
    RetryRunsScript(j, l, users, now, up);
    ExecOptionConsistent(l, RetryScriptOf(j, now));
  }

  lemma WorkTables(j: Job, l: Ledger, users: UserState.Table, now: nat, up: bool)
    requires Consistent(l) && UserState.MutuallyInverse(users)
    ensures var e := Advance(j, l, users, now, up);
            Consistent(e.ledger) && UserState.MutuallyInverse(e.users) && Extends(l, e.ledger)
  {
    AdvanceRunsScript(j, l, users, now, up);
    ExecOptionConsistent(l, ScriptOf(j, now));
    AdvanceUsers(j, l, users, now, up);
  }

  lemma {:induction false} RunInv(workers: nat, trusted: set<Uid>, labels: seq<Label>)
    ensures Inv(Run(Init(workers, trusted), labels))
  {
    if labels != [] {
      var before := labels[..|labels| - 1];
      RunInv(workers, trusted, before);
      StepTables(Run(Init(workers, trusted), before), labels[|labels| - 1]);
      StepFacts(Run(Init(workers, trusted), before), labels[|labels| - 1]);
    }
  }

  lemma RunDense(workers: nat, trusted: set<Uid>, labels: seq<Label>)
    ensures IdsDense(Run(Init(workers, trusted), labels).ledger)
  {
    RunInv(workers, trusted, labels);
  }

  // --------------------------------------------------------------- theorems

  /** In every reachable state each message is in exactly the index of its status, with the
      right score: an undelivered message is never lost from all indexes. */
  lemma EveryMessageIndexed(workers: nat, trusted: set<Uid>, labels: seq<Label>, id: MsgId)
    requires id in Run(Init(workers, trusted), labels).ledger.msgs
    ensures var l := Run(Init(workers, trusted), labels).ledger;
            var r := l.msgs[id];
            match r.status
            case Pending => id in At(l.pending, r.toUid) && At(l.pending, r.toUid)[id] == r.createdAt
                            && id !in l.timeout && forall u :: u != r.toUid ==> id !in At(l.pending, u)
            case Delivered => id in l.timeout && l.timeout[id] == r.deliveredAt && forall u :: id !in At(l.pending, u)
            case Acked => id !in l.timeout && forall u :: id !in At(l.pending, u)
            case Failed => id !in l.timeout && forall u :: id !in At(l.pending, u)
  {
    RunInv(workers, trusted, labels);
    var l := Run(Init(workers, trusted), labels).ledger;
    assert PendingAgrees(l) && TimeoutAgrees(l);
  }

  /** If a message to a trusted uid is Acked, a client logged in as that uid has already
      queued a non-history push with its id, sender and exactly the stored content. */
  lemma AckedWasQueued(workers: nat, trusted: set<Uid>, labels: seq<Label>, id: MsgId) returns (c: Conn, k: nat)
    requires var l := Run(Init(workers, trusted), labels).ledger;
             id in l.msgs && l.msgs[id].status == Acked && l.msgs[id].toUid in trusted
    ensures var s := Run(Init(workers, trusted), labels);
            var r := s.ledger.msgs[id];
            && c in s.peers && s.peers[c].Client? && s.peers[c].uid == r.toUid && s.peers[c].loginOk
            && k < |s.peers[c].queue| && s.peers[c].queue[k] == PushOf(r, false)
  {
    RunInv(workers, trusted, labels);
    RunKeepsTrust(workers, trusted, labels);
    var s := Run(Init(workers, trusted), labels);
    var u := s.ledger.msgs[id].toUid;
    assert AckSent(s, id, u);
    c :| (c, Login(u)) in s.toServer && (c, Ack(id)) in s.toServer;
    assert RequestOk(s, c, Login(u)) && RequestOk(s, c, Ack(id));
    var p := s.peers[c];
    k :| 0 <= k < |p.queue| && p.queue[k].Push? && p.queue[k].msgId == id && !p.queue[k].history;
    assert PacketOk(s, c, p.queue[k]);
    assert IdsDense(s.ledger);
  }

  lemma {:induction false} RunKeepsTrust(workers: nat, trusted: set<Uid>, labels: seq<Label>)
    ensures Run(Init(workers, trusted), labels).trusted == trusted
  {
    if labels != [] {
      var n := |labels| - 1;
      RunKeepsTrust(workers, trusted, labels[..n]);
      StepKeepsTrust(Run(Init(workers, trusted), labels[..n]), labels[n]);
    }
  }

  lemma StepKeepsTrust(s: System, a: Label)
    ensures Step(s, a).trusted == s.trusted
  {
  }

  /** Whatever is lost, repeated or retransmitted: a sendMessage call by a trusted user has at
      most one record, which carries the call's receiver and content, and every ok ACK for the
      call's seq names exactly that record. */
  lemma OneRecordPerCall(workers: nat, trusted: set<Uid>, labels: seq<Label>, n: CallId)
    requires var s := Run(Init(workers, trusted), labels);
             n in s.calls && s.calls[n].conn in s.peers && s.peers[s.calls[n].conn].Client?
             && s.peers[s.calls[n].conn].uid in trusted && OneProcess(s, s.peers[s.calls[n].conn].uid, n.process)
    ensures var s := Run(Init(workers, trusted), labels);
            var call := s.calls[n];
            var uid := s.peers[call.conn].uid;
            && (forall i, j :: IsRecordOf(s.ledger, i, uid, call.clientMsgId) && IsRecordOf(s.ledger, j, uid, call.clientMsgId) ==> i == j)
            && (forall i :: IsRecordOf(s.ledger, i, uid, call.clientMsgId) ==>
                  s.ledger.msgs[i].toUid == call.to && s.ledger.msgs[i].content == call.content)
            && (forall i :: (call.conn, ServerAck(n.seqNo, i, true)) in s.toClient ==> IsRecordOf(s.ledger, i, uid, call.clientMsgId))
  {
    RunInv(workers, trusted, labels);
    RunKeepsTrust(workers, trusted, labels);
    var s := Run(Init(workers, trusted), labels);
    var call := s.calls[n];
    var uid := s.peers[call.conn].uid;
    forall i | IsRecordOf(s.ledger, i, uid, call.clientMsgId)
      ensures s.ledger.msgs[i].toUid == call.to && s.ledger.msgs[i].content == call.content
    {
      RecordCarriesCall(s, n, i);
    }
    forall i | (call.conn, ServerAck(n.seqNo, i, true)) in s.toClient
      ensures IsRecordOf(s.ledger, i, uid, call.clientMsgId)
    {
      AckNamesRecord(s, n, i);
    }
    assert IdemInverse(s.ledger);
  }

  /** Everything sent as uid was sent by this client process. */
  ghost predicate OneProcess(s: System, uid: Uid, process: nat) {
    forall m :: m in s.calls && SentAs(s, s.calls[m].conn, uid) ==> m.process == process
  }

  ghost predicate SentAs(s: System, c: Conn, uid: Uid) {
    c in s.peers && s.peers[c].Client? && s.peers[c].uid == uid
  }

  /** i is a record made for (uid, clientMsgId). */
  ghost predicate IsRecordOf(l: Ledger, i: MsgId, uid: Uid, clientMsgId: string) {
    i in l.msgs && l.msgs[i].fromUid == uid && l.msgs[i].clientMsgId == clientMsgId
  }

  lemma RecordCarriesCall(s: System, n: CallId, i: MsgId)
    requires TrustedOk(s) && CallsOk(s) && n in s.calls && s.peers[s.calls[n].conn].uid in s.trusted
    requires OneProcess(s, s.peers[s.calls[n].conn].uid, n.process)
    requires IsRecordOf(s.ledger, i, s.peers[s.calls[n].conn].uid, s.calls[n].clientMsgId)
    ensures s.ledger.msgs[i].toUid == s.calls[n].to && s.ledger.msgs[i].content == s.calls[n].content
  {
    var r := s.ledger.msgs[i];
    assert FromCall(s, r);
    var m :| m in s.calls && s.calls[m].clientMsgId == r.clientMsgId && s.calls[m].to == r.toUid && s.calls[m].content == r.content
      && s.calls[m].conn in s.peers && s.peers[s.calls[m].conn].Client? && s.peers[s.calls[m].conn].uid == r.fromUid;
    ClientMsgIdsDistinct(s, m, n);
  }

  /** Two calls of one process with the same client_msg_id are the same call. */
  lemma ClientMsgIdsDistinct(s: System, m: CallId, n: CallId)
    requires CallsOk(s) && m in s.calls && n in s.calls && m.process == n.process && s.calls[m].clientMsgId == s.calls[n].clientMsgId
    ensures m == n
  {
    var u, v := s.peers[s.calls[m].conn].uid, s.peers[s.calls[n].conn].uid;
    var t :| s.calls[m].clientMsgId == ClientMsgId(u, t, s.calls[m].no);
    var t' :| s.calls[n].clientMsgId == ClientMsgId(v, t', s.calls[n].no);
    SuffixInjective(s.calls[m].no, s.calls[n].no, '-', ToString(u) + "-" + ToString(t), ToString(v) + "-" + ToString(t'));
  }

  lemma AckNamesRecord(s: System, n: CallId, i: MsgId)
    requires PacketsOk(s) && RequestsOk(s) && IdemInverse(s.ledger) && CallsOk(s)
    requires n in s.calls && s.calls[n].conn in s.peers && s.peers[s.calls[n].conn].Client?
    requires (s.calls[n].conn, ServerAck(n.seqNo, i, true)) in s.toClient
    ensures IsRecordOf(s.ledger, i, s.peers[s.calls[n].conn].uid, s.calls[n].clientMsgId)
  {
    var c := s.calls[n].conn;
    assert PacketOk(s, c, ServerAck(n.seqNo, i, true));
    var r :| (c, r) in s.toServer && r.Chat? && r.seqNo == n.seqNo && r.from != 0
      && (c, Login(r.from)) in s.toServer
      && (r.from, r.clientMsgId) in s.ledger.idem && s.ledger.idem[(r.from, r.clientMsgId)] == i;
    assert RequestOk(s, c, r);
  }
}
