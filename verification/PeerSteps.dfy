/** The steps of the transition system outside the handlers: what a client does with what it hears,
    what strangers may send, and how a closed connection is handled. */
module PeerSteps {
  import opened Options
  import opened Ledger
  import opened Delivery
  import UserState

  /** A client that has logged in puts every push it hears into its queue, and answers it with an ACK
      unless it is history; before that it ignores pushes. */
  lemma PushHeard(s: System, c: Conn, p: Packet)
    requires c in s.peers && s.peers[c].Client? && (c, p) in s.toClient && p.Push?
    ensures var t, queue := Step(s, ClientReceive(c, p)), s.peers[c].queue;
            && c in t.peers && t.peers[c].Client? && t.peers[c].loginOk == s.peers[c].loginOk
            && t.peers[c].queue == (if s.peers[c].loginOk then queue + [p] else queue)
            && (forall d, r :: (d, r) in t.toServer <==>
                  (d, r) in s.toServer || (d == c && r == Ack(p.msgId) && s.peers[c].loginOk && !p.history))
            && t.ledger == s.ledger && t.jobs == s.jobs && t.users == s.users && t.toClient == s.toClient
  {
  }

  /** The answer to its login is all that logs a client in or out. */
  lemma AnswerHeard(s: System, c: Conn, p: Packet)
    requires c in s.peers && s.peers[c].Client? && (c, p) in s.toClient && !p.Push?
    ensures var t := Step(s, ClientReceive(c, p));
            && c in t.peers && t.peers[c] == (if p.LoginResp? then s.peers[c].(loginOk := p.ok) else s.peers[c])
            && t.toServer == s.toServer && t.ledger == s.ledger
  {
  }

  /** sendMessage by a client that has logged in puts one chat request on the wire, with the client's
      own uid, a seq and a client_msg_id of its own; otherwise nothing happens. */
  lemma MessageSent(s: System, c: Conn, n: nat, no: nat, at: nat, to: Uid, content: string)
    requires c in s.peers && s.peers[c].Client?
    requires var k := CallId(s.peers[c].process, n);
             k !in s.calls && forall m :: m in s.calls && m.process == s.peers[c].process ==> s.calls[m].no != no
    ensures var t := Step(s, SendMessage(c, n, no, at, to, content));
            if s.peers[c].loginOk then
              t.toServer == s.toServer + {(c, Chat(n, s.peers[c].uid, to, content, ClientMsgId(s.peers[c].uid, at, no)))}
            else t == s
  {
  }

  lemma ClientMsgIdReads()
    ensures ClientMsgId(7, 1700, 32) == "7-1700-32"
  {
  }

  /** A stranger can send anything at any time, but for the login of a trusted user. */
  lemma StrangersSendAnything(s: System, c: Conn, r: Request)
    requires c !in s.peers
    ensures var t := Step(Step(s, ConnectForeign(c)), ForeignSend(c, r));
            if r.Login? && r.uid in s.trusted then t.toServer == s.toServer else t.toServer == s.toServer + {(c, r)}
  {
  }

  /** A client that connects asks to log in as its user. */
  lemma ClientsLogIn(s: System, c: Conn, uid: Uid, process: nat)
    requires c !in s.peers
    ensures var t := Step(s, Connect(c, uid, process));
            c in t.peers && t.peers[c] == Client(uid, process, false, []) && t.toServer == s.toServer + {(c, Login(uid))}
  {
  }

  /** Once a worker has handled the close of c, c is in neither table, and whoever is online on
      another connection still is. */
  lemma CloseHandled(s: System, w: nat, c: Conn, now: nat, up: bool)
    requires UserState.MutuallyInverse(s.users) && IdleWorker(s, w)
    ensures var t := Step(Step(s, TakeClose(w, c)), Work(w, now, up));
            && t.jobs == s.jobs && t.ledger == s.ledger && t.toClient == s.toClient
            && c !in t.users.conns && (forall u :: UserState.ConnOf(t.users, u) != Some(c))
            && (forall u :: UserState.ConnOf(s.users, u) != Some(c) ==> UserState.ConnOf(t.users, u) == UserState.ConnOf(s.users, u))
  {
    UserState.RemoveInverse(s.users, c);
    assert s.jobs[w := CloseConn(c)][w := Idle] == s.jobs;
  }
}
