/** MessageStore on the flat keyspace: the Lua scripts as sequences of commands on string keys,
    proved to refine the typed ledger. */
module RedisStore {
  import opened Options
  import opened Decimal
  import opened SortedSet
  import opened Ledger
  import Scripts = Ledger
  import opened Scans
  import opened QueryResults
  import opened RedisKeys

  // ------------------------------------------------------------- record text

  function StatusText(s: Status): string {
    match s case Pending => "Pending" case Delivered => "Delivered" case Acked => "Acked" case Failed => "Failed"
  }

  function ParseStatus(t: string): Option<Status> {
    if t == "Pending" then Some(Pending)
    else if t == "Delivered" then Some(Delivered)
    else if t == "Acked" then Some(Acked)
    else if t == "Failed" then Some(Failed)
    else None
  }

  lemma ParseStatusText(s: Status)
    ensures ParseStatus(StatusText(s)) == Some(s)
  {
    assert |StatusText(Pending)| == 7 && |StatusText(Delivered)| == 9 && |StatusText(Acked)| == 5 && |StatusText(Failed)| == 6;
  }

  function TextOf(r: Record): RecordText {
    RecordText(ToString(r.msgId), ToString(r.fromUid), ToString(r.toUid), r.content, r.clientMsgId, StatusText(r.status),
               ToString(r.createdAt), ToString(r.deliveredAt), ToString(r.ackedAt), ToString(r.retryCount))
  }

  /** BuildRecordFromFields: a field that does not parse makes the whole record unreadable. */
  function BuildRecord(t: RecordText): Option<Record> {
    var id, from, to, status := Parse(t.msgId), Parse(t.fromUid), Parse(t.toUid), ParseStatus(t.status);
    var created, delivered, acked, retry :=
      Parse(t.createdAt), Parse(t.deliveredAt), Parse(t.ackedAt), Parse(t.retryCount);
    if id.None? || from.None? || to.None? || status.None? || created.None? || delivered.None? || acked.None? || retry.None?
    then None
    else Some(Record(id.value, from.value, to.value, t.content, t.clientMsgId, status.value,
                     created.value, delivered.value, acked.value, retry.value))
  }

  /** Exactly the hashes are readable whose eight numbers are rows of digits and whose status is one of
      the four. */
  lemma BuildExactly(t: RecordText)
    ensures BuildRecord(t).Some? <==>
              && AllDigits(t.msgId) && AllDigits(t.fromUid) && AllDigits(t.toUid)
              && (t.status == "Pending" || t.status == "Delivered" || t.status == "Acked" || t.status == "Failed")
              && AllDigits(t.createdAt) && AllDigits(t.deliveredAt) && AllDigits(t.ackedAt) && AllDigits(t.retryCount)
  {
    ParseExactly(t.msgId);
    ParseExactly(t.fromUid);
    ParseExactly(t.toUid);
    ParseExactly(t.createdAt);
    ParseExactly(t.deliveredAt);
    ParseExactly(t.ackedAt);
    ParseExactly(t.retryCount);
  }

  /** A stored record is read back unchanged. */
  lemma BuildTextOf(r: Record)
    ensures BuildRecord(TextOf(r)) == Some(r)
  {
    ParseToString(r.msgId);
    ParseToString(r.fromUid);
    ParseToString(r.toUid);
    ParseToString(r.createdAt);
    ParseToString(r.deliveredAt);
    ParseToString(r.ackedAt);
    ParseToString(r.retryCount);
    ParseStatusText(r.status);
  }

  // ------------------------------------------------------------- representation

  ghost predicate RepNext(db: Db, n: nat) {
    if n == 0 then NextIdKey !in db else NextIdKey in db && db[NextIdKey] == Str(ToString(n))
  }

  ghost predicate RepMsgs(db: Db, msgs: map<MsgId, Record>) {
    forall id: MsgId ::
      && (MessageKey(id) in db <==> id in msgs)
      && (id in msgs ==> db[MessageKey(id)] == Hash(TextOf(msgs[id])))
  }

  ghost predicate RepIdem(db: Db, idem: map<(Uid, string), MsgId>) {
    forall u: Uid, x: string ::
      && (IdempotencyKey(u, x) in db <==> (u, x) in idem)
      && ((u, x) in idem ==> db[IdempotencyKey(u, x)] == Str(ToString(idem[(u, x)])))
  }

  ghost predicate RepSet(db: Db, k: string, z: Index) {
    IsSorted(db, k) && Members(db, k) == Text(z)
  }

  ghost predicate RepPending(db: Db, family: map<Uid, Index>) {
    forall u: Uid :: RepSet(db, PendingKey(u), At(family, u))
  }

  ghost predicate RepRecent(db: Db, family: map<Uid, Index>) {
    forall u: Uid :: RepSet(db, RecentKey(u), At(family, u))
  }

  /** The flat database holds exactly this ledger. */
  ghost predicate Represents(db: Db, l: Ledger) {
    match l
    case Ledger(nextId, msgs, idem, pending, timeout, recent) =>
      && RepNext(db, nextId) && RepMsgs(db, msgs) && RepIdem(db, idem)
      && RepPending(db, pending) && RepSet(db, TimeoutKey, timeout) && RepRecent(db, recent)
  }

  /** db and e agree on every key whose fifth letter is f. */
  ghost predicate SameOn(db: Db, e: Db, f: char) {
    forall k: string :: |k| > 4 && k[4] == f ==> (k in db <==> k in e) && (k in db ==> db[k] == e[k])
  }

  lemma FrameMsgs(db: Db, e: Db, msgs: map<MsgId, Record>)
    requires RepMsgs(db, msgs) && SameOn(db, e, 'm')
    ensures RepMsgs(e, msgs)
  {
  }

  lemma FrameNext(db: Db, e: Db, n: nat)
    requires RepNext(db, n) && SameOn(db, e, 'm')
    ensures RepNext(e, n)
  {
    FixedKeys();
  }

  lemma FrameIdem(db: Db, e: Db, idem: map<(Uid, string), MsgId>)
    requires RepIdem(db, idem) && SameOn(db, e, 'i')
    ensures RepIdem(e, idem)
  {
  }

  lemma FramePending(db: Db, e: Db, family: map<Uid, Index>)
    requires RepPending(db, family) && SameOn(db, e, 'p')
    ensures RepPending(e, family)
  {
  }

  lemma FrameRecent(db: Db, e: Db, family: map<Uid, Index>)
    requires RepRecent(db, family) && SameOn(db, e, 'r')
    ensures RepRecent(e, family)
  {
  }

  lemma FrameTimeout(db: Db, e: Db, z: Index)
    requires RepSet(db, TimeoutKey, z) && SameOn(db, e, 'd')
    ensures RepSet(e, TimeoutKey, z)
  {
    FixedKeys();
  }

  // ----------------------------------------------------------- single updates

  lemma AddToSet(db: Db, k: string, z: Index, id: MsgId, score: nat)
    requires RepSet(db, k, z)
    ensures RepSet(ZAdd(db, k, score, ToString(id)), k, z[id := score])
  {
    TextAdd(z, id, score);
  }

  lemma ZRemEffect(db: Db, k: string, member: string)
    requires IsSorted(db, k)
    ensures var e := ZRem(db, k, member);
            && IsSorted(e, k) && Members(e, k) == Members(db, k) - {member}
            && (k in e ==> Members(e, k) != map[])
            && forall j :: j != k ==> (j in e <==> j in db) && (j in db ==> e[j] == db[j])
  {
  }

  lemma RemoveFromSet(db: Db, k: string, z: Index, id: MsgId)
    requires RepSet(db, k, z)
    ensures RepSet(ZRem(db, k, ToString(id)), k, z - {id})
  {
    TextRemove(z, id);
  }

  lemma AddPending(db: Db, family: map<Uid, Index>, u: Uid, id: MsgId, score: nat)
    requires RepPending(db, family)
    ensures RepPending(ZAdd(db, PendingKey(u), score, ToString(id)), Add(family, u, id, score))
  {
    assert RepSet(db, PendingKey(u), At(family, u));
    AddToSet(db, PendingKey(u), At(family, u), id, score);
    var e := ZAdd(db, PendingKey(u), score, ToString(id));
    forall v: Uid ensures RepSet(e, PendingKey(v), At(Add(family, u, id, score), v)) {
      if v != u {
        if PendingKey(u) == PendingKey(v) { PendingKeyInjective(u, v); }
        assert RepSet(db, PendingKey(v), At(family, v));
      }
    }
  }

  lemma RemovePending(db: Db, family: map<Uid, Index>, u: Uid, id: MsgId)
    requires RepPending(db, family)
    ensures RepPending(ZRem(db, PendingKey(u), ToString(id)), Remove(family, u, id))
  {
    assert RepSet(db, PendingKey(u), At(family, u));
    RemoveFromSet(db, PendingKey(u), At(family, u), id);
    ZRemEffect(db, PendingKey(u), ToString(id));
    OtherPending(db, ZRem(db, PendingKey(u), ToString(id)), family, Remove(family, u, id), u);
  }

  lemma OtherPending(db: Db, e: Db, family: map<Uid, Index>, changed: map<Uid, Index>, u: Uid)
    requires RepPending(db, family) && RepSet(e, PendingKey(u), At(changed, u))
    requires forall v :: v != u ==> At(changed, v) == At(family, v)
    requires forall j :: j != PendingKey(u) ==> (j in e <==> j in db) && (j in db ==> e[j] == db[j])
    ensures RepPending(e, changed)
  {
    forall v: Uid ensures RepSet(e, PendingKey(v), At(changed, v)) {
      if v != u {
        if PendingKey(u) == PendingKey(v) { PendingKeyInjective(u, v); }
        assert RepSet(db, PendingKey(v), At(family, v));
      }
    }
  }

  lemma AddRecent(db: Db, family: map<Uid, Index>, u: Uid, id: MsgId, score: nat)
    requires RepRecent(db, family)
    ensures RepRecent(ZAdd(db, RecentKey(u), score, ToString(id)), Add(family, u, id, score))
  {
    assert RepSet(db, RecentKey(u), At(family, u));
    AddToSet(db, RecentKey(u), At(family, u), id, score);
    var e := ZAdd(db, RecentKey(u), score, ToString(id));
    forall v: Uid ensures RepSet(e, RecentKey(v), At(Add(family, u, id, score), v)) {
      if v != u {
        if RecentKey(u) == RecentKey(v) { RecentKeyInjective(u, v); }
        assert RepSet(db, RecentKey(v), At(family, v));
      }
    }
  }

  lemma PutMessage(db: Db, msgs: map<MsgId, Record>, id: MsgId, r: Record)
    requires RepMsgs(db, msgs)
    ensures RepMsgs(db[MessageKey(id) := Hash(TextOf(r))], msgs[id := r])
  {
    var e := db[MessageKey(id) := Hash(TextOf(r))];
    forall k: MsgId
      ensures MessageKey(k) in e <==> k in msgs[id := r]
      ensures k in msgs[id := r] ==> e[MessageKey(k)] == Hash(TextOf(msgs[id := r][k]))
    {
      if k != id && MessageKey(k) == MessageKey(id) { MessageKeyInjective(k, id); }
    }
  }

  lemma PutIdem(db: Db, idem: map<(Uid, string), MsgId>, u: Uid, x: string, id: MsgId)
    requires RepIdem(db, idem)
    ensures RepIdem(db[IdempotencyKey(u, x) := Str(ToString(id))], idem[(u, x) := id])
  {
    var e := db[IdempotencyKey(u, x) := Str(ToString(id))];
    forall v: Uid, y: string
      ensures IdempotencyKey(v, y) in e <==> (v, y) in idem[(u, x) := id]
      ensures (v, y) in idem[(u, x) := id] ==> e[IdempotencyKey(v, y)] == Str(ToString(idem[(u, x) := id][(v, y)]))
    {
      if IdempotencyKey(v, y) == IdempotencyKey(u, x) { IdempotencyKeyInjective(v, y, u, x); }
    }
  }

  // --------------------------------------- one command, one field of the ledger

  /** A write to a key of one family leaves the representation of the others alone. */
  lemma OneFamily(db: Db, e: Db, l: Ledger, k: string)
    requires Represents(db, l) && |k| > 4
    requires forall j: string :: j != k ==> (j in db <==> j in e) && (j in db ==> db[j] == e[j])
    ensures k[4] != 'm' ==> RepNext(e, l.nextId) && RepMsgs(e, l.msgs)
    ensures k[4] != 'i' ==> RepIdem(e, l.idem)
    ensures k[4] != 'p' ==> RepPending(e, l.pending)
    ensures k[4] != 'd' ==> RepSet(e, TimeoutKey, l.timeout)
    ensures k[4] != 'r' ==> RepRecent(e, l.recent)
  {
    if k[4] != 'm' { FrameNext(db, e, l.nextId); FrameMsgs(db, e, l.msgs); }
    if k[4] != 'i' { FrameIdem(db, e, l.idem); }
    if k[4] != 'p' { FramePending(db, e, l.pending); }
    if k[4] != 'd' { FrameTimeout(db, e, l.timeout); }
    if k[4] != 'r' { FrameRecent(db, e, l.recent); }
  }

  lemma WriteNext(db: Db, l: Ledger, n: nat)
    requires Represents(db, l) && n > 0
    ensures Represents(db[NextIdKey := Str(ToString(n))], l.(nextId := n))
  {
    FixedKeys();
    OneFamily(db, db[NextIdKey := Str(ToString(n))], l, NextIdKey);
  }

  lemma WriteIdem(db: Db, l: Ledger, u: Uid, x: string, id: MsgId)
    requires Represents(db, l)
    ensures Represents(db[IdempotencyKey(u, x) := Str(ToString(id))], l.(idem := l.idem[(u, x) := id]))
  {
    PutIdem(db, l.idem, u, x, id);
    OneFamily(db, db[IdempotencyKey(u, x) := Str(ToString(id))], l, IdempotencyKey(u, x));
  }

  lemma WriteMessage(db: Db, l: Ledger, id: MsgId, r: Record)
    requires Represents(db, l)
    ensures Represents(db[MessageKey(id) := Hash(TextOf(r))], l.(msgs := l.msgs[id := r]))
  {
    FixedKeys();
    PutMessage(db, l.msgs, id, r);
    OneFamily(db, db[MessageKey(id) := Hash(TextOf(r))], l, MessageKey(id));
  }

  lemma WritePending(db: Db, l: Ledger, u: Uid, id: MsgId, score: nat)
    requires Represents(db, l)
    ensures IsSorted(db, PendingKey(u))
    ensures Represents(ZAdd(db, PendingKey(u), score, ToString(id)), l.(pending := Add(l.pending, u, id, score)))
  {
    assert RepSet(db, PendingKey(u), At(l.pending, u));
    AddPending(db, l.pending, u, id, score);
    OneFamily(db, ZAdd(db, PendingKey(u), score, ToString(id)), l, PendingKey(u));
  }

  lemma ErasePending(db: Db, l: Ledger, u: Uid, id: MsgId)
    requires Represents(db, l)
    ensures IsSorted(db, PendingKey(u))
    ensures Represents(ZRem(db, PendingKey(u), ToString(id)), l.(pending := Remove(l.pending, u, id)))
  {
    assert RepSet(db, PendingKey(u), At(l.pending, u));
    RemovePending(db, l.pending, u, id);
    OneFamily(db, ZRem(db, PendingKey(u), ToString(id)), l, PendingKey(u));
  }

  lemma WriteRecent(db: Db, l: Ledger, u: Uid, id: MsgId, score: nat)
    requires Represents(db, l)
    ensures IsSorted(db, RecentKey(u))
    ensures Represents(ZAdd(db, RecentKey(u), score, ToString(id)), l.(recent := Add(l.recent, u, id, score)))
  {
    assert RepSet(db, RecentKey(u), At(l.recent, u));
    AddRecent(db, l.recent, u, id, score);
    OneFamily(db, ZAdd(db, RecentKey(u), score, ToString(id)), l, RecentKey(u));
  }

  lemma WriteTimeout(db: Db, l: Ledger, id: MsgId, score: nat)
    requires Represents(db, l)
    ensures IsSorted(db, TimeoutKey)
    ensures Represents(ZAdd(db, TimeoutKey, score, ToString(id)), l.(timeout := l.timeout[id := score]))
  {
    FixedKeys();
    AddToSet(db, TimeoutKey, l.timeout, id, score);
    OneFamily(db, ZAdd(db, TimeoutKey, score, ToString(id)), l, TimeoutKey);
  }

  lemma EraseTimeout(db: Db, l: Ledger, id: MsgId)
    requires Represents(db, l)
    ensures IsSorted(db, TimeoutKey)
    ensures Represents(ZRem(db, TimeoutKey, ToString(id)), l.(timeout := l.timeout - {id}))
  {
    FixedKeys();
    RemoveFromSet(db, TimeoutKey, l.timeout, id);
    OneFamily(db, ZRem(db, TimeoutKey, ToString(id)), l, TimeoutKey);
  }

  // ------------------------------------------------------------------ the store

  /** HMGET on a message key. */
  lemma HashIs(db: Db, l: Ledger, id: MsgId)
    requires Represents(db, l)
    ensures IsHash(db, MessageKey(id))
    ensures HGetAll(db, MessageKey(id)) == if id in l.msgs then Some(TextOf(l.msgs[id])) else None
  {
    assert RepMsgs(db, l.msgs);
  }

  /** FetchRecord: HMGET and BuildRecordFromFields; id 0 gives nothing. */
  function FetchRecord(db: Db, id: MsgId): Option<Record>
    requires IsHash(db, MessageKey(id))
  {
    var t := HGetAll(db, MessageKey(id));
    if id == 0 || t.None? then None else BuildRecord(t.value)
  }

  /** Reading the flat store is reading the ledger. */
  lemma FetchRefines(db: Db, l: Ledger, id: MsgId)
    requires Represents(db, l)
    ensures IsHash(db, MessageKey(id)) && FetchRecord(db, id) == Fetch(l, id)
  {
    HashIs(db, l, id);
    if id in l.msgs { BuildTextOf(l.msgs[id]); }
  }

  /** INCR and HINCRBY on a counter's text. */
  function Incremented(t: Option<string>): nat {
    match t
    case None => 1
    case Some(s) => (match Parse(s) case Some(n) => n case None => 0) + 1
  }

  /** HINCRBY on the retry_count field. */
  function Bumped(t: RecordText): RecordText {
    t.(retryCount := ToString(Incremented(Some(t.retryCount))))
  }

  lemma BumpedIs(l: Ledger, id: MsgId) returns (next: Record)
    requires id in l.msgs
    ensures Bumped(TextOf(l.msgs[id])) == TextOf(next) && IncrementRetry(l, id) == l.(msgs := l.msgs[id := next])
  {
    next := l.msgs[id].(retryCount := l.msgs[id].retryCount + 1);
    ParseToString(l.msgs[id].retryCount);
  }

  lemma NextIs(db: Db, l: Ledger)
    requires Represents(db, l)
    ensures IsStr(db, NextIdKey) && Incremented(Get(db, NextIdKey)) == l.nextId + 1
  {
    ParseToString(l.nextId);
  }

  /** GET on the idempotency key, EXISTS and HMGET find exactly the earlier message. */
  lemma DuplicateIs(db: Db, l: Ledger, from: Uid, clientMsgId: string)
    requires Represents(db, l)
    ensures var k := IdempotencyKey(from, clientMsgId);
            && IsStr(db, k)
            && (k in db <==> (from, clientMsgId) in l.idem)
            && (k in db ==>
                  var m, id := MsgPrefix + db[k].text, l.idem[(from, clientMsgId)];
                  IsHash(db, m) && HGetAll(db, m) == if id in l.msgs then Some(TextOf(l.msgs[id])) else None)
  {
    assert RepIdem(db, l.idem);
    if (from, clientMsgId) in l.idem {
      var id := l.idem[(from, clientMsgId)];
      assert MsgPrefix + ToString(id) == MessageKey(id);
      HashIs(db, l, id);
    }
  }

  // ------------------------------------------------------------ the create script

  ghost function InsertLedger(l: Ledger, r: Record): Ledger {
    l.(nextId := r.msgId, idem := l.idem[(r.fromUid, r.clientMsgId) := r.msgId], msgs := l.msgs[r.msgId := r])
  }

  ghost function IndexLedger(l: Ledger, r: Record): Ledger {
    l.(pending := Add(l.pending, r.toUid, r.msgId, r.createdAt),
       recent := Add(Add(l.recent, r.fromUid, r.msgId, r.createdAt), r.toUid, r.msgId, r.createdAt))
  }

  /** The two halves of the create script together are the ledger's create step. */
  lemma CreateKnown(l: Ledger, from: Uid, to: Uid, content: string, clientMsgId: string, now: nat)
    requires (from, clientMsgId) in l.idem && l.idem[(from, clientMsgId)] in l.msgs
    ensures Create(l, from, to, content, clientMsgId, now) == CreateResult(l, false, l.msgs[l.idem[(from, clientMsgId)]])
  {
  }

  lemma CreateNew(l: Ledger, from: Uid, to: Uid, content: string, clientMsgId: string, now: nat, r: Record)
    requires !((from, clientMsgId) in l.idem && l.idem[(from, clientMsgId)] in l.msgs)
    requires r == Fresh(l.nextId + 1, from, to, content, clientMsgId, now)
    ensures Replies(Create(l, from, to, content, clientMsgId, now), IndexLedger(InsertLedger(l, r), r), Some((true, r)))
  {
  }

  /** The call's answer and the ledger it leaves are those of the create step. */
  ghost predicate Replies(c: CreateResult, l: Ledger, result: Option<(bool, Record)>) {
    var same := l == c.ledger && result == Some((c.created, c.record));
    same
  }

  /** On the flat keys themselves: message hashes exist for exactly 1..next_id, every idempotency
      key names the hash with its own from_uid and client_msg_id, and every hash is named by its key. */
  lemma FlatStoreInverse(db: Db, l: Ledger)
    requires Represents(db, l) && Consistent(l)
    ensures forall id: MsgId :: MessageKey(id) in db <==> 1 <= id <= l.nextId
    ensures forall u: Uid, x: string :: IdempotencyKey(u, x) in db ==>
              var v := db[IdempotencyKey(u, x)];
              && v.Str? && MsgPrefix + v.text in db
              && var h := db[MsgPrefix + v.text];
              h.Hash? && h.hash.msgId == v.text && h.hash.fromUid == ToString(u) && h.hash.clientMsgId == x
    ensures forall id: MsgId :: MessageKey(id) in db ==>
              var r := l.msgs[id];
              && db[MessageKey(id)] == Hash(TextOf(r))
              && IdempotencyKey(r.fromUid, r.clientMsgId) in db
              && db[IdempotencyKey(r.fromUid, r.clientMsgId)] == Str(ToString(id))
  {
    FlatIds(db, l);
    forall u: Uid, x: string | IdempotencyKey(u, x) in db
      ensures var v := db[IdempotencyKey(u, x)];
              && v.Str? && MsgPrefix + v.text in db
              && var h := db[MsgPrefix + v.text];
              h.Hash? && h.hash.msgId == v.text && h.hash.fromUid == ToString(u) && h.hash.clientMsgId == x
    {
      FlatIdempotency(db, l, u, x);
    }
  }

  lemma FlatIds(db: Db, l: Ledger)
    requires RepMsgs(db, l.msgs) && RepIdem(db, l.idem) && IdsDense(l) && IdemInverse(l)
    ensures forall id: MsgId :: MessageKey(id) in db <==> 1 <= id <= l.nextId
    ensures forall id: MsgId :: MessageKey(id) in db ==>
              var r := l.msgs[id];
              && db[MessageKey(id)] == Hash(TextOf(r))
              && IdempotencyKey(r.fromUid, r.clientMsgId) in db
              && db[IdempotencyKey(r.fromUid, r.clientMsgId)] == Str(ToString(id))
  {
  }

  lemma FlatIdempotency(db: Db, l: Ledger, u: Uid, x: string)
    requires RepMsgs(db, l.msgs) && RepIdem(db, l.idem) && IdsDense(l) && IdemInverse(l)
    requires IdempotencyKey(u, x) in db
    ensures var v := db[IdempotencyKey(u, x)];
            && v.Str? && MsgPrefix + v.text in db
            && var h := db[MsgPrefix + v.text];
            h.Hash? && h.hash.msgId == v.text && h.hash.fromUid == ToString(u) && h.hash.clientMsgId == x
  {
    var id := l.idem[(u, x)];
    assert MsgPrefix + ToString(id) == MessageKey(id);
  }

  // ------------------------------------------------------------------- queries

  /** The members with a score up to max. */
  function AtMost(z: ZSet, max: nat): ZSet {
    map s | s in z && z[s] <= max :: z[s]
  }

  lemma TextUpTo(z: Index, max: nat)
    ensures Text(UpTo(z, max)) == AtMost(Text(z), max)
  {
    var y, t := UpTo(z, max), AtMost(Text(z), max);
    forall s | s in t ensures Writes(y, s) {
      assert Writes(z, s);
      var n :| n in z && ToString(n) == s;
      assert n in y;
    }
    TextUnique(y, Text(y), t);
  }

  predicate QueryTyped(db: Db, q: Query) {
    match q
    case PendingTo(u) => IsSorted(db, PendingKey(u))
    case RecentOf(u) => IsSorted(db, RecentKey(u))
    case Overdue(_, _) => IsSorted(db, TimeoutKey)
  }

  /** The reply to ZRANGE 0 -1 or to ZRANGEBYSCORE 0 max. */
  function IndexReply(db: Db, q: Query): seq<string>
    requires QueryTyped(db, q)
  {
    match q
    case PendingTo(u) => Range(Members(db, PendingKey(u)))
    case RecentOf(u) => Range(Members(db, RecentKey(u)))
    case Overdue(now, timeout) => Range(AtMost(Members(db, TimeoutKey), MaxScore(now, timeout)))
  }

  lemma SetReply(db: Db, k: string, z: Index)
    requires RepSet(db, k, z)
    ensures Range(Members(db, k)) == Texts(Ids(z))
  {
    IdsAreRange(z);
  }

  lemma OverdueReply(db: Db, z: Index, max: nat)
    requires RepSet(db, TimeoutKey, z)
    ensures Range(AtMost(Members(db, TimeoutKey), max)) == Texts(Ids(UpTo(z, max)))
  {
    TextUpTo(z, max);
    IdsAreRange(UpTo(z, max));
  }

  /** The reply is the ledger's index, in order, as text. */
  lemma IndexRefines(db: Db, l: Ledger, q: Query)
    requires Represents(db, l)
    ensures QueryTyped(db, q) && IndexReply(db, q) == Texts(Listed(l, q))
  {
    match q
    case PendingTo(_) => PendingReply(db, l, q);
    case RecentOf(_) => RecentReply(db, l, q);
    case Overdue(_, _) => TimeoutReply(db, l, q);
  }

  lemma PendingReply(db: Db, l: Ledger, q: Query)
    requires RepPending(db, l.pending) && q.PendingTo?
    ensures QueryTyped(db, q) && IndexReply(db, q) == Texts(Listed(l, q))
  {
    SetReply(db, PendingKey(q.uid), At(l.pending, q.uid));
  }

  lemma RecentReply(db: Db, l: Ledger, q: Query)
    requires RepRecent(db, l.recent) && q.RecentOf?
    ensures QueryTyped(db, q) && IndexReply(db, q) == Texts(Listed(l, q))
  {
    SetReply(db, RecentKey(q.uid), At(l.recent, q.uid));
  }

  lemma TimeoutReply(db: Db, l: Ledger, q: Query)
    requires RepSet(db, TimeoutKey, l.timeout) && q.Overdue?
    ensures QueryTyped(db, q) && IndexReply(db, q) == Texts(Listed(l, q))
  {
    OverdueReply(db, l.timeout, MaxScore(q.now, q.timeout));
  }

  ghost predicate AllRepresent(dbs: seq<Db>, views: seq<Ledger>) {
    |dbs| == |views| && forall i :: 0 <= i < |dbs| ==> Represents(dbs[i], views[i])
  }

  lemma FetchOne(dbs: seq<Db>, reply: seq<string>, views: seq<Ledger>, ids: seq<MsgId>, i: nat)
    requires AllRepresent(dbs, views) && |dbs| == |reply| + 1 && reply == Texts(ids) && i < |reply|
    ensures Parse(reply[i]) == Some(ids[i]) && IsHash(dbs[i + 1], MessageKey(ids[i]))
    ensures FetchRecord(dbs[i + 1], ids[i]) == Answers(views, ids)[i]
  {
    assert reply[i] == ToString(ids[i]);
    ParseToString(ids[i]);
    assert Represents(dbs[i + 1], views[i + 1]);
    FetchRefines(dbs[i + 1], views[i + 1], ids[i]);
    assert Answers(views, ids)[i] == Fetch(views[i + 1], ids[i]);
  }

  /** The loop shared by the queries: parse each id of the reply, fetch its record by a read of
      its own, and keep the record if it passes the check. */
  method FetchMatching(dbs: seq<Db>, reply: seq<string>, q: Query, ghost views: seq<Ledger>, ghost ids: seq<MsgId>)
      returns (result: seq<Record>)
    requires AllRepresent(dbs, views) && |dbs| == |reply| + 1
    requires reply == Texts(ids)
    ensures result == Kept(Answers(views, ids), q)
  {
    result := [];
    var i := 0;
    assert Answers(views, ids)[..0] == [];
    while i < |reply|
      invariant 0 <= i <= |reply|
      invariant result == Kept(Answers(views, ids)[..i], q)
    {
      FetchOne(dbs, reply, views, ids, i);
      var id := Parse(reply[i]);
      var record := if id.Some? then FetchRecord(dbs[i + 1], id.value) else None;
      KeptNext(Answers(views, ids), q, i);
      if record.Some? && Matches(q, record.value) {
        result := result + [record.value];
      }
      i := i + 1;
    }
    assert Answers(views, ids)[..i] == Answers(views, ids);
  }

  lemma KeptNext(answers: seq<Option<Record>>, q: Query, i: nat)
    requires i < |answers|
    ensures Kept(answers[..i + 1], q)
         == Kept(answers[..i], q)
            + if answers[i].Some? && Matches(q, answers[i].value) then [answers[i].value] else []
  {
    assert answers[..i + 1][..i] == answers[..i];
  }

  /** getPendingMessages and getTimeoutDeliveredMessages. Read number i of the call finds the
      database dbs[i]; whatever ran in between, the result is the scan of the ledgers. */
  method Search(dbs: seq<Db>, q: Query, ghost views: seq<Ledger>) returns (result: seq<Record>)
    requires AllRepresent(dbs, views)
    requires |views| > 0 && |views| == |Listed(views[0], q)| + 1
    ensures result == Scan(views, q)
  {
    IndexRefines(dbs[0], views[0], q);
    result := FetchMatching(dbs, IndexReply(dbs[0], q), q, views, Listed(views[0], q));
  }

  lemma TextsReversed(ids: seq<MsgId>, limit: nat)
    ensures Reverse(LastOf(Texts(ids), limit)) == Texts(Reverse(LastOf(ids, limit)))
  {
    assert LastOf(Texts(ids), limit) == Texts(LastOf(ids, limit));
    ReverseTexts(LastOf(ids, limit));
  }

  lemma ReverseTexts(ids: seq<MsgId>)
    ensures Reverse(Texts(ids)) == Texts(Reverse(ids))
  {
    var x, y := Reverse(Texts(ids)), Texts(Reverse(ids));
    forall i | 0 <= i < |ids| ensures x[i] == y[i] {
      assert x[i] == Texts(ids)[|ids| - 1 - i] && y[i] == ToString(Reverse(ids)[i]);
    }
  }

  /** getRecentMessages: ZREVRANGE 0 limit-1, the loop, then std::reverse. */
  method SearchRecent(dbs: seq<Db>, uid: Uid, limit: nat, ghost views: seq<Ledger>) returns (result: seq<Record>)
    requires AllRepresent(dbs, views) && |views| > 0
    requires uid != 0 && limit != 0 ==> |views| == |Newest(views[0], uid, limit)| + 1
    ensures result == RecentScan(views, uid, limit)
  {
    if uid == 0 || limit == 0 { return []; }
    IndexRefines(dbs[0], views[0], RecentOf(uid));
    var reply := Reverse(LastOf(IndexReply(dbs[0], RecentOf(uid)), limit));
    ghost var ids := Newest(views[0], uid, limit);
    TextsReversed(Listed(views[0], RecentOf(uid)), limit);
    var found := FetchMatching(dbs, reply, RecentOf(uid), views, ids);
    result := Reverse(found);
  }

  function Repeat<T>(x: T, n: nat): (r: seq<T>)
    ensures |r| == n && forall i :: 0 <= i < n ==> r[i] == x
  {
    seq(n, _ => x)
  }

  method SearchAlone(db: Db, q: Query, ghost l: Ledger) returns (result: seq<Record>)
    requires Represents(db, l)
    ensures result == QuietScan(l, q)
  {
    IndexRefines(db, l, q);
    var dbs := Repeat(db, |IndexReply(db, q)| + 1);
    result := Search(dbs, q, Still(l, q));
  }

  method SearchRecentAlone(db: Db, uid: Uid, limit: nat, ghost l: Ledger) returns (result: seq<Record>)
    requires Represents(db, l) && Consistent(l)
    ensures result == QuietRecent(l, uid, limit)
  {
    if uid == 0 || limit == 0 { return []; }
    IndexRefines(db, l, RecentOf(uid));
    var dbs := Repeat(db, |LastOf(IndexReply(db, RecentOf(uid)), limit)| + 1);
    ghost var views := Repeat(l, |dbs|);
    result := SearchRecent(dbs, uid, limit, views);
    QuietRecentScan(l, uid, limit, views);
  }

  // ------------------------------------------------------------------ the store

  class MessageStore {
    var db: Db
    ghost var ledger: Ledger

    ghost predicate Valid()
      reads this
    {
      var represented := Represents(db, ledger);
      represented
    }

    /** An empty database. */
    constructor ()
      ensures Valid() && ledger == Empty
    {
      db := map[];
      ledger := Empty;
    }

    // The commands the scripts issue. Each changes one key, and one field of the ledger.

    method SetNextId(n: nat)
      requires Valid() && n > 0
      modifies this
      ensures Valid() && ledger == old(ledger).(nextId := n)
    {
      WriteNext(db, ledger, n);
      db := db[NextIdKey := Str(ToString(n))];
      ledger := ledger.(nextId := n);
    }

    method SetIdempotency(from: Uid, clientMsgId: string, id: MsgId)
      requires Valid()
      modifies this
      ensures Valid() && ledger == old(ledger).(idem := old(ledger).idem[(from, clientMsgId) := id])
    {
      WriteIdem(db, ledger, from, clientMsgId, id);
      db := db[IdempotencyKey(from, clientMsgId) := Str(ToString(id))];
      ledger := ledger.(idem := ledger.idem[(from, clientMsgId) := id]);
    }

    method HSetMessage(key: string, text: RecordText, ghost id: MsgId, ghost r: Record)
      requires Valid() && key == MessageKey(id) && text == TextOf(r)
      modifies this
      ensures Valid() && ledger == old(ledger).(msgs := old(ledger).msgs[id := r])
    {
      WriteMessage(db, ledger, id, r);
      db := db[key := Hash(text)];
      ledger := ledger.(msgs := ledger.msgs[id := r]);
    }

    /** The scripts build this key from the to_uid field of the hash. */
    method ZAddPending(to: string, score: nat, id: MsgId, ghost u: Uid)
      requires Valid() && to == ToString(u)
      modifies this
      ensures Valid() && ledger == old(ledger).(pending := Add(old(ledger).pending, u, id, score))
    {
      WritePending(db, ledger, u, id, score);
      db := ZAdd(db, PendingPrefix + to, score, ToString(id));
      ledger := ledger.(pending := Add(ledger.pending, u, id, score));
    }

    method ZRemPending(to: string, id: MsgId, ghost u: Uid)
      requires Valid() && to == ToString(u)
      modifies this
      ensures Valid() && ledger == old(ledger).(pending := Remove(old(ledger).pending, u, id))
    {
      ErasePending(db, ledger, u, id);
      db := ZRem(db, PendingPrefix + to, ToString(id));
      ledger := ledger.(pending := Remove(ledger.pending, u, id));
    }

    method ZAddRecent(u: Uid, score: nat, id: MsgId)
      requires Valid()
      modifies this
      ensures Valid() && ledger == old(ledger).(recent := Add(old(ledger).recent, u, id, score))
    {
      WriteRecent(db, ledger, u, id, score);
      db := ZAdd(db, RecentKey(u), score, ToString(id));
      ledger := ledger.(recent := Add(ledger.recent, u, id, score));
    }

    method ZAddTimeout(score: nat, id: MsgId)
      requires Valid()
      modifies this
      ensures Valid() && ledger == old(ledger).(timeout := old(ledger).timeout[id := score])
    {
      WriteTimeout(db, ledger, id, score);
      db := ZAdd(db, TimeoutKey, score, ToString(id));
      ledger := ledger.(timeout := ledger.timeout[id := score]);
    }

    method ZRemTimeout(id: MsgId)
      requires Valid()
      modifies this
      ensures Valid() && ledger == old(ledger).(timeout := old(ledger).timeout - {id})
    {
      EraseTimeout(db, ledger, id);
      db := ZRem(db, TimeoutKey, ToString(id));
      ledger := ledger.(timeout := ledger.timeout - {id});
    }

    /** HMGET on a message key. */
    method HGetMessage(id: MsgId) returns (h: Option<RecordText>)
      requires Valid()
      ensures h == if id in ledger.msgs then Some(TextOf(ledger.msgs[id])) else None
    {
      HashIs(db, ledger, id);
      h := HGetAll(db, MessageKey(id));
    }

    // The scripts.

    /** createMessage: the create script, key by key. None is a reply that cannot be parsed. */
    method CreateMessage(from: Uid, to: Uid, content: string, clientMsgId: string, now: nat)
        returns (result: Option<(bool, Record)>)
      requires Valid()
      modifies this
      ensures Valid()
      ensures Replies(Create(old(ledger), from, to, content, clientMsgId, now), ledger, result)
    {
      var known := FindDuplicate(from, clientMsgId);
      if known.Some? {
        CreateKnown(ledger, from, to, content, clientMsgId, now);
        return if known.value.Some? then Some((false, known.value.value)) else None;
      }
      result := CreateFresh(from, to, content, clientMsgId, now);
    }

    method CreateFresh(from: Uid, to: Uid, content: string, clientMsgId: string, now: nat)
        returns (result: Option<(bool, Record)>)
      requires Valid() && !((from, clientMsgId) in ledger.idem && ledger.idem[(from, clientMsgId)] in ledger.msgs)
      modifies this
      ensures Valid()
      ensures Replies(Create(old(ledger), from, to, content, clientMsgId, now), ledger, result)
    {
      ghost var before := ledger;
      var r := InsertMessage(from, to, content, clientMsgId, now);
      CreateNew(before, from, to, content, clientMsgId, now, r);
      return Some((true, r));
    }

    /** The first half of the script: GET the idempotency key, then EXISTS and HMGET. */
    method FindDuplicate(from: Uid, clientMsgId: string) returns (known: Option<Option<Record>>)
      requires Valid()
      ensures var key := (from, clientMsgId);
              known == if key in ledger.idem && ledger.idem[key] in ledger.msgs
                       then Some(Some(ledger.msgs[ledger.idem[key]])) else None
    {
      DuplicateIs(db, ledger, from, clientMsgId);
      var found := Get(db, IdempotencyKey(from, clientMsgId));
      if found.None? { return None; }
      var fields := HGetAll(db, MsgPrefix + found.value);
      if fields.None? { return None; }
      BuildTextOf(ledger.msgs[ledger.idem[(from, clientMsgId)]]);
      return Some(BuildRecord(fields.value));
    }

    /** The second half: INCR, SET, HSET and the three ZADDs. */
    method InsertMessage(from: Uid, to: Uid, content: string, clientMsgId: string, now: nat) returns (r: Record)
      requires Valid()
      modifies this
      ensures Valid()
      ensures r == Fresh(old(ledger).nextId + 1, from, to, content, clientMsgId, now)
      ensures ledger == IndexLedger(InsertLedger(old(ledger), r), r)
    {
      NextIs(db, ledger);
      var id := Incremented(Get(db, NextIdKey));
      r := Fresh(id, from, to, content, clientMsgId, now);
      SetNextId(id);
      SetIdempotency(from, clientMsgId, id);
      HSetMessage(MsgPrefix + ToString(id), TextOf(r), id, r);
      ZAddPending(ToString(to), now, id, to);
      ZAddRecent(from, now, id);
      ZAddRecent(to, now, id);
    }

    method MarkDelivered(id: MsgId, now: nat) returns (ok: bool)
      requires Valid()
      modifies this
      ensures Valid() && ledger == Scripts.MarkDelivered(old(ledger), id, now)
      ensures ok <==> id in old(ledger).msgs
    {
      var h := HGetMessage(id);
      if h.None? { return false; }
      ghost var r := ledger.msgs[id];
      HSetMessage(MessageKey(id), h.value.(status := StatusText(Delivered), deliveredAt := ToString(now)),
                  id, r.(status := Delivered, deliveredAt := now));
      ZRemPending(h.value.toUid, id, r.toUid);
      ZAddTimeout(now, id);
      return true;
    }

    method MarkPending(id: MsgId) returns (ok: bool)
      requires Valid()
      modifies this
      ensures Valid() && ledger == Scripts.MarkPending(old(ledger), id)
      ensures ok <==> id in old(ledger).msgs
    {
      var h := HGetMessage(id);
      if h.None? { return false; }
      ghost var r := ledger.msgs[id];
      ParseToString(r.createdAt);
      HSetMessage(MessageKey(id), h.value.(status := StatusText(Pending)),
                  id, r.(status := Pending));
      ZRemTimeout(id);
      ZAddPending(h.value.toUid, ScoreOf(h.value.createdAt), id, r.toUid);
      return true;
    }

    /** The receiver is compared as text inside the script. */
    method MarkAcked(id: MsgId, ackUid: Uid, now: nat) returns (ok: bool)
      requires Valid()
      modifies this
      ensures Valid() && ledger == Scripts.MarkAcked(old(ledger), id, ackUid, now)
      ensures ok <==> id in old(ledger).msgs && old(ledger).msgs[id].toUid == ackUid
    {
      var h := HGetMessage(id);
      if h.None? || h.value.toUid != ToString(ackUid) { return false; }
      ghost var r := ledger.msgs[id];
      ToStringInjective(r.toUid, ackUid);
      HSetMessage(MessageKey(id), h.value.(status := StatusText(Acked), ackedAt := ToString(now)),
                  id, r.(status := Acked, ackedAt := now));
      ZRemTimeout(id);
      ZRemPending(h.value.toUid, id, r.toUid);
      return true;
    }

    method MarkFailed(id: MsgId) returns (ok: bool)
      requires Valid()
      modifies this
      ensures Valid() && ledger == Scripts.MarkFailed(old(ledger), id)
      ensures ok <==> id in old(ledger).msgs
    {
      var h := HGetMessage(id);
      if h.None? { return false; }
      ghost var r := ledger.msgs[id];
      HSetMessage(MessageKey(id), h.value.(status := StatusText(Failed)),
                  id, r.(status := Failed));
      ZRemTimeout(id);
      ZRemPending(h.value.toUid, id, r.toUid);
      return true;
    }

    method IncrementRetryCount(id: MsgId) returns (ok: bool)
      requires Valid()
      modifies this
      ensures Valid() && ledger == IncrementRetry(old(ledger), id)
      ensures ok <==> id in old(ledger).msgs
    {
      var h := HGetMessage(id);
      if h.None? { return false; }
      ghost var next := BumpedIs(ledger, id);
      HSetMessage(MessageKey(id), Bumped(h.value), id, next);
      return true;
    }

    // The queries, run alone.

    method GetPendingMessages(uid: Uid) returns (result: seq<Record>)
      requires Valid()
      ensures result == QuietScan(ledger, PendingTo(uid))
      ensures Consistent(ledger) ==>
                && (forall r :: r in result <==> Stored(ledger, r) && r.status == Pending && r.toUid == uid)
                && (forall i, j :: 0 <= i < j < |result| ==> Older(result[i], result[j]))
    {
      result := SearchAlone(db, PendingTo(uid), ledger);
      if Consistent(ledger) { PendingIs(ledger, uid); }
    }

    method GetTimeoutDeliveredMessages(now: nat, timeout: nat) returns (result: seq<Record>)
      requires Valid()
      ensures result == QuietScan(ledger, Overdue(now, timeout))
      ensures Consistent(ledger) ==>
                && (forall r :: r in result <==>
                      Stored(ledger, r) && r.status == Delivered && 0 < r.deliveredAt && r.deliveredAt + timeout <= now)
                && (forall i, j :: 0 <= i < j < |result| ==> DeliveredEarlier(result[i], result[j]))
    {
      result := SearchAlone(db, Overdue(now, timeout), ledger);
      if Consistent(ledger) { OverdueIs(ledger, now, timeout); }
    }

    method GetRecentMessages(uid: Uid, limit: nat) returns (result: seq<Record>)
      requires Valid() && Consistent(ledger)
      ensures result == QuietRecent(ledger, uid, limit)
      ensures if uid == 0 then result == [] else NewestOf(ledger, uid, limit, result)
    {
      result := SearchRecentAlone(db, uid, limit, ledger);
      RecentIs(ledger, uid, limit);
    }
  }
}
