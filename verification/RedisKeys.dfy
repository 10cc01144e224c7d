/** The key builders of MessageStore and the flat Redis keyspace they share. */
module RedisKeys {
  import opened Options
  import opened Decimal
  import opened SortedSet

  const MsgPrefix := "rmd:msg:"
  const PendingPrefix := "rmd:pending:"
  const NextIdKey := "rmd:msg:next_id"
  const TimeoutKey := "rmd:delivered_timeout"

  function ClientMsgKey(from: nat, clientMsgId: string): string {
    ToString(from) + ":" + clientMsgId
  }

  function MessageKey(id: nat): (k: string)
    ensures |k| > 8 && k[4] == 'm' && IsDigit(k[8])
  {
    MsgPrefix + ToString(id)
  }

  function PendingKey(uid: nat): (k: string)
    ensures |k| > 4 && k[4] == 'p'
  {
    PendingPrefix + ToString(uid)
  }

  function RecentKey(uid: nat): (k: string)
    ensures |k| > 4 && k[4] == 'r'
  {
    "rmd:recent:" + ToString(uid)
  }

  function IdempotencyKey(from: nat, clientMsgId: string): (k: string)
    ensures |k| > 4 && k[4] == 'i'
  {
    "rmd:idem:" + ClientMsgKey(from, clientMsgId)
  }

  lemma AppendInjective(p: string, x: string, y: string)
    requires p + x == p + y
    ensures x == y
  {
    assert x == (p + x)[|p|..] && y == (p + y)[|p|..];
  }

  lemma MessageKeyInjective(a: nat, b: nat)
    requires MessageKey(a) == MessageKey(b)
    ensures a == b
  {
    AppendInjective(MsgPrefix, ToString(a), ToString(b));
    ToStringInjective(a, b);
  }

  lemma PendingKeyInjective(a: nat, b: nat)
    requires PendingKey(a) == PendingKey(b)
    ensures a == b
  {
    AppendInjective(PendingPrefix, ToString(a), ToString(b));
    ToStringInjective(a, b);
  }

  lemma RecentKeyInjective(a: nat, b: nat)
    requires RecentKey(a) == RecentKey(b)
    ensures a == b
  {
    AppendInjective("rmd:recent:", ToString(a), ToString(b));
    ToStringInjective(a, b);
  }

  /** Injective for arbitrary client_msg_id texts, including ones that contain ':' or digits. */
  lemma IdempotencyKeyInjective(a: nat, x: string, b: nat, y: string)
    requires IdempotencyKey(a, x) == IdempotencyKey(b, y)
    ensures a == b && x == y
  {
    AppendInjective("rmd:idem:", ClientMsgKey(a, x), ClientMsgKey(b, y));
    PrefixInjective(a, b, ':', x, y);
  }

  /** No key of one family is a key of another. */
  lemma FamiliesDisjoint(id: nat, u: nat, v: nat, w: nat, x: string)
    ensures var m, p, r, i := MessageKey(id), PendingKey(u), RecentKey(v), IdempotencyKey(w, x);
            && m != p && m != r && m != i && m != TimeoutKey && m != NextIdKey
            && p != r && p != i && p != TimeoutKey && p != NextIdKey
            && r != i && r != TimeoutKey && r != NextIdKey
            && i != TimeoutKey && i != NextIdKey && TimeoutKey != NextIdKey
  {
    FixedKeys();
  }

  lemma FixedKeys()
    ensures |NextIdKey| > 8 && NextIdKey[4] == 'm' && !IsDigit(NextIdKey[8])
    ensures |TimeoutKey| > 4 && TimeoutKey[4] == 'd'
  {
  }

  // ---------------------------------------------------------------- commands

  /** A message hash: the ten fields, all text. */
  datatype RecordText = RecordText(
    msgId: string, fromUid: string, toUid: string, content: string, clientMsgId: string,
    status: string, createdAt: string, deliveredAt: string, ackedAt: string, retryCount: string)

  datatype Value = Str(text: string) | Hash(hash: RecordText) | Sorted(z: ZSet)

  type Db = map<string, Value>

  /** A command on a key of another type is an error, so each command asks for its type. */
  predicate IsStr(db: Db, k: string) { k in db ==> db[k].Str? }
  predicate IsHash(db: Db, k: string) { k in db ==> db[k].Hash? }
  predicate IsSorted(db: Db, k: string) { k in db ==> db[k].Sorted? }

  function Get(db: Db, k: string): Option<string>
    requires IsStr(db, k)
  {
    if k in db then Some(db[k].text) else None
  }

  /** HGET or HMGET: a missing key has no fields. */
  function HGetAll(db: Db, k: string): Option<RecordText>
    requires IsHash(db, k)
  {
    if k in db then Some(db[k].hash) else None
  }

  function Members(db: Db, k: string): ZSet
    requires IsSorted(db, k)
  {
    if k in db then db[k].z else map[]
  }

  /** The score a decimal text stands for. */
  function ScoreOf(text: string): nat {
    match Parse(text) case Some(n) => n case None => 0
  }

  function ZAdd(db: Db, k: string, score: nat, member: string): Db
    requires IsSorted(db, k)
  {
    db[k := Sorted(Members(db, k)[member := score])]
  }

  /** Redis drops a key whose set becomes empty. */
  function ZRem(db: Db, k: string, member: string): Db
    requires IsSorted(db, k)
  {
    var z := Members(db, k) - {member};
    if z == map[] then db - {k} else db[k := Sorted(z)]
  }
}
