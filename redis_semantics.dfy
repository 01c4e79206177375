/** The subset of the Redis command set the cache uses, as pure functions on one key's
    slot, following the Redis command reference: HSET/HDEL/HGETALL/HMGET/HINCRBY,
    SADD/SREM/SCARD/SISMEMBER/SMEMBERS, LPUSH/LTRIM/LREM/LRANGE/LLEN,
    ZADD/ZREM/ZREMRANGEBYRANK/ZREVRANGE/ZCARD and DEL.

    The keyspace is one map from key to a typed value. An aggregate that becomes empty is
    removed, as Redis removes it; a command on a key of another type answers WRONGTYPE and
    changes nothing. */
module RedisSemantics {

  import opened Wrappers
  import opened Text

  // ------------------------------------------------------------------ values

  /** A sorted-set member with its score. The score is an opaque ordered value. */
  datatype Entry = Entry(member: string, score: real)

  /** Redis's sorted-set order: by score, then by member, byte-wise. */
  predicate Before(a: Entry, b: Entry)
  {
    a.score < b.score || (a.score == b.score && StrLess(a.member, b.member))
  }

  datatype Value =
    | HashValue(fields: map<string, string>)
    | SetValue(members: set<string>)
    | ListValue(items: seq<string>)
    | ZSetValue(entries: seq<Entry>)   // ascending by Before, one entry per member

  /** Entries in ascending rank order, each member once. */
  predicate ZSorted(es: seq<Entry>)
  {
    forall i, j :: 0 <= i < j < |es| ==> Before(es[i], es[j]) && es[i].member != es[j].member
  }

  predicate WellFormed(v: Value)
  {
    match v
    case HashValue(f) => f != map[]
    case SetValue(m) => m != {}
    case ListValue(l) => l != []
    case ZSetValue(es) => es != [] && ZSorted(es)
  }

  /** What one key holds: nothing, or a well-formed value. */
  type Slot = Option<Value>

  predicate ValidSlot(s: Slot) { s.None? || WellFormed(s.value) }

  type Db = map<string, Value>

  predicate ValidDb(db: Db) { forall k :: k in db ==> WellFormed(db[k]) }

  function SlotOf(db: Db, k: string): Slot
  {
    if k in db then Some(db[k]) else None
  }

  function PutSlot(db: Db, k: string, s: Slot): (r: Db)
    ensures SlotOf(r, k) == s
    ensures forall k' :: k' != k ==> SlotOf(r, k') == SlotOf(db, k')
  {
    if s.None? then db - {k} else db[k := s.value]
  }

  // ------------------------------------------------------------------ errors and replies

  datatype StoreError =
    | WrongType          // "WRONGTYPE Operation against a key holding the wrong kind of value"
    | NotAnInteger       // "ERR hash value is not an integer"
    | IncrementOverflow  // "ERR increment or decrement would overflow"
    | NotAnIntegerArgument  // "ERR value is not an integer or out of range"
    | DataError          // redis-py refuses an argument it cannot send; nothing is sent
    | WrongArity         // a command without its field, member or key arguments, which
                         // Redis refuses when queued, aborting the whole transaction

  datatype Reply =
    | IntReply(n: int)
    | BoolReply(b: bool)
    | StringsReply(items: seq<string>)
    | MembersReply(members: set<string>)
    | HashReply(fields: map<string, string>)
    | FieldsReply(values: seq<Option<string>>)
    | OkReply
    | ErrorReply(error: StoreError)

  datatype Step = Step(slot: Slot, reply: Reply)

  // ------------------------------------------------------------------ typed views of a slot

  function AsHash(s: Slot): Result<map<string, string>, StoreError>
  {
    match s
    case None => Success(map[])
    case Some(HashValue(f)) => Success(f)
    case Some(_) => Failure(WrongType)
  }

  function AsSet(s: Slot): Result<set<string>, StoreError>
  {
    match s
    case None => Success({})
    case Some(SetValue(m)) => Success(m)
    case Some(_) => Failure(WrongType)
  }

  function AsList(s: Slot): Result<seq<string>, StoreError>
  {
    match s
    case None => Success([])
    case Some(ListValue(l)) => Success(l)
    case Some(_) => Failure(WrongType)
  }

  function AsZSet(s: Slot): Result<seq<Entry>, StoreError>
  {
    match s
    case None => Success([])
    case Some(ZSetValue(es)) => Success(es)
    case Some(_) => Failure(WrongType)
  }

  function HashSlot(f: map<string, string>): Slot { if f == map[] then None else Some(HashValue(f)) }
  function SetSlot(m: set<string>): Slot { if m == {} then None else Some(SetValue(m)) }
  function ListSlot(l: seq<string>): Slot { if l == [] then None else Some(ListValue(l)) }
  function ZSetSlot(es: seq<Entry>): Slot { if es == [] then None else Some(ZSetValue(es)) }

  // ------------------------------------------------------------------ index ranges

  /** The index normalisation shared by LRANGE, LTRIM, ZREVRANGE and ZREMRANGEBYRANK:
      negative indices count from the end, the start is clamped at 0, the stop at the
      last index, and an empty range (start past stop or past the end) is None. */
  function NormRange(n: nat, start: int, stop: int): (r: Option<(nat, nat)>)
    ensures r.Some? ==> r.value.0 <= r.value.1 < n
  {
    var s := if start < 0 then n + start else start;
    var e := if stop < 0 then n + stop else stop;
    var s' := if s < 0 then 0 else s;
    if s' > e || s' >= n then None
    else Some((s', if e >= n then n - 1 else e))
  }

  /** The elements of `xs` in the inclusive range, empty when the range is. */
  function RangeOf<T>(xs: seq<T>, start: int, stop: int): (r: seq<T>)
    ensures |r| <= |xs|
  {
    match NormRange(|xs|, start, stop)
    case None => []
    case Some((a, b)) => xs[a..b + 1]
  }

  /** `xs` without the elements in the inclusive range. */
  function RemoveRange<T>(xs: seq<T>, start: int, stop: int): (r: seq<T>)
    ensures |r| + |RangeOf(xs, start, stop)| == |xs|
  {
    match NormRange(|xs|, start, stop)
    case None => xs
    case Some((a, b)) => xs[..a] + xs[b + 1..]
  }

  // ------------------------------------------------------------------ sorted-set helpers

  function Members(es: seq<Entry>): (r: set<string>)
    ensures forall i :: 0 <= i < |es| ==> es[i].member in r
    ensures forall m :: m in r ==> exists i :: 0 <= i < |es| && es[i].member == m
  {
    set e | e in es :: e.member
  }

  function Reverse<T>(xs: seq<T>): (r: seq<T>)
    ensures |r| == |xs|
    ensures forall i :: 0 <= i < |xs| ==> r[i] == xs[|xs| - 1 - i]
  {
    seq(|xs|, i requires 0 <= i < |xs| => xs[|xs| - 1 - i])
  }

  function MemberList(es: seq<Entry>): (r: seq<string>)
    ensures |r| == |es|
    ensures forall i :: 0 <= i < |es| ==> r[i] == es[i].member
  {
    seq(|es|, i requires 0 <= i < |es| => es[i].member)
  }

  lemma BeforeTransitive(a: Entry, b: Entry, c: Entry)
    requires Before(a, b) && Before(b, c)
    ensures Before(a, c)
  {
    if a.score == b.score == c.score {
      StrLessTransitive(a.member, b.member, c.member);
    }
  }

  lemma BeforeIrreflexive(a: Entry)
    ensures !Before(a, a)
  {
    StrLessIrreflexive(a.member);
  }

  lemma BeforeTotal(a: Entry, b: Entry)
    requires a.member != b.member
    ensures Before(a, b) || Before(b, a)
  {
    if a.score == b.score {
      StrLessTotal(a.member, b.member);
    }
  }

  /** `e` ranks below every entry of `r` and shares no member with any of them. */
  predicate Dominates(e: Entry, r: seq<Entry>)
  {
    forall x :: x in r ==> Before(e, x) && e.member != x.member
  }

  lemma ZSortedCons(e: Entry, r: seq<Entry>)
    ensures ZSorted([e] + r) <==> Dominates(e, r) && ZSorted(r)
  {
    var s := [e] + r;
    if ZSorted(s) {
      forall x | x in r ensures Before(e, x) && e.member != x.member {
        var j :| 0 <= j < |r| && r[j] == x;
        assert s[0] == e && s[j + 1] == x;
      }
      forall i, j | 0 <= i < j < |r| ensures Before(r[i], r[j]) && r[i].member != r[j].member {
        assert s[i + 1] == r[i] && s[j + 1] == r[j];
      }
    }
    if Dominates(e, r) && ZSorted(r) {
      forall i, j | 0 <= i < j < |s| ensures Before(s[i], s[j]) && s[i].member != s[j].member {
        if i > 0 { assert s[i] == r[i - 1] && s[j] == r[j - 1]; }
        else { assert s[j] in r; }
      }
    }
  }

  /** The entries without the one for `m` (ZREM of one member). */
  function ZWithout(es: seq<Entry>, m: string): (r: seq<Entry>)
    ensures forall x :: x in r <==> x in es && x.member != m
    ensures |r| <= |es|
  {
    if es == [] then []
    else
      assert es == [es[0]] + es[1..];
      if es[0].member == m then ZWithout(es[1..], m) else [es[0]] + ZWithout(es[1..], m)
  }

  lemma {:induction false} ZWithoutSorted(es: seq<Entry>, m: string)
    requires ZSorted(es)
    ensures ZSorted(ZWithout(es, m))
  {
    if es != [] {
      assert es == [es[0]] + es[1..];
      ZSortedCons(es[0], es[1..]);
      ZWithoutSorted(es[1..], m);
      if es[0].member != m {
        ZSortedCons(es[0], ZWithout(es[1..], m));
      }
    }
  }

  /** `es` with `e` placed at its rank. */
  function ZInsert(es: seq<Entry>, e: Entry): (r: seq<Entry>)
    ensures forall x :: x in r <==> x in es || x == e
    ensures |r| == |es| + 1
  {
    if es == [] || Before(e, es[0]) then [e] + es
    else
      assert es == [es[0]] + es[1..];
      [es[0]] + ZInsert(es[1..], e)
  }

  lemma {:induction false} ZInsertSorted(es: seq<Entry>, e: Entry)
    requires ZSorted(es) && e.member !in Members(es)
    ensures ZSorted(ZInsert(es, e))
  {
    if es != [] {
      assert es == [es[0]] + es[1..];
      ZSortedCons(es[0], es[1..]);
      if Before(e, es[0]) {
        forall x | x in es ensures Before(e, x) && e.member != x.member {
          if x != es[0] { BeforeTransitive(e, es[0], x); }
        }
        ZSortedCons(e, es);
      } else {
        BeforeTotal(e, es[0]);
        ZInsertSorted(es[1..], e);
        ZSortedCons(es[0], ZInsert(es[1..], e));
      }
    }
  }

  /** ZADD of one member: whatever score it had is replaced, and it ranks by its new score. */
  function ZUpsert(es: seq<Entry>, m: string, score: real): (r: seq<Entry>)
    requires ZSorted(es)
    ensures ZSorted(r)
    ensures forall x :: x in r <==> x == Entry(m, score) || (x in es && x.member != m)
    ensures Members(r) == Members(es) + {m}
  {
    ZWithoutSorted(es, m);
    var rest := ZWithout(es, m);
    ZInsertSorted(rest, Entry(m, score));
    ZInsert(rest, Entry(m, score))
  }

  /** ZREM of several members. */
  function ZWithoutAll(es: seq<Entry>, ms: seq<string>): (r: seq<Entry>)
    requires ZSorted(es)
    ensures ZSorted(r)
    ensures forall x :: x in r <==> x in es && x.member !in ms
    ensures |r| <= |es|
    decreases |ms|
  {
    if ms == [] then es
    else
      ZWithoutSorted(es, ms[0]);
      assert forall x :: x in ms <==> x == ms[0] || x in ms[1..];
      ZWithoutAll(ZWithout(es, ms[0]), ms[1..])
  }

  lemma ZSortedRemoveRange(es: seq<Entry>, start: int, stop: int)
    requires ZSorted(es)
    ensures ZSorted(RemoveRange(es, start, stop))
  {
    match NormRange(|es|, start, stop)
    case None =>
    case Some((a, b)) =>
      var r := es[..a] + es[b + 1..];
      forall i, j | 0 <= i < j < |r| ensures Before(r[i], r[j]) && r[i].member != r[j].member {
        var i' := if i < a then i else i + (b + 1 - a);
        var j' := if j < a then j else j + (b + 1 - a);
        assert r[i] == es[i'] && r[j] == es[j'];
      }
  }

  // ------------------------------------------------------------------ commands on one slot

  function HSetStep(s: Slot, fields: map<string, string>): (r: Step)
    requires fields != map[]
    ensures ValidSlot(s) ==> ValidSlot(r.slot)
    ensures AsHash(s).Success? ==> r.slot == Some(HashValue(AsHash(s).value + fields))
    ensures AsHash(s).Failure? ==> r == Step(s, ErrorReply(WrongType))
  {
    match AsHash(s)
    case Failure(e) => Step(s, ErrorReply(e))
    case Success(h) => Step(HashSlot(h + fields), IntReply(|fields.Keys - h.Keys|))
  }

  function HDelStep(s: Slot, field: string): (r: Step)
    ensures ValidSlot(s) ==> ValidSlot(r.slot)
    ensures AsHash(s).Success? ==> AsHash(r.slot) == Success(AsHash(s).value - {field})
  {
    match AsHash(s)
    case Failure(e) => Step(s, ErrorReply(e))
    case Success(h) => Step(HashSlot(h - {field}), IntReply(if field in h then 1 else 0))
  }

  function HIncrByStep(s: Slot, field: string, amount: int): (r: Step)
    ensures ValidSlot(s) ==> ValidSlot(r.slot)
    ensures r.reply.IntReply? ==>
      AsHash(r.slot).Success? && field in AsHash(r.slot).value && ParseInt(AsHash(r.slot).value[field]) == Some(r.reply.n)
  {
    if !InInt64(amount) then Step(s, ErrorReply(NotAnIntegerArgument))
    else match AsHash(s)
    case Failure(e) => Step(s, ErrorReply(e))
    case Success(h) =>
      var current := if field in h then ParseInt(h[field]) else Some(0);
      if current.None? then Step(s, ErrorReply(NotAnInteger))
      else if !InInt64(current.value + amount) then Step(s, ErrorReply(IncrementOverflow))
      else
        var n := current.value + amount;
        ParseFormatInt(n);
        Step(HashSlot(h[field := FormatInt(n)]), IntReply(n))
  }

  function SAddStep(s: Slot, m: string): (r: Step)
    ensures ValidSlot(s) ==> ValidSlot(r.slot)
    ensures AsSet(s).Success? ==> AsSet(r.slot) == Success(AsSet(s).value + {m})
  {
    match AsSet(s)
    case Failure(e) => Step(s, ErrorReply(e))
    case Success(ms) => Step(SetSlot(ms + {m}), IntReply(if m in ms then 0 else 1))
  }

  function SRemStep(s: Slot, m: string): (r: Step)
    ensures ValidSlot(s) ==> ValidSlot(r.slot)
    ensures AsSet(s).Success? ==> AsSet(r.slot) == Success(AsSet(s).value - {m})
  {
    match AsSet(s)
    case Failure(e) => Step(s, ErrorReply(e))
    case Success(ms) => Step(SetSlot(ms - {m}), IntReply(if m in ms then 1 else 0))
  }

  function LPushStep(s: Slot, x: string): (r: Step)
    ensures ValidSlot(s) ==> ValidSlot(r.slot)
    ensures AsList(s).Success? ==> AsList(r.slot) == Success([x] + AsList(s).value)
  {
    match AsList(s)
    case Failure(e) => Step(s, ErrorReply(e))
    case Success(l) => Step(ListSlot([x] + l), IntReply(|l| + 1))
  }

  function LTrimStep(s: Slot, start: int, stop: int): (r: Step)
    ensures ValidSlot(s) ==> ValidSlot(r.slot)
    ensures AsList(s).Success? ==> AsList(r.slot) == Success(RangeOf(AsList(s).value, start, stop))
  {
    match AsList(s)
    case Failure(e) => Step(s, ErrorReply(e))
    case Success(l) => Step(ListSlot(RangeOf(l, start, stop)), OkReply)
  }

  /** The list without any occurrence of `x` (LREM with count 0). */
  function RemoveAll(l: seq<string>, x: string): (r: seq<string>)
    ensures forall y :: y in r <==> y in l && y != x
    ensures |r| <= |l|
  {
    if l == [] then [] else (if l[0] == x then [] else [l[0]]) + RemoveAll(l[1..], x)
  }

  function LRemAllStep(s: Slot, x: string): (r: Step)
    ensures ValidSlot(s) ==> ValidSlot(r.slot)
    ensures AsList(s).Success? ==> AsList(r.slot) == Success(RemoveAll(AsList(s).value, x))
  {
    match AsList(s)
    case Failure(e) => Step(s, ErrorReply(e))
    case Success(l) =>
      var rest := RemoveAll(l, x);
      Step(ListSlot(rest), IntReply(|l| - |rest|))
  }

  function ZAddStep(s: Slot, m: string, score: real): (r: Step)
    requires ValidSlot(s)
    ensures ValidSlot(r.slot)
    ensures AsZSet(s).Success? ==> AsZSet(r.slot) == Success(ZUpsert(AsZSet(s).value, m, score))
  {
    match AsZSet(s)
    case Failure(e) => Step(s, ErrorReply(e))
    case Success(es) =>
      var r := ZUpsert(es, m, score);
      assert Entry(m, score) in r;
      Step(ZSetSlot(r), IntReply(if m in Members(es) then 0 else 1))
  }

  function ZRemStep(s: Slot, ms: seq<string>): (r: Step)
    requires ValidSlot(s)
    ensures ValidSlot(r.slot)
    ensures AsZSet(s).Success? ==> AsZSet(r.slot) == Success(ZWithoutAll(AsZSet(s).value, ms))
  {
    match AsZSet(s)
    case Failure(e) => Step(s, ErrorReply(e))
    case Success(es) =>
      var r := ZWithoutAll(es, ms);
      Step(ZSetSlot(r), IntReply(|es| - |r|))
  }

  function ZRemRangeByRankStep(s: Slot, start: int, stop: int): (r: Step)
    requires ValidSlot(s)
    ensures ValidSlot(r.slot)
    ensures AsZSet(s).Success? ==> AsZSet(r.slot) == Success(RemoveRange(AsZSet(s).value, start, stop))
  {
    match AsZSet(s)
    case Failure(e) => Step(s, ErrorReply(e))
    case Success(es) =>
      ZSortedRemoveRange(es, start, stop);
      var r := RemoveRange(es, start, stop);
      Step(ZSetSlot(r), IntReply(|es| - |r|))
  }

  /** The members in descending rank order (the order ZREVRANGE reads). */
  function Descending(es: seq<Entry>): seq<string>
  {
    Reverse(MemberList(es))
  }

  // ------------------------------------------------------------------ commands

  datatype Command =
    | HSet(key: string, fields: map<string, string>)
    | HDel(key: string, field: string)
    | HGetAll(key: string)
    | HMGet(key: string, names: seq<string>)
    | HIncrBy(key: string, field: string, amount: int)
    | SAdd(key: string, member: string)
    | SRem(key: string, member: string)
    | SCard(key: string)
    | SIsMember(key: string, member: string)
    | SMembers(key: string)
    | LPush(key: string, item: string)
    | LTrim(key: string, start: int, stop: int)
    | LRemAll(key: string, item: string)         // LREM key 0 item
    | LRange(key: string, start: int, stop: int)
    | LLen(key: string)
    | ZAdd(key: string, member: string, score: real)
    | ZRem(key: string, members: seq<string>)
    | ZRemRangeByRank(key: string, start: int, stop: int)
    | ZRevRange(key: string, start: int, stop: int)
    | ZCard(key: string)
    | Del(keys: seq<string>)

  /** A command that reaches execution: HSET needs a field (redis-py refuses an empty
      mapping), and HMGET, ZREM and DEL need at least one field, member or key. */
  predicate Sendable(c: Command)
  {
    match c
    case HSet(_, f) => f != map[]
    case HMGet(_, ns) => ns != []
    case ZRem(_, ms) => ms != []
    case Del(ks) => ks != []
    case _ => true
  }

  /** Why a command does not reach execution. */
  function Refusal(c: Command): StoreError
  {
    if c.HSet? then DataError else WrongArity
  }

  /** The refusal of the first command of a batch that cannot be sent, if any. */
  function FirstRefusal(cs: seq<Command>): (r: Option<StoreError>)
    ensures r.None? <==> AllSendable(cs)
    ensures r.Some? ==> exists i :: 0 <= i < |cs| && !Sendable(cs[i]) && r.value == Refusal(cs[i])
  {
    if cs == [] then None
    else if !Sendable(cs[0]) then Some(Refusal(cs[0]))
    else
      var r := FirstRefusal(cs[1..]);
      assert forall i :: 1 <= i < |cs| ==> cs[i] == cs[1..][i - 1];
      if r.Some? then
        var i :| 0 <= i < |cs[1..]| && !Sendable(cs[1..][i]) && r.value == Refusal(cs[1..][i]);
        assert cs[i + 1] == cs[1..][i];
        r
      else r
  }

  /** Whether the command writes key `k`. */
  predicate Touches(c: Command, k: string)
  {
    match c
    case Del(ks) => k in ks
    case HGetAll(_) => false
    case HMGet(_, _) => false
    case SCard(_) => false
    case SIsMember(_, _) => false
    case SMembers(_) => false
    case LRange(_, _, _) => false
    case LLen(_) => false
    case ZRevRange(_, _, _) => false
    case ZCard(_) => false
    case _ => c.key == k
  }

  /** A single-key command applied to its key's slot. */
  function KeyStep(c: Command, s: Slot): (r: Step)
    requires !c.Del? && Sendable(c) && ValidSlot(s)
    ensures ValidSlot(r.slot)
    ensures r.reply.ErrorReply? ==> r.slot == s
  {
    match c
    case HSet(_, f) => HSetStep(s, f)
    case HDel(_, f) => HDelStep(s, f)
    case HGetAll(_) =>
      (match AsHash(s) case Failure(e) => Step(s, ErrorReply(e)) case Success(h) => Step(s, HashReply(h)))
    case HMGet(_, ns) =>
      (match AsHash(s)
       case Failure(e) => Step(s, ErrorReply(e))
       case Success(h) =>
         Step(s, FieldsReply(seq(|ns|, i requires 0 <= i < |ns| => if ns[i] in h then Some(h[ns[i]]) else None))))
    case HIncrBy(_, f, n) => HIncrByStep(s, f, n)
    case SAdd(_, m) => SAddStep(s, m)
    case SRem(_, m) => SRemStep(s, m)
    case SCard(_) =>
      (match AsSet(s) case Failure(e) => Step(s, ErrorReply(e)) case Success(ms) => Step(s, IntReply(|ms|)))
    case SIsMember(_, m) =>
      (match AsSet(s) case Failure(e) => Step(s, ErrorReply(e)) case Success(ms) => Step(s, BoolReply(m in ms)))
    case SMembers(_) =>
      (match AsSet(s) case Failure(e) => Step(s, ErrorReply(e)) case Success(ms) => Step(s, MembersReply(ms)))
    case LPush(_, x) => LPushStep(s, x)
    case LTrim(_, a, b) => LTrimStep(s, a, b)
    case LRemAll(_, x) => LRemAllStep(s, x)
    case LRange(_, a, b) =>
      (match AsList(s) case Failure(e) => Step(s, ErrorReply(e)) case Success(l) => Step(s, StringsReply(RangeOf(l, a, b))))
    case LLen(_) =>
      (match AsList(s) case Failure(e) => Step(s, ErrorReply(e)) case Success(l) => Step(s, IntReply(|l|)))
    case ZAdd(_, m, sc) => ZAddStep(s, m, sc)
    case ZRem(_, ms) => ZRemStep(s, ms)
    case ZRemRangeByRank(_, a, b) => ZRemRangeByRankStep(s, a, b)
    case ZRevRange(_, a, b) =>
      (match AsZSet(s)
       case Failure(e) => Step(s, ErrorReply(e))
       case Success(es) => Step(s, StringsReply(RangeOf(Descending(es), a, b))))
    case ZCard(_) =>
      (match AsZSet(s) case Failure(e) => Step(s, ErrorReply(e)) case Success(es) => Step(s, IntReply(|es|)))
  }

  /** What a command leaves in slot `k`. */
  function SlotEffect(c: Command, k: string, s: Slot): (r: Slot)
    requires Sendable(c) && ValidSlot(s)
    ensures ValidSlot(r)
  {
    if c.Del? then (if k in c.keys then None else s)
    else if Touches(c, k) then KeyStep(c, s).slot
    else s
  }

  /** One command against the keyspace: the new keyspace and the reply. */
  function Exec(db: Db, c: Command): (r: (Db, Reply))
    requires ValidDb(db) && Sendable(c)
    ensures ValidDb(r.0)
  {
    if c.Del? then
      var ks := set k | k in c.keys;
      (db - ks, IntReply(|set k | k in ks && k in db|))
    else
      var st := KeyStep(c, SlotOf(db, c.key));
      var db' := PutSlot(db, c.key, st.slot);
      assert ValidDb(db') by {
        forall k | k in db' ensures WellFormed(db'[k]) {
          assert SlotOf(db', k) == Some(db'[k]);
        }
      }
      (db', st.reply)
  }

  /** A command changes key `k` exactly as its effect on `k`'s slot says. */
  lemma ExecSlot(db: Db, c: Command, k: string)
    requires ValidDb(db) && Sendable(c)
    ensures SlotOf(Exec(db, c).0, k) == SlotEffect(c, k, SlotOf(db, k))
  {
  }

  predicate AllSendable(cs: seq<Command>) { forall i :: 0 <= i < |cs| ==> Sendable(cs[i]) }

  /** Commands applied one after the other, in submission order. */
  function RunDb(db: Db, cs: seq<Command>): (r: Db)
    requires ValidDb(db) && AllSendable(cs)
    ensures ValidDb(r)
    decreases |cs|
  {
    if cs == [] then db else RunDb(Exec(db, cs[0]).0, cs[1..])
  }

  function RunReplies(db: Db, cs: seq<Command>): (r: seq<Reply>)
    requires ValidDb(db) && AllSendable(cs)
    ensures |r| == |cs|
    decreases |cs|
  {
    if cs == [] then [] else [Exec(db, cs[0]).1] + RunReplies(Exec(db, cs[0]).0, cs[1..])
  }

  /** The first error reply, which redis-py raises after the whole batch has run. */
  function FirstError(rs: seq<Reply>): (r: Option<StoreError>)
    ensures r.None? <==> forall i :: 0 <= i < |rs| ==> !rs[i].ErrorReply?
    ensures r.Some? ==> exists i :: 0 <= i < |rs| && rs[i] == ErrorReply(r.value)
  {
    if rs == [] then None
    else if rs[0].ErrorReply? then Some(rs[0].error)
    else
      var r := FirstError(rs[1..]);
      if r.Some? then
        var i :| 0 <= i < |rs[1..]| && rs[1..][i] == ErrorReply(r.value);
        assert rs[i + 1] == ErrorReply(r.value);
        r
      else
        assert forall i :: 1 <= i < |rs| ==> rs[i] == rs[1..][i - 1];
        r
  }

  lemma {:induction false} RunSnoc(db: Db, cs: seq<Command>, c: Command)
    requires ValidDb(db) && AllSendable(cs) && Sendable(c)
    ensures AllSendable(cs + [c])
    ensures RunDb(db, cs + [c]) == Exec(RunDb(db, cs), c).0
    ensures RunReplies(db, cs + [c]) == RunReplies(db, cs) + [Exec(RunDb(db, cs), c).1]
  {
    assert AllSendable([c]);
    RunAppend(db, cs, [c]);
    assert [c][1..] == [];
  }

  // ------------------------------------------------------------------ key locality

  /** The slot at `k` after running `cs`, computed from the slot at `k` alone. */
  function RunSlot(s: Slot, cs: seq<Command>, k: string): (r: Slot)
    requires ValidSlot(s) && AllSendable(cs)
    ensures ValidSlot(r)
    decreases |cs|
  {
    if cs == [] then s else RunSlot(SlotEffect(cs[0], k, s), cs[1..], k)
  }

  /** Each key evolves on its own: after a batch, the value at `k` depends only on the value
      `k` held before and on the commands that write `k`, in order. */
  lemma {:induction false} Locality(db: Db, cs: seq<Command>, k: string)
    requires ValidDb(db) && AllSendable(cs)
    ensures SlotOf(RunDb(db, cs), k) == RunSlot(SlotOf(db, k), cs, k)
    decreases |cs|
  {
    if cs != [] {
      ExecSlot(db, cs[0], k);
      Locality(Exec(db, cs[0]).0, cs[1..], k);
    }
  }

  lemma {:induction false} RunSlotAppend(s: Slot, a: seq<Command>, b: seq<Command>, k: string)
    requires ValidSlot(s) && AllSendable(a) && AllSendable(b)
    ensures AllSendable(a + b)
    ensures RunSlot(s, a + b, k) == RunSlot(RunSlot(s, a, k), b, k)
    decreases |a|
  {
    if a != [] {
      assert (a + b)[1..] == a[1..] + b;
      RunSlotAppend(SlotEffect(a[0], k, s), a[1..], b, k);
    } else {
      assert a + b == b;
    }
  }

  /** Commands that do not write `k` leave its slot alone. */
  lemma {:induction false} RunSlotUntouched(s: Slot, cs: seq<Command>, k: string)
    requires ValidSlot(s) && AllSendable(cs)
    requires forall i :: 0 <= i < |cs| ==> !Touches(cs[i], k)
    ensures RunSlot(s, cs, k) == s
    decreases |cs|
  {
    if cs != [] {
      RunSlotUntouched(s, cs[1..], k);
    }
  }

  // ------------------------------------------------------------------ trimming facts

  /** LTRIM key 0 -(m+1), for m >= 0, keeps the first max(0, n - m) elements: a list of at
      most m elements is emptied. */
  lemma LTrimDropTail(l: seq<string>, m: nat)
    ensures RangeOf(l, 0, -(m + 1)) == if |l| <= m then [] else l[..|l| - m]
  {
  }

  /** LTRIM key 0 m-1, for m >= 1, keeps the first min(n, m) elements. */
  lemma LTrimKeepHead(l: seq<string>, m: nat)
    requires m >= 1
    ensures RangeOf(l, 0, m - 1) == if |l| <= m then l else l[..m]
  {
  }

  /** ZREMRANGEBYRANK key 0 -(m+1), for m >= 0, keeps the m highest-ranked entries: the
      top min(n, m) of the ascending order. */
  lemma ZTrimKeepsTop(es: seq<Entry>, m: nat)
    ensures RemoveRange(es, 0, -(m + 1)) == if |es| <= m then es else es[|es| - m..]
  {
  }

  // ------------------------------------------------------------------ one command, one key

  lemma HSetEffect(key: string, fields: map<string, string>, k: string, s: Slot)
    requires ValidSlot(s) && fields != map[]
    ensures SlotEffect(HSet(key, fields), k, s) == if k == key then HSetStep(s, fields).slot else s
  {
  }

  lemma HDelEffect(key: string, field: string, k: string, s: Slot)
    requires ValidSlot(s)
    ensures SlotEffect(HDel(key, field), k, s) == if k == key then HDelStep(s, field).slot else s
  {
  }

  lemma HIncrByEffect(key: string, field: string, amount: int, k: string, s: Slot)
    requires ValidSlot(s)
    ensures SlotEffect(HIncrBy(key, field, amount), k, s) == if k == key then HIncrByStep(s, field, amount).slot else s
  {
  }

  lemma SAddEffect(key: string, m: string, k: string, s: Slot)
    requires ValidSlot(s)
    ensures SlotEffect(SAdd(key, m), k, s) == if k == key then SAddStep(s, m).slot else s
  {
  }

  lemma SRemEffect(key: string, m: string, k: string, s: Slot)
    requires ValidSlot(s)
    ensures SlotEffect(SRem(key, m), k, s) == if k == key then SRemStep(s, m).slot else s
  {
  }

  lemma LPushEffect(key: string, x: string, k: string, s: Slot)
    requires ValidSlot(s)
    ensures SlotEffect(LPush(key, x), k, s) == if k == key then LPushStep(s, x).slot else s
  {
  }

  lemma LTrimEffect(key: string, start: int, stop: int, k: string, s: Slot)
    requires ValidSlot(s)
    ensures SlotEffect(LTrim(key, start, stop), k, s) == if k == key then LTrimStep(s, start, stop).slot else s
  {
  }

  lemma LRemAllEffect(key: string, x: string, k: string, s: Slot)
    requires ValidSlot(s)
    ensures SlotEffect(LRemAll(key, x), k, s) == if k == key then LRemAllStep(s, x).slot else s
  {
  }

  lemma ZAddEffect(key: string, m: string, score: real, k: string, s: Slot)
    requires ValidSlot(s)
    ensures SlotEffect(ZAdd(key, m, score), k, s) == if k == key then ZAddStep(s, m, score).slot else s
  {
  }

  lemma ZRemEffect(key: string, ms: seq<string>, k: string, s: Slot)
    requires ValidSlot(s) && ms != []
    ensures SlotEffect(ZRem(key, ms), k, s) == if k == key then ZRemStep(s, ms).slot else s
  {
  }

  lemma ZRemRangeByRankEffect(key: string, start: int, stop: int, k: string, s: Slot)
    requires ValidSlot(s)
    ensures SlotEffect(ZRemRangeByRank(key, start, stop), k, s) == if k == key then ZRemRangeByRankStep(s, start, stop).slot else s
  {
  }

  lemma DelEffect(keys: seq<string>, k: string, s: Slot)
    requires ValidSlot(s) && keys != []
    ensures SlotEffect(Del(keys), k, s) == if k in keys then None else s
  {
  }

  // ------------------------------------------------------------------ reads

  /** The commands that only read. */
  predicate IsRead(c: Command)
  {
    c.HGetAll? || c.HMGet? || c.SCard? || c.SIsMember? || c.SMembers? || c.LRange? || c.LLen? || c.ZRevRange? || c.ZCard?
  }

  predicate AllReads(cs: seq<Command>) { forall i :: 0 <= i < |cs| ==> IsRead(cs[i]) }

  /** Two keyspaces that agree on every key are the same keyspace. */
  lemma DbExtensional(a: Db, b: Db)
    requires forall k :: SlotOf(a, k) == SlotOf(b, k)
    ensures a == b
  {
    forall k ensures k in a <==> k in b {
      assert SlotOf(a, k) == SlotOf(b, k);
    }
    forall k | k in a ensures a[k] == b[k] {
      assert SlotOf(a, k) == SlotOf(b, k);
    }
  }

  /** A read leaves the keyspace as it is. */
  lemma ReadKeepsDb(db: Db, c: Command)
    requires ValidDb(db) && Sendable(c) && IsRead(c)
    ensures Exec(db, c).0 == db
  {
    forall k ensures SlotOf(Exec(db, c).0, k) == SlotOf(db, k) {
      ExecSlot(db, c, k);
    }
    DbExtensional(Exec(db, c).0, db);
  }

  /** A batch of reads leaves the keyspace as it is, and each reply is what its command
      would answer on its own. */
  lemma {:induction false} ReadReplies(db: Db, cs: seq<Command>)
    requires ValidDb(db) && AllSendable(cs) && AllReads(cs)
    ensures RunDb(db, cs) == db
    ensures forall i :: 0 <= i < |cs| ==> RunReplies(db, cs)[i] == Exec(db, cs[i]).1
    decreases |cs|
  {
    if cs != [] {
      ReadKeepsDb(db, cs[0]);
      assert forall i :: 1 <= i < |cs| ==> cs[1..][i - 1] == cs[i];
      ReadReplies(db, cs[1..]);
    }
  }

  /** A batch of reads leaves the keyspace as it is. */
  lemma {:induction false} ReadsKeepDb(db: Db, cs: seq<Command>)
    requires ValidDb(db) && AllSendable(cs) && AllReads(cs)
    ensures RunDb(db, cs) == db
    decreases |cs|
  {
    if cs != [] {
      ReadKeepsDb(db, cs[0]);
      assert forall i :: 1 <= i < |cs| ==> cs[1..][i - 1] == cs[i];
      ReadsKeepDb(db, cs[1..]);
    }
  }

  /** Running two batches one after the other is running their concatenation. */
  lemma {:induction false} RunAppend(db: Db, a: seq<Command>, b: seq<Command>)
    requires ValidDb(db) && AllSendable(a) && AllSendable(b)
    ensures AllSendable(a + b)
    ensures RunDb(db, a + b) == RunDb(RunDb(db, a), b)
    ensures RunReplies(db, a + b) == RunReplies(db, a) + RunReplies(RunDb(db, a), b)
    decreases |a|
  {
    SendableAppend(a, b);
    if a == [] {
      assert a + b == b;
    } else {
      var rest := a[1..];
      SendableTail(a);
      assert (a + b)[1..] == rest + b;
      assert (a + b)[0] == a[0];
      RunAppend(Exec(db, a[0]).0, rest, b);
    }
  }

  lemma SendableAppend(a: seq<Command>, b: seq<Command>)
    requires AllSendable(a) && AllSendable(b)
    ensures AllSendable(a + b)
  {
    assert forall i :: 0 <= i < |a + b| ==> (a + b)[i] == if i < |a| then a[i] else b[i - |a|];
  }

  lemma SendableTail(a: seq<Command>)
    requires a != [] && AllSendable(a)
    ensures AllSendable(a[1..])
  {
    assert forall i :: 1 <= i < |a| ==> a[1..][i - 1] == a[i];
  }

  /** The reply of a read: the step of its command on its key's slot. */
  lemma ReadReply(db: Db, c: Command)
    requires ValidDb(db) && Sendable(c) && IsRead(c)
    ensures Exec(db, c).1 == KeyStep(c, SlotOf(db, c.key)).reply
  {
  }
}
