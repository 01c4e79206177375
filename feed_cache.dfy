/** The command batches the feed cache sends for each write, as pure functions of their
    arguments, and what each batch does to the keyspace, key by key.

    Every write in `CacheManager` is a fixed sequence of commands; the methods in
    module CacheManagers send these sequences through the store. The lemmas here follow
    from the key-locality lemma of RedisSemantics: a key's value after a batch depends
    only on its value before and on the commands that write it. */
module FeedCache {

  import opened Wrappers
  import opened Text
  import opened PyData
  import opened Json
  import opened RedisSemantics
  import opened CacheKeys

  /** `EngagementType` of the enums module: the engagement a user records. */
  datatype EngagementType = Like | Dislike | View {
    function Value(): string
    {
      match this
      case Like => "likes"
      case Dislike => "dislikes"
      case View => "views"
    }
  }

  /** What a cache method raises. */
  datatype CacheError =
    | Redis(error: StoreError)       // an error reply, or a command the client refuses to send
    | NotSerializable                // json.dumps raised TypeError
    | MalformedJson                  // json.loads raised JSONDecodeError
    | MissingKey(key: string)        // KeyError on a feed dict
    | ValueError(cause: CacheError)  // the ValueError some methods raise in place of the cause

  predicate Distinct<T(==)>(xs: seq<T>)
  {
    forall i, j :: 0 <= i < j < |xs| ==> xs[i] != xs[j]
  }

  /** Python's truth value of an optional string: present and not empty. */
  predicate Truthy(o: Option<string>)
  {
    o.Some? && o.value != ""
  }

  /** What an f-string writes for an optional string: `None` for None. */
  function FormatOptional(o: Option<string>): string
  {
    if o.Some? then o.value else "None"
  }

  // ------------------------------------------------------------------ running short blocks

  lemma RunSlotPair(s: Slot, c1: Command, c2: Command, k: string)
    requires ValidSlot(s) && Sendable(c1) && Sendable(c2)
    ensures AllSendable([c1, c2])
    ensures RunSlot(s, [c1, c2], k) == SlotEffect(c2, k, SlotEffect(c1, k, s))
  {
    var s1 := SlotEffect(c1, k, s);
    assert [c1, c2][1..] == [c2];
    assert RunSlot(s, [c1, c2], k) == RunSlot(s1, [c2], k);
    assert [c2][1..] == [];
    assert RunSlot(s1, [c2], k) == RunSlot(SlotEffect(c2, k, s1), [], k);
  }

  lemma RunSlotSingle(s: Slot, c: Command, k: string)
    requires ValidSlot(s) && Sendable(c)
    ensures AllSendable([c])
    ensures RunSlot(s, [c], k) == SlotEffect(c, k, s)
  {
    assert [c][1..] == [];
  }

  lemma RunSlotTriple(s: Slot, c1: Command, c2: Command, c3: Command, k: string)
    requires ValidSlot(s) && Sendable(c1) && Sendable(c2) && Sendable(c3)
    ensures AllSendable([c1, c2, c3])
    ensures RunSlot(s, [c1, c2, c3], k) == SlotEffect(c3, k, SlotEffect(c2, k, SlotEffect(c1, k, s)))
  {
    assert [c1, c2, c3][1..] == [c2, c3];
    RunSlotPair(SlotEffect(c1, k, s), c2, c3, k);
  }

  lemma RunSlot3(s: Slot, a: seq<Command>, b: seq<Command>, c: seq<Command>, k: string)
    requires ValidSlot(s) && AllSendable(a) && AllSendable(b) && AllSendable(c)
    ensures AllSendable(a + b + c)
    ensures RunSlot(s, a + b + c, k) == RunSlot(RunSlot(RunSlot(s, a, k), b, k), c, k)
  {
    RunSlotAppend(s, a, b, k);
    RunSlotAppend(s, a + b, c, k);
  }

  /** Running the same batch twice leaves every key as running it once does, given that
      each key's own commands are idempotent. */
  lemma BatchIdempotent(db: Db, cs: seq<Command>)
    requires ValidDb(db) && AllSendable(cs)
    requires forall k, s :: ValidSlot(s) ==> RunSlot(RunSlot(s, cs, k), cs, k) == RunSlot(s, cs, k)
    ensures RunDb(RunDb(db, cs), cs) == RunDb(db, cs)
  {
    var once := RunDb(db, cs);
    forall k ensures SlotOf(RunDb(once, cs), k) == SlotOf(once, k) {
      Locality(once, cs, k);
      Locality(db, cs, k);
    }
    DbExtensional(RunDb(once, cs), once);
  }

  // ------------------------------------------------------------------ create_feed

  function Elems<T>(xs: seq<T>): set<T>
  {
    set x | x in xs
  }

  /** The keys of the followers' following timelines. */
  function FollowingKeys(followers: set<string>): set<string>
  {
    set f | f in followers :: FollowingTimeline(f)
  }

  /** LPUSH then LTRIM on one list. */
  function PushTrim(s: Slot, x: string, start: int, stop: int): (r: Slot)
    requires ValidSlot(s)
    ensures ValidSlot(r)
  {
    LTrimStep(LPushStep(s, x).slot, start, stop).slot
  }

  /** The fan-out loop of create_feed: for each follower, push the feed id onto the head
      of the follower's following timeline and trim it to `0 .. -max_ft-1`. */
  function FanOut(followers: seq<string>, feedId: string, maxFt: int): (cs: seq<Command>)
    ensures AllSendable(cs)
  {
    if followers == [] then []
    else
      var k := FollowingTimeline(followers[0]);
      [LPush(k, feedId), LTrim(k, 0, -maxFt - 1)] + FanOut(followers[1..], feedId, maxFt)
  }

  lemma {:induction false} FanOutSlot(s: Slot, followers: seq<string>, feedId: string, maxFt: int, k: string)
    requires ValidSlot(s) && Distinct(followers)
    ensures RunSlot(s, FanOut(followers, feedId, maxFt), k)
         == if k in FollowingKeys(Elems(followers)) then PushTrim(s, feedId, 0, -maxFt - 1) else s
    decreases |followers|
  {
    if followers == [] {
      assert FollowingKeys(Elems(followers)) == {};
    } else {
      var key := FollowingTimeline(followers[0]);
      var rest := followers[1..];
      var tail := FanOut(rest, feedId, maxFt);
      var s1 := FanOutHead(s, followers, feedId, maxFt, k);
      assert Distinct(rest);
      FanOutSlot(s1, rest, feedId, maxFt, k);
      FollowingKeysCons(followers);
    }
  }

  /** The first follower's LPUSH and LTRIM, run at key `k`. */
  lemma FanOutHead(s: Slot, followers: seq<string>, feedId: string, maxFt: int, k: string) returns (s1: Slot)
    requires ValidSlot(s) && followers != []
    ensures ValidSlot(s1)
    ensures s1 == if k == FollowingTimeline(followers[0]) then PushTrim(s, feedId, 0, -maxFt - 1) else s
    ensures RunSlot(s, FanOut(followers, feedId, maxFt), k) == RunSlot(s1, FanOut(followers[1..], feedId, maxFt), k)
  {
    var key := FollowingTimeline(followers[0]);
    var pair := [LPush(key, feedId), LTrim(key, 0, -maxFt - 1)];
    var tail := FanOut(followers[1..], feedId, maxFt);
    assert FanOut(followers, feedId, maxFt) == pair + tail;
    PushTrimPair(s, key, feedId, maxFt, k);
    RunSlotAppend(s, pair, tail, k);
    s1 := RunSlot(s, pair, k);
  }

  /** LPUSH then LTRIM on `key`, seen from key `k`. */
  lemma PushTrimPair(s: Slot, key: string, feedId: string, maxFt: int, k: string)
    requires ValidSlot(s)
    ensures AllSendable([LPush(key, feedId), LTrim(key, 0, -maxFt - 1)])
    ensures RunSlot(s, [LPush(key, feedId), LTrim(key, 0, -maxFt - 1)], k)
         == if k == key then PushTrim(s, feedId, 0, -maxFt - 1) else s
  {
    var c1, c2 := LPush(key, feedId), LTrim(key, 0, -maxFt - 1);
    RunSlotPair(s, c1, c2, k);
    var pushed := SlotEffect(c1, k, s);
    LPushEffect(key, feedId, k, s);
    LTrimEffect(key, 0, -maxFt - 1, k, pushed);
    if k == key {
      assert pushed == LPushStep(s, feedId).slot;
    } else {
      assert pushed == s;
    }
  }

  /** The following-timeline keys of distinct followers: the first follower's key, which no
      later follower shares, and the others'. */
  lemma FollowingKeysCons(followers: seq<string>)
    requires followers != [] && Distinct(followers)
    ensures FollowingKeys(Elems(followers)) == {FollowingTimeline(followers[0])} + FollowingKeys(Elems(followers[1..]))
    ensures FollowingTimeline(followers[0]) !in FollowingKeys(Elems(followers[1..]))
  {
    var f := followers[0];
    var rest := followers[1..];
    assert Elems(followers) == {f} + Elems(rest);
    forall g | g in Elems(rest) ensures FollowingTimeline(g) != FollowingTimeline(f) {
      if FollowingTimeline(g) == FollowingTimeline(f) {
        UserKeyInjective(g, f, "following_timeline");
      }
    }
  }

  /** The commands of create_feed's pipeline, in submission order. */
  function CreateFeedBatch(authorId: string, feedId: string, fields: map<string, string>, score: real,
                           followers: seq<string>, maxDt: int, maxFt: int, maxUt: int): (cs: seq<Command>)
    requires fields != map[]
    ensures AllSendable(cs)
  {
    [HSet(FeedKey(feedId, "meta"), fields), ZAdd(GlobalTimeline, feedId, score), ZRemRangeByRank(GlobalTimeline, 0, -maxDt - 1)]
    + FanOut(followers, feedId, maxFt)
    + [LPush(UserTimeline(authorId), feedId), LTrim(UserTimeline(authorId), 0, maxUt - 1)]
  }

  /** The value key `k` holds after create_feed's pipeline, given the value `s` it held:
      the meta hash gains the fields, the global timeline gains the feed and is trimmed by
      rank, each follower's following timeline and the author's user timeline get the id
      pushed at the head and trimmed, and every other key keeps its value. */
  function FeedCreatedSlot(s: Slot, k: string, authorId: string, feedId: string, fields: map<string, string>, score: real,
                           followers: set<string>, maxDt: int, maxFt: int, maxUt: int): (r: Slot)
    requires ValidSlot(s) && fields != map[]
    ensures ValidSlot(r)
  {
    if k == FeedKey(feedId, "meta") then HSetStep(s, fields).slot
    else if k == GlobalTimeline then ZRemRangeByRankStep(ZAddStep(s, feedId, score).slot, 0, -maxDt - 1).slot
    else if k in FollowingKeys(followers) then PushTrim(s, feedId, 0, -maxFt - 1)
    else if k == UserTimeline(authorId) then PushTrim(s, feedId, 0, maxUt - 1)
    else s
  }

  /** The three commands create_feed queues before the fan-out. */
  lemma CreateFeedHeadSlot(s: Slot, meta: string, fields: map<string, string>, feedId: string, score: real, maxDt: int, k: string)
    requires ValidSlot(s) && fields != map[] && meta != GlobalTimeline
    ensures AllSendable([HSet(meta, fields), ZAdd(GlobalTimeline, feedId, score), ZRemRangeByRank(GlobalTimeline, 0, -maxDt - 1)])
    ensures RunSlot(s, [HSet(meta, fields), ZAdd(GlobalTimeline, feedId, score), ZRemRangeByRank(GlobalTimeline, 0, -maxDt - 1)], k)
         == if k == meta then HSetStep(s, fields).slot
            else if k == GlobalTimeline then ZRemRangeByRankStep(ZAddStep(s, feedId, score).slot, 0, -maxDt - 1).slot
            else s
  {
    var c1, c2, c3 := HSet(meta, fields), ZAdd(GlobalTimeline, feedId, score), ZRemRangeByRank(GlobalTimeline, 0, -maxDt - 1);
    RunSlotTriple(s, c1, c2, c3, k);
    if k == GlobalTimeline {
      HeadOnGlobal(s, meta, fields, feedId, score, maxDt);
    } else {
      HeadOffGlobal(s, meta, fields, feedId, score, maxDt, k);
    }
  }

  lemma HeadOnGlobal(s: Slot, meta: string, fields: map<string, string>, feedId: string, score: real, maxDt: int)
    requires ValidSlot(s) && fields != map[] && meta != GlobalTimeline
    ensures var s1 := SlotEffect(HSet(meta, fields), GlobalTimeline, s);
            var s2 := SlotEffect(ZAdd(GlobalTimeline, feedId, score), GlobalTimeline, s1);
            SlotEffect(ZRemRangeByRank(GlobalTimeline, 0, -maxDt - 1), GlobalTimeline, s2)
            == ZRemRangeByRankStep(ZAddStep(s, feedId, score).slot, 0, -maxDt - 1).slot
  {
    var added := ZAddStep(s, feedId, score).slot;
    var s1 := SlotEffect(HSet(meta, fields), GlobalTimeline, s);
    assert s1 == s by {
      HSetEffect(meta, fields, GlobalTimeline, s);
    }
    var s2 := SlotEffect(ZAdd(GlobalTimeline, feedId, score), GlobalTimeline, s1);
    assert s2 == added by {
      ZAddEffect(GlobalTimeline, feedId, score, GlobalTimeline, s1);
    }
    var s3 := SlotEffect(ZRemRangeByRank(GlobalTimeline, 0, -maxDt - 1), GlobalTimeline, s2);
    assert s3 == ZRemRangeByRankStep(s2, 0, -maxDt - 1).slot by {
      ZRemRangeByRankEffect(GlobalTimeline, 0, -maxDt - 1, GlobalTimeline, s2);
    }
  }

  lemma HeadOffGlobal(s: Slot, meta: string, fields: map<string, string>, feedId: string, score: real, maxDt: int, k: string)
    requires ValidSlot(s) && fields != map[] && k != GlobalTimeline
    ensures var s1 := SlotEffect(HSet(meta, fields), k, s);
            var s2 := SlotEffect(ZAdd(GlobalTimeline, feedId, score), k, s1);
            SlotEffect(ZRemRangeByRank(GlobalTimeline, 0, -maxDt - 1), k, s2)
            == if k == meta then HSetStep(s, fields).slot else s
  {
    HSetEffect(meta, fields, k, s);
    var s1 := SlotEffect(HSet(meta, fields), k, s);
    ZAddEffect(GlobalTimeline, feedId, score, k, s1);
    ZRemRangeByRankEffect(GlobalTimeline, 0, -maxDt - 1, k, s1);
  }

  /** The two commands create_feed queues after the fan-out. */
  lemma CreateFeedTailSlot(s: Slot, ut: string, feedId: string, maxUt: int, k: string)
    requires ValidSlot(s)
    ensures AllSendable([LPush(ut, feedId), LTrim(ut, 0, maxUt - 1)])
    ensures RunSlot(s, [LPush(ut, feedId), LTrim(ut, 0, maxUt - 1)], k)
         == if k == ut then PushTrim(s, feedId, 0, maxUt - 1) else s
  {
    RunSlotPair(s, LPush(ut, feedId), LTrim(ut, 0, maxUt - 1), k);
    LPushEffect(ut, feedId, k, s);
    LTrimEffect(ut, 0, maxUt - 1, k, SlotEffect(LPush(ut, feedId), k, s));
  }

  /** create_feed's pipeline, run key by key, leaves each key as FeedCreatedSlot says,
      whatever order the followers come in. */
  lemma CreateFeedSlots(db: Db, authorId: string, feedId: string, fields: map<string, string>, score: real,
                        followers: seq<string>, maxDt: int, maxFt: int, maxUt: int, k: string)
    requires ValidDb(db) && fields != map[] && Distinct(followers)
    ensures SlotOf(RunDb(db, CreateFeedBatch(authorId, feedId, fields, score, followers, maxDt, maxFt, maxUt)), k)
         == FeedCreatedSlot(SlotOf(db, k), k, authorId, feedId, fields, score, Elems(followers), maxDt, maxFt, maxUt)
  {
    var s := SlotOf(db, k);
    var meta := FeedKey(feedId, "meta");
    var ut := UserTimeline(authorId);
    var head := [HSet(meta, fields), ZAdd(GlobalTimeline, feedId, score), ZRemRangeByRank(GlobalTimeline, 0, -maxDt - 1)];
    var fan := FanOut(followers, feedId, maxFt);
    var tail := [LPush(ut, feedId), LTrim(ut, 0, maxUt - 1)];
    FeedKeyNotGlobal(feedId, "meta");
    CreateFeedHeadSlot(s, meta, fields, feedId, score, maxDt, k);
    CreateFeedTailSlot(s, ut, feedId, maxUt, k);
    var s1 := RunSlot(s, head, k);
    var s2 := RunSlot(s1, fan, k);
    assert SlotOf(RunDb(db, CreateFeedBatch(authorId, feedId, fields, score, followers, maxDt, maxFt, maxUt)), k)
        == RunSlot(s2, tail, k) by {
      assert CreateFeedBatch(authorId, feedId, fields, score, followers, maxDt, maxFt, maxUt) == head + fan + tail;
      Locality(db, head + fan + tail, k);
      RunSlot3(s, head, fan, tail, k);
    }
    FanOutSlot(s1, followers, feedId, maxFt, k);
    CreateFeedTailSlot(s2, ut, feedId, maxUt, k);
    CreatedSlotCases(s, k, authorId, feedId, fields, score, Elems(followers), maxDt, maxFt, maxUt);
  }

  /** The per-key effects of the three parts of create_feed's pipeline compose into
      FeedCreatedSlot, because the keys the parts write are pairwise different. */
  lemma CreatedSlotCases(s: Slot, k: string, authorId: string, feedId: string, fields: map<string, string>, score: real,
                         followers: set<string>, maxDt: int, maxFt: int, maxUt: int)
    requires ValidSlot(s) && fields != map[]
    ensures var s1 := if k == FeedKey(feedId, "meta") then HSetStep(s, fields).slot
                      else if k == GlobalTimeline then ZRemRangeByRankStep(ZAddStep(s, feedId, score).slot, 0, -maxDt - 1).slot
                      else s;
            var s2 := if k in FollowingKeys(followers) then PushTrim(s1, feedId, 0, -maxFt - 1) else s1;
            (if k == UserTimeline(authorId) then PushTrim(s2, feedId, 0, maxUt - 1) else s2)
            == FeedCreatedSlot(s, k, authorId, feedId, fields, score, followers, maxDt, maxFt, maxUt)
  {
    FeedKeyNotGlobal(feedId, "meta");
    FeedKeyNotUserKey(feedId, "meta", authorId, "user_timeline");
    UserKeyNotGlobal(authorId, "user_timeline");
    if k in FollowingKeys(followers) {
      var f :| f in followers && FollowingTimeline(f) == k;
      FeedKeyNotUserKey(feedId, "meta", f, "following_timeline");
      UserKeyNotGlobal(f, "following_timeline");
      UserTimelineNotFollowing(authorId, f);
    }
  }

  /** The last `m` entries of an ascending sequence: the `m` highest ranks. */
  function TopOf(es: seq<Entry>, m: nat): (r: seq<Entry>)
    ensures |r| == if |es| <= m then |es| else m
  {
    if |es| <= m then es else es[|es| - m..]
  }

  /** Trimming a sorted set to its top `m` ranks keeps at most `m` entries, each member
      once, and every entry kept outranks every entry dropped. */
  lemma TopOfKeepsHighest(es: seq<Entry>, m: nat)
    requires ZSorted(es)
    ensures |TopOf(es, m)| <= m && ZSorted(TopOf(es, m))
    ensures forall x, y :: x in TopOf(es, m) && y in es && y !in TopOf(es, m) ==> Before(y, x)
  {
    var r := TopOf(es, m);
    var cut := |es| - |r|;
    assert r == es[cut..];
    forall x, y | x in r && y in es && y !in r ensures Before(y, x) {
      var i :| cut <= i < |es| && es[i] == x;
      var j :| 0 <= j < |es| && es[j] == y;
    }
    forall i, j | 0 <= i < j < |r| ensures Before(r[i], r[j]) && r[i].member != r[j].member {
      assert r[i] == es[cut + i] && r[j] == es[cut + j];
    }
  }

  lemma GlobalNotFollowing(followers: set<string>)
    ensures GlobalTimeline !in FollowingKeys(followers)
  {
    forall f | f in followers ensures FollowingTimeline(f) != GlobalTimeline {
      UserKeyNotGlobal(f, "following_timeline");
    }
  }

  /** The global timeline after create_feed: the feed ranked by its score, then the set
      trimmed to the `max_dt` highest-ranked entries, each feed id at most once. */
  lemma CreatedGlobalTimeline(s: Slot, authorId: string, feedId: string, fields: map<string, string>, score: real,
                              followers: set<string>, maxDt: nat, maxFt: int, maxUt: int)
    requires ValidSlot(s) && fields != map[] && AsZSet(s).Success?
    ensures
      var ranked := ZUpsert(AsZSet(s).value, feedId, score);
      var after := AsZSet(FeedCreatedSlot(s, GlobalTimeline, authorId, feedId, fields, score, followers, maxDt, maxFt, maxUt));
      && after == Success(TopOf(ranked, maxDt))
      && |after.value| <= maxDt
      && ZSorted(after.value)
      && (forall x, y :: x in after.value && y in ranked && y !in after.value ==> Before(y, x))
  {
    FeedKeyNotGlobal(feedId, "meta");
    GlobalNotFollowing(followers);
    var ranked := ZUpsert(AsZSet(s).value, feedId, score);
    var added := ZAddStep(s, feedId, score).slot;
    assert AsZSet(added) == Success(ranked);
    var trimmed := ZRemRangeByRankStep(added, 0, -(maxDt as int) - 1).slot;
    assert FeedCreatedSlot(s, GlobalTimeline, authorId, feedId, fields, score, followers, maxDt, maxFt, maxUt) == trimmed;
    ZTrimKeepsTop(ranked, maxDt);
    assert AsZSet(trimmed) == Success(TopOf(ranked, maxDt));
    TopOfKeepsHighest(ranked, maxDt);
  }

  /** A follower's following timeline after create_feed: LTRIM 0 -(max_ft+1) keeps the
      first max(0, n - max_ft) entries of the pushed list, so a list of at most max_ft
      entries is emptied. */
  lemma CreatedFollowingTimeline(s: Slot, authorId: string, feedId: string, fields: map<string, string>, score: real,
                                 followers: set<string>, maxDt: int, maxFt: nat, maxUt: int, follower: string)
    requires ValidSlot(s) && fields != map[] && follower in followers && AsList(s).Success?
    ensures
      var pushed := [feedId] + AsList(s).value;
      AsList(FeedCreatedSlot(s, FollowingTimeline(follower), authorId, feedId, fields, score, followers, maxDt, maxFt, maxUt))
      == Success(if |pushed| <= maxFt then [] else pushed[..|pushed| - maxFt])
  {
    assert FollowingTimeline(follower) in FollowingKeys(followers);
    FeedKeyNotUserKey(feedId, "meta", follower, "following_timeline");
    UserKeyNotGlobal(follower, "following_timeline");
    LTrimDropTail([feedId] + AsList(s).value, maxFt);
  }

  /** The author's user timeline after create_feed: the feed id first, at most `max_ut`
      entries, the rest the previous head of the list. */
  lemma CreatedUserTimeline(s: Slot, authorId: string, feedId: string, fields: map<string, string>, score: real,
                            followers: set<string>, maxDt: int, maxFt: int, maxUt: nat)
    requires ValidSlot(s) && fields != map[] && maxUt >= 1 && AsList(s).Success?
    ensures
      var pushed := [feedId] + AsList(s).value;
      var after := AsList(FeedCreatedSlot(s, UserTimeline(authorId), authorId, feedId, fields, score, followers, maxDt, maxFt, maxUt));
      && after == Success(if |pushed| <= maxUt then pushed else pushed[..maxUt])
      && 1 <= |after.value| <= maxUt && after.value[0] == feedId
  {
    var k := UserTimeline(authorId);
    FeedKeyNotUserKey(feedId, "meta", authorId, "user_timeline");
    UserKeyNotGlobal(authorId, "user_timeline");
    if k in FollowingKeys(followers) {
      var f :| f in followers && FollowingTimeline(f) == k;
      UserTimelineNotFollowing(authorId, f);
    }
    LTrimKeepHead([feedId] + AsList(s).value, maxUt);
  }

  // ------------------------------------------------------------------ the stored meta hash

  /** The mapping create_feed stores: `author` removed, a list `image_urls` replaced by its
      JSON text (None where json.dumps raises), and `author_id` set to the author. */
  function PrepareMeta(mapping: seq<(string, PyValue)>, authorId: string): (r: Option<seq<(string, PyValue)>>)
    ensures r.Some? ==> Lookup(r.value, "author") == None
    ensures r.Some? ==> Lookup(r.value, "author_id") == Some(PyStr(authorId))
    ensures r.Some? ==> forall k :: k != "author" && k != "author_id" && k != "image_urls" ==> Lookup(r.value, k) == Lookup(mapping, k)
    ensures r.None? <==> exists items :: Lookup(mapping, "image_urls") == Some(PyList(items)) && Dumps(PyList(items)).None?
    ensures r.Some? ==> match Lookup(mapping, "image_urls")
                        case Some(PyList(items)) => Lookup(r.value, "image_urls") == Some(PyStr(Dumps(PyList(items)).value))
                        case other => Lookup(r.value, "image_urls") == other
  {
    var popped := Remove(mapping, "author");
    assert Lookup(popped, "author") == None;
    assert forall k :: k != "author" ==> Lookup(popped, k) == Lookup(mapping, k) by {
      forall k | k != "author" ensures Lookup(popped, k) == Lookup(mapping, k) {
        LookupRemove(mapping, "author", k);
      }
    }
    match Lookup(popped, "image_urls")
    case Some(PyList(items)) =>
      (match Dumps(PyList(items))
       case None => None
       case Some(text) => Some(Assign(Assign(popped, "image_urls", PyStr(text)), "author_id", PyStr(authorId))))
    case _ => Some(Assign(popped, "author_id", PyStr(authorId)))
  }

  /** Removing a key leaves the other keys' values as they were. */
  lemma {:induction false} LookupRemove(es: seq<(string, PyValue)>, gone: string, k: string)
    requires k != gone
    ensures Lookup(Remove(es, gone), k) == Lookup(es, k)
  {
    if es != [] {
      LookupRemove(es[1..], gone, k);
      if es[0].0 != gone {
        assert Remove(es, gone) == [es[0]] + Remove(es[1..], gone);
        assert ([es[0]] + Remove(es[1..], gone))[1..] == Remove(es[1..], gone);
      }
    }
  }

  /** The hash fields create_feed writes carry the author id and no `author` field, and a
      list of image URLs is stored as JSON text that reads back as the same list. */
  lemma StoredMetaFields(mapping: seq<(string, PyValue)>, authorId: string, urls: seq<string>)
    requires PrepareMeta(mapping, authorId).Some?
    requires EncodeMapping(PrepareMeta(mapping, authorId).value).Some?
    ensures
      var fields := EncodeMapping(PrepareMeta(mapping, authorId).value).value;
      && fields != map[]
      && "author" !in fields
      && "author_id" in fields && fields["author_id"] == authorId
      && (Lookup(mapping, "image_urls") == Some(PyList(StrValues(urls))) ==>
            "image_urls" in fields && LoadsStrings(fields["image_urls"]) == Some(urls))
  {
    var prepared := PrepareMeta(mapping, authorId).value;
    var fields := EncodeMapping(prepared).value;
    assert Lookup(prepared, "author_id") == Some(PyStr(authorId));
    assert Some(fields["author_id"]) == RedisEncode(PyStr(authorId));
    if Lookup(mapping, "image_urls") == Some(PyList(StrValues(urls))) {
      LoadsDumpsStrings(urls);
      var text := Dumps(PyList(StrValues(urls))).value;
      assert Lookup(prepared, "image_urls") == Some(PyStr(text));
      assert Some(fields["image_urls"]) == RedisEncode(PyStr(text));
    }
  }

  /** The meta hash after create_feed: the previous fields overwritten by the written ones. */
  lemma CreatedMeta(s: Slot, authorId: string, feedId: string, fields: map<string, string>, score: real,
                    followers: set<string>, maxDt: int, maxFt: int, maxUt: int)
    requires ValidSlot(s) && fields != map[] && AsHash(s).Success?
    ensures AsHash(FeedCreatedSlot(s, FeedKey(feedId, "meta"), authorId, feedId, fields, score, followers, maxDt, maxFt, maxUt))
         == Success(AsHash(s).value + fields)
  {
  }

  // ------------------------------------------------------------------ delete_feed

  /** LREM count 0 of the feed id on each follower's following timeline. */
  function Unlink(followers: seq<string>, feedId: string): (cs: seq<Command>)
    ensures AllSendable(cs)
  {
    if followers == [] then []
    else [LRemAll(FollowingTimeline(followers[0]), feedId)] + Unlink(followers[1..], feedId)
  }

  lemma {:induction false} UnlinkSlot(s: Slot, followers: seq<string>, feedId: string, k: string)
    requires ValidSlot(s) && Distinct(followers)
    ensures RunSlot(s, Unlink(followers, feedId), k)
         == if k in FollowingKeys(Elems(followers)) then LRemAllStep(s, feedId).slot else s
    decreases |followers|
  {
    if followers != [] {
      var f := followers[0];
      var rest := followers[1..];
      var key := FollowingTimeline(f);
      RunSlotAppend(s, [LRemAll(key, feedId)], Unlink(rest, feedId), k);
      RunSlotSingle(s, LRemAll(key, feedId), k);
      LRemAllEffect(key, feedId, k, s);
      var s1 := RunSlot(s, [LRemAll(key, feedId)], k);
      assert Distinct(rest);
      UnlinkSlot(s1, rest, feedId, k);
      assert Elems(followers) == {f} + Elems(rest);
      assert FollowingKeys(Elems(followers)) == {key} + FollowingKeys(Elems(rest));
      if k == key {
        forall g | g in rest ensures FollowingTimeline(g) != k {
          if FollowingTimeline(g) == k {
            UserKeyInjective(g, f, "following_timeline");
          }
        }
        assert k !in FollowingKeys(Elems(rest));
      }
    }
  }

  /** The seven `feeds:{id}:{suffix}` keys. */
  function FeedKeys(feedId: string): (ks: seq<string>)
    ensures |ks| == 7
    ensures forall i :: 0 <= i < 7 ==> ks[i] == FeedKey(feedId, FeedSuffixes[i])
  {
    seq(7, i requires 0 <= i < 7 => FeedKey(feedId, FeedSuffixes[i]))
  }

  /** The commands of delete_feed's pipeline, in submission order. */
  function DeleteFeedBatch(authorId: string, feedId: string, followers: seq<string>): (cs: seq<Command>)
    ensures AllSendable(cs)
  {
    [ZRem(GlobalTimeline, [feedId])]
    + Unlink(followers, feedId)
    + [LRemAll(UserTimeline(authorId), feedId), Del(FeedKeys(feedId))]
  }

  /** The value key `k` holds after delete_feed's pipeline, given the value `s` it held. */
  function FeedDeletedSlot(s: Slot, k: string, authorId: string, feedId: string, followers: set<string>): (r: Slot)
    requires ValidSlot(s)
    ensures ValidSlot(r)
  {
    if k in FeedKeys(feedId) then None
    else if k == GlobalTimeline then ZRemStep(s, [feedId]).slot
    else if k in FollowingKeys(followers) || k == UserTimeline(authorId) then LRemAllStep(s, feedId).slot
    else s
  }

  /** delete_feed's pipeline, run key by key, leaves each key as FeedDeletedSlot says,
      whatever order the followers come in. */
  lemma DeleteFeedSlots(db: Db, authorId: string, feedId: string, followers: seq<string>, k: string)
    requires ValidDb(db) && Distinct(followers)
    ensures SlotOf(RunDb(db, DeleteFeedBatch(authorId, feedId, followers)), k)
         == FeedDeletedSlot(SlotOf(db, k), k, authorId, feedId, Elems(followers))
  {
    var s := SlotOf(db, k);
    var ut := UserTimeline(authorId);
    var head := [ZRem(GlobalTimeline, [feedId])];
    var mid := Unlink(followers, feedId);
    var tail := [LRemAll(ut, feedId), Del(FeedKeys(feedId))];
    assert DeleteFeedBatch(authorId, feedId, followers) == head + mid + tail;
    Locality(db, head + mid + tail, k);
    RunSlotSingle(s, head[0], k);
    ZRemEffect(GlobalTimeline, [feedId], k, s);
    RunSlot3(s, head, mid, tail, k);
    var s1 := RunSlot(s, head, k);
    UnlinkSlot(s1, followers, feedId, k);
    var s2 := RunSlot(s1, mid, k);
    RunSlotPair(s2, tail[0], tail[1], k);
    LRemAllEffect(ut, feedId, k, s2);
    DelEffect(FeedKeys(feedId), k, SlotEffect(tail[0], k, s2));
    assert SlotOf(RunDb(db, head + mid + tail), k) == RunSlot(s2, tail, k);
    KeysApart(authorId, feedId, Elems(followers));
    if k in FollowingKeys(Elems(followers)) {
      var f :| f in followers && FollowingTimeline(f) == k;
      UserTimelineNotFollowing(authorId, f);
    }
  }

  /** The keys delete_feed writes fall into four disjoint families. */
  lemma KeysApart(authorId: string, feedId: string, followers: set<string>)
    ensures GlobalTimeline !in FeedKeys(feedId) && GlobalTimeline !in FollowingKeys(followers)
    ensures GlobalTimeline != UserTimeline(authorId) && UserTimeline(authorId) !in FeedKeys(feedId)
    ensures forall k :: k in FollowingKeys(followers) ==> k !in FeedKeys(feedId)
  {
    GlobalNotFollowing(followers);
    UserKeyNotGlobal(authorId, "user_timeline");
    forall i | 0 <= i < 7 ensures FeedKey(feedId, FeedSuffixes[i]) != GlobalTimeline && FeedKey(feedId, FeedSuffixes[i]) != UserTimeline(authorId) {
      FeedKeyNotGlobal(feedId, FeedSuffixes[i]);
      FeedKeyNotUserKey(feedId, FeedSuffixes[i], authorId, "user_timeline");
    }
    forall k | k in FollowingKeys(followers) ensures k !in FeedKeys(feedId) {
      var f :| f in followers && FollowingTimeline(f) == k;
      forall i | 0 <= i < 7 ensures FeedKey(feedId, FeedSuffixes[i]) != k {
        FeedKeyNotUserKey(feedId, FeedSuffixes[i], f, "following_timeline");
      }
    }
  }

  /** After delete_feed the seven feed keys are gone, the feed id is in none of the
      timelines the pipeline touches (and nothing else left them), and every other key
      is as it was. */
  lemma DeletedSlotMeaning(s: Slot, k: string, authorId: string, feedId: string, followers: set<string>)
    requires ValidSlot(s)
    ensures
      var r := FeedDeletedSlot(s, k, authorId, feedId, followers);
      && (k in FeedKeys(feedId) ==> r == None)
      && (k == GlobalTimeline && AsZSet(s).Success? ==>
            AsZSet(r).Success? && Members(AsZSet(r).value) == Members(AsZSet(s).value) - {feedId})
      && ((k in FollowingKeys(followers) || k == UserTimeline(authorId)) && AsList(s).Success? ==>
            AsList(r) == Success(RemoveAll(AsList(s).value, feedId)))
      && (k !in FeedKeys(feedId) && k != GlobalTimeline && k !in FollowingKeys(followers) && k != UserTimeline(authorId) ==> r == s)
  {
    KeysApart(authorId, feedId, followers);
    if k == GlobalTimeline && AsZSet(s).Success? {
      var es := AsZSet(s).value;
      var rest := ZWithoutAll(es, [feedId]);
      assert AsZSet(FeedDeletedSlot(s, k, authorId, feedId, followers)) == Success(rest);
      forall m ensures m in Members(rest) <==> m in Members(es) && m != feedId {
        if m in Members(rest) {
          var i :| 0 <= i < |rest| && rest[i].member == m;
          assert rest[i] in es;
        }
        if m in Members(es) && m != feedId {
          var i :| 0 <= i < |es| && es[i].member == m;
          assert es[i] in rest;
        }
      }
    }
  }

  // ------------------------------------------------------------------ engagements

  /** `"feeds" if feed_id else "comments"`. */
  function EntityType(feedId: Option<string>): string
  {
    if Truthy(feedId) then "feeds" else "comments"
  }

  /** `feed_id or comment_id`. */
  function EntityId(feedId: Option<string>, commentId: Option<string>): Option<string>
  {
    if Truthy(feedId) then feedId else commentId
  }

  /** The entity's membership set for the engagement type. */
  function ActionKey(t: EngagementType, feedId: Option<string>, commentId: Option<string>): string
  {
    EntityKey(EntityType(feedId), FormatOptional(EntityId(feedId, commentId)), t.Value())
  }

  /** The reverse index set_feed_engagement writes: `users:{uid}:{comments|feeds}:{type}`. */
  function SetIndexKey(userId: string, t: EngagementType, commentId: Option<string>): string
  {
    UserKey(userId, (if Truthy(commentId) then "comments" else "feeds") + ":" + t.Value())
  }

  /** The reverse index remove_feed_engagement writes: `users:{uid}:{comments|}:{type}`. */
  function RemoveIndexKey(userId: string, t: EngagementType, commentId: Option<string>): string
  {
    UserKey(userId, (if Truthy(commentId) then "comments" else "") + ":" + t.Value())
  }

  function SetEngagementBatch(userId: string, t: EngagementType, feedId: Option<string>, commentId: Option<string>): (cs: seq<Command>)
    requires EntityId(feedId, commentId).Some?
    ensures AllSendable(cs)
  {
    [SAdd(ActionKey(t, feedId, commentId), userId), SAdd(SetIndexKey(userId, t, commentId), EntityId(feedId, commentId).value)]
  }

  function RemoveEngagementBatch(userId: string, t: EngagementType, feedId: Option<string>, commentId: Option<string>): (cs: seq<Command>)
    requires EntityId(feedId, commentId).Some?
    ensures AllSendable(cs)
  {
    [SRem(ActionKey(t, feedId, commentId), userId), SRem(RemoveIndexKey(userId, t, commentId), EntityId(feedId, commentId).value)]
  }

  lemma ActionKeyNotUserKey(t: EngagementType, feedId: Option<string>, commentId: Option<string>, uid: string, suffix: string)
    ensures ActionKey(t, feedId, commentId) != UserKey(uid, suffix)
  {
    if Truthy(feedId) {
      FeedKeyNotUserKey(FormatOptional(EntityId(feedId, commentId)), t.Value(), uid, suffix);
    } else {
      CommentKeyNotUserKey(FormatOptional(EntityId(feedId, commentId)), t.Value(), uid, suffix);
    }
  }

  /** A well-formed slot that reads as a set is the canonical slot of that set. */
  lemma SetSlotDetermined(s: Slot)
    requires ValidSlot(s) && AsSet(s).Success?
    ensures s == SetSlot(AsSet(s).value)
  {
  }

  lemma SAddTwice(s: Slot, m: string)
    requires ValidSlot(s)
    ensures SAddStep(SAddStep(s, m).slot, m).slot == SAddStep(s, m).slot
  {
    if AsSet(s).Success? {
      var s1 := SAddStep(s, m).slot;
      SetSlotDetermined(s1);
      SetSlotDetermined(SAddStep(s1, m).slot);
      assert AsSet(s).value + {m} + {m} == AsSet(s).value + {m};
    }
  }

  /** What set_feed_engagement's batch leaves in each key. */
  lemma SetEngagementSlot(s: Slot, userId: string, t: EngagementType, feedId: Option<string>, commentId: Option<string>, k: string)
    requires ValidSlot(s) && EntityId(feedId, commentId).Some?
    ensures RunSlot(s, SetEngagementBatch(userId, t, feedId, commentId), k)
         == if k == ActionKey(t, feedId, commentId) then SAddStep(s, userId).slot
            else if k == SetIndexKey(userId, t, commentId) then SAddStep(s, EntityId(feedId, commentId).value).slot
            else s
  {
    var cs := SetEngagementBatch(userId, t, feedId, commentId);
    RunSlotPair(s, cs[0], cs[1], k);
    SAddEffect(ActionKey(t, feedId, commentId), userId, k, s);
    SAddEffect(SetIndexKey(userId, t, commentId), EntityId(feedId, commentId).value, k, SlotEffect(cs[0], k, s));
    ActionKeyNotUserKey(t, feedId, commentId, userId, (if Truthy(commentId) then "comments" else "feeds") + ":" + t.Value());
  }

  /** What remove_feed_engagement's batch leaves in each key. */
  lemma RemoveEngagementSlot(s: Slot, userId: string, t: EngagementType, feedId: Option<string>, commentId: Option<string>, k: string)
    requires ValidSlot(s) && EntityId(feedId, commentId).Some?
    ensures RunSlot(s, RemoveEngagementBatch(userId, t, feedId, commentId), k)
         == if k == ActionKey(t, feedId, commentId) then SRemStep(s, userId).slot
            else if k == RemoveIndexKey(userId, t, commentId) then SRemStep(s, EntityId(feedId, commentId).value).slot
            else s
  {
    var cs := RemoveEngagementBatch(userId, t, feedId, commentId);
    RunSlotPair(s, cs[0], cs[1], k);
    SRemEffect(ActionKey(t, feedId, commentId), userId, k, s);
    SRemEffect(RemoveIndexKey(userId, t, commentId), EntityId(feedId, commentId).value, k, SlotEffect(cs[0], k, s));
    ActionKeyNotUserKey(t, feedId, commentId, userId, (if Truthy(commentId) then "comments" else "") + ":" + t.Value());
  }

  /** Recording the same engagement twice leaves the keyspace as recording it once. */
  lemma SetEngagementIdempotent(db: Db, userId: string, t: EngagementType, feedId: Option<string>, commentId: Option<string>)
    requires ValidDb(db) && EntityId(feedId, commentId).Some?
    ensures
      var cs := SetEngagementBatch(userId, t, feedId, commentId);
      RunDb(RunDb(db, cs), cs) == RunDb(db, cs)
  {
    var cs := SetEngagementBatch(userId, t, feedId, commentId);
    forall k, s | ValidSlot(s) ensures RunSlot(RunSlot(s, cs, k), cs, k) == RunSlot(s, cs, k) {
      SetEngagementSlot(s, userId, t, feedId, commentId, k);
      SetEngagementSlot(RunSlot(s, cs, k), userId, t, feedId, commentId, k);
      SAddTwice(s, userId);
      SAddTwice(s, EntityId(feedId, commentId).value);
    }
    BatchIdempotent(db, cs);
  }

  /** After set_feed_engagement's batch the user is in the entity's set for the type and
      the entity is in the user's reverse index. */
  lemma SetEngagementMembers(db: Db, userId: string, t: EngagementType, feedId: Option<string>, commentId: Option<string>)
    requires ValidDb(db) && EntityId(feedId, commentId).Some?
    requires AsSet(SlotOf(db, ActionKey(t, feedId, commentId))).Success?
    requires AsSet(SlotOf(db, SetIndexKey(userId, t, commentId))).Success?
    ensures
      var after := RunDb(db, SetEngagementBatch(userId, t, feedId, commentId));
      && AsSet(SlotOf(after, ActionKey(t, feedId, commentId)))
         == Success(AsSet(SlotOf(db, ActionKey(t, feedId, commentId))).value + {userId})
      && AsSet(SlotOf(after, SetIndexKey(userId, t, commentId)))
         == Success(AsSet(SlotOf(db, SetIndexKey(userId, t, commentId))).value + {EntityId(feedId, commentId).value})
  {
    var cs := SetEngagementBatch(userId, t, feedId, commentId);
    var ak, ik := ActionKey(t, feedId, commentId), SetIndexKey(userId, t, commentId);
    Locality(db, cs, ak);
    Locality(db, cs, ik);
    SetEngagementSlot(SlotOf(db, ak), userId, t, feedId, commentId, ak);
    SetEngagementSlot(SlotOf(db, ik), userId, t, feedId, commentId, ik);
    ActionKeyNotUserKey(t, feedId, commentId, userId, (if Truthy(commentId) then "comments" else "feeds") + ":" + t.Value());
  }

  /** After remove_feed_engagement's batch the user is not in the entity's set. */
  lemma RemoveEngagementNotMember(db: Db, userId: string, t: EngagementType, feedId: Option<string>, commentId: Option<string>)
    requires ValidDb(db) && EntityId(feedId, commentId).Some?
    requires AsSet(SlotOf(db, ActionKey(t, feedId, commentId))).Success?
    ensures
      var after := RunDb(db, RemoveEngagementBatch(userId, t, feedId, commentId));
      AsSet(SlotOf(after, ActionKey(t, feedId, commentId)))
      == Success(AsSet(SlotOf(db, ActionKey(t, feedId, commentId))).value - {userId})
  {
    var cs := RemoveEngagementBatch(userId, t, feedId, commentId);
    var ak := ActionKey(t, feedId, commentId);
    Locality(db, cs, ak);
    RemoveEngagementSlot(SlotOf(db, ak), userId, t, feedId, commentId, ak);
  }

  /** Removing an engagement the user never recorded changes nothing. */
  lemma RemoveEngagementNoOp(db: Db, userId: string, t: EngagementType, feedId: Option<string>, commentId: Option<string>)
    requires ValidDb(db) && EntityId(feedId, commentId).Some?
    requires AsSet(SlotOf(db, ActionKey(t, feedId, commentId))).Success?
    requires AsSet(SlotOf(db, RemoveIndexKey(userId, t, commentId))).Success?
    requires userId !in AsSet(SlotOf(db, ActionKey(t, feedId, commentId))).value
    requires EntityId(feedId, commentId).value !in AsSet(SlotOf(db, RemoveIndexKey(userId, t, commentId))).value
    ensures RunDb(db, RemoveEngagementBatch(userId, t, feedId, commentId)) == db
  {
    var cs := RemoveEngagementBatch(userId, t, feedId, commentId);
    var ak, ik := ActionKey(t, feedId, commentId), RemoveIndexKey(userId, t, commentId);
    forall k ensures SlotOf(RunDb(db, cs), k) == SlotOf(db, k) {
      Locality(db, cs, k);
      RemoveEngagementSlot(SlotOf(db, k), userId, t, feedId, commentId, k);
      if k == ak {
        SetSlotDetermined(SlotOf(db, k));
        SetSlotDetermined(SRemStep(SlotOf(db, k), userId).slot);
        assert AsSet(SlotOf(db, k)).value - {userId} == AsSet(SlotOf(db, k)).value;
      } else if k == ik {
        var e := EntityId(feedId, commentId).value;
        SetSlotDetermined(SlotOf(db, k));
        SetSlotDetermined(SRemStep(SlotOf(db, k), e).slot);
        assert AsSet(SlotOf(db, k)).value - {e} == AsSet(SlotOf(db, k)).value;
      }
    }
    DbExtensional(RunDb(db, cs), db);
  }

  /** For a feed, remove_feed_engagement writes `users:{uid}::{type}`, so the entry that
      set_feed_engagement put in `users:{uid}:feeds:{type}` stays: recording then removing
      an engagement on a feed leaves the feed in the user's reverse index. */
  lemma FeedIndexSurvivesRemove(db: Db, userId: string, t: EngagementType, feedId: string)
    requires ValidDb(db) && feedId != ""
    requires AsSet(SlotOf(db, SetIndexKey(userId, t, None))).Success?
    ensures
      var set1 := RunDb(db, SetEngagementBatch(userId, t, Some(feedId), None));
      var removed := RunDb(set1, RemoveEngagementBatch(userId, t, Some(feedId), None));
      && AsSet(SlotOf(removed, SetIndexKey(userId, t, None))).Success?
      && feedId in AsSet(SlotOf(removed, SetIndexKey(userId, t, None))).value
  {
    var setCs := SetEngagementBatch(userId, t, Some(feedId), None);
    var remCs := RemoveEngagementBatch(userId, t, Some(feedId), None);
    var set1 := RunDb(db, setCs);
    var idx := SetIndexKey(userId, t, None);
    ActionKeyNotUserKey(t, Some(feedId), None, userId, "feeds:" + t.Value());
    Locality(db, setCs, idx);
    Locality(set1, remCs, idx);
    SetEngagementSlot(SlotOf(db, idx), userId, t, Some(feedId), None, idx);
    RemoveEngagementSlot(SlotOf(set1, idx), userId, t, Some(feedId), None, idx);
    assert RemoveIndexKey(userId, t, None) != idx by {
      assert (":" + t.Value())[0] != ("feeds:" + t.Value())[0];
      if RemoveIndexKey(userId, t, None) == idx {
        UserKeySuffix(userId, ":" + t.Value(), "feeds:" + t.Value());
      }
    }
  }

  // ------------------------------------------------------------------ follows

  function AddFollowerBatch(userId: string, followingId: string): (cs: seq<Command>)
    ensures AllSendable(cs)
  {
    [SAdd(Followers(followingId), userId), SAdd(Followings(userId), followingId),
     HIncrBy(Profile(followingId), "followers_count", 1), HIncrBy(Profile(userId), "followings_count", 1)]
  }

  /** remove_follower's batch; the ZREM on the user's own timeline is queued only when the
      list read from `users:{following_id}:timeline` is not empty. */
  function RemoveFollowerBatch(userId: string, followingId: string, feedIds: seq<string>): (cs: seq<Command>)
    ensures AllSendable(cs)
  {
    [SRem(Followers(followingId), userId), SRem(Followings(userId), followingId),
     HIncrBy(Profile(followingId), "followers_count", -1), HIncrBy(Profile(userId), "followings_count", -1)]
    + (if feedIds != [] then [ZRem(UserTimeline(userId), feedIds)] else [])
  }

  lemma FollowKeysDistinct(a: string, b: string)
    ensures Followers(b) != Followings(a)
    ensures Followers(b) != Profile(b) && Followers(b) != Profile(a)
    ensures Followings(a) != Profile(b) && Followings(a) != Profile(a)
  {
    assert Followers(b) == ("users:" + b + ":") + "followers";
    assert Followings(a) == ("users:" + a + ":") + "followings";
    assert Profile(a) == ("users:" + a + ":") + "profile";
    assert Profile(b) == ("users:" + b + ":") + "profile";
    SuffixesDiffer("users:" + b + ":", "followers", "users:" + a + ":", "followings", 1);
    SuffixesDiffer("users:" + b + ":", "followers", "users:" + b + ":", "profile", 0);
    SuffixesDiffer("users:" + b + ":", "followers", "users:" + a + ":", "profile", 0);
    SuffixesDiffer("users:" + a + ":", "followings", "users:" + b + ":", "profile", 0);
    SuffixesDiffer("users:" + a + ":", "followings", "users:" + a + ":", "profile", 0);
  }

  /** What the four commands add_follower and remove_follower share leave in the two
      follow sets. */
  lemma FollowSetsSlot(s: Slot, userId: string, followingId: string, add: bool, k: string)
    requires ValidSlot(s) && (k == Followers(followingId) || k == Followings(userId))
    ensures
      var cs := if add then AddFollowerBatch(userId, followingId) else RemoveFollowerBatch(userId, followingId, []);
      RunSlot(s, cs, k) ==
        if k == Followers(followingId) then (if add then SAddStep(s, userId).slot else SRemStep(s, userId).slot)
        else (if add then SAddStep(s, followingId).slot else SRemStep(s, followingId).slot)
  {
    var cs := if add then AddFollowerBatch(userId, followingId) else RemoveFollowerBatch(userId, followingId, []);
    assert cs == [cs[0], cs[1], cs[2], cs[3]];
    RunSlotFour(s, cs[0], cs[1], cs[2], cs[3], k);
    FollowKeysDistinct(userId, followingId);
    FollowKeysDistinct(followingId, userId);
    var s1 := SlotEffect(cs[0], k, s);
    var s2 := SlotEffect(cs[1], k, s1);
    var s3 := SlotEffect(cs[2], k, s2);
    if add {
      SAddEffect(Followers(followingId), userId, k, s);
      SAddEffect(Followings(userId), followingId, k, s1);
    } else {
      SRemEffect(Followers(followingId), userId, k, s);
      SRemEffect(Followings(userId), followingId, k, s1);
    }
    HIncrByEffect(Profile(followingId), "followers_count", if add then 1 else -1, k, s2);
    HIncrByEffect(Profile(userId), "followings_count", if add then 1 else -1, k, s3);
  }

  /** The slot a four-command batch leaves at `k`. */
  lemma RunSlotFour(s: Slot, c1: Command, c2: Command, c3: Command, c4: Command, k: string)
    requires ValidSlot(s) && Sendable(c1) && Sendable(c2) && Sendable(c3) && Sendable(c4)
    ensures AllSendable([c1, c2, c3, c4])
    ensures RunSlot(s, [c1, c2, c3, c4], k) == SlotEffect(c4, k, SlotEffect(c3, k, SlotEffect(c2, k, SlotEffect(c1, k, s))))
  {
    var s1 := SlotEffect(c1, k, s);
    assert [c1, c2, c3, c4][1..] == [c2, c3, c4];
    assert RunSlot(s, [c1, c2, c3, c4], k) == RunSlot(s1, [c2, c3, c4], k);
    RunSlotTriple(s1, c2, c3, c4, k);
  }

  /** Following then unfollowing (with nothing to strip from the timeline) gives both
      follow sets back as they were, when the user was not following before. */
  lemma FollowThenUnfollow(db: Db, userId: string, followingId: string)
    requires ValidDb(db)
    requires AsSet(SlotOf(db, Followers(followingId))).Success? && AsSet(SlotOf(db, Followings(userId))).Success?
    requires userId !in AsSet(SlotOf(db, Followers(followingId))).value
    requires followingId !in AsSet(SlotOf(db, Followings(userId))).value
    ensures
      var followed := RunDb(db, AddFollowerBatch(userId, followingId));
      var back := RunDb(followed, RemoveFollowerBatch(userId, followingId, []));
      && AsSet(SlotOf(followed, Followers(followingId))).Success?
      && userId in AsSet(SlotOf(followed, Followers(followingId))).value
      && AsSet(SlotOf(followed, Followings(userId))).Success?
      && followingId in AsSet(SlotOf(followed, Followings(userId))).value
      && SlotOf(back, Followers(followingId)) == SlotOf(db, Followers(followingId))
      && SlotOf(back, Followings(userId)) == SlotOf(db, Followings(userId))
  {
    var add := AddFollowerBatch(userId, followingId);
    var rem := RemoveFollowerBatch(userId, followingId, []);
    var followed := RunDb(db, add);
    var fk, gk := Followers(followingId), Followings(userId);
    Locality(db, add, fk);
    Locality(db, add, gk);
    Locality(followed, rem, fk);
    Locality(followed, rem, gk);
    FollowSetsSlot(SlotOf(db, fk), userId, followingId, true, fk);
    FollowSetsSlot(SlotOf(db, gk), userId, followingId, true, gk);
    FollowSetsSlot(SlotOf(followed, fk), userId, followingId, false, fk);
    FollowSetsSlot(SlotOf(followed, gk), userId, followingId, false, gk);
    FollowKeysDistinct(userId, followingId);
    SetSlotDetermined(SlotOf(db, fk));
    SetSlotDetermined(SlotOf(db, gk));
    SetSlotDetermined(SlotOf(RunDb(followed, rem), fk));
    SetSlotDetermined(SlotOf(RunDb(followed, rem), gk));
    assert AsSet(SlotOf(db, fk)).value + {userId} - {userId} == AsSet(SlotOf(db, fk)).value;
    assert AsSet(SlotOf(db, gk)).value + {followingId} - {followingId} == AsSet(SlotOf(db, gk)).value;
  }

  // ------------------------------------------------------------------ single-field updates

  /** How update_profile prepares a value: a datetime becomes its timestamp, a bool its
      integer, a string is stripped; None means the field is deleted. */
  function ProfileValue(v: PyValue): (r: PyValue)
    ensures v.PyDateTime? ==> r == PyFloat(v.timestamp)
    ensures v.PyBool? ==> r == PyInt(if v.b then 1 else 0)
    ensures v.PyStr? ==> r == PyStr(Strip(v.s))
    ensures !(v.PyDateTime? || v.PyBool? || v.PyStr?) ==> r == v
  {
    match v
    case PyDateTime(t) => PyFloat(t)
    case PyBool(b) => PyInt(if b then 1 else 0)
    case PyStr(s) => PyStr(Strip(s))
    case _ => v
  }

  /** The one command update_profile sends, or the error redis-py raises before sending:
      HDEL for None, otherwise HSET of the encoded value. */
  function UpdateProfileCommand(userId: string, key: string, value: PyValue): (r: Result<Command, CacheError>)
    ensures r.Success? ==> Sendable(r.value)
    ensures value.PyNone? ==> r == Success(HDel(Profile(userId), key))
    ensures value.PyStr? ==> r == Success(HSet(Profile(userId), map[key := Strip(value.s)]))
    ensures value.PyBool? ==> r == Success(HSet(Profile(userId), map[key := if value.b then "1" else "0"]))
    ensures (value.PyList? || value.PyDict? || value.PyTuple? || value.PyUuid?) ==> r == Failure(Redis(DataError))
  {
    var v := ProfileValue(value);
    if v.PyNone? then Success(HDel(Profile(userId), key))
    else match RedisEncode(v)
      case None => Failure(Redis(DataError))
      case Some(text) =>
        var fields := map[key := text];
        assert key in fields;
        Success(HSet(Profile(userId), fields))
  }

  /** The one command update_feed sends, or the error raised before sending: HDEL for None;
      a list is stored as its JSON text. */
  function UpdateFeedCommand(feedId: string, key: string, value: PyValue): (r: Result<Command, CacheError>)
    ensures r.Success? ==> Sendable(r.value)
    ensures value.PyNone? ==> r == Success(HDel(FeedKey(feedId, "meta"), key))
    ensures value.PyStr? ==> r == Success(HSet(FeedKey(feedId, "meta"), map[key := value.s]))
    ensures value.PyList? ==> (r.Success? <==> Dumps(value).Some?)
    ensures value.PyList? && Dumps(value).Some? ==> r == Success(HSet(FeedKey(feedId, "meta"), map[key := Dumps(value).value]))
  {
    if value.PyNone? then Success(HDel(FeedKey(feedId, "meta"), key))
    else if value.PyList? then
      match Dumps(value)
      case None => Failure(NotSerializable)
      case Some(text) =>
        var fields := map[key := text];
        assert key in fields;
        Success(HSet(FeedKey(feedId, "meta"), fields))
    else match RedisEncode(value)
      case None => Failure(Redis(DataError))
      case Some(text) =>
        var fields := map[key := text];
        assert key in fields;
        Success(HSet(FeedKey(feedId, "meta"), fields))
  }

  /** A list written by update_feed reads back as the same list. */
  lemma UpdateFeedListRoundTrip(db: Db, feedId: string, key: string, urls: seq<string>)
    requires ValidDb(db) && AsHash(SlotOf(db, FeedKey(feedId, "meta"))).Success?
    ensures
      var c := UpdateFeedCommand(feedId, key, PyList(StrValues(urls)));
      && c.Success?
      && var h := AsHash(SlotOf(Exec(db, c.value).0, FeedKey(feedId, "meta")));
         h.Success? && key in h.value && LoadsStrings(h.value[key]) == Some(urls)
  {
    LoadsDumpsStrings(urls);
    var c := UpdateFeedCommand(feedId, key, PyList(StrValues(urls)));
    var k := FeedKey(feedId, "meta");
    ExecSlot(db, c.value, k);
    HSetEffect(k, map[key := Dumps(PyList(StrValues(urls))).value], k, SlotOf(db, k));
  }

  // ------------------------------------------------------------------ credentials

  /** The hash a credential token names: `tokens:registration:{t}` or `tokens:forgot_password:{t}`. */
  function CredentialKey(registration: bool, token: string): string
  {
    TokenKey(if registration then "registration" else "forgot_password", token)
  }

  /** Reading credentials back: the stored hash, or None when there is none. */
  function CredentialsOf(db: Db, registration: bool, token: string): (r: Result<Option<map<string, string>>, StoreError>)
    ensures r.Success? && r.value.Some? ==> r.value.value != map[]
    ensures SlotOf(db, CredentialKey(registration, token)).None? ==> r == Success(None)
  {
    match AsHash(SlotOf(db, CredentialKey(registration, token)))
    case Failure(e) => Failure(e)
    case Success(h) => Success(if h == map[] then None else Some(h))
  }

  /** Credentials stored under a fresh token read back exactly, and are gone once removed. */
  lemma CredentialsRoundTrip(db: Db, registration: bool, token: string, fields: map<string, string>)
    requires ValidDb(db) && fields != map[]
    requires SlotOf(db, CredentialKey(registration, token)).None?
    ensures
      var stored := Exec(db, HSet(CredentialKey(registration, token), fields)).0;
      && CredentialsOf(stored, registration, token) == Success(Some(fields))
      && CredentialsOf(Exec(stored, Del([CredentialKey(registration, token)])).0, registration, token) == Success(None)
  {
    var k := CredentialKey(registration, token);
    var stored := Exec(db, HSet(k, fields)).0;
    ExecSlot(db, HSet(k, fields), k);
    HSetEffect(k, fields, k, SlotOf(db, k));
    assert AsHash(SlotOf(db, k)) == Success(map[]);
    assert map[] + fields == fields;
    assert AsHash(SlotOf(stored, k)) == Success(fields);
    var cleared := Exec(stored, Del([k])).0;
    ExecSlot(stored, Del([k]), k);
    DelEffect([k], k, SlotOf(stored, k));
    assert SlotOf(cleared, k) == None;
  }
}
