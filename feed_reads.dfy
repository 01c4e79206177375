/** What the cache's read path answers, stated on the keyspace itself: the engagement
    snapshot of one entity (`get_engagement`), the feed records `_get_feeds` assembles from
    the meta hashes, the engagement sets and the author profiles, and the pipelines that
    fetch them. The methods of CacheManagers send these pipelines; the lemmas here say
    what their replies mean. */
module FeedReads {

  import opened Wrappers
  import opened PyData
  import opened Json
  import opened RedisSemantics
  import opened RedisStore
  import opened CacheKeys
  import opened FeedCache

  /** The six engagement sets of an entity, in the order the pipelines query them. */
  const EngagementKeys: seq<string> := ["comments", "reposts", "quotes", "likes", "views", "bookmarks"]

  /** The flag names of the last five sets: reposts -> reposted ... bookmarks -> bookmarked. */
  const InteractionKeys: seq<string> := ["reposted", "quoted", "liked", "viewed", "bookmarked"]

  /** The profile fields `_get_feeds` reads for an author. */
  const ProfileKeys: seq<string> := ["id", "name", "username", "avatar_url"]

  lemma KeyListsDistinct()
    ensures Distinct(EngagementKeys) && Distinct(InteractionKeys)
  {
  }

  /** An engagement dict: the counts kept and the interactions reported as True. The two
      key families do not overlap, so one dict in the source is two parts here. */
  datatype Engagement = Engagement(counts: map<string, int>, flags: set<string>)

  // ------------------------------------------------------------------ building the dict

  /** A SCARD or SISMEMBER reply as Python compares it: an int, a bool as 0 or 1. */
  function Number(r: Reply): int
  {
    match r
    case IntReply(n) => n
    case BoolReply(b) => if b then 1 else 0
    case _ => 0
  }

  function Numbers(rs: seq<Reply>): (ns: seq<int>)
    ensures |ns| == |rs|
    ensures forall i :: 0 <= i < |rs| ==> ns[i] == Number(rs[i])
  {
    seq(|rs|, i requires 0 <= i < |rs| => Number(rs[i]))
  }

  /** Python's `xs[a:b]` for non-negative bounds: clamped to the sequence, empty when the
      bounds cross. */
  function Slice<T>(xs: seq<T>, a: nat, b: nat): (r: seq<T>)
    ensures |r| == if a < b && a < |xs| then (if b < |xs| then b else |xs|) - a else 0
    ensures forall i :: 0 <= i < |r| ==> r[i] == xs[a + i]
  {
    if a < b && a < |xs| then xs[a..if b < |xs| then b else |xs|] else []
  }

  /** `{key: value for key, value in zip(keys, values) if value > 0}`. */
  function KeptCounts(keys: seq<string>, values: seq<int>): (m: map<string, int>)
    requires Distinct(keys)
    ensures forall i :: 0 <= i < |keys| ==> (keys[i] in m <==> i < |values| && values[i] > 0)
    ensures forall i :: 0 <= i < |keys| && i < |values| && keys[i] in m ==> m[keys[i]] == values[i]
    ensures m.Keys <= Elems(keys)
  {
    if keys == [] || values == [] then map[]
    else
      assert Distinct(keys[1..]);
      var rest := KeptCounts(keys[1..], values[1..]);
      forall i | 1 <= i < |keys| ensures keys[i] == keys[1..][i - 1] && keys[i] != keys[0] {
      }
      if values[0] > 0 then rest[keys[0] := values[0]] else rest
  }

  /** `{key: True for key, value in zip(keys, values) if value}`, as the set of keys. */
  function TrueFlags(keys: seq<string>, values: seq<int>): (s: set<string>)
    requires Distinct(keys)
    ensures forall i :: 0 <= i < |keys| ==> (keys[i] in s <==> i < |values| && values[i] != 0)
    ensures s <= Elems(keys)
  {
    if keys == [] || values == [] then {}
    else
      assert Distinct(keys[1..]);
      var rest := TrueFlags(keys[1..], values[1..]);
      forall i | 1 <= i < |keys| ensures keys[i] == keys[1..][i - 1] && keys[i] != keys[0] {
      }
      if values[0] != 0 then {keys[0]} + rest else rest
  }

  /** The dict built from the six counts and, when interactions are read, the five flags. */
  function EngagementOf(metrics: seq<int>, interactions: seq<int>, hasInteractions: bool): Engagement
  {
    KeyListsDistinct();
    Engagement(KeptCounts(EngagementKeys, metrics),
               if hasInteractions then TrueFlags(InteractionKeys, interactions) else {})
  }

  /** The engagement `_get_feeds` gives the feed at `index`: its results are sliced in
      chunks of 6, or of 11 as soon as a user id is given, even an empty one. */
  function ChunkEngagement(numbers: seq<int>, index: nat, hasInteractions: bool): Engagement
  {
    var size := |EngagementKeys| + if hasInteractions then |InteractionKeys| else 0;
    var start := index * size;
    EngagementOf(Slice(numbers, start, start + |EngagementKeys|), Slice(numbers, start + |EngagementKeys|, start + size), hasInteractions)
  }

  // ------------------------------------------------------------------ engagement in the keyspace

  function EntitySet(db: Db, entityType: string, entityId: string, key: string): Result<set<string>, StoreError>
  {
    AsSet(SlotOf(db, EntityKey(entityType, entityId, key)))
  }

  /** All six engagement keys of the entity hold sets (or nothing). */
  predicate EngagementReadable(db: Db, entityType: string, entityId: string)
  {
    forall k :: k in EngagementKeys ==> EntitySet(db, entityType, entityId, k).Success?
  }

  /** The engagement an entity has: for each non-empty set its size, and, when a member
      is asked about, the interactions whose set holds that member. */
  function StoredEngagement(db: Db, entityType: string, entityId: string, member: Option<string>): Engagement
    requires EngagementReadable(db, entityType, entityId)
  {
    Engagement(
      map k | k in EngagementKeys && EntitySet(db, entityType, entityId, k).value != {} :: |EntitySet(db, entityType, entityId, k).value|,
      if member.None? then {}
      else set i | 0 <= i < |InteractionKeys| && member.value in EntitySet(db, entityType, entityId, EngagementKeys[i + 1]).value
                 :: InteractionKeys[i])
  }

  /** The replies of the engagement queries, as numbers: six set sizes, then (when a
      member is asked about) five memberships as 0 or 1. */
  function StoredNumbers(db: Db, entityType: string, entityId: string, member: Option<string>): (ns: seq<int>)
    requires EngagementReadable(db, entityType, entityId)
    ensures |ns| == if member.Some? then 11 else 6
  {
    seq(6, i requires 0 <= i < 6 => |EntitySet(db, entityType, entityId, EngagementKeys[i]).value|)
    + if member.None? then []
      else seq(5, i requires 0 <= i < 5 => if member.value in EntitySet(db, entityType, entityId, EngagementKeys[i + 1]).value then 1 else 0)
  }

  /** Parsing the stored numbers gives the stored engagement: a count is kept exactly when
      its set is not empty, a flag is set exactly when the member is in the set. */
  lemma ParseStored(db: Db, entityType: string, entityId: string, member: Option<string>)
    requires EngagementReadable(db, entityType, entityId)
    ensures
      var ns := StoredNumbers(db, entityType, entityId, member);
      EngagementOf(ns[..6], ns[6..], member.Some?) == StoredEngagement(db, entityType, entityId, member)
  {
    var ns := StoredNumbers(db, entityType, entityId, member);
    KeyListsDistinct();
    StoredCounts(db, entityType, entityId, ns[..6]);
    if member.Some? {
      StoredFlags(db, entityType, entityId, member.value, ns[6..]);
    }
  }

  lemma StoredCounts(db: Db, entityType: string, entityId: string, ns: seq<int>)
    requires EngagementReadable(db, entityType, entityId)
    requires |ns| == 6 && forall i :: 0 <= i < 6 ==> ns[i] == |EntitySet(db, entityType, entityId, EngagementKeys[i]).value|
    ensures Distinct(EngagementKeys)
    ensures KeptCounts(EngagementKeys, ns) == StoredEngagement(db, entityType, entityId, None).counts
  {
    KeyListsDistinct();
    var s := StoredEngagement(db, entityType, entityId, None).counts;
    forall i | 0 <= i < 6 ensures EngagementKeys[i] in s <==> ns[i] > 0 {
      assert EngagementKeys[i] in EngagementKeys;
    }
    KeptCountsMatch(EngagementKeys, ns, s);
  }

  /** KeptCounts is the one map over the keys that holds exactly the positive values. */
  lemma KeptCountsMatch(keys: seq<string>, ns: seq<int>, m: map<string, int>)
    requires Distinct(keys) && |ns| == |keys| && m.Keys <= Elems(keys)
    requires forall i :: 0 <= i < |keys| ==> (keys[i] in m <==> ns[i] > 0)
    requires forall i :: 0 <= i < |keys| && keys[i] in m ==> m[keys[i]] == ns[i]
    ensures KeptCounts(keys, ns) == m
  {
    var c := KeptCounts(keys, ns);
    forall k ensures k in c <==> k in m {
      if k in c || k in m {
        var i :| 0 <= i < |keys| && keys[i] == k;
      }
    }
    forall k | k in c ensures c[k] == m[k] {
      var i :| 0 <= i < |keys| && keys[i] == k;
    }
  }

  lemma StoredFlags(db: Db, entityType: string, entityId: string, member: string, ns: seq<int>)
    requires EngagementReadable(db, entityType, entityId)
    requires |ns| == 5 && forall i :: 0 <= i < 5 ==>
               ns[i] == if member in EntitySet(db, entityType, entityId, EngagementKeys[i + 1]).value then 1 else 0
    ensures Distinct(InteractionKeys)
    ensures TrueFlags(InteractionKeys, ns) == StoredEngagement(db, entityType, entityId, Some(member)).flags
  {
    KeyListsDistinct();
    var s := StoredEngagement(db, entityType, entityId, Some(member)).flags;
    forall i | 0 <= i < 5 ensures InteractionKeys[i] in s <==> ns[i] != 0 {
      if InteractionKeys[i] in s {
        var j :| 0 <= j < 5 && member in EntitySet(db, entityType, entityId, EngagementKeys[j + 1]).value
                 && InteractionKeys[j] == InteractionKeys[i];
        assert i == j;
      }
    }
    TrueFlagsMatch(InteractionKeys, ns, s);
  }

  /** TrueFlags is the one set of keys whose values are non-zero. */
  lemma TrueFlagsMatch(keys: seq<string>, ns: seq<int>, t: set<string>)
    requires Distinct(keys) && |ns| == |keys| && t <= Elems(keys)
    requires forall i :: 0 <= i < |keys| ==> (keys[i] in t <==> ns[i] != 0)
    ensures TrueFlags(keys, ns) == t
  {
    var f := TrueFlags(keys, ns);
    forall k ensures k in f <==> k in t {
      if k in f || k in t {
        var i :| 0 <= i < |keys| && keys[i] == k;
      }
    }
  }

  // ------------------------------------------------------------------ engagement pipelines

  /** SCARD of the six sets, then, when a member is asked about, SISMEMBER of it in the
      last five. get_engagement always asks; `_get_feeds` asks only for a truthy user id. */
  function EngagementQuery(entityType: string, entityId: string, member: Option<string>): (cs: seq<Command>)
    ensures |cs| == if member.Some? then 11 else 6
    ensures AllSendable(cs) && AllReads(cs)
  {
    seq(6, i requires 0 <= i < 6 => SCard(EntityKey(entityType, entityId, EngagementKeys[i])))
    + if member.None? then []
      else seq(5, i requires 0 <= i < 5 => SIsMember(EntityKey(entityType, entityId, EngagementKeys[i + 1]), member.value))
  }

  /** The reply SCARD or SISMEMBER gives on one engagement set. */
  function SetReply(db: Db, entityType: string, entityId: string, key: string, member: Option<string>): Reply
  {
    match EntitySet(db, entityType, entityId, key)
    case Failure(e) => ErrorReply(e)
    case Success(m) => if member.None? then IntReply(|m|) else BoolReply(member.value in m)
  }

  lemma QueryReplyAt(db: Db, entityType: string, entityId: string, member: Option<string>, i: nat)
    requires ValidDb(db) && i < |EngagementQuery(entityType, entityId, member)|
    ensures i < 6 ==> Exec(db, EngagementQuery(entityType, entityId, member)[i]).1
                      == SetReply(db, entityType, entityId, EngagementKeys[i], None)
    ensures 6 <= i ==> Exec(db, EngagementQuery(entityType, entityId, member)[i]).1
                       == SetReply(db, entityType, entityId, EngagementKeys[i - 5], member)
  {
    var cs := EngagementQuery(entityType, entityId, member);
    ReadReply(db, cs[i]);
    if i < 6 {
      assert cs[i] == SCard(EntityKey(entityType, entityId, EngagementKeys[i]));
    } else {
      assert cs[i] == SIsMember(EntityKey(entityType, entityId, EngagementKeys[i - 5]), member.value);
    }
  }

  /** The replies of the engagement queries, one per set. */
  function SetReplies(db: Db, entityType: string, entityId: string, member: Option<string>): (rs: seq<Reply>)
    ensures |rs| == if member.Some? then 11 else 6
  {
    seq(6, i requires 0 <= i < 6 => SetReply(db, entityType, entityId, EngagementKeys[i], None))
    + if member.None? then []
      else seq(5, i requires 0 <= i < 5 => SetReply(db, entityType, entityId, EngagementKeys[i + 1], member))
  }

  lemma QueryRepliesAll(db: Db, entityType: string, entityId: string, member: Option<string>)
    requires ValidDb(db)
    ensures RunReplies(db, EngagementQuery(entityType, entityId, member)) == SetReplies(db, entityType, entityId, member)
  {
    var cs := EngagementQuery(entityType, entityId, member);
    var rs := RunReplies(db, cs);
    var ss := SetReplies(db, entityType, entityId, member);
    ReadReplies(db, cs);
    forall i | 0 <= i < |cs| ensures rs[i] == ss[i] {
      QueryReplyAt(db, entityType, entityId, member, i);
    }
  }

  /** A read on a set answers WRONGTYPE exactly when the key holds another type; when all
      six keys hold sets, the replies are the stored numbers. */
  lemma EngagementQueryReplies(db: Db, entityType: string, entityId: string, member: Option<string>)
    requires ValidDb(db)
    ensures
      var rs := RunReplies(db, EngagementQuery(entityType, entityId, member));
      && OnlyWrongType(rs)
      && (HasError(rs) <==> !EngagementReadable(db, entityType, entityId))
      && (EngagementReadable(db, entityType, entityId) ==> Numbers(rs) == StoredNumbers(db, entityType, entityId, member))
  {
    QueryRepliesAll(db, entityType, entityId, member);
    SetRepliesErrors(db, entityType, entityId, member);
    if EngagementReadable(db, entityType, entityId) {
      SetRepliesNumbers(db, entityType, entityId, member);
    }
  }

  lemma SetRepliesErrors(db: Db, entityType: string, entityId: string, member: Option<string>)
    ensures
      var rs := SetReplies(db, entityType, entityId, member);
      && OnlyWrongType(rs)
      && (HasError(rs) <==> !EngagementReadable(db, entityType, entityId))
  {
    var rs := SetReplies(db, entityType, entityId, member);
    if !EngagementReadable(db, entityType, entityId) {
      var k :| k in EngagementKeys && EntitySet(db, entityType, entityId, k).Failure?;
      var i :| 0 <= i < 6 && EngagementKeys[i] == k;
      assert rs[i].ErrorReply?;
    } else {
      forall i | 0 <= i < |rs| ensures !rs[i].ErrorReply? {
        if i < 6 {
          assert EngagementKeys[i] in EngagementKeys;
        } else {
          assert EngagementKeys[i - 5] in EngagementKeys;
        }
      }
    }
    forall i | 0 <= i < |rs| && rs[i].ErrorReply? ensures rs[i].error == WrongType {
      if i < 6 {
        assert EngagementKeys[i] in EngagementKeys;
      } else {
        assert EngagementKeys[i - 5] in EngagementKeys;
      }
    }
  }

  lemma SetRepliesNumbers(db: Db, entityType: string, entityId: string, member: Option<string>)
    requires EngagementReadable(db, entityType, entityId)
    ensures Numbers(SetReplies(db, entityType, entityId, member)) == StoredNumbers(db, entityType, entityId, member)
  {
    var rs := SetReplies(db, entityType, entityId, member);
    var ns := StoredNumbers(db, entityType, entityId, member);
    forall i | 0 <= i < |rs| ensures Numbers(rs)[i] == ns[i] {
      if i < 6 {
        assert EngagementKeys[i] in EngagementKeys;
      } else {
        assert EngagementKeys[i - 5] in EngagementKeys;
      }
    }
  }

  /** What get_engagement's pipeline hands back: WRONGTYPE when a set key holds another
      type, otherwise the entity's stored engagement for the user. */
  lemma GetEngagementMeaning(db: Db, entityType: string, entityId: string, userId: string)
    requires ValidDb(db)
    ensures
      var rs := RunReplies(db, EngagementQuery(entityType, entityId, Some(userId)));
      && (BatchOutcome(rs).Success? <==> EngagementReadable(db, entityType, entityId))
      && (BatchOutcome(rs).Failure? ==> BatchOutcome(rs).error == WrongType)
      && (EngagementReadable(db, entityType, entityId) ==>
            EngagementOf(Numbers(rs)[..6], Numbers(rs)[6..], true) == StoredEngagement(db, entityType, entityId, Some(userId)))
  {
    EngagementQueryReplies(db, entityType, entityId, Some(userId));
    if EngagementReadable(db, entityType, entityId) {
      ParseStored(db, entityType, entityId, Some(userId));
    }
  }

  // ------------------------------------------------------------------ the feeds pipeline

  /** Whom `_get_feeds` asks SISMEMBER about: the user, only when the user id is truthy. */
  function FeedMember(userId: Option<string>): Option<string>
  {
    if Truthy(userId) then userId else None
  }

  /** The engagement commands `_get_feeds` queues, feed after feed. */
  function FeedsQuery(feedIds: seq<string>, userId: Option<string>): (cs: seq<Command>)
    ensures AllSendable(cs) && AllReads(cs)
    decreases |feedIds|
  {
    if feedIds == [] then []
    else FeedsQuery(feedIds[..|feedIds| - 1], userId) + EngagementQuery("feeds", feedIds[|feedIds| - 1], FeedMember(userId))
  }

  predicate AllReadable(db: Db, feedIds: seq<string>)
  {
    forall i :: 0 <= i < |feedIds| ==> EngagementReadable(db, "feeds", feedIds[i])
  }

  /** The numbers the engagement pipeline answers for the feeds, feed after feed. */
  function AllNumbers(db: Db, feedIds: seq<string>, userId: Option<string>): (ns: seq<int>)
    requires AllReadable(db, feedIds)
    decreases |feedIds|
  {
    if feedIds == [] then []
    else AllNumbers(db, feedIds[..|feedIds| - 1], userId) + StoredNumbers(db, "feeds", feedIds[|feedIds| - 1], FeedMember(userId))
  }

  /** A batch of reads run as one batch answers what its two halves answer. */
  lemma ReadRepliesAppend(db: Db, a: seq<Command>, b: seq<Command>)
    requires ValidDb(db) && AllSendable(a) && AllSendable(b) && AllReads(a) && AllReads(b)
    ensures AllSendable(a + b) && AllReads(a + b)
    ensures RunReplies(db, a + b) == RunReplies(db, a) + RunReplies(db, b)
  {
    assert forall i :: 0 <= i < |a + b| ==> (a + b)[i] == if i < |a| then a[i] else b[i - |a|];
    ReadsKeepDb(db, a);
    RunAppend(db, a, b);
  }

  predicate HasError(rs: seq<Reply>)
  {
    exists i :: 0 <= i < |rs| && rs[i].ErrorReply?
  }

  predicate OnlyWrongType(rs: seq<Reply>)
  {
    forall i :: 0 <= i < |rs| && rs[i].ErrorReply? ==> rs[i].error == WrongType
  }

  lemma RepliesAppend(ra: seq<Reply>, rb: seq<Reply>)
    ensures HasError(ra + rb) <==> HasError(ra) || HasError(rb)
    ensures OnlyWrongType(ra) && OnlyWrongType(rb) ==> OnlyWrongType(ra + rb)
    ensures Numbers(ra + rb) == Numbers(ra) + Numbers(rb)
  {
    var rs := ra + rb;
    assert forall i :: 0 <= i < |rs| ==> rs[i] == if i < |ra| then ra[i] else rb[i - |ra|];
    if HasError(ra) {
      var i :| 0 <= i < |ra| && ra[i].ErrorReply?;
      assert rs[i].ErrorReply?;
    }
    if HasError(rb) {
      var i :| 0 <= i < |rb| && rb[i].ErrorReply?;
      assert rs[|ra| + i].ErrorReply?;
    }
  }

  /** The replies of the feeds pipeline, feed after feed. */
  function FeedsReplies(db: Db, feedIds: seq<string>, userId: Option<string>): seq<Reply>
    decreases |feedIds|
  {
    if feedIds == [] then []
    else FeedsReplies(db, feedIds[..|feedIds| - 1], userId) + SetReplies(db, "feeds", feedIds[|feedIds| - 1], FeedMember(userId))
  }

  lemma {:induction false} FeedsQueryRun(db: Db, feedIds: seq<string>, userId: Option<string>)
    requires ValidDb(db)
    ensures RunReplies(db, FeedsQuery(feedIds, userId)) == FeedsReplies(db, feedIds, userId)
    decreases |feedIds|
  {
    if feedIds != [] {
      var init := feedIds[..|feedIds| - 1];
      var last := feedIds[|feedIds| - 1];
      FeedsQueryRun(db, init, userId);
      QueryRepliesAll(db, "feeds", last, FeedMember(userId));
      ReadRepliesAppend(db, FeedsQuery(init, userId), EngagementQuery("feeds", last, FeedMember(userId)));
    }
  }

  lemma {:induction false} FeedsRepliesMeaning(db: Db, feedIds: seq<string>, userId: Option<string>)
    ensures
      var rs := FeedsReplies(db, feedIds, userId);
      && OnlyWrongType(rs)
      && (HasError(rs) <==> !AllReadable(db, feedIds))
      && (AllReadable(db, feedIds) ==> Numbers(rs) == AllNumbers(db, feedIds, userId))
    decreases |feedIds|
  {
    if feedIds != [] {
      var init := feedIds[..|feedIds| - 1];
      var last := feedIds[|feedIds| - 1];
      FeedsRepliesMeaning(db, init, userId);
      SetRepliesErrors(db, "feeds", last, FeedMember(userId));
      if EngagementReadable(db, "feeds", last) {
        SetRepliesNumbers(db, "feeds", last, FeedMember(userId));
      }
      RepliesAppend(FeedsReplies(db, init, userId), SetReplies(db, "feeds", last, FeedMember(userId)));
      assert AllReadable(db, feedIds) <==> AllReadable(db, init) && EngagementReadable(db, "feeds", last) by {
        assert forall i :: 0 <= i < |init| ==> init[i] == feedIds[i];
      }
    }
  }

  /** The engagement pipeline of `_get_feeds` fails with WRONGTYPE exactly when a feed's
      engagement key holds another type, and otherwise answers the stored numbers. */
  lemma FeedsQueryReplies(db: Db, feedIds: seq<string>, userId: Option<string>)
    requires ValidDb(db)
    ensures
      var rs := RunReplies(db, FeedsQuery(feedIds, userId));
      && OnlyWrongType(rs)
      && (HasError(rs) <==> !AllReadable(db, feedIds))
      && (AllReadable(db, feedIds) ==> Numbers(rs) == AllNumbers(db, feedIds, userId))
  {
    FeedsQueryRun(db, feedIds, userId);
    FeedsRepliesMeaning(db, feedIds, userId);
  }

  /** The answers per feed: 11 numbers when SISMEMBERs are queued, 6 otherwise. */
  function QuerySize(userId: Option<string>): nat
  {
    if Truthy(userId) then 11 else 6
  }

  lemma ReadableInit(db: Db, feedIds: seq<string>)
    requires AllReadable(db, feedIds) && feedIds != []
    ensures AllReadable(db, feedIds[..|feedIds| - 1])
  {
    assert forall i :: 0 <= i < |feedIds| - 1 ==> feedIds[..|feedIds| - 1][i] == feedIds[i];
  }

  /** Each feed answers one block of numbers. */
  lemma {:induction false} AllNumbersLength(db: Db, feedIds: seq<string>, userId: Option<string>)
    requires AllReadable(db, feedIds)
    ensures |AllNumbers(db, feedIds, userId)| == |feedIds| * QuerySize(userId)
    decreases |feedIds|
  {
    if feedIds != [] {
      var init := feedIds[..|feedIds| - 1];
      ReadableInit(db, feedIds);
      AllNumbersLength(db, init, userId);
      assert |feedIds| * QuerySize(userId) == |init| * QuerySize(userId) + QuerySize(userId);
    }
  }

  lemma SliceOfHead<T>(head: seq<T>, tail: seq<T>, a: nat, b: nat)
    requires a <= b <= |head|
    ensures (head + tail)[a..b] == head[a..b]
  {
  }

  lemma SliceOfTail<T>(head: seq<T>, tail: seq<T>)
    ensures (head + tail)[|head|..|head| + |tail|] == tail
  {
  }

  /** The numbers of feed `j` are the `j`-th block of the pipeline's answers. */
  lemma {:induction false} AllNumbersBlock(db: Db, feedIds: seq<string>, userId: Option<string>, j: nat)
    requires AllReadable(db, feedIds) && j < |feedIds|
    ensures
      var q := QuerySize(userId);
      var ns := AllNumbers(db, feedIds, userId);
      && |ns| == |feedIds| * q
      && j * q + q <= |ns|
      && ns[j * q..j * q + q] == StoredNumbers(db, "feeds", feedIds[j], FeedMember(userId))
    decreases |feedIds|
  {
    var q := QuerySize(userId);
    var init := feedIds[..|feedIds| - 1];
    ReadableInit(db, feedIds);
    var head := AllNumbers(db, init, userId);
    var tail := StoredNumbers(db, "feeds", feedIds[|feedIds| - 1], FeedMember(userId));
    assert AllNumbers(db, feedIds, userId) == head + tail;
    AllNumbersLength(db, feedIds, userId);
    AllNumbersLength(db, init, userId);
    if j < |init| {
      AllNumbersBlock(db, init, userId, j);
      assert feedIds[j] == init[j];
      SliceOfHead(head, tail, j * q, j * q + q);
    } else {
      assert j * q == |head|;
      SliceOfTail(head, tail);
    }
  }

  /** A chunk that lies inside the numbers is read from its block. */
  lemma ChunkOfBlock(ns: seq<int>, j: nat, hasInteractions: bool)
    requires var q := if hasInteractions then 11 else 6; j * q + q <= |ns|
    ensures
      var q := if hasInteractions then 11 else 6;
      var block := ns[j * q..j * q + q];
      ChunkEngagement(ns, j, hasInteractions) == EngagementOf(block[..6], block[6..], hasInteractions)
  {
    var q := if hasInteractions then 11 else 6;
    var start := j * q;
    var block := ns[start..start + q];
    assert Slice(ns, start, start + 6) == block[..6];
    assert Slice(ns, start + 6, start + q) == block[6..];
  }

  /** When the user id is None or truthy, the chunk `_get_feeds` reads for feed `j` is
      exactly that feed's stored engagement. */
  lemma ChunkAligned(db: Db, feedIds: seq<string>, userId: Option<string>, j: nat)
    requires AllReadable(db, feedIds) && j < |feedIds|
    requires userId.None? || Truthy(userId)
    ensures ChunkEngagement(AllNumbers(db, feedIds, userId), j, userId.Some?)
         == StoredEngagement(db, "feeds", feedIds[j], FeedMember(userId))
  {
    var ns := AllNumbers(db, feedIds, userId);
    AllNumbersBlock(db, feedIds, userId, j);
    assert QuerySize(userId) == if userId.Some? then 11 else 6;
    ChunkOfBlock(ns, j, userId.Some?);
    ParseStored(db, "feeds", feedIds[j], FeedMember(userId));
  }

  /** With an empty user id no SISMEMBER is queued: two feeds answer six numbers each. */
  lemma EmptyUserIdNumbers(db: Db, a: string, b: string)
    requires EngagementReadable(db, "feeds", a) && EngagementReadable(db, "feeds", b)
    ensures AllReadable(db, [a, b])
    ensures AllNumbers(db, [a, b], Some("")) == StoredNumbers(db, "feeds", a, None) + StoredNumbers(db, "feeds", b, None)
  {
    var ids := [a, b];
    assert AllReadable(db, ids);
    assert ids[..1] == [a] && [a][..0] == [];
    assert FeedMember(Some("")) == None;
    assert AllNumbers(db, [a], Some("")) == StoredNumbers(db, "feeds", a, None);
  }

  /** With an empty user id no SISMEMBER is queued, but the replies are still cut in
      chunks of 11. With two feeds: the first feed's counts are right, its interaction
      flags come from the second feed's first five set sizes, and the second feed
      reports its bookmark count as its comment count and nothing else. */
  lemma EmptyUserIdMisaligns(db: Db, a: string, b: string)
    requires EngagementReadable(db, "feeds", a) && EngagementReadable(db, "feeds", b)
    ensures AllReadable(db, [a, b])
    ensures
      var ns := AllNumbers(db, [a, b], Some(""));
      var first := ChunkEngagement(ns, 0, true);
      var second := ChunkEngagement(ns, 1, true);
      && first.counts == StoredEngagement(db, "feeds", a, None).counts
      && (forall i :: 0 <= i < 5 ==>
            (InteractionKeys[i] in first.flags <==> EntitySet(db, "feeds", b, EngagementKeys[i]).value != {}))
      && second.counts == (if EntitySet(db, "feeds", b, "bookmarks").value == {} then map[]
                           else map["comments" := |EntitySet(db, "feeds", b, "bookmarks").value|])
      && second.flags == {}
  {
    EmptyUserIdNumbers(db, a, b);
    var ns := AllNumbers(db, [a, b], Some(""));
    var na := StoredNumbers(db, "feeds", a, None);
    var nb := StoredNumbers(db, "feeds", b, None);
    MisalignedFirst(db, a, b, ns);
    MisalignedSecond(db, b, ns, na);
  }

  lemma MisalignedFirst(db: Db, a: string, b: string, ns: seq<int>)
    requires EngagementReadable(db, "feeds", a) && EngagementReadable(db, "feeds", b)
    requires ns == StoredNumbers(db, "feeds", a, None) + StoredNumbers(db, "feeds", b, None)
    ensures
      var first := ChunkEngagement(ns, 0, true);
      && first.counts == StoredEngagement(db, "feeds", a, None).counts
      && (forall i :: 0 <= i < 5 ==>
            (InteractionKeys[i] in first.flags <==> EntitySet(db, "feeds", b, EngagementKeys[i]).value != {}))
  {
    var na := StoredNumbers(db, "feeds", a, None);
    var nb := StoredNumbers(db, "feeds", b, None);
    KeyListsDistinct();
    ParseStored(db, "feeds", a, None);
    assert Slice(ns, 0, 6) == na[..6];
    assert Slice(ns, 6, 11) == nb[..5];
    forall i | 0 <= i < 5 ensures nb[i] == |EntitySet(db, "feeds", b, EngagementKeys[i]).value| {
    }
  }

  lemma MisalignedSecond(db: Db, b: string, ns: seq<int>, na: seq<int>)
    requires EngagementReadable(db, "feeds", b) && |na| == 6
    requires ns == na + StoredNumbers(db, "feeds", b, None)
    ensures
      var second := ChunkEngagement(ns, 1, true);
      var bookmarks := EntitySet(db, "feeds", b, "bookmarks").value;
      && second.counts == (if bookmarks == {} then map[] else map["comments" := |bookmarks|])
      && second.flags == {}
  {
    var nb := StoredNumbers(db, "feeds", b, None);
    var tailNs := Slice(ns, 11, 17);
    assert tailNs == [nb[5]];
    assert Slice(ns, 17, 22) == [];
    assert EngagementKeys[5] == "bookmarks";
    assert nb[5] == |EntitySet(db, "feeds", b, "bookmarks").value|;
    KeyListsDistinct();
    var m := KeptCounts(EngagementKeys, tailNs);
    assert EngagementKeys[0] == "comments";
    forall k | k in m ensures k == "comments" {
      var i :| 0 <= i < 6 && EngagementKeys[i] == k;
    }
  }

  // ------------------------------------------------------------------ feed metas

  /** A feed record as `_get_feeds` builds it from a meta hash: the hash's fields, and
      `image_urls` read back from its JSON text. */
  datatype Feed = Feed(fields: map<string, string>, imageUrls: seq<string>)

  /** `json.loads` of the stored `image_urls`, or `[]` when the field is absent. */
  function DecodeMeta(h: map<string, string>): (r: Result<Feed, CacheError>)
    ensures r.Failure? ==> r.error == MalformedJson
  {
    if "image_urls" in h then
      match LoadsStrings(h["image_urls"])
      case None => Failure(MalformedJson)
      case Some(urls) => Success(Feed(h, urls))
    else Success(Feed(h, []))
  }

  /** The meta hashes that are not empty, in their order. */
  function NonEmpty(hs: seq<map<string, string>>): (r: seq<map<string, string>>)
    ensures |r| <= |hs|
    ensures forall h :: h in r <==> h in hs && h != map[]
    ensures (forall i :: 0 <= i < |hs| ==> hs[i] != map[]) ==> r == hs
    decreases |hs|
  {
    if hs == [] then []
    else
      var init := hs[..|hs| - 1];
      assert hs == init + [hs[|hs| - 1]];
      NonEmpty(init) + (if hs[|hs| - 1] == map[] then [] else [hs[|hs| - 1]])
  }

  function MetaOf(db: Db, id: string): Result<map<string, string>, StoreError>
  {
    AsHash(SlotOf(db, FeedKey(id, "meta")))
  }

  predicate MetasReadable(db: Db, ids: seq<string>)
  {
    forall i :: 0 <= i < |ids| ==> MetaOf(db, ids[i]).Success?
  }

  function Metas(db: Db, ids: seq<string>): (hs: seq<map<string, string>>)
    requires MetasReadable(db, ids)
    ensures |hs| == |ids|
  {
    seq(|ids|, i requires 0 <= i < |ids| => MetaOf(db, ids[i]).value)
  }

  /** HGETALL of each feed's meta hash. */
  function MetaQuery(ids: seq<string>): (cs: seq<Command>)
    ensures |cs| == |ids| && AllSendable(cs) && AllReads(cs)
  {
    seq(|ids|, i requires 0 <= i < |ids| => HGetAll(FeedKey(ids[i], "meta")))
  }

  function MetaReply(db: Db, id: string): Reply
  {
    match MetaOf(db, id)
    case Failure(e) => ErrorReply(e)
    case Success(h) => HashReply(h)
  }

  lemma MetaQueryRun(db: Db, ids: seq<string>)
    requires ValidDb(db)
    ensures RunReplies(db, MetaQuery(ids)) == seq(|ids|, i requires 0 <= i < |ids| => MetaReply(db, ids[i]))
  {
    var cs := MetaQuery(ids);
    ReadReplies(db, cs);
    forall i | 0 <= i < |ids| ensures RunReplies(db, cs)[i] == MetaReply(db, ids[i]) {
      ReadReply(db, cs[i]);
    }
  }

  /** The meta pipeline fails with WRONGTYPE exactly when a meta key holds another type, and
      otherwise answers each feed's hash, an empty one for a missing feed. */
  lemma MetaQueryReplies(db: Db, ids: seq<string>)
    requires ValidDb(db)
    ensures
      var r := BatchOutcome(RunReplies(db, MetaQuery(ids)));
      && (r.Success? <==> MetasReadable(db, ids))
      && (r.Failure? ==> r.error == WrongType)
      && (r.Success? ==> forall i :: 0 <= i < |ids| ==> r.value[i] == HashReply(Metas(db, ids)[i]))
  {
    MetaQueryRun(db, ids);
    var rs := seq(|ids|, i requires 0 <= i < |ids| => MetaReply(db, ids[i]));
    assert OnlyWrongType(rs);
    WrongTypeOutcome(rs);
    if !MetasReadable(db, ids) {
      var i :| 0 <= i < |ids| && MetaOf(db, ids[i]).Failure?;
      assert rs[i].ErrorReply?;
    }
  }

  predicate AllDecodable(hs: seq<map<string, string>>)
  {
    forall i :: 0 <= i < |hs| ==> DecodeMeta(hs[i]).Success?
  }

  function Decoded(hs: seq<map<string, string>>): (fs: seq<Feed>)
    requires AllDecodable(hs)
    ensures |fs| == |hs|
  {
    seq(|hs|, i requires 0 <= i < |hs| => DecodeMeta(hs[i]).value)
  }

  predicate AllHave(fs: seq<Feed>, name: string)
  {
    forall i :: 0 <= i < |fs| ==> name in fs[i].fields
  }

  /** `[feed[name] for feed in feeds]`. */
  function FieldAll(fs: seq<Feed>, name: string): (vs: seq<string>)
    requires AllHave(fs, name)
    ensures |vs| == |fs|
  {
    seq(|fs|, i requires 0 <= i < |fs| => fs[i].fields[name])
  }

  // ------------------------------------------------------------------ authors

  function AuthorIds(fs: seq<Feed>): set<string>
    requires AllHave(fs, "author_id")
  {
    set i | 0 <= i < |fs| :: fs[i].fields["author_id"]
  }

  predicate ProfilesReadable(db: Db, authors: set<string>)
  {
    forall a :: a in authors ==> AsHash(SlotOf(db, Profile(a))).Success?
  }

  /** HMGET of the four profile fields: each present field's value, None otherwise. */
  function ProfileOf(db: Db, a: string): (r: Result<seq<Option<string>>, StoreError>)
    ensures r.Success? ==> |r.value| == 4
  {
    match AsHash(SlotOf(db, Profile(a)))
    case Failure(e) => Failure(e)
    case Success(h) => Success(seq(4, i requires 0 <= i < 4 => if ProfileKeys[i] in h then Some(h[ProfileKeys[i]]) else None))
  }

  /** `dict(zip(keys, profile))`. */
  function ProfileDict(p: seq<Option<string>>): map<string, Option<string>>
    requires |p| == 4
  {
    map["id" := p[0], "name" := p[1], "username" := p[2], "avatar_url" := p[3]]
  }

  /** The profile read for author `a` is kept under the id `x` it holds, if truthy. */
  predicate Claims(db: Db, a: string, x: string)
  {
    ProfileOf(db, a).Success? && ProfileOf(db, a).value[0] == Some(x) && x != ""
  }

  /** `author_profiles` as the comprehension builds it over the authors in whatever order
      the set is iterated: one entry per id some profile claims, holding the dict of one of
      the profiles that claim it. */
  ghost predicate AuthorsFit(db: Db, authors: set<string>, m: map<string, map<string, Option<string>>>)
  {
    && (forall x :: x in m ==> exists a :: a in authors && Claims(db, a, x) && m[x] == ProfileDict(ProfileOf(db, a).value))
    && (forall a, x :: a in authors && Claims(db, a, x) ==> x in m)
  }

  // ------------------------------------------------------------------ what _get_feeds answers

  /** The fields the answer replaces: `image_urls` is decoded, `author_id` is popped, and
      `engagement` and `author` are written. */
  const Replaced: set<string> := {"image_urls", "author_id", "engagement", "author"}

  /** One feed of the answer: the meta hash's other fields, the decoded image URLs, the
      engagement dict and the author dict. */
  datatype FeedView = FeedView(fields: map<string, string>, imageUrls: seq<string>, engagement: Engagement,
                               author: map<string, Option<string>>)

  function View(f: Feed, e: Engagement, authors: map<string, map<string, Option<string>>>): FeedView
    requires "author_id" in f.fields
  {
    FeedView(f.fields - Replaced, f.imageUrls, e,
             if f.fields["author_id"] in authors then authors[f.fields["author_id"]] else map[])
  }

  ghost predicate ViewsOf(db: Db, fs: seq<Feed>, numbers: seq<int>, hasInteractions: bool, vs: seq<FeedView>)
    requires AllHave(fs, "author_id")
  {
    && |vs| == |fs|
    && exists m :: AuthorsFit(db, AuthorIds(fs), m)
                && forall i :: 0 <= i < |fs| ==> vs[i] == View(fs[i], ChunkEngagement(numbers, i, hasInteractions), m)
  }

  /** What `_get_feeds(feed_ids, user_id)` answers on the keyspace `db`, failure by failure
      in the order the source meets them: a meta key of another type, a malformed
      `image_urls`, a feed without `id`, an engagement key of another type, a feed without
      `author_id`, a profile key of another type; otherwise the feeds whose meta is not
      empty, in order. */
  ghost predicate Served(db: Db, ids: seq<string>, userId: Option<string>, r: Result<seq<FeedView>, CacheError>)
  {
    if !MetasReadable(db, ids) then r == Failure(Redis(WrongType))
    else
      var hs := NonEmpty(Metas(db, ids));
      if !AllDecodable(hs) then r == Failure(MalformedJson)
      else
        var fs := Decoded(hs);
        if !AllHave(fs, "id") then r == Failure(MissingKey("id"))
        else if !AllReadable(db, FieldAll(fs, "id")) then r == Failure(Redis(WrongType))
        else if !AllHave(fs, "author_id") then r == Failure(MissingKey("author_id"))
        else if !ProfilesReadable(db, AuthorIds(fs)) then r == Failure(Redis(WrongType))
        else r.Success? && ViewsOf(db, fs, AllNumbers(db, FieldAll(fs, "id"), userId), userId.Some?, r.value)
  }

  /** HMGET of the four profile fields of each author. */
  function ProfileQuery(authors: seq<string>): (cs: seq<Command>)
    ensures |cs| == |authors| && AllSendable(cs) && AllReads(cs)
  {
    seq(|authors|, i requires 0 <= i < |authors| => HMGet(Profile(authors[i]), ProfileKeys))
  }

  function ProfileReply(db: Db, a: string): Reply
  {
    match ProfileOf(db, a)
    case Failure(e) => ErrorReply(e)
    case Success(p) => FieldsReply(p)
  }

  lemma ProfileQueryRun(db: Db, authors: seq<string>)
    requires ValidDb(db)
    ensures RunReplies(db, ProfileQuery(authors)) == seq(|authors|, i requires 0 <= i < |authors| => ProfileReply(db, authors[i]))
  {
    var cs := ProfileQuery(authors);
    ReadReplies(db, cs);
    forall i | 0 <= i < |authors| ensures RunReplies(db, cs)[i] == ProfileReply(db, authors[i]) {
      ReadReply(db, cs[i]);
    }
  }

  /** The profile pipeline fails with WRONGTYPE exactly when a profile key holds another
      type, and otherwise answers the four fields of each author's profile. */
  lemma ProfileQueryReplies(db: Db, authors: seq<string>)
    requires ValidDb(db)
    ensures
      var r := BatchOutcome(RunReplies(db, ProfileQuery(authors)));
      && (r.Success? <==> ProfilesReadable(db, Elems(authors)))
      && (r.Failure? ==> r.error == WrongType)
      && (r.Success? ==> forall i :: 0 <= i < |authors| ==> ProfileOf(db, authors[i]).Success? && r.value[i] == FieldsReply(ProfileOf(db, authors[i]).value))
  {
    ProfileQueryRun(db, authors);
    var rs := seq(|authors|, i requires 0 <= i < |authors| => ProfileReply(db, authors[i]));
    assert OnlyWrongType(rs);
    WrongTypeOutcome(rs);
    if !ProfilesReadable(db, Elems(authors)) {
      var a :| a in Elems(authors) && AsHash(SlotOf(db, Profile(a))).Failure?;
      var i :| 0 <= i < |authors| && authors[i] == a;
      assert rs[i].ErrorReply?;
    } else {
      forall i | 0 <= i < |authors| ensures ProfileOf(db, authors[i]).Success? {
        assert authors[i] in Elems(authors);
      }
    }
  }

  /** A batch whose only error replies are WRONGTYPE fails, if it fails, with WRONGTYPE. */
  lemma WrongTypeOutcome(rs: seq<Reply>)
    requires OnlyWrongType(rs)
    ensures BatchOutcome(rs).Failure? ==> BatchOutcome(rs).error == WrongType
  {
  }

  // ------------------------------------------------------------------ timelines

  /** What a timeline read answers: the feeds and the timeline's length. */
  datatype Page = Page(feeds: seq<FeedView>, end: int)

  ghost predicate PageServed(db: Db, ids: seq<string>, userId: Option<string>, count: int, r: Result<Page, CacheError>)
  {
    match r
    case Failure(e) => Served(db, ids, userId, Failure(e))
    case Success(p) => p.end == count && Served(db, ids, userId, Success(p.feeds))
  }

  /** get_discover_timeline: ZCARD of the global timeline; an empty page when it is empty,
      otherwise the feeds ranked `start..stop` from the highest score. */
  ghost predicate DiscoverServed(db: Db, userId: Option<string>, start: int, stop: int, r: Result<Page, CacheError>)
  {
    match AsZSet(SlotOf(db, GlobalTimeline))
    case Failure(e) => r == Failure(Redis(e))
    case Success(es) =>
      if es == [] then r == Success(Page([], 0))
      else PageServed(db, RangeOf(Descending(es), start, stop), userId, |es|, r)
  }

  /** get_following_timeline: counts and reads `user:{id}:following_timeline`. */
  ghost predicate FollowingServed(db: Db, userId: string, start: int, stop: int, r: Result<Page, CacheError>)
  {
    match AsList(SlotOf(db, SingularUserKey(userId, "following_timeline")))
    case Failure(e) => r == Failure(Redis(e))
    case Success(l) =>
      if l == [] then r == Success(Page([], 0))
      else PageServed(db, RangeOf(l, start, stop), Some(userId), |l|, r)
  }

  /** get_user_timeline: counts `users:{id}:user_timeline` but reads the feed ids from
      `user:{id}:user_timeline`. */
  ghost predicate UserTimelineServed(db: Db, userId: string, start: int, stop: int, r: Result<Page, CacheError>)
  {
    match AsList(SlotOf(db, UserTimeline(userId)))
    case Failure(e) => r == Failure(Redis(e))
    case Success(counted) =>
      if counted == [] then r == Success(Page([], 0))
      else match AsList(SlotOf(db, SingularUserKey(userId, "user_timeline")))
           case Failure(e) => r == Failure(Redis(e))
           case Success(l) => PageServed(db, RangeOf(l, start, stop), Some(userId), |counted|, r)
  }

  // ------------------------------------------------------------------ properties of the answer

  /** No feed ids: no feeds. */
  lemma ServedNoIds(db: Db, userId: Option<string>)
    ensures Served(db, [], userId, Success([]))
  {
    var fs := Decoded(NonEmpty(Metas(db, [])));
    assert AuthorsFit(db, AuthorIds(fs), map[]);
  }

  /** A successful answer passed every check and is built from the decoded metas. */
  lemma ServedParts(db: Db, ids: seq<string>, userId: Option<string>, vs: seq<FeedView>)
    requires Served(db, ids, userId, Success(vs))
    ensures MetasReadable(db, ids) && AllDecodable(NonEmpty(Metas(db, ids)))
    ensures
      var fs := Decoded(NonEmpty(Metas(db, ids)));
      && AllHave(fs, "id") && AllReadable(db, FieldAll(fs, "id")) && AllHave(fs, "author_id")
      && ProfilesReadable(db, AuthorIds(fs))
      && ViewsOf(db, fs, AllNumbers(db, FieldAll(fs, "id"), userId), userId.Some?, vs)
  {
  }

  /** The views keep each feed's fields and engagement chunk, in order. */
  lemma ViewParts(db: Db, fs: seq<Feed>, numbers: seq<int>, hasInteractions: bool, vs: seq<FeedView>)
    requires AllHave(fs, "author_id") && ViewsOf(db, fs, numbers, hasInteractions, vs)
    ensures |vs| == |fs|
    ensures forall i :: 0 <= i < |fs| ==> vs[i].fields == fs[i].fields - Replaced
    ensures forall i :: 0 <= i < |fs| ==> vs[i].engagement == ChunkEngagement(numbers, i, hasInteractions)
  {
    var m :| AuthorsFit(db, AuthorIds(fs), m)
          && forall i :: 0 <= i < |fs| ==> vs[i] == View(fs[i], ChunkEngagement(numbers, i, hasInteractions), m);
  }

  /** Decoding keeps each hash's fields. */
  lemma DecodedFields(hs: seq<map<string, string>>)
    requires AllDecodable(hs)
    ensures forall i :: 0 <= i < |hs| ==> Decoded(hs)[i].fields == hs[i]
  {
  }

  /** The fields of each feed served are a non-empty meta hash of a requested id, less the
      replaced fields; when no requested meta is empty, the feeds are the requested ones,
      in the requested order. */
  lemma ServedFields(db: Db, ids: seq<string>, userId: Option<string>, vs: seq<FeedView>)
    requires Served(db, ids, userId, Success(vs))
    ensures |vs| <= |ids|
    ensures forall i :: 0 <= i < |vs| ==> FromMeta(db, ids, vs[i].fields)
    ensures (forall j :: 0 <= j < |ids| ==> MetaOf(db, ids[j]) != Success(map[])) ==>
              |vs| == |ids| && forall i :: 0 <= i < |ids| ==> MetaOf(db, ids[i]).Success? && vs[i].fields == MetaOf(db, ids[i]).value - Replaced
  {
    ServedParts(db, ids, userId, vs);
    var fs := Decoded(NonEmpty(Metas(db, ids)));
    ViewParts(db, fs, AllNumbers(db, FieldAll(fs, "id"), userId), userId.Some?, vs);
    MetaFieldsKept(db, ids, vs);
  }

  /** `fields` are the fields of a non-empty meta hash of one of `ids`, less the replaced ones. */
  predicate FromMeta(db: Db, ids: seq<string>, fields: map<string, string>)
  {
    exists j :: 0 <= j < |ids| && MetaOf(db, ids[j]).Success? && MetaOf(db, ids[j]).value != map[]
              && fields == MetaOf(db, ids[j]).value - Replaced
  }

  lemma MetaFieldsKept(db: Db, ids: seq<string>, vs: seq<FeedView>)
    requires MetasReadable(db, ids) && AllDecodable(NonEmpty(Metas(db, ids)))
    requires |vs| == |NonEmpty(Metas(db, ids))|
    requires forall i :: 0 <= i < |vs| ==> vs[i].fields == Decoded(NonEmpty(Metas(db, ids)))[i].fields - Replaced
    ensures |vs| <= |ids|
    ensures forall i :: 0 <= i < |vs| ==> FromMeta(db, ids, vs[i].fields)
    ensures (forall j :: 0 <= j < |ids| ==> MetaOf(db, ids[j]) != Success(map[])) ==>
              |vs| == |ids| && forall i :: 0 <= i < |ids| ==> MetaOf(db, ids[i]).Success? && vs[i].fields == MetaOf(db, ids[i]).value - Replaced
  {
    var ms := Metas(db, ids);
    var hs := NonEmpty(ms);
    DecodedFields(hs);
    forall i | 0 <= i < |vs| ensures FromMeta(db, ids, vs[i].fields) {
      assert hs[i] in hs;
      var j :| 0 <= j < |ms| && ms[j] == hs[i];
      assert vs[i].fields == MetaOf(db, ids[j]).value - Replaced;
    }
    MetasAllKept(db, ids);
  }

  /** With no requested meta empty, every meta is kept, in order. */
  lemma MetasAllKept(db: Db, ids: seq<string>)
    requires MetasReadable(db, ids)
    ensures (forall j :: 0 <= j < |ids| ==> MetaOf(db, ids[j]) != Success(map[])) ==> NonEmpty(Metas(db, ids)) == Metas(db, ids)
  {
    var ms := Metas(db, ids);
    if forall j :: 0 <= j < |ids| ==> MetaOf(db, ids[j]) != Success(map[]) {
      assert forall j :: 0 <= j < |ms| ==> ms[j] != map[];
    }
  }

  /** Each feed served reports its own stored engagement when the user id is None or
      truthy; for a user id, the flags say which of its engagement sets hold the user. */
  lemma ServedEngagement(db: Db, ids: seq<string>, userId: Option<string>, vs: seq<FeedView>)
    requires Served(db, ids, userId, Success(vs))
    requires userId.None? || Truthy(userId)
    ensures forall i :: 0 <= i < |vs| ==>
              && "id" in vs[i].fields
              && EngagementReadable(db, "feeds", vs[i].fields["id"])
              && vs[i].engagement == StoredEngagement(db, "feeds", vs[i].fields["id"], FeedMember(userId))
  {
    ServedParts(db, ids, userId, vs);
    var fs := Decoded(NonEmpty(Metas(db, ids)));
    ServedEngagementOf(db, fs, userId, vs);
  }

  lemma ServedEngagementOf(db: Db, fs: seq<Feed>, userId: Option<string>, vs: seq<FeedView>)
    requires AllHave(fs, "id") && AllReadable(db, FieldAll(fs, "id")) && AllHave(fs, "author_id")
    requires ViewsOf(db, fs, AllNumbers(db, FieldAll(fs, "id"), userId), userId.Some?, vs)
    requires userId.None? || Truthy(userId)
    ensures forall i :: 0 <= i < |vs| ==>
              && "id" in vs[i].fields
              && EngagementReadable(db, "feeds", vs[i].fields["id"])
              && vs[i].engagement == StoredEngagement(db, "feeds", vs[i].fields["id"], FeedMember(userId))
  {
    var fids := FieldAll(fs, "id");
    ViewParts(db, fs, AllNumbers(db, fids, userId), userId.Some?, vs);
    forall i | 0 <= i < |vs|
      ensures && "id" in vs[i].fields
              && EngagementReadable(db, "feeds", vs[i].fields["id"])
              && vs[i].engagement == StoredEngagement(db, "feeds", vs[i].fields["id"], FeedMember(userId))
    {
      assert fids[i] == vs[i].fields["id"];
      ChunkAligned(db, fids, userId, i);
    }
  }

  /** Each profile names its own user, or no one. */
  predicate SelfIdentified(db: Db, a: string)
  {
    ProfileOf(db, a).Success? && (ProfileOf(db, a).value[0].Some? && ProfileOf(db, a).value[0].value != "" ==> ProfileOf(db, a).value[0].value == a)
  }

  /** The author dict a feed by `a` gets when profiles name their own users. */
  function AuthorView(db: Db, a: string): map<string, Option<string>>
  {
    if Claims(db, a, a) then ProfileDict(ProfileOf(db, a).value) else map[]
  }

  /** The author each view carries, read from the feed's `author_id`. */
  lemma ViewAuthors(db: Db, fs: seq<Feed>, numbers: seq<int>, hasInteractions: bool, vs: seq<FeedView>)
    requires AllHave(fs, "author_id") && ViewsOf(db, fs, numbers, hasInteractions, vs)
    requires forall a :: a in AuthorIds(fs) ==> SelfIdentified(db, a)
    ensures |vs| == |fs|
    ensures forall i :: 0 <= i < |fs| ==> vs[i].author == AuthorView(db, fs[i].fields["author_id"])
  {
    var authors := AuthorIds(fs);
    var m :| AuthorsFit(db, authors, m)
          && forall i :: 0 <= i < |fs| ==> vs[i] == View(fs[i], ChunkEngagement(numbers, i, hasInteractions), m);
    forall i | 0 <= i < |fs| ensures vs[i].author == AuthorView(db, fs[i].fields["author_id"]) {
      var a := fs[i].fields["author_id"];
      assert vs[i].author == if a in m then m[a] else map[];
      FitAuthor(db, authors, m, a);
    }
  }

  /** Looking an author up in a fitting map gives that author's own profile dict. */
  lemma FitAuthor(db: Db, authors: set<string>, m: map<string, map<string, Option<string>>>, a: string)
    requires AuthorsFit(db, authors, m) && a in authors
    requires forall b :: b in authors ==> SelfIdentified(db, b)
    ensures (if a in m then m[a] else map[]) == AuthorView(db, a)
  {
    if Claims(db, a, a) {
      assert a in m;
      var b :| b in authors && Claims(db, b, a) && m[a] == ProfileDict(ProfileOf(db, b).value);
      assert SelfIdentified(db, b);
    } else {
      assert a !in m;
    }
  }

  /** When every author's profile names that author or no one, each feed served carries
      its author's profile dict, or `{}` when the profile has no id; with no requested
      meta empty, feed `i` is the feed of `ids[i]`. */
  lemma ServedAuthors(db: Db, ids: seq<string>, userId: Option<string>, vs: seq<FeedView>)
    requires Served(db, ids, userId, Success(vs))
    requires forall j :: 0 <= j < |ids| ==> MetaOf(db, ids[j]) != Success(map[])
    requires forall j :: 0 <= j < |ids| && MetaOf(db, ids[j]).Success? && "author_id" in MetaOf(db, ids[j]).value ==>
               SelfIdentified(db, MetaOf(db, ids[j]).value["author_id"])
    ensures |vs| == |ids|
    ensures forall i :: 0 <= i < |ids| ==> MetaOf(db, ids[i]).Success? && "author_id" in MetaOf(db, ids[i]).value
    ensures forall i :: 0 <= i < |ids| ==> vs[i].author == AuthorView(db, MetaOf(db, ids[i]).value["author_id"])
  {
    ServedParts(db, ids, userId, vs);
    var fs := Decoded(NonEmpty(Metas(db, ids)));
    MetaAuthorIds(db, ids, fs);
    ViewAuthors(db, fs, AllNumbers(db, FieldAll(fs, "id"), userId), userId.Some?, vs);
  }

  /** With no requested meta empty, feed `i` is decoded from the meta of `ids[i]`. */
  lemma MetaAuthorIds(db: Db, ids: seq<string>, fs: seq<Feed>)
    requires MetasReadable(db, ids) && AllDecodable(NonEmpty(Metas(db, ids))) && fs == Decoded(NonEmpty(Metas(db, ids)))
    requires AllHave(fs, "author_id")
    requires forall j :: 0 <= j < |ids| ==> MetaOf(db, ids[j]) != Success(map[])
    requires forall j :: 0 <= j < |ids| && MetaOf(db, ids[j]).Success? && "author_id" in MetaOf(db, ids[j]).value ==>
               SelfIdentified(db, MetaOf(db, ids[j]).value["author_id"])
    ensures |fs| == |ids|
    ensures forall i :: 0 <= i < |ids| ==> MetaOf(db, ids[i]).Success? && fs[i].fields == MetaOf(db, ids[i]).value
    ensures forall a :: a in AuthorIds(fs) ==> SelfIdentified(db, a)
  {
    var ms := Metas(db, ids);
    MetasAllKept(db, ids);
    DecodedFields(ms);
    forall a | a in AuthorIds(fs) ensures SelfIdentified(db, a) {
      var j :| 0 <= j < |fs| && fs[j].fields["author_id"] == a;
    }
  }

  // ------------------------------------------------------------------ what the writers leave for the readers

  /** A feed create_feed stored with a list of image URLs reads back with the same URLs
      and its author's id. */
  lemma CreatedFeedDecodes(s: Slot, mapping: seq<(string, PyValue)>, urls: seq<string>, authorId: string, feedId: string,
                           score: real, followers: set<string>, maxDt: int, maxFt: int, maxUt: int)
    requires ValidSlot(s) && AsHash(s).Success?
    requires PrepareMeta(mapping, authorId).Some? && EncodeMapping(PrepareMeta(mapping, authorId).value).Some?
    requires Lookup(mapping, "image_urls") == Some(PyList(StrValues(urls)))
    ensures
      var fields := EncodeMapping(PrepareMeta(mapping, authorId).value).value;
      var after := AsHash(FeedCreatedSlot(s, FeedKey(feedId, "meta"), authorId, feedId, fields, score, followers, maxDt, maxFt, maxUt));
      && after.Success? && after.value != map[]
      && "author_id" in after.value && after.value["author_id"] == authorId
      && DecodeMeta(after.value) == Success(Feed(after.value, urls))
  {
    StoredMetaFields(mapping, authorId, urls);
    var fields := EncodeMapping(PrepareMeta(mapping, authorId).value).value;
    CreatedMeta(s, authorId, feedId, fields, score, followers, maxDt, maxFt, maxUt);
  }

  /** create_feed and delete_feed never touch a `user:` key, the spelling
      get_following_timeline reads and get_user_timeline takes its ids from. */
  lemma SingularUntouched(s: Slot, userId: string, suffix: string, authorId: string, feedId: string,
                          fields: map<string, string>, score: real, followers: set<string>, maxDt: int, maxFt: int, maxUt: int)
    requires ValidSlot(s) && fields != map[]
    ensures FeedCreatedSlot(s, SingularUserKey(userId, suffix), authorId, feedId, fields, score, followers, maxDt, maxFt, maxUt) == s
    ensures FeedDeletedSlot(s, SingularUserKey(userId, suffix), authorId, feedId, followers) == s
  {
    var k := SingularUserKey(userId, suffix);
    SingularNotGlobal(userId, suffix);
    SingularNotFeedKey(userId, suffix, feedId, "meta");
    SingularNotPlural(userId, suffix, authorId, "user_timeline");
    if k in FollowingKeys(followers) {
      var f :| f in followers && k == FollowingTimeline(f);
      SingularNotPlural(userId, suffix, f, "following_timeline");
    }
    if k in FeedKeys(feedId) {
      var i :| 0 <= i < 7 && FeedKeys(feedId)[i] == k;
      SingularNotFeedKey(userId, suffix, feedId, FeedSuffixes[i]);
    }
  }

  /** Following a user and then having that user post does not reach the follower's
      following timeline as get_following_timeline reads it: when nothing is stored
      under its `user:` key, the page stays empty after create_feed. */
  lemma FollowingPageAfterCreate(db: Db, userId: string, authorId: string, feedId: string, fields: map<string, string>,
                                 score: real, followers: seq<string>, maxDt: int, maxFt: int, maxUt: int, start: int, stop: int)
    requires ValidDb(db) && fields != map[] && Distinct(followers)
    requires SingularUserKey(userId, "following_timeline") !in db
    ensures FollowingServed(RunDb(db, CreateFeedBatch(authorId, feedId, fields, score, followers, maxDt, maxFt, maxUt)),
                            userId, start, stop, Success(Page([], 0)))
  {
    var k := SingularUserKey(userId, "following_timeline");
    CreateFeedSlots(db, authorId, feedId, fields, score, followers, maxDt, maxFt, maxUt, k);
    SingularUntouched(SlotOf(db, k), userId, "following_timeline", authorId, feedId, fields, score, Elems(followers), maxDt, maxFt, maxUt);
  }

  /** After an author posts, get_user_timeline counts the post in `end` but, with nothing
      stored under `user:{id}:user_timeline`, returns no feeds. */
  lemma UserPageAfterCreate(db: Db, authorId: string, feedId: string, fields: map<string, string>,
                            score: real, followers: seq<string>, maxDt: int, maxFt: int, maxUt: nat, start: int, stop: int)
    requires ValidDb(db) && fields != map[] && Distinct(followers) && maxUt >= 1
    requires AsList(SlotOf(db, UserTimeline(authorId))).Success?
    requires SingularUserKey(authorId, "user_timeline") !in db
    ensures
      var db' := RunDb(db, CreateFeedBatch(authorId, feedId, fields, score, followers, maxDt, maxFt, maxUt));
      var counted := AsList(SlotOf(db', UserTimeline(authorId)));
      && counted.Success? && 1 <= |counted.value| <= maxUt
      && UserTimelineServed(db', authorId, start, stop, Success(Page([], |counted.value|)))
  {
    var ut := UserTimeline(authorId);
    var k := SingularUserKey(authorId, "user_timeline");
    CreateFeedSlots(db, authorId, feedId, fields, score, followers, maxDt, maxFt, maxUt, ut);
    CreatedUserTimeline(SlotOf(db, ut), authorId, feedId, fields, score, Elems(followers), maxDt, maxFt, maxUt);
    CreateFeedSlots(db, authorId, feedId, fields, score, followers, maxDt, maxFt, maxUt, k);
    SingularUntouched(SlotOf(db, k), authorId, "user_timeline", authorId, feedId, fields, score, Elems(followers), maxDt, maxFt, maxUt);
    var db' := RunDb(db, CreateFeedBatch(authorId, feedId, fields, score, followers, maxDt, maxFt, maxUt));
    assert RangeOf<string>([], start, stop) == [];
    ServedNoIds(db', Some(authorId));
  }
}
