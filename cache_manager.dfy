/** `CacheManager` and `ChatCacheManager`: the objects the routes call, holding the Redis
    connection. Each method sends the commands or pipelines the feed cache defines and
    states the keyspace it leaves and the answer it gives in terms of FeedCache and
    FeedReads. */
module CacheManagers {

  import opened Wrappers
  import opened PyData
  import opened Json
  import opened RedisSemantics
  import opened RedisStore
  import opened CacheKeys
  import opened FeedCache
  import opened FeedReads

  class CacheManager {
    const store: Store

    ghost predicate Valid()
      reads this, store
    {
      store.Valid()
    }

    constructor(store: Store)
      requires store.Valid()
      ensures this.store == store && Valid()
    {
      this.store := store;
    }

    // ---------------------------------------------------------------- _get_feeds

    /** The meta pipeline: one HGETALL per id, read as a whole. */
    method FetchFeeds(ids: seq<string>) returns (r: Result<seq<Feed>, CacheError>)
      requires Valid()
      ensures !MetasReadable(store.db, ids) ==> r == Failure(Redis(WrongType))
      ensures MetasReadable(store.db, ids) && !AllDecodable(NonEmpty(Metas(store.db, ids))) ==> r == Failure(MalformedJson)
      ensures MetasReadable(store.db, ids) && AllDecodable(NonEmpty(Metas(store.db, ids))) ==>
                r == Success(Decoded(NonEmpty(Metas(store.db, ids))))
    {
      var replies := store.Query(MetaQuery(ids));
      MetaQueryReplies(store.db, ids);
      if replies.Failure? {
        return Failure(Redis(replies.error));
      }
      var metas := seq(|ids|, i requires 0 <= i < |ids| => replies.value[i].fields);
      assert metas == Metas(store.db, ids);
      r := DecodeAll(metas);
    }

    /** The loop over the meta replies: empty metas are skipped, the others decoded in
        order; the first that does not decode raises. */
    static method DecodeAll(metas: seq<map<string, string>>) returns (r: Result<seq<Feed>, CacheError>)
      ensures !AllDecodable(NonEmpty(metas)) ==> r == Failure(MalformedJson)
      ensures AllDecodable(NonEmpty(metas)) ==> r == Success(Decoded(NonEmpty(metas)))
    {
      var feeds: seq<Feed> := [];
      for i := 0 to |metas|
        invariant AllDecodable(NonEmpty(metas[..i])) && feeds == Decoded(NonEmpty(metas[..i]))
      {
        assert metas[..i + 1] == metas[..i] + [metas[i]];
        var meta := metas[i];
        NonEmptySnoc(metas[..i], meta);
        if meta != map[] {
          var decoded := DecodeMeta(meta);
          if decoded.Failure? {
            Undecodable(metas, i);
            return Failure(decoded.error);
          }
          DecodedSnoc(NonEmpty(metas[..i]), meta);
          feeds := feeds + [decoded.value];
        }
      }
      assert metas[..|metas|] == metas;
      r := Success(feeds);
    }

    /** `feed["id"]` of each feed, as the engagement pipeline is queued. */
    static method FeedIds(feeds: seq<Feed>) returns (r: Result<seq<string>, CacheError>)
      ensures AllHave(feeds, "id") ==> r == Success(FieldAll(feeds, "id"))
      ensures !AllHave(feeds, "id") ==> r == Failure(MissingKey("id"))
    {
      var ids: seq<string> := [];
      for j := 0 to |feeds|
        invariant AllHave(feeds[..j], "id") && ids == FieldAll(feeds[..j], "id")
      {
        if "id" !in feeds[j].fields {
          return Failure(MissingKey("id"));
        }
        ids := ids + [feeds[j].fields["id"]];
      }
      assert feeds[..|feeds|] == feeds;
      r := Success(ids);
    }

    /** The engagement pipeline and the loop that cuts its replies into chunks. */
    method FetchEngagements(feedIds: seq<string>, userId: Option<string>) returns (r: Result<seq<Engagement>, CacheError>)
      requires Valid()
      ensures !AllReadable(store.db, feedIds) ==> r == Failure(Redis(WrongType))
      ensures AllReadable(store.db, feedIds) ==> r.Success? && |r.value| == |feedIds|
      ensures AllReadable(store.db, feedIds) ==> forall i :: 0 <= i < |feedIds| ==>
                r.value[i] == ChunkEngagement(AllNumbers(store.db, feedIds, userId), i, userId.Some?)
    {
      var replies := store.Query(FeedsQuery(feedIds, userId));
      FeedsOutcome(store.db, feedIds, userId);
      if replies.Failure? {
        return Failure(Redis(replies.error));
      }
      var engagements := Chunks(Numbers(replies.value), |feedIds|, userId.Some?);
      r := Success(engagements);
    }

    /** The loop that cuts the engagement replies into one chunk per feed. */
    static method Chunks(numbers: seq<int>, count: nat, hasInteractions: bool) returns (engagements: seq<Engagement>)
      ensures |engagements| == count
      ensures forall i :: 0 <= i < count ==> engagements[i] == ChunkEngagement(numbers, i, hasInteractions)
    {
      engagements := [];
      ghost var chunks := seq(count, i requires 0 <= i < count => ChunkEngagement(numbers, i, hasInteractions));
      for index := 0 to count
        invariant engagements == chunks[..index]
      {
        var e := ChunkEngagement(numbers, index, hasInteractions);
        PrefixSnoc(chunks, index);
        engagements := engagements + [e];
      }
      assert chunks[..count] == chunks;
    }

    /** `{feed["author_id"] for feed in feeds}`. */
    static method AuthorsOf(feeds: seq<Feed>) returns (r: Result<set<string>, CacheError>)
      ensures AllHave(feeds, "author_id") ==> r == Success(AuthorIds(feeds))
      ensures !AllHave(feeds, "author_id") ==> r == Failure(MissingKey("author_id"))
    {
      var authors: set<string> := {};
      for j := 0 to |feeds|
        invariant AllHave(feeds[..j], "author_id") && authors == AuthorIds(feeds[..j])
      {
        if "author_id" !in feeds[j].fields {
          return Failure(MissingKey("author_id"));
        }
        assert feeds[..j + 1] == feeds[..j] + [feeds[j]];
        authors := authors + {feeds[j].fields["author_id"]};
      }
      assert feeds[..|feeds|] == feeds;
      r := Success(authors);
    }

    /** The profile pipeline over the authors, in the order the set is iterated, and the
        comprehension that keys each profile by the id it holds. */
    method FetchAuthors(authors: set<string>) returns (r: Result<map<string, map<string, Option<string>>>, CacheError>)
      requires Valid()
      ensures !ProfilesReadable(store.db, authors) ==> r == Failure(Redis(WrongType))
      ensures ProfilesReadable(store.db, authors) ==> r.Success? && AuthorsFit(store.db, authors, r.value)
    {
      var order := Enumerate(authors);
      var replies := store.Query(ProfileQuery(order));
      ProfileQueryReplies(store.db, order);
      if replies.Failure? {
        return Failure(Redis(replies.error));
      }
      var profiles := ProfilesFrom(store.db, order, replies.value);
      r := Success(profiles);
    }

    /** `_get_feeds`: the feeds whose meta is not empty, each with its decoded image URLs,
        its engagement and its author's profile. */
    method GetFeeds(ids: seq<string>, userId: Option<string>) returns (r: Result<seq<FeedView>, CacheError>)
      requires Valid()
      ensures Served(store.db, ids, userId, r)
    {
      var fetched := FetchFeeds(ids);
      if fetched.Failure? {
        return Failure(fetched.error);
      }
      r := Assemble(fetched.value, userId);
      AssembledServed(store.db, ids, userId, fetched.value, r);
    }

    /** The rest of `_get_feeds` once the metas are decoded. */
    method Assemble(feeds: seq<Feed>, userId: Option<string>) returns (r: Result<seq<FeedView>, CacheError>)
      requires Valid()
      ensures Assembled(store.db, feeds, userId, r)
    {
      var feedIds := FeedIds(feeds);
      if feedIds.Failure? {
        return Failure(feedIds.error);
      }
      var engagements := FetchEngagements(feedIds.value, userId);
      if engagements.Failure? {
        return Failure(engagements.error);
      }
      var authors := AuthorsOf(feeds);
      if authors.Failure? {
        return Failure(authors.error);
      }
      var profiles := FetchAuthors(authors.value);
      if profiles.Failure? {
        return Failure(profiles.error);
      }
      var views := ViewsFrom(feeds, engagements.value, profiles.value);
      r := Success(views);
      assert ViewsOf(store.db, feeds, AllNumbers(store.db, feedIds.value, userId), userId.Some?, views);
    }

    // ---------------------------------------------------------------- timelines

    /** get_discover_timeline. */
    method GetDiscoverTimeline(userId: Option<string>, start: int, stop: int) returns (r: Result<Page, CacheError>)
      requires Valid()
      ensures DiscoverServed(store.db, userId, start, stop, r)
    {
      var total := store.Read(ZCard(GlobalTimeline));
      ReadReply(store.db, ZCard(GlobalTimeline));
      if total.Failure? {
        return Failure(Redis(total.error));
      }
      if total.value.n == 0 {
        return Success(Page([], 0));
      }
      var ranged := store.Read(ZRevRange(GlobalTimeline, start, stop));
      ReadReply(store.db, ZRevRange(GlobalTimeline, start, stop));
      var feeds := GetFeeds(ranged.value.items, userId);
      r := PageOf(feeds, total.value.n);
    }

    /** get_following_timeline: both reads use the `user:` spelling. */
    method GetFollowingTimeline(userId: string, start: int, stop: int) returns (r: Result<Page, CacheError>)
      requires Valid()
      ensures FollowingServed(store.db, userId, start, stop, r)
    {
      var key := SingularUserKey(userId, "following_timeline");
      var total := store.Read(LLen(key));
      ReadReply(store.db, LLen(key));
      if total.Failure? {
        return Failure(Redis(total.error));
      }
      if total.value.n == 0 {
        return Success(Page([], 0));
      }
      var ranged := store.Read(LRange(key, start, stop));
      ReadReply(store.db, LRange(key, start, stop));
      var feeds := GetFeeds(ranged.value.items, Some(userId));
      r := PageOf(feeds, total.value.n);
    }

    /** get_user_timeline: the count from `users:{id}:user_timeline`, the ids from
        `user:{id}:user_timeline`. */
    method GetUserTimeline(userId: string, start: int, stop: int) returns (r: Result<Page, CacheError>)
      requires Valid()
      ensures UserTimelineServed(store.db, userId, start, stop, r)
    {
      var total := store.Read(LLen(UserTimeline(userId)));
      ReadReply(store.db, LLen(UserTimeline(userId)));
      if total.Failure? {
        return Failure(Redis(total.error));
      }
      if total.value.n == 0 {
        return Success(Page([], 0));
      }
      var key := SingularUserKey(userId, "user_timeline");
      var ranged := store.Read(LRange(key, start, stop));
      ReadReply(store.db, LRange(key, start, stop));
      if ranged.Failure? {
        return Failure(Redis(ranged.error));
      }
      var feeds := GetFeeds(ranged.value.items, Some(userId));
      r := PageOf(feeds, total.value.n);
    }

    // ---------------------------------------------------------------- engagements

    /** get_engagement: the counts of the six engagement sets and the user's interactions. */
    method GetEngagement(userId: string, entityType: string, entityId: string) returns (r: Result<Engagement, CacheError>)
      requires Valid()
      ensures r == EngagementAnswer(store.db, entityType, entityId, userId)
    {
      var replies := store.Query(EngagementQuery(entityType, entityId, Some(userId)));
      GetEngagementMeaning(store.db, entityType, entityId, userId);
      if replies.Failure? {
        return Failure(Redis(replies.error));
      }
      var numbers := Numbers(replies.value);
      r := Success(EngagementOf(numbers[..6], numbers[6..], true));
    }

    /** set_feed_engagement: records the user in the entity's set and the entity in the
        user's reverse index, then answers the entity's engagement as it now is. Without a
        feed or comment id redis-py refuses to send the batch. */
    method SetFeedEngagement(userId: string, t: EngagementType, feedId: Option<string>, commentId: Option<string>)
      returns (r: Result<Engagement, CacheError>)
      requires Valid()
      modifies store
      ensures Valid()
      ensures EntityId(feedId, commentId).None? ==> r == Failure(Redis(DataError)) && store.db == old(store.db)
      ensures EntityId(feedId, commentId).Some? ==>
                var outcome := BatchOutcome(RunReplies(old(store.db), SetEngagementBatch(userId, t, feedId, commentId)));
                && store.db == RunDb(old(store.db), SetEngagementBatch(userId, t, feedId, commentId))
                && (outcome.Failure? ==> r == Failure(Redis(outcome.error)))
                && (outcome.Success? ==> r == EngagementAnswer(store.db, EntityType(feedId), EntityId(feedId, commentId).value, userId))
    {
      var entityId := EntityId(feedId, commentId);
      if entityId.None? {
        return Failure(Redis(DataError));
      }
      var batch := store.Pipeline(SetEngagementBatch(userId, t, feedId, commentId));
      if batch.Failure? {
        return Failure(Redis(batch.error));
      }
      r := GetEngagement(userId, EntityType(feedId), entityId.value);
    }

    /** remove_feed_engagement: the mirror image of set_feed_engagement, on the reverse
        index spelled `users:{uid}:{comments|}:{type}`. */
    method RemoveFeedEngagement(userId: string, t: EngagementType, feedId: Option<string>, commentId: Option<string>)
      returns (r: Result<Engagement, CacheError>)
      requires Valid()
      modifies store
      ensures Valid()
      ensures EntityId(feedId, commentId).None? ==> r == Failure(Redis(DataError)) && store.db == old(store.db)
      ensures EntityId(feedId, commentId).Some? ==>
                var outcome := BatchOutcome(RunReplies(old(store.db), RemoveEngagementBatch(userId, t, feedId, commentId)));
                && store.db == RunDb(old(store.db), RemoveEngagementBatch(userId, t, feedId, commentId))
                && (outcome.Failure? ==> r == Failure(Redis(outcome.error)))
                && (outcome.Success? ==> r == EngagementAnswer(store.db, EntityType(feedId), EntityId(feedId, commentId).value, userId))
    {
      var entityId := EntityId(feedId, commentId);
      if entityId.None? {
        return Failure(Redis(DataError));
      }
      var batch := store.Pipeline(RemoveEngagementBatch(userId, t, feedId, commentId));
      if batch.Failure? {
        return Failure(Redis(batch.error));
      }
      r := GetEngagement(userId, EntityType(feedId), entityId.value);
    }

    // ---------------------------------------------------------------- feeds

    /** create_feed: stores the prepared meta, ranks the feed on the global timeline and
        trims it, pushes the id onto every follower's following timeline and onto the
        author's user timeline, trimming each. Every error is raised as a ValueError.
        `score` is the initial score, computed by code this model leaves out; `followers`
        is the order in which the follower set happened to be iterated. */
    method CreateFeed(authorId: string, mapping: seq<(string, PyValue)>, score: real, maxDt: int, maxFt: int, maxUt: int)
      returns (raised: Option<CacheError>, ghost followers: seq<string>)
      requires Valid()
      modifies store
      ensures Valid()
      ensures raised.Some? ==> raised.value.ValueError?
      ensures PrepareMeta(mapping, authorId).None? ==> raised == Some(ValueError(NotSerializable)) && store.db == old(store.db)
      ensures PrepareMeta(mapping, authorId).Some? && AsSet(SlotOf(old(store.db), Followers(authorId))).Failure? ==>
                raised == Some(ValueError(Redis(AsSet(SlotOf(old(store.db), Followers(authorId))).error)))
                && store.db == old(store.db)
      ensures PrepareMeta(mapping, authorId).Some? && AsSet(SlotOf(old(store.db), Followers(authorId))).Success?
              && (FeedIdOf(mapping).None? || EncodeMapping(PrepareMeta(mapping, authorId).value).None?) ==>
                raised == Some(ValueError(Redis(DataError))) && store.db == old(store.db)
      ensures PrepareMeta(mapping, authorId).Some? && AsSet(SlotOf(old(store.db), Followers(authorId))).Success?
              && FeedIdOf(mapping).Some? && EncodeMapping(PrepareMeta(mapping, authorId).value).Some? ==>
                && Distinct(followers) && Elems(followers) == AsSet(SlotOf(old(store.db), Followers(authorId))).value
                && FeedCreated(old(store.db), store.db, authorId, FeedIdOf(mapping).value,
                               EncodeMapping(PrepareMeta(mapping, authorId).value).value, score, followers, maxDt, maxFt, maxUt, raised)
    {
      followers := [];
      var prepared := PrepareMeta(mapping, authorId);
      if prepared.None? {
        return Some(ValueError(NotSerializable)), followers;
      }
      var members := store.Read(SMembers(Followers(authorId)));
      ReadReply(store.db, SMembers(Followers(authorId)));
      if members.Failure? {
        return Some(ValueError(Redis(members.error))), followers;
      }
      var feedId := FeedIdOf(mapping);
      var fields := EncodeMapping(prepared.value);
      if feedId.None? || fields.None? {
        return Some(ValueError(Redis(DataError))), followers;
      }
      StoredMetaFields(mapping, authorId, []);
      var order := Enumerate(members.value.members);
      followers := order;
      raised := CreateFeedPipeline(authorId, feedId.value, fields.value, score, order, maxDt, maxFt, maxUt);
    }

    /** create_feed's pipeline, once its arguments are prepared. */
    method CreateFeedPipeline(authorId: string, feedId: string, fields: map<string, string>, score: real,
                              followers: seq<string>, maxDt: int, maxFt: int, maxUt: int) returns (raised: Option<CacheError>)
      requires Valid() && fields != map[] && Distinct(followers)
      modifies store
      ensures Valid()
      ensures FeedCreated(old(store.db), store.db, authorId, feedId, fields, score, followers, maxDt, maxFt, maxUt, raised)
    {
      ghost var before := store.db;
      var outcome := store.Pipeline(CreateFeedBatch(authorId, feedId, fields, score, followers, maxDt, maxFt, maxUt));
      forall k ensures SlotOf(store.db, k) == FeedCreatedSlot(SlotOf(before, k), k, authorId, feedId,
                                                              fields, score, Elems(followers), maxDt, maxFt, maxUt) {
        CreateFeedSlots(before, authorId, feedId, fields, score, followers, maxDt, maxFt, maxUt, k);
      }
      raised := Wrapped(outcome);
    }

    /** update_feed: one HDEL or HSET on the feed's meta hash. */
    method UpdateFeed(feedId: string, key: string, value: PyValue) returns (raised: Option<CacheError>)
      requires Valid()
      modifies store
      ensures Valid()
      ensures UpdateFeedCommand(feedId, key, value).Failure? ==>
                raised == Some(UpdateFeedCommand(feedId, key, value).error) && store.db == old(store.db)
      ensures UpdateFeedCommand(feedId, key, value).Success? ==>
                var c := UpdateFeedCommand(feedId, key, value).value;
                && store.db == Exec(old(store.db), c).0
                && (raised.Some? <==> Exec(old(store.db), c).1.ErrorReply?)
                && (raised.Some? ==> raised.value == Redis(Exec(old(store.db), c).1.error))
    {
      var c := UpdateFeedCommand(feedId, key, value);
      if c.Failure? {
        return Some(c.error);
      }
      var reply := store.Execute(c.value);
      raised := Raised(reply);
    }

    /** delete_feed: reads the author's followers, then removes the feed from every
        timeline and deletes its seven keys. `followers` is the order the set was iterated. */
    method DeleteFeed(authorId: string, feedId: string) returns (raised: Option<CacheError>, ghost followers: seq<string>)
      requires Valid()
      modifies store
      ensures Valid()
      ensures AsSet(SlotOf(old(store.db), Followers(authorId))).Failure? ==>
                raised == Some(Redis(AsSet(SlotOf(old(store.db), Followers(authorId))).error)) && store.db == old(store.db)
      ensures AsSet(SlotOf(old(store.db), Followers(authorId))).Success? ==>
                && Distinct(followers) && Elems(followers) == AsSet(SlotOf(old(store.db), Followers(authorId))).value
                && (forall k :: SlotOf(store.db, k) == FeedDeletedSlot(SlotOf(old(store.db), k), k, authorId, feedId, Elems(followers)))
                && (raised.Some? <==> BatchOutcome(RunReplies(old(store.db), DeleteFeedBatch(authorId, feedId, followers))).Failure?)
    {
      followers := [];
      var members := GetFollowers(authorId);
      if members.Failure? {
        return Some(members.error), followers;
      }
      var order := Enumerate(members.value);
      followers := order;
      ghost var before := store.db;
      var outcome := store.Pipeline(DeleteFeedBatch(authorId, feedId, order));
      forall k ensures SlotOf(store.db, k) == FeedDeletedSlot(SlotOf(before, k), k, authorId, feedId, Elems(order)) {
        DeleteFeedSlots(before, authorId, feedId, order, k);
      }
      raised := if outcome.Failure? then Some(Redis(outcome.error)) else None;
    }

    // ---------------------------------------------------------------- users

    /** update_profile: one HDEL or HSET on the profile hash; every error is raised as a
        ValueError. */
    method UpdateProfile(userId: string, key: string, value: PyValue) returns (raised: Option<CacheError>)
      requires Valid()
      modifies store
      ensures Valid()
      ensures raised.Some? ==> raised.value.ValueError?
      ensures UpdateProfileCommand(userId, key, value).Failure? ==>
                raised == Some(ValueError(UpdateProfileCommand(userId, key, value).error)) && store.db == old(store.db)
      ensures UpdateProfileCommand(userId, key, value).Success? ==>
                var c := UpdateProfileCommand(userId, key, value).value;
                && store.db == Exec(old(store.db), c).0
                && (raised.Some? <==> Exec(old(store.db), c).1.ErrorReply?)
    {
      var c := UpdateProfileCommand(userId, key, value);
      if c.Failure? {
        return Some(ValueError(c.error));
      }
      var reply := store.Execute(c.value);
      raised := Wrapped(reply);
    }

    /** add_follower: both follow sets gain the relation, both counters move by one. */
    method AddFollower(userId: string, followingId: string) returns (raised: Option<CacheError>)
      requires Valid()
      modifies store
      ensures Valid()
      ensures store.db == RunDb(old(store.db), AddFollowerBatch(userId, followingId))
      ensures AsSet(SlotOf(old(store.db), Followers(followingId))).Success? ==>
                AsSet(SlotOf(store.db, Followers(followingId))) == Success(AsSet(SlotOf(old(store.db), Followers(followingId))).value + {userId})
      ensures AsSet(SlotOf(old(store.db), Followings(userId))).Success? ==>
                AsSet(SlotOf(store.db, Followings(userId))) == Success(AsSet(SlotOf(old(store.db), Followings(userId))).value + {followingId})
      ensures raised.Some? <==> BatchOutcome(RunReplies(old(store.db), AddFollowerBatch(userId, followingId))).Failure?
    {
      FollowSets(store.db, userId, followingId, true);
      var outcome := store.Pipeline(AddFollowerBatch(userId, followingId));
      raised := if outcome.Failure? then Some(Redis(outcome.error)) else None;
    }

    /** remove_follower: reads `users:{following_id}:timeline`, then undoes add_follower and,
        when that list is not empty, ZREMs its ids from the user's timeline. */
    method RemoveFollower(userId: string, followingId: string) returns (raised: Option<CacheError>)
      requires Valid()
      modifies store
      ensures Valid()
      ensures AsList(SlotOf(old(store.db), UserKey(followingId, "timeline"))).Failure? ==>
                raised == Some(Redis(WrongType)) && store.db == old(store.db)
      ensures AsList(SlotOf(old(store.db), UserKey(followingId, "timeline"))).Success? ==>
                var feedIds := AsList(SlotOf(old(store.db), UserKey(followingId, "timeline"))).value;
                && store.db == RunDb(old(store.db), RemoveFollowerBatch(userId, followingId, feedIds))
                && (raised.Some? <==> BatchOutcome(RunReplies(old(store.db), RemoveFollowerBatch(userId, followingId, feedIds))).Failure?)
      ensures AsSet(SlotOf(old(store.db), Followers(followingId))).Success?
              && AsList(SlotOf(old(store.db), UserKey(followingId, "timeline"))).Success? ==>
                AsSet(SlotOf(store.db, Followers(followingId))) == Success(AsSet(SlotOf(old(store.db), Followers(followingId))).value - {userId})
      ensures AsSet(SlotOf(old(store.db), Followings(userId))).Success?
              && AsList(SlotOf(old(store.db), UserKey(followingId, "timeline"))).Success? ==>
                AsSet(SlotOf(store.db, Followings(userId))) == Success(AsSet(SlotOf(old(store.db), Followings(userId))).value - {followingId})
    {
      var key := UserKey(followingId, "timeline");
      var listed := store.Read(LRange(key, 0, -1));
      ReadReply(store.db, LRange(key, 0, -1));
      if listed.Failure? {
        return Some(Redis(listed.error));
      }
      WholeRange(AsList(SlotOf(store.db, key)).value);
      var feedIds := listed.value.items;
      UnfollowSets(store.db, userId, followingId, feedIds);
      var outcome := store.Pipeline(RemoveFollowerBatch(userId, followingId, feedIds));
      raised := if outcome.Failure? then Some(Redis(outcome.error)) else None;
    }

    /** get_followers. */
    method GetFollowers(userId: string) returns (r: Result<set<string>, CacheError>)
      requires Valid()
      ensures AsSet(SlotOf(store.db, Followers(userId))).Success? ==> r == Success(AsSet(SlotOf(store.db, Followers(userId))).value)
      ensures AsSet(SlotOf(store.db, Followers(userId))).Failure? ==> r == Failure(Redis(WrongType))
    {
      var reply := store.Read(SMembers(Followers(userId)));
      ReadReply(store.db, SMembers(Followers(userId)));
      if reply.Failure? {
        return Failure(Redis(reply.error));
      }
      r := Success(reply.value.members);
    }

    /** get_following. */
    method GetFollowing(userId: string) returns (r: Result<set<string>, CacheError>)
      requires Valid()
      ensures AsSet(SlotOf(store.db, Followings(userId))).Success? ==> r == Success(AsSet(SlotOf(store.db, Followings(userId))).value)
      ensures AsSet(SlotOf(store.db, Followings(userId))).Failure? ==> r == Failure(Redis(WrongType))
    {
      var reply := store.Read(SMembers(Followings(userId)));
      ReadReply(store.db, SMembers(Followings(userId)));
      if reply.Failure? {
        return Failure(Redis(reply.error));
      }
      r := Success(reply.value.members);
    }

    /** is_following: whether `followerId` is among the ids `userId` follows. */
    method IsFollowing(userId: string, followerId: string) returns (r: Result<bool, CacheError>)
      requires Valid()
      ensures AsSet(SlotOf(store.db, Followings(userId))).Success? ==>
                r == Success(followerId in AsSet(SlotOf(store.db, Followings(userId))).value)
      ensures AsSet(SlotOf(store.db, Followings(userId))).Failure? ==> r == Failure(Redis(WrongType))
    {
      var reply := store.Read(SIsMember(Followings(userId), followerId));
      ReadReply(store.db, SIsMember(Followings(userId), followerId));
      if reply.Failure? {
        return Failure(Redis(reply.error));
      }
      r := Success(reply.value.b);
    }

    // ---------------------------------------------------------------- credentials

    /** set_registration_credentials / set_forgot_password_credentials: stores the mapping
        under the token. The token and the expiry timestamp come from the caller (they are
        drawn from uuid4 and the clock); the key's time to live is not modelled. */
    method SetCredentials(registration: bool, mapping: seq<(string, PyValue)>, token: string, expiresAt: string)
      returns (r: Result<(string, string), CacheError>)
      requires Valid()
      modifies store
      ensures Valid()
      ensures (EncodeMapping(mapping).None? || EncodeMapping(mapping) == Some(map[])) ==>
                r == Failure(Redis(DataError)) && store.db == old(store.db)
      ensures EncodeMapping(mapping).Some? && EncodeMapping(mapping).value != map[] ==>
                var c := HSet(CredentialKey(registration, token), EncodeMapping(mapping).value);
                && store.db == Exec(old(store.db), c).0
                && (AsHash(SlotOf(old(store.db), CredentialKey(registration, token))).Success? ==> r == Success((token, expiresAt)))
                && (AsHash(SlotOf(old(store.db), CredentialKey(registration, token))).Failure? ==> r == Failure(Redis(WrongType)))
    {
      var fields := EncodeMapping(mapping);
      if fields.None? || fields.value == map[] {
        return Failure(Redis(DataError));
      }
      var reply := store.Execute(HSet(CredentialKey(registration, token), fields.value));
      if reply.Failure? {
        return Failure(Redis(reply.error));
      }
      r := Success((token, expiresAt));
    }

    /** get_registration_credentials / get_forgot_password_credentials: the stored hash, or
        None when it is empty. */
    method GetCredentials(registration: bool, token: string) returns (r: Result<Option<map<string, string>>, CacheError>)
      requires Valid()
      ensures CredentialsOf(store.db, registration, token).Success? ==> r == Success(CredentialsOf(store.db, registration, token).value)
      ensures CredentialsOf(store.db, registration, token).Failure? ==> r == Failure(Redis(WrongType))
    {
      var key := CredentialKey(registration, token);
      var reply := store.Read(HGetAll(key));
      ReadReply(store.db, HGetAll(key));
      if reply.Failure? {
        return Failure(Redis(reply.error));
      }
      r := Success(if reply.value.fields == map[] then None else Some(reply.value.fields));
    }

    /** remove_registration_credentials / remove_forgot_password_credentials. */
    method RemoveCredentials(registration: bool, token: string)
      requires Valid()
      modifies store
      ensures Valid()
      ensures SlotOf(store.db, CredentialKey(registration, token)).None?
      ensures forall k :: k != CredentialKey(registration, token) ==> SlotOf(store.db, k) == SlotOf(old(store.db), k)
    {
      var key := CredentialKey(registration, token);
      ghost var before := store.db;
      var _ := store.Execute(Del([key]));
      forall k ensures SlotOf(store.db, k) == if k == key then None else SlotOf(before, k) {
        ExecSlot(before, Del([key]), k);
        DelEffect([key], k, SlotOf(before, k));
      }
    }
  }

  /** What `_get_feeds`' engagement pipeline hands back as a whole. */
  lemma FeedsOutcome(db: Db, feedIds: seq<string>, userId: Option<string>)
    requires ValidDb(db)
    ensures
      var outcome := BatchOutcome(RunReplies(db, FeedsQuery(feedIds, userId)));
      && (outcome.Success? <==> AllReadable(db, feedIds))
      && (outcome.Failure? ==> outcome.error == WrongType)
      && (outcome.Success? ==> Numbers(outcome.value) == AllNumbers(db, feedIds, userId))
  {
    var rs := RunReplies(db, FeedsQuery(feedIds, userId));
    FeedsQueryReplies(db, feedIds, userId);
    if BatchOutcome(rs).Failure? {
      var i :| 0 <= i < |rs| && rs[i] == ErrorReply(FirstError(rs).value);
    }
  }

  /** What get_engagement answers on a keyspace. */
  function EngagementAnswer(db: Db, entityType: string, entityId: string, userId: string): (r: Result<Engagement, CacheError>)
    ensures r.Success? <==> EngagementReadable(db, entityType, entityId)
    ensures r.Failure? ==> r.error == Redis(WrongType)
  {
    if EngagementReadable(db, entityType, entityId) then Success(StoredEngagement(db, entityType, entityId, Some(userId)))
    else Failure(Redis(WrongType))
  }

  /** The flag get_engagement reports for an engagement type: liking shows as `liked`,
      viewing as `viewed`; dislikes are not among the sets it reads. */
  function FlagOf(t: EngagementType): (r: Option<(nat, nat)>)
    ensures r.Some? ==> r.value.0 == r.value.1 + 1 && r.value.1 < |InteractionKeys|
    ensures r.Some? ==> EngagementKeys[r.value.0] == t.Value()
    ensures r.None? <==> t.Value() !in EngagementKeys
  {
    match t
    case Like => Some((3, 2))
    case View => Some((4, 3))
    case Dislike => None
  }

  /** After set_feed_engagement's batch the engagement it answers counts the user and
      carries the type's flag; after remove_feed_engagement's batch the flag is gone. */
  lemma EngagementFlagAfter(db: Db, after: Db, userId: string, t: EngagementType, feedId: Option<string>, commentId: Option<string>, add: bool)
    requires ValidDb(db) && EntityId(feedId, commentId).Some? && FlagOf(t).Some?
    requires after == RunDb(db, if add then SetEngagementBatch(userId, t, feedId, commentId) else RemoveEngagementBatch(userId, t, feedId, commentId))
    requires EngagementReadable(after, EntityType(feedId), EntityId(feedId, commentId).value)
    ensures
      var e := StoredEngagement(after, EntityType(feedId), EntityId(feedId, commentId).value, Some(userId));
      && (add ==> t.Value() in e.counts && e.counts[t.Value()] >= 1)
      && (InteractionKeys[FlagOf(t).value.1] in e.flags <==> add)
  {
    var i := FlagOf(t).value.0;
    assert EngagementKeys[i] in EngagementKeys;
    ActionSetAfter(db, after, userId, t, feedId, commentId, add);
    StoredEntry(after, EntityType(feedId), EntityId(feedId, commentId).value, userId, i);
  }

  /** The entity's set for the type, after either batch, when it is readable: the user is in
      it after set_feed_engagement and not after remove_feed_engagement. */
  lemma ActionSetAfter(db: Db, after: Db, userId: string, t: EngagementType, feedId: Option<string>, commentId: Option<string>, add: bool)
    requires ValidDb(db) && EntityId(feedId, commentId).Some? && FlagOf(t).Some?
    requires after == RunDb(db, if add then SetEngagementBatch(userId, t, feedId, commentId) else RemoveEngagementBatch(userId, t, feedId, commentId))
    requires EntitySet(after, EntityType(feedId), EntityId(feedId, commentId).value, t.Value()).Success?
    ensures (userId in EntitySet(after, EntityType(feedId), EntityId(feedId, commentId).value, t.Value()).value) == add
  {
    var ak := ActionKey(t, feedId, commentId);
    assert EntityKey(EntityType(feedId), EntityId(feedId, commentId).value, t.Value()) == ak;
    var s := SlotOf(db, ak);
    if add {
      Locality(db, SetEngagementBatch(userId, t, feedId, commentId), ak);
      SetEngagementSlot(s, userId, t, feedId, commentId, ak);
    } else {
      Locality(db, RemoveEngagementBatch(userId, t, feedId, commentId), ak);
      RemoveEngagementSlot(s, userId, t, feedId, commentId, ak);
    }
  }

  /** One entry of the stored engagement: the count of set `i` is kept when the set is not
      empty, and its flag is set exactly when the member is in it. */
  lemma StoredEntry(db: Db, entityType: string, entityId: string, member: string, i: nat)
    requires EngagementReadable(db, entityType, entityId) && 1 <= i < 6
    ensures
      var e := StoredEngagement(db, entityType, entityId, Some(member));
      var ms := EntitySet(db, entityType, entityId, EngagementKeys[i]).value;
      && (EngagementKeys[i] in e.counts <==> ms != {})
      && (ms != {} ==> e.counts[EngagementKeys[i]] == |ms|)
      && (InteractionKeys[i - 1] in e.flags <==> member in ms)
  {
    KeyListsDistinct();
    var e := StoredEngagement(db, entityType, entityId, Some(member));
    if InteractionKeys[i - 1] in e.flags {
      var j :| 0 <= j < 5 && member in EntitySet(db, entityType, entityId, EngagementKeys[j + 1]).value && InteractionKeys[j] == InteractionKeys[i - 1];
      assert j == i - 1;
    }
  }

  /** create_feed's pipeline has run from `before` to `after`: every key holds what
      FeedCreatedSlot says, and the first error reply, if any, is raised as a ValueError. */
  ghost predicate FeedCreated(before: Db, after: Db, authorId: string, feedId: string, fields: map<string, string>, score: real,
                              followers: seq<string>, maxDt: int, maxFt: int, maxUt: int, raised: Option<CacheError>)
    requires ValidDb(before) && fields != map[]
  {
    && (forall k :: SlotOf(after, k) == FeedCreatedSlot(SlotOf(before, k), k, authorId, feedId, fields, score, Elems(followers), maxDt, maxFt, maxUt))
    && raised == Wrapped(BatchOutcome(RunReplies(before, CreateFeedBatch(authorId, feedId, fields, score, followers, maxDt, maxFt, maxUt))))
  }

  /** What an awaited call raises: the error of a failed reply. */
  function Raised<T>(outcome: Result<T, StoreError>): (r: Option<CacheError>)
    ensures r.Some? <==> outcome.Failure?
    ensures r.Some? ==> r.value == Redis(outcome.error)
  {
    if outcome.Failure? then Some(Redis(outcome.error)) else None
  }

  /** What create_feed raises: every exception re-raised as a ValueError. */
  function Wrapped<T>(outcome: Result<T, StoreError>): (r: Option<CacheError>)
    ensures r.Some? <==> outcome.Failure?
    ensures r.Some? ==> r.value == ValueError(Redis(outcome.error))
  {
    if outcome.Failure? then Some(ValueError(Redis(outcome.error))) else None
  }

  /** `mapping.get("id", "")` as the commands send it: a string, integer or float is sent
      as its text; any other value makes redis-py refuse the pipeline. */
  function FeedIdOf(mapping: seq<(string, PyValue)>): (r: Option<string>)
    ensures Lookup(mapping, "id").None? ==> r == Some("")
    ensures Lookup(mapping, "id").Some? ==> r == RedisEncode(Lookup(mapping, "id").value)
  {
    match Lookup(mapping, "id")
    case None => Some("")
    case Some(v) => RedisEncode(v)
  }

  /** Iterating a set: each member once, in an order the model does not fix. */
  method Enumerate(members: set<string>) returns (order: seq<string>)
    ensures Distinct(order) && Elems(order) == members
  {
    order := [];
    var rest := members;
    while rest != {}
      invariant Distinct(order) && Elems(order) + rest == members && Elems(order) !! rest
      decreases |rest|
    {
      var m :| m in rest;
      order := order + [m];
      rest := rest - {m};
    }
  }

  /** The loop that fills each feed dict with its engagement and its author. */
  method ViewsFrom(feeds: seq<Feed>, engagements: seq<Engagement>, profiles: map<string, map<string, Option<string>>>)
    returns (views: seq<FeedView>)
    requires AllHave(feeds, "author_id") && |engagements| == |feeds|
    ensures |views| == |feeds|
    ensures forall j :: 0 <= j < |feeds| ==> views[j] == FeedReads.View(feeds[j], engagements[j], profiles)
  {
    views := [];
    for i := 0 to |feeds|
      invariant |views| == i
      invariant forall j :: 0 <= j < i ==> views[j] == FeedReads.View(feeds[j], engagements[j], profiles)
    {
      views := views + [FeedReads.View(feeds[i], engagements[i], profiles)];
    }
  }

  /** The comprehension over the profile replies, in the order the authors were queried:
      each profile that names a non-empty id is filed under that id, a later one replacing
      an earlier one. */
  method ProfilesFrom(db: Db, order: seq<string>, replies: seq<Reply>)
    returns (profiles: map<string, map<string, Option<string>>>)
    requires |replies| == |order|
    requires forall i :: 0 <= i < |order| ==>
               ProfileOf(db, order[i]).Success? && replies[i] == FieldsReply(ProfileOf(db, order[i]).value)
    ensures AuthorsFit(db, Elems(order), profiles)
  {
    profiles := map[];
    for j := 0 to |order|
      invariant AuthorsFit(db, Elems(order[..j]), profiles)
    {
      assert Elems(order[..j + 1]) == Elems(order[..j]) + {order[j]};
      var p := replies[j].values;
      if p[0].Some? && p[0].value != "" {
        profiles := AddProfile(db, Elems(order[..j]), profiles, order[j]);
      } else {
        NoClaimKeepsFit(db, Elems(order[..j]), profiles, order[j]);
      }
    }
    assert order[..|order|] == order;
  }

  /** One more element of a sequence's prefix. */
  lemma PrefixSnoc<T>(s: seq<T>, i: nat)
    requires i < |s|
    ensures s[..i + 1] == s[..i] + [s[i]]
  {
  }

  /** `LRANGE key 0 -1` reads the whole list. */
  lemma WholeRange(l: seq<string>)
    ensures RangeOf(l, 0, -1) == l
  {
  }

  /** What add_follower's batch leaves in the two follow sets. */
  lemma FollowSets(db: Db, userId: string, followingId: string, add: bool)
    requires ValidDb(db) && add
    ensures
      var after := RunDb(db, AddFollowerBatch(userId, followingId));
      && (AsSet(SlotOf(db, Followers(followingId))).Success? ==>
            AsSet(SlotOf(after, Followers(followingId))) == Success(AsSet(SlotOf(db, Followers(followingId))).value + {userId}))
      && (AsSet(SlotOf(db, Followings(userId))).Success? ==>
            AsSet(SlotOf(after, Followings(userId))) == Success(AsSet(SlotOf(db, Followings(userId))).value + {followingId}))
  {
    var cs := AddFollowerBatch(userId, followingId);
    var fk, gk := Followers(followingId), Followings(userId);
    Locality(db, cs, fk);
    Locality(db, cs, gk);
    FollowSetsSlot(SlotOf(db, fk), userId, followingId, true, fk);
    FollowSetsSlot(SlotOf(db, gk), userId, followingId, true, gk);
    FollowKeysDistinct(userId, followingId);
  }

  /** What remove_follower's batch leaves in the two follow sets, whatever ids it strips
      from the user's timeline. */
  lemma UnfollowSets(db: Db, userId: string, followingId: string, feedIds: seq<string>)
    requires ValidDb(db)
    ensures
      var after := RunDb(db, RemoveFollowerBatch(userId, followingId, feedIds));
      && (AsSet(SlotOf(db, Followers(followingId))).Success? ==>
            AsSet(SlotOf(after, Followers(followingId))) == Success(AsSet(SlotOf(db, Followers(followingId))).value - {userId}))
      && (AsSet(SlotOf(db, Followings(userId))).Success? ==>
            AsSet(SlotOf(after, Followings(userId))) == Success(AsSet(SlotOf(db, Followings(userId))).value - {followingId}))
  {
    var head := RemoveFollowerBatch(userId, followingId, []);
    var tail := if feedIds != [] then [ZRem(UserTimeline(userId), feedIds)] else [];
    assert RemoveFollowerBatch(userId, followingId, feedIds) == head + tail;
    var fk, gk := Followers(followingId), Followings(userId);
    TimelineNotFollowSet(userId, followingId);
    UntouchedByTail(db, head, tail, fk, UserTimeline(userId));
    UntouchedByTail(db, head, tail, gk, UserTimeline(userId));
    FollowSetsSlot(SlotOf(db, fk), userId, followingId, false, fk);
    FollowSetsSlot(SlotOf(db, gk), userId, followingId, false, gk);
    FollowKeysDistinct(userId, followingId);
  }

  /** A trailing ZREM of another key does not change what the batch leaves at `k`. */
  lemma UntouchedByTail(db: Db, head: seq<Command>, tail: seq<Command>, k: string, timeline: string)
    requires ValidDb(db) && AllSendable(head) && k != timeline
    requires tail == [] || (|tail| == 1 && tail[0].ZRem? && tail[0].key == timeline && Sendable(tail[0]))
    ensures AllSendable(head + tail)
    ensures SlotOf(RunDb(db, head + tail), k) == RunSlot(SlotOf(db, k), head, k)
  {
    assert AllSendable(tail);
    Locality(db, head + tail, k);
    RunSlotAppend(SlotOf(db, k), head, tail, k);
    if tail != [] {
      RunSlotSingle(RunSlot(SlotOf(db, k), head, k), tail[0], k);
    }
  }

  /** The user's timeline is neither follow set. */
  lemma TimelineNotFollowSet(userId: string, followingId: string)
    ensures UserTimeline(userId) != Followers(followingId) && UserTimeline(userId) != Followings(userId)
  {
    assert UserTimeline(userId) == ("users:" + userId + ":") + "user_timeline";
    assert Followers(followingId) == ("users:" + followingId + ":") + "followers";
    assert Followings(userId) == ("users:" + userId + ":") + "followings";
    SuffixesDiffer("users:" + userId + ":", "user_timeline", "users:" + followingId + ":", "followers", 0);
    SuffixesDiffer("users:" + userId + ":", "user_timeline", "users:" + userId + ":", "followings", 0);
  }

  /** `{"feeds": feeds, "end": total_count}`, or the error `_get_feeds` raised. */
  function PageOf(feeds: Result<seq<FeedView>, CacheError>, total: int): (r: Result<Page, CacheError>)
    ensures r.Success? <==> feeds.Success?
    ensures r.Success? ==> r.value == Page(feeds.value, total)
    ensures r.Failure? ==> r.error == feeds.error
  {
    match feeds
    case Failure(e) => Failure(e)
    case Success(fs) => Success(Page(fs, total))
  }

  /** A profile that claims an id is kept under that id, replacing an earlier one. */
  function AddProfile(db: Db, seen: set<string>, profiles: map<string, map<string, Option<string>>>, a: string):
    (r: map<string, map<string, Option<string>>>)
    requires AuthorsFit(db, seen, profiles) && ProfileOf(db, a).Success?
    requires ProfileOf(db, a).value[0].Some? && ProfileOf(db, a).value[0].value != ""
    ensures AuthorsFit(db, seen + {a}, r)
    ensures r == profiles[ProfileOf(db, a).value[0].value := ProfileDict(ProfileOf(db, a).value)]
  {
    var x := ProfileOf(db, a).value[0].value;
    var r := profiles[x := ProfileDict(ProfileOf(db, a).value)];
    assert Claims(db, a, x);
    forall y | y in r ensures exists b :: b in seen + {a} && Claims(db, b, y) && r[y] == ProfileDict(ProfileOf(db, b).value) {
      if y != x {
        var b :| b in seen && Claims(db, b, y) && profiles[y] == ProfileDict(ProfileOf(db, b).value);
      }
    }
    r
  }

  /** A profile without a truthy id adds nothing. */
  lemma NoClaimKeepsFit(db: Db, seen: set<string>, profiles: map<string, map<string, Option<string>>>, a: string)
    requires AuthorsFit(db, seen, profiles)
    requires ProfileOf(db, a).Success? ==> !(ProfileOf(db, a).value[0].Some? && ProfileOf(db, a).value[0].value != "")
    ensures AuthorsFit(db, seen + {a}, profiles)
  {
    forall b, x | b in seen + {a} && Claims(db, b, x) ensures x in profiles {
      assert b != a;
    }
  }

  /** What `_get_feeds` answers once the non-empty metas have been decoded into `fs`. */
  ghost predicate Assembled(db: Db, fs: seq<Feed>, userId: Option<string>, r: Result<seq<FeedView>, CacheError>)
  {
    if !AllHave(fs, "id") then r == Failure(MissingKey("id"))
    else if !AllReadable(db, FieldAll(fs, "id")) then r == Failure(Redis(WrongType))
    else if !AllHave(fs, "author_id") then r == Failure(MissingKey("author_id"))
    else if !ProfilesReadable(db, AuthorIds(fs)) then r == Failure(Redis(WrongType))
    else r.Success? && ViewsOf(db, fs, AllNumbers(db, FieldAll(fs, "id"), userId), userId.Some?, r.value)
  }

  lemma AssembledServed(db: Db, ids: seq<string>, userId: Option<string>, fs: seq<Feed>, r: Result<seq<FeedView>, CacheError>)
    requires MetasReadable(db, ids) && AllDecodable(NonEmpty(Metas(db, ids)))
    requires fs == Decoded(NonEmpty(Metas(db, ids))) && Assembled(db, fs, userId, r)
    ensures Served(db, ids, userId, r)
  {
  }

  lemma NonEmptySnoc(hs: seq<map<string, string>>, h: map<string, string>)
    ensures NonEmpty(hs + [h]) == NonEmpty(hs) + (if h == map[] then [] else [h])
  {
    assert (hs + [h])[..|hs|] == hs;
  }

  lemma DecodedSnoc(hs: seq<map<string, string>>, h: map<string, string>)
    requires AllDecodable(hs) && DecodeMeta(h).Success?
    ensures AllDecodable(hs + [h]) && Decoded(hs + [h]) == Decoded(hs) + [DecodeMeta(h).value]
  {
    assert forall i :: 0 <= i < |hs| ==> (hs + [h])[i] == hs[i];
  }

  /** A non-empty meta that does not decode makes the whole answer undecodable. */
  lemma Undecodable(metas: seq<map<string, string>>, i: int)
    requires 0 <= i < |metas| && metas[i] != map[] && DecodeMeta(metas[i]).Failure?
    ensures !AllDecodable(NonEmpty(metas))
  {
    assert metas[i] in NonEmpty(metas);
  }
  // ------------------------------------------------------------------ chats

  /** The chat cache: the set of a user's chats, and one chat tile per chat and user. */
  class ChatCacheManager {
    const store: Store

    ghost predicate Valid()
      reads this, store
    {
      store.Valid()
    }

    constructor(store: Store)
      requires store.Valid()
      ensures this.store == store && Valid()
    {
      this.store := store;
    }

    /** set_chat: the chat joins the user's chats. */
    method SetChat(userId: string, chatId: string) returns (raised: Option<CacheError>)
      requires Valid()
      modifies store
      ensures Valid()
      ensures AsSet(SlotOf(old(store.db), UserChats(userId))).Failure? ==>
                raised == Some(Redis(WrongType)) && store.db == old(store.db)
      ensures AsSet(SlotOf(old(store.db), UserChats(userId))).Success? ==>
                && raised == None
                && AsSet(SlotOf(store.db, UserChats(userId))) == Success(AsSet(SlotOf(old(store.db), UserChats(userId))).value + {chatId})
      ensures forall k :: k != UserChats(userId) ==> SlotOf(store.db, k) == SlotOf(old(store.db), k)
    {
      ghost var before := store.db;
      var reply := store.Execute(SAdd(UserChats(userId), chatId));
      raised := Raised(reply);
      forall k ensures SlotOf(store.db, k) == SlotEffect(SAdd(UserChats(userId), chatId), k, SlotOf(before, k)) {
        ExecSlot(before, SAdd(UserChats(userId), chatId), k);
      }
    }

    /** delete_chat: the chat leaves the user's chats, then the user's tile of it is deleted;
        an error on the first command stops before the second. */
    method DeleteChat(userId: string, chatId: string) returns (raised: Option<CacheError>)
      requires Valid()
      modifies store
      ensures Valid()
      ensures ChatRemoved(old(store.db), store.db, userId, chatId, raised)
    {
      ghost var before := store.db;
      var removed := store.Execute(SRem(UserChats(userId), chatId));
      ghost var middle := store.db;
      forall k ensures SlotOf(middle, k) == SlotEffect(SRem(UserChats(userId), chatId), k, SlotOf(before, k)) {
        ExecSlot(before, SRem(UserChats(userId), chatId), k);
      }
      if removed.Failure? {
        DbExtensional(middle, before);
        return Raised(removed);
      }
      var _ := store.Execute(Del([ChatTileKey(chatId, userId)]));
      forall k ensures SlotOf(store.db, k) == SlotEffect(Del([ChatTileKey(chatId, userId)]), k, SlotOf(middle, k)) {
        ExecSlot(middle, Del([ChatTileKey(chatId, userId)]), k);
      }
      ChatKeysApart(userId, chatId);
      raised := None;
    }

    /** delete_chat_tile: the same two commands as delete_chat. */
    method DeleteChatTile(userId: string, chatId: string) returns (raised: Option<CacheError>)
      requires Valid()
      modifies store
      ensures Valid()
      ensures ChatRemoved(old(store.db), store.db, userId, chatId, raised)
    {
      raised := DeleteChat(userId, chatId);
    }
  }

  /** What delete_chat leaves: on a chats key of another type, WRONGTYPE and nothing
      changed; otherwise the chat is out of the user's chats, the tile is gone, and every
      other key is as it was. */
  ghost predicate ChatRemoved(before: Db, after: Db, userId: string, chatId: string, raised: Option<CacheError>)
  {
    match AsSet(SlotOf(before, UserChats(userId)))
    case Failure(_) => raised == Some(Redis(WrongType)) && after == before
    case Success(chats) =>
      && raised == None
      && AsSet(SlotOf(after, UserChats(userId))) == Success(chats - {chatId})
      && SlotOf(after, ChatTileKey(chatId, userId)) == None
      && forall k :: k != UserChats(userId) && k != ChatTileKey(chatId, userId) ==> SlotOf(after, k) == SlotOf(before, k)
  }

  lemma ChatKeysApart(userId: string, chatId: string)
    ensures UserChats(userId) != ChatTileKey(chatId, userId)
  {
    assert UserChats(userId) == "users:" + (userId + ":chats");
    assert ChatTileKey(chatId, userId) == "chat_tile:" + (chatId + ":" + userId);
    PrefixesDiffer("users:", userId + ":chats", "chat_tile:", chatId + ":" + userId, 0);
  }
}
