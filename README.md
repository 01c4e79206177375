# kronk backend core, modelled in Dafny

This project models the core of the kronk FastAPI backend: the Redis cache that backs
feeds, timelines, engagement, follows and sign-up tokens, and the smaller parts around it.
Those parts are the WebSocket connection registry, the event dispatcher, the string
validators, the request-schema field validators, the two exception handlers, and the
request-counting middleware.

The model is written per source file:

- `my_redis.py` becomes four layers:
  - `RedisSemantics` holds the Redis commands the cache sends, as pure functions on the
    keyspace. The keyspace is a map from key to hash, set, list or sorted set. WRONGTYPE
    is an error reply that changes nothing.
  - `RedisStore.Store` is the client, a class whose `db` field the commands update. A
    pipeline runs every command of a MULTI/EXEC block in order, then raises the first
    error reply. redis-py refuses an unsendable argument before anything is sent.
  - `FeedCache` holds the exact command batch of each write and proves what the batch
    leaves at every key. `FeedReads` does the same for the read pipelines and the
    dictionaries `_get_feeds` builds.
  - `CacheManagers` holds `CacheManager` and `ChatCacheManager` as classes over a shared
    `Store`. Their methods queue the same commands in the same order, and their loops
    carry invariants. Each method's `ensures` ties its result and the new keyspace to the
    functions of `FeedCache` and `FeedReads`.
- `Statistics` models `scores_getter` and `parse_statistics`. `today` is a parameter;
  dates are proleptic Gregorian `(year, month, day)` triples.
- `WebSockets` models `WebSocketManager` as a class with a map and a sequence of socket
  objects. Each socket records what it was sent.
- `Events` models `EventDispatcher` as a class with a handler map and a log of calls and
  warnings.
- `Validators`, `PyData` (for `convert_for_redis`) and `Usernames` model
  `validators.py` and `generate_unique_username`.
- `UserSchemas` and `FeedSchemas` model the pydantic field validators. `Exceptions`
  models the exception types they raise, and `DateTimes` the comparison of naive and
  aware datetimes.
- `App` models the two exception handlers of `main.py`.
- `Middleware` models `RequestCountMiddleware`.
- `Text` and `Json` model the string and JSON operations the source relies on: ASCII
  case mapping, `strip`, decimal integers, and `json.dumps`/`json.loads` for lists of
  strings.

Key strings are the source's own, including where readers and writers disagree:

- `get_following_timeline` reads `user:{id}:following_timeline`.
- `get_user_timeline` counts `users:` but reads `user:`.
- `remove_feed_engagement` removes from `users:{id}::{type}`.

The lemmas make these mismatches visible instead of hiding them.

## Model

| member | source | states |
|---|---|---|
| RedisStore.Store.Pipeline | pod/settings/my_redis.py:180-183 | a batch with an unsendable command changes nothing and raises that refusal; otherwise every command runs in order and the result is the first error reply, or all replies |
| RedisStore.Store.Query | pod/settings/my_redis.py:273-280 | a read-only pipeline answers the replies of its commands on the current keyspace, or the first error among them |
| RedisStore.Store.Execute | pod/settings/my_redis.py:332-337 | one awaited command: the keyspace after it and its reply, an error reply raised |
| RedisStore.BatchOutcome | pod/settings/my_redis.py:325 | `pipe.execute()` fails exactly when some reply is an error, and otherwise hands back every reply |
| RedisSemantics.Locality | pod/settings/my_redis.py:312-325 | the value of a key after a batch depends only on its value before and on the commands of the batch that touch it |
| RedisSemantics.RunAppend | pod/settings/my_redis.py:312-325 | running two batches one after the other is running their concatenation, replies included |
| RedisSemantics.ZUpsert | pod/settings/my_redis.py:315 | ZADD leaves the set sorted by (score, member), with the member exactly once at its new score and every other entry kept |
| RedisSemantics.ZTrimKeepsTop | pod/settings/my_redis.py:316 | ZREMRANGEBYRANK 0 -(m+1) keeps exactly the m highest-ranked entries |
| RedisSemantics.LTrimDropTail | pod/settings/my_redis.py:320 | LTRIM 0 -(m+1) keeps the first len-m items, and empties a list of at most m items |
| RedisSemantics.LTrimKeepHead | pod/settings/my_redis.py:323 | LTRIM 0 m-1 keeps the first m items |
| RedisSemantics.RemoveAll | pod/settings/my_redis.py:347 | LREM with count 0 leaves no occurrence of the item, every other value still present, and the list no longer |
| CacheKeys.UserKeyInjective | pod/settings/my_redis.py:319 | two followers' following-timeline keys are equal only when the followers are |
| CacheKeys.SingularNotPlural | pod/settings/my_redis.py:157-170 | a `user:` key is never a `users:` key, so the timeline reads never see what the writes store |
| FeedCache.FanOutSlot | pod/settings/my_redis.py:318-320 | the fan-out changes each follower's following timeline by one LPUSH+LTRIM and no other key, whatever the followers' order |
| FeedCache.CreateFeedSlots | pod/settings/my_redis.py:312-325 | create_feed's whole batch leaves every key as FeedCreatedSlot says: meta, global timeline, each follower's timeline and the author's timeline, and nothing else |
| FeedCache.CreatedGlobalTimeline | pod/settings/my_redis.py:315-316 | after create_feed the global timeline holds at most max_dt entries, sorted, each feed once, and every kept entry outranks every dropped one |
| FeedCache.TopOfKeepsHighest | pod/settings/my_redis.py:316 | the trimmed set has at most m entries, stays sorted, and outranks what it dropped |
| FeedCache.CreatedFollowingTimeline | pod/settings/my_redis.py:318-320 | a follower's timeline after create_feed is the pushed list trimmed to its first len-max_ft items, so a list of at most max_ft items becomes empty |
| FeedCache.CreatedUserTimeline | pod/settings/my_redis.py:322-323 | the author's user timeline starts with the new feed and holds between 1 and max_ut ids |
| FeedCache.PrepareMeta | pod/settings/my_redis.py:296-305 | the prepared mapping drops `author`, sets `author_id`, JSON-encodes a list `image_urls` and keeps every other field; it fails exactly when that list cannot be encoded |
| FeedCache.StoredMetaFields | pod/settings/my_redis.py:298-313 | the stored meta hash is non-empty, has no `author`, has `author_id` equal to the author, and its `image_urls` decodes back to the URLs given |
| FeedCache.CreatedMeta | pod/settings/my_redis.py:313 | the meta hash after create_feed is the old hash updated with the new fields |
| FeedCache.UnlinkSlot | pod/settings/my_redis.py:346-347 | the LREM loop removes the feed from each follower's following timeline and touches no other key |
| FeedCache.DeleteFeedSlots | pod/settings/my_redis.py:343-354 | delete_feed's batch leaves every key as FeedDeletedSlot says |
| FeedCache.DeletedSlotMeaning | pod/settings/my_redis.py:344-352 | after delete_feed the seven feed keys are gone, the global timeline lacks the feed, every follower timeline and the author's timeline lose every occurrence, and every other key is unchanged |
| FeedCache.KeysApart | pod/settings/my_redis.py:344-352 | the keys delete_feed writes are pairwise distinct families, so their effects do not interfere |
| FeedCache.ActionKeyNotUserKey | pod/settings/my_redis.py:245-246 | an entity's engagement set is never a user's reverse-index key |
| FeedCache.SetEngagementSlot | pod/settings/my_redis.py:248-251 | set_feed_engagement's batch adds the user to the entity's set, adds the entity to the user's index, and changes no other key |
| FeedCache.RemoveEngagementSlot | pod/settings/my_redis.py:261-264 | remove_feed_engagement's batch removes the user from the entity's set, removes the entity from the `users:{id}:{comments or empty}:{type}` key, and changes no other key |
| FeedCache.SetEngagementIdempotent | pod/settings/my_redis.py:248-251 | running set_feed_engagement's batch twice leaves the keyspace it leaves once |
| FeedCache.SetEngagementMembers | pod/settings/my_redis.py:249-250 | after set_feed_engagement the entity's set gains exactly the user and the user's index gains exactly the entity |
| FeedCache.RemoveEngagementNotMember | pod/settings/my_redis.py:262 | after remove_feed_engagement the user is no longer in the entity's set, which is otherwise unchanged |
| FeedCache.RemoveEngagementNoOp | pod/settings/my_redis.py:261-264 | removing an engagement nobody recorded leaves the keyspace unchanged |
| FeedCache.FeedIndexSurvivesRemove | pod/settings/my_redis.py:259 | for a feed, set then remove leaves the feed in `users:{id}:feeds:{type}`, because remove targets `users:{id}::{type}` |
| FeedCache.FollowKeysDistinct | pod/settings/my_redis.py:428-431 | the two follow sets and the two profile hashes add_follower writes are different keys |
| FeedCache.FollowSetsSlot | pod/settings/my_redis.py:427-447 | add_follower adds, and remove_follower removes, the user in the followed user's followers and the followed id in the user's followings |
| FeedCache.FollowThenUnfollow | pod/settings/my_redis.py:425-448 | following then unfollowing restores both follow sets to what they were when the relation was new |
| FeedCache.ProfileValue | pod/settings/my_redis.py:367-372 | a datetime becomes its timestamp, a bool 1 or 0, a string its stripped text, and anything else is kept |
| FeedCache.UpdateProfileCommand | pod/settings/my_redis.py:374-377 | None becomes HDEL of the field, a string HSET of its stripped text, a bool HSET of "1" or "0"; a list, dict, tuple or UUID is refused with DataError |
| FeedCache.UpdateFeedCommand | pod/settings/my_redis.py:330-338 | None becomes HDEL of the field; a list is sent as its JSON text, and refused when it has no JSON form; a string is sent as is |
| FeedCache.UpdateFeedListRoundTrip | pod/settings/my_redis.py:335-337 | a list of URLs written by update_feed reads back, through json.loads, as the same list |
| FeedCache.CredentialsOf | pod/settings/my_redis.py:467-469 | a missing token key reads as None, and a present one as its non-empty hash |
| FeedCache.CredentialsRoundTrip | pod/settings/my_redis.py:461-472 | credentials stored under a fresh token read back unchanged, and read as None after removal |
| FeedReads.KeptCounts | pod/settings/my_redis.py:285 | a counter is in the engagement exactly when its count is positive, and then holds that count |
| FeedReads.TrueFlags | pod/settings/my_redis.py:288 | a flag is in the engagement exactly when its SISMEMBER reply is true |
| FeedReads.ParseStored | pod/settings/my_redis.py:282-290 | the counts and flags built from the replies are those of the stored sets |
| FeedReads.StoredCounts | pod/settings/my_redis.py:283-285 | the first six replies give the counters of the six stored engagement sets |
| FeedReads.StoredFlags | pod/settings/my_redis.py:287-288 | the five SISMEMBER replies give the reposted, quoted, liked, viewed and bookmarked flags |
| FeedReads.EngagementQueryReplies | pod/settings/my_redis.py:273-280 | get_engagement's pipeline fails, with WRONGTYPE only, exactly when one of the six sets is another type, and otherwise answers the stored numbers |
| FeedReads.GetEngagementMeaning | pod/settings/my_redis.py:268-290 | get_engagement answers the engagement of the stored sets, or WRONGTYPE exactly when a set key holds another type |
| FeedReads.FeedsQueryReplies | pod/settings/my_redis.py:202-210 | the engagement pipeline of `_get_feeds` fails, with WRONGTYPE, exactly when a feed's sets are unreadable, and otherwise answers every feed's numbers in order |
| FeedReads.AllNumbersBlock | pod/settings/my_redis.py:212-217 | the replies for feed j sit at `j*chunk_size .. j*chunk_size+chunk_size` and are that feed's stored numbers |
| FeedReads.ChunkAligned | pod/settings/my_redis.py:212-224 | with no user id or a non-empty one, each feed's chunk is that feed's stored engagement |
| FeedReads.EmptyUserIdMisaligns | pod/settings/my_redis.py:207-221 | with user id "", no SISMEMBERs are queued but chunks are cut 11 wide, so the first feed takes its flags from the second feed's counts and the second feed reports only its bookmarks, as comments |
| FeedReads.NonEmpty | pod/settings/my_redis.py:186-188 | the loop keeps exactly the non-empty metas, in order, and keeps all of them when none is empty |
| FeedReads.MetaQueryReplies | pod/settings/my_redis.py:180-183 | the meta pipeline fails with WRONGTYPE exactly when some meta key holds another type, and otherwise answers each meta hash in order |
| FeedReads.ProfileQueryReplies | pod/settings/my_redis.py:230-233 | the profile pipeline fails with WRONGTYPE exactly when some profile key holds another type, and otherwise answers each author's four fields |
| FeedReads.ServedNoIds | pod/settings/my_redis.py:176-240 | `_get_feeds` of no ids answers no feeds |
| FeedReads.ServedParts | pod/settings/my_redis.py:176-240 | a successful answer comes from readable, decodable metas, each with an id and an author id, and readable engagement and profile keys |
| FeedReads.ViewParts | pod/settings/my_redis.py:186-238 | every answered feed keeps its meta fields except the replaced ones, and carries its own chunk of engagement |
| FeedReads.ServedFields | pod/settings/my_redis.py:186-196 | the answer has at most one feed per id, each built from some stored meta; when no meta is empty it has exactly one per id, in order |
| FeedReads.ServedEngagement | pod/settings/my_redis.py:198-224 | with no user id or a non-empty one, every answered feed carries the stored engagement of its own id |
| FeedReads.ServedAuthors | pod/settings/my_redis.py:226-238 | when every author's profile names that author, each feed's author is that author's profile dict, or {} when there is none |
| FeedReads.FitAuthor | pod/settings/my_redis.py:235-238 | `author_profiles.get(author_id, {})` is that author's own profile when profiles name their owners |
| FeedReads.CreatedFeedDecodes | pod/settings/my_redis.py:191-313 | a meta written by create_feed is non-empty, names its author, and decodes to the image URLs given |
| FeedReads.FollowingPageAfterCreate | pod/settings/my_redis.py:157-163 | the following timeline read stays empty after create_feed, because it reads `user:` keys and the fan-out writes `users:` keys |
| FeedReads.UserPageAfterCreate | pod/settings/my_redis.py:165-172 | after create_feed the user timeline count is between 1 and max_ut, while the page read from `user:` stays empty |
| CacheManagers.CacheManager.FetchFeeds | pod/settings/my_redis.py:180-196 | the metas as `_get_feeds` reads them: WRONGTYPE, a JSON error, or the decoded non-empty metas in order |
| CacheManagers.CacheManager.DecodeAll | pod/settings/my_redis.py:186-196 | the decode loop skips empty metas, decodes `image_urls` (defaulting to []), and fails on the first malformed one |
| CacheManagers.CacheManager.FeedIds | pod/settings/my_redis.py:203-204 | `feed["id"]` for every feed in order, or KeyError("id") |
| CacheManagers.CacheManager.FetchEngagements | pod/settings/my_redis.py:202-224 | WRONGTYPE when some engagement set is unreadable, otherwise one engagement per feed, cut from the replies at its chunk |
| CacheManagers.CacheManager.Chunks | pod/settings/my_redis.py:212-224 | the slicing loop gives feed i exactly the engagement of its chunk |
| CacheManagers.CacheManager.AuthorsOf | pod/settings/my_redis.py:227 | the set of author ids, or KeyError("author_id") |
| CacheManagers.CacheManager.FetchAuthors | pod/settings/my_redis.py:227-235 | WRONGTYPE when a profile is unreadable, otherwise `author_profiles` as the comprehension builds it |
| CacheManagers.CacheManager.GetFeeds | pod/settings/my_redis.py:176-240 | `_get_feeds` answers what Served says: every failure in source order, otherwise the feeds with engagement and author |
| CacheManagers.CacheManager.Assemble | pod/settings/my_redis.py:198-240 | the part of `_get_feeds` after decoding answers what Assembled says |
| CacheManagers.CacheManager.GetDiscoverTimeline | pod/settings/my_redis.py:147-154 | an empty page with end 0 when the global timeline is empty, otherwise the feeds ranked start..end from the top and end = ZCARD |
| CacheManagers.CacheManager.GetFollowingTimeline | pod/settings/my_redis.py:156-163 | LLEN and LRANGE on `user:{id}:following_timeline`: an empty page with end 0, or the range's feeds with end = count |
| CacheManagers.CacheManager.GetUserTimeline | pod/settings/my_redis.py:165-172 | the count from `users:{id}:user_timeline` and the ids from `user:{id}:user_timeline` |
| CacheManagers.CacheManager.GetEngagement | pod/settings/my_redis.py:268-290 | the answer is the engagement of the stored sets, or WRONGTYPE |
| CacheManagers.CacheManager.SetFeedEngagement | pod/settings/my_redis.py:242-253 | with no entity id the batch is refused and nothing changes; otherwise the keyspace is the batch's result, and the answer is the error or the engagement read afterwards |
| CacheManagers.CacheManager.RemoveFeedEngagement | pod/settings/my_redis.py:255-266 | the same shape as SetFeedEngagement, with the SREM batch |
| CacheManagers.CacheManager.CreateFeed | pod/settings/my_redis.py:294-328 | every failure is a ValueError: unencodable image URLs, an unreadable follower set, or an unsendable mapping change nothing; otherwise the keyspace is FeedCreated over the followers read |
| CacheManagers.CacheManager.CreateFeedPipeline | pod/settings/my_redis.py:312-328 | the queued pipeline leaves the keyspace FeedCreated says and raises its first error as ValueError |
| CacheManagers.CacheManager.UpdateFeed | pod/settings/my_redis.py:330-338 | one HDEL or HSET on the feed's meta hash, or a refusal that changes nothing |
| CacheManagers.CacheManager.DeleteFeed | pod/settings/my_redis.py:340-354 | WRONGTYPE on the follower set changes nothing; otherwise every key is as FeedDeletedSlot says over the followers read |
| CacheManagers.CacheManager.UpdateProfile | pod/settings/my_redis.py:365-379 | one HDEL or HSET on the profile hash; every failure is raised as ValueError |
| CacheManagers.CacheManager.AddFollower | pod/settings/my_redis.py:425-432 | both follow sets gain the relation and the batch's first error is raised |
| CacheManagers.CacheManager.RemoveFollower | pod/settings/my_redis.py:434-448 | reads `users:{id}:timeline`, then both follow sets lose the relation; WRONGTYPE on that read changes nothing |
| CacheManagers.CacheManager.GetFollowers | pod/settings/my_redis.py:450-451 | the followers set, or WRONGTYPE |
| CacheManagers.CacheManager.GetFollowing | pod/settings/my_redis.py:453-454 | the followings set, or WRONGTYPE |
| CacheManagers.CacheManager.IsFollowing | pod/settings/my_redis.py:456-457 | whether the id is in the user's followings set, or WRONGTYPE |
| CacheManagers.CacheManager.SetCredentials | pod/settings/my_redis.py:461-465 | stores the mapping under the registration or forgot-password token key and answers the token and expiry; an empty or unencodable mapping is refused and nothing changes |
| CacheManagers.CacheManager.GetCredentials | pod/settings/my_redis.py:467-469 | the stored hash, None when it is empty, or WRONGTYPE |
| CacheManagers.CacheManager.RemoveCredentials | pod/settings/my_redis.py:471-472 | the token key is gone and every other key is unchanged |
| CacheManagers.FeedsOutcome | pod/settings/my_redis.py:202-210 | the engagement pipeline succeeds exactly when every feed's sets are readable, and its numbers are the stored ones |
| CacheManagers.EngagementAnswer | pod/settings/my_redis.py:268-290 | the engagement read succeeds exactly when the six sets are readable, and otherwise fails with WRONGTYPE |
| CacheManagers.FlagOf | pod/settings/my_redis.py:270-271 | the flag of an engagement type is the interaction key at the same position less one; `dislikes` has none |
| CacheManagers.EngagementFlagAfter | pod/settings/my_redis.py:242-266 | after set_feed_engagement the answer counts the type at least once and shows its flag; after remove the flag is absent |
| CacheManagers.ActionSetAfter | pod/settings/my_redis.py:249-262 | the user is in the entity's set after set, and out of it after remove |
| CacheManagers.StoredEntry | pod/settings/my_redis.py:282-288 | each counter is present exactly when its set is non-empty, with its size, and each flag exactly when the user is a member |
| CacheManagers.FeedIdOf | pod/settings/my_redis.py:296 | `mapping.get("id", "")` as sent: "" when absent, otherwise its Redis encoding |
| CacheManagers.Enumerate | pod/settings/my_redis.py:231 | iterating a set visits each member exactly once |
| CacheManagers.ViewsFrom | pod/settings/my_redis.py:237-238 | the last loop of `_get_feeds` builds each feed's view from its own engagement and author |
| CacheManagers.ProfilesFrom | pod/settings/my_redis.py:235 | the dict comprehension keeps one profile per truthy claimed id |
| CacheManagers.AddProfile | pod/settings/my_redis.py:235 | a profile with a truthy id is stored under that id, replacing an earlier one |
| CacheManagers.NoClaimKeepsFit | pod/settings/my_redis.py:235 | a profile without a truthy id adds nothing |
| CacheManagers.AssembledServed | pod/settings/my_redis.py:176-240 | decoding then assembling answers what `_get_feeds` answers |
| CacheManagers.Undecodable | pod/settings/my_redis.py:191-192 | one malformed non-empty meta makes the whole read fail |
| CacheManagers.PageOf | pod/settings/my_redis.py:154 | `{"feeds": feeds, "end": total}`, or the error of `_get_feeds` |
| CacheManagers.WholeRange | pod/settings/my_redis.py:437 | LRANGE 0 -1 reads the whole list |
| CacheManagers.FollowSets | pod/settings/my_redis.py:428-429 | add_follower's batch adds the user to the followers and the followed id to the followings |
| CacheManagers.UnfollowSets | pod/settings/my_redis.py:441-447 | remove_follower's batch removes both, whatever ids the trailing ZREM strips |
| CacheManagers.ChatCacheManager.SetChat | pod/settings/my_redis.py:124-125 | the chat joins the user's chats set and nothing else changes, or WRONGTYPE |
| CacheManagers.ChatCacheManager.DeleteChat | pod/settings/my_redis.py:127-129 | the chat leaves the user's chats, the tile is deleted, and nothing else changes; WRONGTYPE stops before the delete |
| CacheManagers.ChatCacheManager.DeleteChatTile | pod/settings/my_redis.py:120-122 | the same effect as delete_chat |
| CacheManagers.ChatKeysApart | pod/settings/my_redis.py:121-122 | the chats set and the chat tile are different keys |
| Statistics.ScoresGetter | pod/settings/my_redis.py:567-568 | the six counters in source order, each 0 when absent |
| Statistics.ScoresOfEngagement | pod/settings/my_redis.py:567-568 | applied to a stored engagement, the six counts are the sizes of the six sets |
| Statistics.ParseStatistics | pod/settings/my_redis.py:588-632 | weekly is today's Monday-to-Sunday week; monthly, yearly and total count exactly the parseable keys not after today |
| Statistics.WeeklyTotals | pod/settings/my_redis.py:593-599 | seven entries, Monday first, each named by its weekday and holding that date's count or 0 |
| Statistics.Totals | pod/settings/my_redis.py:601-630 | the accumulation loop leaves the monthly, yearly and total figures of the counted entries |
| Statistics.Tally | pod/settings/my_redis.py:611-627 | one loop step adds a counted entry to total, to its year, and to its month when in the current year; a skipped entry adds nothing |
| Statistics.Accumulate | pod/settings/my_redis.py:617-627 | adding one dated count moves the total, its year's total and (in the current year) its month's total by that count |
| Statistics.CountedStep | pod/settings/my_redis.py:610-614 | an entry counts exactly when its key parses as a date not after today |
| Statistics.CountedEntries | pod/settings/my_redis.py:610-617 | every parseable entry not after today is counted |
| Statistics.StartOfWeek | pod/settings/my_redis.py:593 | the Monday of today's week |
| Statistics.WeekRunsMondayToSunday | pod/settings/my_redis.py:593-597 | day i of the week is weekday i, and today is the day at its own weekday |
| Statistics.ParseFormatDate | pod/settings/my_redis.py:598-612 | a date formatted `%Y-%m-%d` parses back to itself |
| Statistics.TotalIsYearlySum | pod/settings/my_redis.py:617-621 | total equals the sum of the yearly totals |
| Statistics.YearlyValues | pod/settings/my_redis.py:620-621 | each year's total is the sum of that year's counts, and a year appears exactly when some entry falls in it |
| Statistics.MonthlySumsToYear | pod/settings/my_redis.py:624-627 | the twelve monthly totals add up to the current year's total |
| WebSockets.WebSocket.Accept | pod/settings/my_websocket.py:20 | accept succeeds unless the peer fails it |
| WebSockets.WebSocket.SendJson | pod/settings/my_websocket.py:49 | a successful send appends the payload to what the peer received |
| WebSockets.RemoveFirst | pod/settings/my_websocket.py:37 | `list.remove` drops one occurrence and keeps the rest |
| WebSockets.RemoveFirstAt | pod/settings/my_websocket.py:37 | it is the first occurrence that goes |
| WebSockets.RemoveAppended | pod/settings/my_websocket.py:26-37 | disconnecting a socket just connected anonymously restores the list |
| WebSockets.RegisteredIds | pod/settings/my_websocket.py:54 | the ids kept are exactly those registered, in order, with repeats |
| WebSockets.Targets | pod/settings/my_websocket.py:54 | a non-empty id list targets the registered sockets among those ids; None or [] targets every anonymous socket |
| WebSockets.WebSocketManager.Connect | pod/settings/my_websocket.py:18-29 | a truthy id files the socket under it, replacing any earlier one; otherwise it is appended to the anonymous list; a failed accept changes nothing and raises ValueError |
| WebSockets.WebSocketManager.Disconnect | pod/settings/my_websocket.py:31-41 | a truthy id drops its entry, present or not; otherwise the socket's first occurrence leaves the list, and ValueError is raised when it is absent |
| WebSockets.WebSocketManager.SendPersonalMessage | pod/settings/my_websocket.py:43-51 | an unknown id raises ApiException(400, "Connection not found."); a failed send raises ValueError; no other socket receives anything |
| WebSockets.WebSocketManager.Broadcast | pod/settings/my_websocket.py:53-62 | each working target receives the payload once per time it is targeted, failing ones receive nothing, and nothing is raised |
| WebSockets.SendAll | pod/settings/my_websocket.py:56-62 | the gather of safe sends isolates failures |
| Events.NoHandlerWarning | pod/utility/event_dispatcher.py:22 | the warning text names the event type |
| Events.EventDispatcher.On | pod/utility/event_dispatcher.py:10-15 | the handler is stored under the type, replacing any earlier one, and handed back unchanged |
| Events.EventDispatcher.Dispatch | pod/utility/event_dispatcher.py:17-22 | the registered handler is called once with the payload, or a warning is logged; the table is unchanged |
| Events.RegisteredDispatcher | pod/utility/event_dispatcher.py:25-36 | after import the table maps exactly "goes_online" and "message" to their handlers |
| Validators.ValidateLength | pod/utility/validators.py:58-60 | passes exactly when min ≤ length ≤ max, and otherwise gives the "must be between" message |
| Validators.AnyOccurs | pod/utility/validators.py:18 | the alternation matches exactly when one of the words occurs |
| Validators.HasViolentWord | pod/utility/validators.py:17-18 | the case-insensitive search matches exactly when some listed word occurs in the lower-cased text |
| Validators.ViolentRoots | pod/utility/validators.py:17 | the eight words match exactly when "sex", "nude", "porn" or "nudity" occurs |
| Validators.ViolentIgnoresCase | pod/utility/validators.py:28 | lower-casing the input does not change the verdict |
| Validators.ValidateUsername | pod/utility/validators.py:23-29 | None passes, "" fails first, then length 3 to 20, then no violent word |
| Validators.CheckEmail | pod/utility/validators.py:16 | the regular expression is decided exactly |
| Validators.ValidateEmail | pod/utility/validators.py:32-38 | None passes, "" fails first, then length 5 to 255, then the email pattern |
| Validators.ValidatePhoneNumber | pod/utility/validators.py:41-44 | rejects only "" |
| Validators.ValidatePassword | pod/utility/validators.py:47-55 | None passes, "" fails first, then length 8 to 255, then a digit, then a letter, each with its own message |
| Validators.GetFileExtension | pod/utility/validators.py:63-66 | "" without a name or a dot, and never contains a dot |
| Validators.ExtensionOf | pod/utility/validators.py:65 | the extension is the lower-cased text after the last dot |
| Validators.Escape | pod/utility/validators.py:126-129 | the output is one character longer per special character |
| Validators.UnescapeEscape | pod/utility/validators.py:126-129 | removing the backslashes recovers the input |
| Validators.EscapePlain | pod/utility/validators.py:128-129 | text without special characters is unchanged |
| PyData.ConvertValue | pod/utility/validators.py:112-121 | a UUID becomes its hex, a datetime its timestamp, dicts and lists convert element by element, a tuple becomes a list, anything else is kept; the result is Redis-ready |
| PyData.ConvertEntries | pod/utility/validators.py:109-123 | the same keys in the same order, each value converted |
| PyData.ConvertReadyIdentity | pod/utility/validators.py:112-121 | converting a Redis-ready value changes nothing |
| PyData.ConvertIdempotent | pod/utility/validators.py:109-123 | converting twice is converting once |
| PyData.EncodeMapping | pod/settings/my_redis.py:313 | `hset(mapping=...)` sends the mapping when every value is a string or number, with the same keys |
| PyData.RedisEncode | pod/settings/my_redis.py:337 | strings, integers and floats are sendable; other values are not |
| PyData.Remove | pod/settings/my_redis.py:299 | `mapping.pop` leaves every other entry |
| PyData.Assign | pod/settings/my_redis.py:305 | assigning a key sets it and keeps every other key's value |
| Json.Dumps | pod/settings/my_redis.py:302 | a string dumps to its quoted form; a UUID or datetime cannot be dumped |
| Json.LoadsDumpsStrings | pod/settings/my_redis.py:192-302 | `json.loads(json.dumps(urls))` gives back the URL list |
| Text.Lower | pod/utility/utility.py:90 | the same length, each character lower-cased |
| Text.LowerIdempotent | pod/utility/utility.py:90 | lower-casing twice is lower-casing once |
| Text.StripIsTrimmedSlice | pod/settings/my_redis.py:372 | `str.strip` gives a slice of the input with no whitespace at either end |
| Text.ParseFormatInt | pod/settings/my_redis.py:620 | the decimal text of an integer parses back to it |
| Text.HasSubstring | pod/utility/validators.py:28 | the search finds the word exactly when it occurs |
| Usernames.ReplaceSpaces | pod/utility/utility.py:90 | each space becomes "_", every other character is kept |
| Usernames.KeepWordChars | pod/utility/utility.py:90 | only word characters remain |
| Usernames.GenerateUniqueUsername | pod/utility/utility.py:89-90 | the result holds only `[a-z0-9_]` and is no longer than the input |
| Usernames.UsernameOfConcat | pod/utility/utility.py:90 | the username of a concatenation is the concatenation of the usernames, so kept characters stay in order |
| Usernames.UsernameOfChar | pod/utility/utility.py:90 | a space becomes "_", a word character its lower case, anything else nothing |
| Usernames.UsernameIdempotent | pod/utility/utility.py:90 | applying it twice is applying it once |
| UserSchemas.NameField | pod/apps/users_app/schemas.py:19-22 | valid exactly for 2 to 30 characters, returned unchanged |
| UserSchemas.OptionalNameField | pod/apps/users_app/schemas.py:151-155 | None, or 2 to 30 characters |
| UserSchemas.UsernameField | pod/apps/users_app/schemas.py:24-27 | the username rule, value returned unchanged |
| UserSchemas.EmailField | pod/apps/users_app/schemas.py:29-32 | the email rule, value returned unchanged |
| UserSchemas.PasswordField | pod/apps/users_app/schemas.py:34-37 | the password rule, value returned unchanged |
| UserSchemas.CodeField | pod/apps/users_app/schemas.py:43-49 | "only digits" for an empty or non-digit code, then "4 digit long" unless exactly four |
| UserSchemas.CodesAreFourDigits | pod/apps/users_app/schemas.py:43-49 | the accepted codes are exactly 0000 to 9999 |
| UserSchemas.BirthdateField | pod/apps/users_app/schemas.py:157-164 | None passes; an aware birthdate passes exactly between 100 and 12 years of 365 days ago, bounds included; a naive one raises TypeError |
| UserSchemas.BioField | pod/apps/users_app/schemas.py:166-172 | None, or at most 200 characters without a violent word, each failure with its own message |
| Exceptions.ValidationException | pod/settings/my_exceptions.py:19-21 | status 400 with the given detail |
| Exceptions.HttpErrorText | pod/apps/feeds_app/schemas.py:44 | `str()` of an HTTP exception is its status, ": ", then its detail |
| Exceptions.RaisedText | pod/main.py:61 | `str()` of a raised exception: its message, or the HTTP text |
| DateTimes.Shift | pod/apps/feeds_app/schemas.py:35 | adding a timedelta moves the instant and keeps the time-zone awareness |
| DateTimes.Less | pod/apps/feeds_app/schemas.py:37 | comparing is defined exactly when both sides are naive or both aware |
| FeedSchemas.BodyField | pod/apps/feeds_app/schemas.py:21-27 | None raises "body is required.", more than 200 characters raises the limit message, otherwise the value is returned |
| FeedSchemas.ScheduledCheck | pod/apps/feeds_app/schemas.py:31-41 | a naive time raises TypeError; before now, or after now plus 7 days, raises its own ValidationException |
| FeedSchemas.ScheduledField | pod/apps/feeds_app/schemas.py:29-45 | valid exactly for None or an aware time from now to now plus 7 days, bounds included, and returned unchanged; every error is re-raised as a 400 ValidationException of its text |
| FeedSchemas.RejectedDetailEndsWithMessage | pod/apps/feeds_app/schemas.py:42-44 | a re-raised range error's detail is "400: " followed by the original message |
| App.Capitalize | pod/main.py:66 | same length, the first character not lower-case, the rest lower-cased |
| App.CapitalizeIdempotent | pod/main.py:66 | capitalizing twice is capitalizing once |
| App.ErrorDetail | pod/main.py:59-67 | a ctx error contributes its text; otherwise a detail exists exactly when loc has more than one step, as "Field msg-lowercased" |
| App.DetailsOf | pod/main.py:55-67 | no more details than errors |
| App.DetailsOfConcat | pod/main.py:57-67 | details keep the errors' order |
| App.DetailsComplete | pod/main.py:57-67 | there is one detail per error exactly when every error has one |
| App.DetailsBody | pod/main.py:70 | the body is `{"details": [...]}` with the details as strings |
| App.ApiExceptionHandler | pod/main.py:47-50 | the exception's status code, `{"details": detail}`, and its headers (None) |
| App.ValidationExceptionHandler | pod/main.py:53-70 | status 422 with the details of the errors in order |
| Middleware.Classify | pod/utility/my_middleware.py:31-36 | critical exactly for 500 to 599, error exactly for 400 to 499, info otherwise |
| Middleware.RequestCountMiddleware.constructor | pod/utility/my_middleware.py:10-12 | the count starts at 0 |
| Middleware.RequestCountMiddleware.Dispatch | pod/utility/my_middleware.py:14-40 | "/" and "/health" pass through uncounted; any other request counts once, even when it fails, logs its level, and returns the response only at info level |

## Left out

- Redis I/O, connection handling, and the `await` scheduling. A pipeline is modelled as
  MULTI/EXEC run at once, and `asyncio.gather` in `broadcast` as sends in list order.
- `calculate_score` (floating point over the wall clock). The score is an opaque real
  passed to ZADD, so `scores_getter`'s tuple order against `calculate_score`'s unpacking
  is not modelled.
- EXPIRE and key time-to-live. `SetCredentials` takes the token (uuid4) and the expiry
  text (clock) as parameters.
- RediSearch: index setup, the search methods and `is_username_or_email_taken`. These
  are a foreign module.
- Left out of `my_redis.py`:
  - `delete_profile`, `add_connection_to_room`, `remove_connection_from_room` and
    `add_typing`. They send HDEL and SADD without field or member arguments, so Redis
    refuses them.
  - `get_chat_tiles`, which stamps `datetime.now()`.
  - `create_chat_tile`, `create_profile`, `get_profile`, `get_profile_avatar_url`, the
    online-user sets and the statistics counters. They are outside the modelled core.
  - `RedisPubSubManager`, which is pub/sub I/O.
  - The module-level manager instances.
- Logging and `print`. Only the dispatcher's warnings and the middleware's log levels
  are recorded.
- The middleware's `perf_counter` timing and message text.
- The `redis` field of `WebSocketManager`, which no method uses, and the four
  module-level manager instances.
- Why a socket's `accept` or `send_json` fails is the network's business. Each socket
  carries whether it fails, and the text of the exception, as givens.
- Validators.HasViolentWord: case-insensitive matching is modelled on ASCII only.
- Text.Lower: lower-casing is modelled on ASCII only, and so is everything built on it.
  This covers `Usernames.GenerateUniqueUsername` and `App.Capitalize`.
- UserSchemas.CodeField: `str.isdigit` is modelled as the ASCII digits. Python also
  accepts other Unicode digits.
- Validators.ValidatePassword: `\d` is modelled as the ASCII digits.
- Json.Dumps: floats are kept as their repr text, and the JSON reader is modelled only
  for lists of strings, which is what `image_urls` holds.
- Statistics.ParseStatistics: requires today's week to end by 9999-12-31. There Python's
  date arithmetic raises OverflowError, which the model does not carry.
- Statistics.ParseStatistics: the statistics dictionary is a sequence of distinct
  key–count pairs in iteration order.
- FeedReads.ChunkAligned: stated for a user id that is None or non-empty. The empty id is
  covered separately by `FeedReads.EmptyUserIdMisaligns`, which shows the misaligned
  chunks.
- CacheManagers.Enumerate: the iteration order of a Python set is not fixed. Every
  contract holds for any order.
- The pydantic machinery around the field validators. This covers type coercion, and the
  fact that validators do not run on omitted optional fields. The `ctx` keys of an error
  other than `error` are also left out.
- CacheManagers.CacheManager.UpdateProfile: for a float, integer or UUID value, the
  contract names only the command that is sent or refused. It does not name redis-py's
  text for the value.
