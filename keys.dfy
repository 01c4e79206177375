/** The key names the cache managers build, spelled as the source spells them, and the
    facts that tell two of them apart. Several readers and writers use different
    spellings (`user:` against `users:`, `users:{id}::{type}` against
    `users:{id}:feeds:{type}`); the model keeps each spelling. */
module CacheKeys {

  const GlobalTimeline: string := "global_timeline"

  /** `{entity_type}:{entity_id}:{suffix}`, e.g. `feeds:{id}:meta` or `comments:{id}:likes`. */
  function EntityKey(entityType: string, id: string, suffix: string): string
  {
    entityType + ":" + id + ":" + suffix
  }

  function FeedKey(id: string, suffix: string): string
  {
    EntityKey("feeds", id, suffix)
  }

  /** `users:{id}:{suffix}`. */
  function UserKey(id: string, suffix: string): string
  {
    "users:" + id + ":" + suffix
  }

  /** `user:{id}:{suffix}`, the spelling two timeline readers use. */
  function SingularUserKey(id: string, suffix: string): string
  {
    "user:" + id + ":" + suffix
  }

  function FollowingTimeline(id: string): string { UserKey(id, "following_timeline") }
  function UserTimeline(id: string): string { UserKey(id, "user_timeline") }
  function Followers(id: string): string { UserKey(id, "followers") }
  function Followings(id: string): string { UserKey(id, "followings") }
  function Profile(id: string): string { UserKey(id, "profile") }
  function UserChats(id: string): string { UserKey(id, "chats") }

  /** `tokens:{kind}:{token}`. */
  function TokenKey(kind: string, token: string): string
  {
    "tokens:" + kind + ":" + token
  }

  function ChatTileKey(chatId: string, userId: string): string
  {
    "chat_tile:" + chatId + ":" + userId
  }

  /** The seven keys `delete_feed` removes. */
  const FeedSuffixes: seq<string> := ["meta", "comments", "reposts", "quotes", "likes", "views", "bookmarks"]

  // ------------------------------------------------------------------ string facts

  lemma FirstChar(p: string, x: string)
    requires |p| > 0
    ensures |p + x| > 0 && (p + x)[0] == p[0]
  {
  }

  /** Two strings that start differently differ. */
  lemma PrefixesDiffer(p: string, x: string, q: string, y: string, i: nat)
    requires i < |p| && i < |q| && p[i] != q[i]
    ensures p + x != q + y
  {
    assert (p + x)[i] == p[i] && (q + y)[i] == q[i];
  }

  /** Two strings that end differently differ. */
  lemma SuffixesDiffer(x: string, p: string, y: string, q: string, i: nat)
    requires i < |p| && i < |q| && p[|p| - 1 - i] != q[|q| - 1 - i]
    ensures x + p != y + q
  {
    var s, t := x + p, y + q;
    assert s[|s| - 1 - i] == p[|p| - 1 - i];
    assert t[|t| - 1 - i] == q[|q| - 1 - i];
  }

  lemma CancelPrefix(p: string, a: string, b: string)
    requires p + a == p + b
    ensures a == b
  {
    assert a == (p + a)[|p|..];
    assert b == (p + b)[|p|..];
  }

  lemma CancelBoth(p: string, a: string, b: string, q: string)
    requires p + a + q == p + b + q
    ensures a == b
  {
    assert |a| == |b|;
    assert a == (p + a + q)[|p|..|p| + |a|];
    assert b == (p + b + q)[|p|..|p| + |b|];
  }

  // ------------------------------------------------------------------ injectivity

  lemma UserKeyInjective(a: string, b: string, suffix: string)
    requires UserKey(a, suffix) == UserKey(b, suffix)
    ensures a == b
  {
    assert UserKey(a, suffix) == "users:" + a + (":" + suffix);
    assert UserKey(b, suffix) == "users:" + b + (":" + suffix);
    CancelBoth("users:", a, b, ":" + suffix);
  }

  lemma UserKeySuffix(id: string, s1: string, s2: string)
    requires UserKey(id, s1) == UserKey(id, s2)
    ensures s1 == s2
  {
    assert UserKey(id, s1) == ("users:" + id + ":") + s1;
    assert UserKey(id, s2) == ("users:" + id + ":") + s2;
    CancelPrefix("users:" + id + ":", s1, s2);
  }

  lemma EntityKeySuffix(t: string, id: string, s1: string, s2: string)
    requires EntityKey(t, id, s1) == EntityKey(t, id, s2)
    ensures s1 == s2
  {
    assert EntityKey(t, id, s1) == (t + ":" + id + ":") + s1;
    assert EntityKey(t, id, s2) == (t + ":" + id + ":") + s2;
    CancelPrefix(t + ":" + id + ":", s1, s2);
  }

  // ------------------------------------------------------------------ families kept apart

  /** No `users:` key is `global_timeline`. */
  lemma UserKeyNotGlobal(id: string, suffix: string)
    ensures UserKey(id, suffix) != GlobalTimeline
  {
    assert UserKey(id, suffix) == "users:" + (id + ":" + suffix);
    PrefixesDiffer("users:", id + ":" + suffix, GlobalTimeline, [], 0);
  }

  /** No `feeds:` key is `global_timeline`. */
  lemma FeedKeyNotGlobal(id: string, suffix: string)
    ensures FeedKey(id, suffix) != GlobalTimeline
  {
    assert FeedKey(id, suffix) == "feeds:" + (id + ":" + suffix);
    PrefixesDiffer("feeds:", id + ":" + suffix, GlobalTimeline, [], 0);
  }

  /** No `feeds:` key is a `users:` key. */
  lemma FeedKeyNotUserKey(id: string, suffix: string, uid: string, usuffix: string)
    ensures FeedKey(id, suffix) != UserKey(uid, usuffix)
  {
    assert FeedKey(id, suffix) == "feeds:" + (id + ":" + suffix);
    assert UserKey(uid, usuffix) == "users:" + (uid + ":" + usuffix);
    PrefixesDiffer("feeds:", id + ":" + suffix, "users:", uid + ":" + usuffix, 0);
  }

  /** No `comments:` key is a `users:` key. */
  lemma CommentKeyNotUserKey(id: string, suffix: string, uid: string, usuffix: string)
    ensures EntityKey("comments", id, suffix) != UserKey(uid, usuffix)
  {
    assert EntityKey("comments", id, suffix) == "comments:" + (id + ":" + suffix);
    assert UserKey(uid, usuffix) == "users:" + (uid + ":" + usuffix);
    PrefixesDiffer("comments:", id + ":" + suffix, "users:", uid + ":" + usuffix, 0);
  }

  /** An author's own timeline is never one of the following timelines. */
  lemma UserTimelineNotFollowing(a: string, f: string)
    ensures UserTimeline(a) != FollowingTimeline(f)
  {
    assert UserTimeline(a) == "users:" + a + ":user_timeline";
    assert FollowingTimeline(f) == "users:" + f + ":following_timeline";
    SuffixesDiffer("users:" + a, ":user_timeline", "users:" + f, ":following_timeline", 13);
  }

  /** The singular `user:` spelling never names a `users:` key. */
  lemma SingularNotPlural(a: string, s: string, b: string, t: string)
    ensures SingularUserKey(a, s) != UserKey(b, t)
  {
    assert SingularUserKey(a, s) == "user:" + (a + ":" + s);
    assert UserKey(b, t) == "users:" + (b + ":" + t);
    PrefixesDiffer("user:", a + ":" + s, "users:", b + ":" + t, 4);
  }

  /** The seven per-feed keys are seven different keys. */
  lemma FeedKeysDistinct(id: string, s1: string, s2: string)
    requires s1 != s2
    ensures FeedKey(id, s1) != FeedKey(id, s2)
  {
    if FeedKey(id, s1) == FeedKey(id, s2) {
      EntityKeySuffix("feeds", id, s1, s2);
    }
  }

  /** The singular `user:` spelling never names a `feeds:` key. */
  lemma SingularNotFeedKey(a: string, s: string, id: string, suffix: string)
    ensures SingularUserKey(a, s) != FeedKey(id, suffix)
  {
    assert SingularUserKey(a, s) == "user:" + (a + ":" + s);
    assert FeedKey(id, suffix) == "feeds:" + (id + ":" + suffix);
    PrefixesDiffer("user:", a + ":" + s, "feeds:", id + ":" + suffix, 0);
  }

  /** The singular `user:` spelling never names `global_timeline`. */
  lemma SingularNotGlobal(a: string, s: string)
    ensures SingularUserKey(a, s) != GlobalTimeline
  {
    assert SingularUserKey(a, s) == "user:" + (a + ":" + s);
    PrefixesDiffer("user:", a + ":" + s, GlobalTimeline, [], 0);
  }
}
