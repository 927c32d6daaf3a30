/**
 * The Sone: everything about one user — name, URIs, profile, posts, replies,
 * friends, blocked Sones and likes — and the modification counter that every
 * change worth publishing bumps, which the inserter watches.
 */
module Sones {
  import opened Optional
  import opened Numbers
  import opened Uris
  import opened Entities
  import opened Replies

  /** A set of posts keyed by post ID: a Java `HashSet<Post>` whose equality is by ID. */
  predicate PostsKeyed(m: map<PostId, Post>) {
    forall k :: k in m ==> m[k].id == k
  }

  /** A set of replies keyed by reply ID. */
  predicate RepliesKeyed(m: map<ReplyId, Reply>) {
    forall k :: k in m ==> m[k].id == k
  }

  /** Posts ordered newest first. */
  predicate NewestFirst(s: seq<Post>) {
    forall i, j :: 0 <= i < j < |s| ==> s[i].time >= s[j].time
  }

  /** Insert a post into a newest-first list before the first strictly older post. */
  function InsertNewestFirst(s: seq<Post>, p: Post): seq<Post> {
    if s == [] then [p]
    else if s[0].time < p.time then [p] + s
    else [s[0]] + InsertNewestFirst(s[1..], p)
  }

  lemma {:induction false} InsertNewestFirstCounts(s: seq<Post>, p: Post)
    ensures multiset(InsertNewestFirst(s, p)) == multiset(s) + multiset{p}
  {
    if s != [] && s[0].time >= p.time {
      InsertNewestFirstCounts(s[1..], p);
      assert s == [s[0]] + s[1..];
    }
  }

  lemma {:induction false} InsertNewestFirstOrdered(s: seq<Post>, p: Post)
    requires NewestFirst(s)
    ensures NewestFirst(InsertNewestFirst(s, p))
    ensures InsertNewestFirst(s, p)[0] == p || InsertNewestFirst(s, p)[0] == s[0]
  {
    if s != [] && s[0].time >= p.time {
      InsertNewestFirstOrdered(s[1..], p);
      var r := InsertNewestFirst(s[1..], p);
      assert r[0].time <= s[0].time by {
        if |s| > 1 { assert s[1..][0] == s[1]; }
      }
      forall i, j | 0 <= i < j < |[s[0]] + r|
        ensures ([s[0]] + r)[i].time >= ([s[0]] + r)[j].time
      {
        if i == 0 && j > 1 {
          assert r[0].time >= r[j - 1].time;
        }
      }
    }
  }

  /**
   * The comparator `getPosts` sorts with: the `long` difference of the two
   * times, clamped to the `int` range. A negative result puts `left` first.
   */
  function PostComparison(left: Post, right: Post): (c: int)
    ensures INT_MIN <= c <= INT_MAX
  {
    var d := Int64(right.time - left.time);
    if d < INT_MIN then INT_MIN else if d > INT_MAX then INT_MAX else d
  }

  /** When the difference of the times fits in a `long`, the comparator puts the newer post first. */
  lemma PostComparisonOrdersByTime(left: Post, right: Post)
    requires LONG_MIN <= right.time - left.time <= LONG_MAX
    ensures PostComparison(left, right) < 0 <==> left.time > right.time
    ensures PostComparison(left, right) == 0 <==> left.time == right.time
  {
  }

  /**
   * Times `Long.MAX_VALUE` and -1. Comparing the older post with the newer
   * one computes `Long.MAX_VALUE - (-1)`, which wraps to `Long.MIN_VALUE`;
   * comparing the newer with the older computes `-1 - Long.MAX_VALUE`, which
   * is exactly `Long.MIN_VALUE`. Both clamp to `Integer.MIN_VALUE`, so each
   * post is ranked before the other and the comparator is not an order.
   */
  lemma PostComparisonWraps(newerId: PostId, olderId: PostId)
    ensures var newer := Post(newerId, None, LONG_MAX, None);
      var older := Post(olderId, None, -1, None);
      PostComparison(older, newer) < 0 && PostComparison(newer, older) < 0
  {
    assert Int64(LONG_MAX + 1) == LONG_MIN;
    assert Int64(-1 - LONG_MAX) == LONG_MIN;
  }

  /** The name, request URI and insert URI: the part of a Sone a "known Sone" entry rewrites. */
  datatype SoneHead = SoneHead(name: Option<string>, uris: UriPair)

  const BlankHead: SoneHead := SoneHead(None, UriPair(None, None))

  class Sone {
    const id: SoneId
    var name: Option<string>
    var requestUri: Option<Uri>
    /** Present only for Sones owned by this node. */
    var insertUri: Option<Uri>
    /** The time of the last inserted update, in milliseconds. */
    var time: int
    /** Absent until a profile is first set. */
    var profile: Option<Profile>
    var friendSones: set<SoneId>
    var posts: map<PostId, Post>
    var replies: map<ReplyId, Reply>
    var blockedSoneIds: set<SoneId>
    var likedPostIds: set<PostId>
    var likedReplyIds: set<ReplyId>
    var modificationCounter: int

    ghost predicate Valid()
      reads this`posts, this`replies
    {
      PostsKeyed(posts) && RepliesKeyed(replies)
    }

    /** A Sone as `new Sone(id)` leaves it. */
    ghost predicate IsBlank()
      reads this
    {
      && name.None? && requestUri.None? && insertUri.None? && time == 0 && profile.None?
      && friendSones == {} && posts == map[] && replies == map[]
      && blockedSoneIds == {} && likedPostIds == {} && likedReplyIds == {}
      && modificationCounter == 0
    }

    constructor (id: SoneId)
      ensures this.id == id && IsBlank() && Valid()
    {
      this.id := id;
      name, requestUri, insertUri, time, profile := None, None, None, 0, None;
      friendSones, posts, replies := {}, map[], map[];
      blockedSoneIds, likedPostIds, likedReplyIds := {}, {}, {};
      modificationCounter := 0;
    }

    function Locators(): UriPair
      reads this`requestUri, this`insertUri
    {
      UriPair(requestUri, insertUri)
    }

    function Head(): SoneHead
      reads this`name, this`requestUri, this`insertUri
    {
      SoneHead(name, Locators())
    }

    method SetName(name: Option<string>)
      modifies this`name
      ensures this.name == name
    {
      this.name := name;
    }

    method SetTime(time: int)
      modifies this`time
      ensures this.time == time
    {
      this.time := time;
    }

    // -------------------------------------------------------------------------
    // URIs
    // -------------------------------------------------------------------------

    /** `setRequestUri`, with the raised URI stored (see `Uris.Reconciled`). */
    method SetRequestUri(incoming: Uri)
      modifies this`requestUri, this`insertUri
      ensures Locators() == Uris.SetRequestUri(old(Locators()), incoming)
    {
      if requestUri.None? {
        requestUri := Some(incoming);
        UpdateEditions();
        return;
      }
      if !EqualsKeypair(requestUri.value, incoming) {
        return;
      }
      var latestEdition := incoming.edition;
      if latestEdition > requestUri.value.edition || latestEdition > requestUri.value.suggestedEdition {
        requestUri := Some(SetSuggestedEdition(requestUri.value, latestEdition));
      }
    }

    /** `setInsertUri`, with the raised URI stored (see `Uris.Reconciled`). */
    method SetInsertUri(incoming: Uri)
      modifies this`requestUri, this`insertUri
      ensures Locators() == Uris.SetInsertUri(old(Locators()), incoming)
    {
      if insertUri.None? {
        insertUri := Some(incoming);
        UpdateEditions();
        return;
      }
      if !EqualsKeypair(insertUri.value, incoming) {
        return;
      }
      var latestEdition := incoming.edition;
      if latestEdition > insertUri.value.edition || latestEdition > insertUri.value.suggestedEdition {
        insertUri := Some(SetSuggestedEdition(insertUri.value, latestEdition));
      }
    }

    method UpdateUris(latestEdition: int)
      modifies this`requestUri, this`insertUri
      ensures Locators() == Uris.UpdateUris(old(Locators()), latestEdition)
    {
      if requestUri.Some? && requestUri.value.edition < latestEdition {
        requestUri := Some(SetSuggestedEdition(requestUri.value, latestEdition));
      }
      if insertUri.Some? && insertUri.value.edition < latestEdition {
        insertUri := Some(SetSuggestedEdition(insertUri.value, latestEdition));
      }
    }

    method UpdateEditions()
      modifies this`requestUri, this`insertUri
      ensures Locators() == Uris.UpdateEditions(old(Locators()))
    {
      var requestEdition := 0;
      if requestUri.Some? {
        requestEdition := requestUri.value.edition;
      }
      var insertEdition := 0;
      if insertUri.Some? {
        insertEdition := insertUri.value.edition;
      }
      UpdateUris(Max(requestEdition, insertEdition));
    }

    // -------------------------------------------------------------------------
    // Profile
    // -------------------------------------------------------------------------

    /** `getProfile`: a copy of the profile; a Dafny value cannot be changed through its copy. */
    function GetProfile(): Option<Profile>
      reads this`profile
    {
      profile
    }

    method SetProfile(profile: Profile)
      modifies this`profile, this`modificationCounter
      ensures this.profile == Some(profile)
      ensures modificationCounter == old(modificationCounter) + 1
    {
      this.profile := Some(profile);
      modificationCounter := modificationCounter + 1;
    }

    // -------------------------------------------------------------------------
    // Friends: never counted as a modification
    // -------------------------------------------------------------------------

    method SetFriends(friends: set<SoneId>)
      modifies this`friendSones
      ensures friendSones == friends
    {
      friendSones := friends;
    }

    function HasFriend(friendSone: SoneId): bool
      reads this`friendSones
    {
      friendSone in friendSones
    }

    method AddFriend(friendSone: SoneId)
      modifies this`friendSones
      ensures friendSones == if friendSone == id then old(friendSones) else old(friendSones) + {friendSone}
      ensures id !in old(friendSones) ==> id !in friendSones
    {
      if friendSone != id {
        friendSones := friendSones + {friendSone};
      }
    }

    method RemoveFriend(friendSone: SoneId)
      modifies this`friendSones
      ensures friendSones == old(friendSones) - {friendSone}
    {
      friendSones := friendSones - {friendSone};
    }

    // -------------------------------------------------------------------------
    // Posts
    // -------------------------------------------------------------------------

    /** `getPosts`: all posts, newest first (ties in any order). */
    method GetPosts() returns (sorted: seq<Post>)
      ensures multiset(sorted) == multiset(posts.Values)
      ensures NewestFirst(sorted)
    {
      var remaining := posts.Values;
      sorted := [];
      while remaining != {}
        invariant remaining <= posts.Values
        invariant multiset(sorted) + multiset(remaining) == multiset(posts.Values)
        invariant NewestFirst(sorted)
        decreases |remaining|
      {
        var p :| p in remaining;
        InsertNewestFirstCounts(sorted, p);
        InsertNewestFirstOrdered(sorted, p);
        sorted := InsertNewestFirst(sorted, p);
        assert multiset(remaining - {p}) + multiset{p} == multiset(remaining);
        remaining := remaining - {p};
      }
    }

    /** `setPosts`: replace all posts; counted as a modification even if nothing changed. */
    method SetPosts(newPosts: map<PostId, Post>)
      requires PostsKeyed(newPosts)
      modifies this`posts, this`modificationCounter
      ensures posts == newPosts
      ensures modificationCounter == old(modificationCounter) + 1
    {
      posts := newPosts;
      modificationCounter := modificationCounter + 1;
    }

    /** `addPost`: only a post written by this Sone and not yet present is added and counted. */
    method AddPost(post: Post)
      requires post.sone.Some?
      requires Valid()
      modifies this`posts, this`modificationCounter
      ensures Valid()
      ensures var added := post.sone.value == id && post.id !in old(posts);
        && posts == (if added then old(posts)[post.id := post] else old(posts))
        && modificationCounter == old(modificationCounter) + (if added then 1 else 0)
    {
      if post.sone.value == id && post.id !in posts {
        posts := posts[post.id := post];
        modificationCounter := modificationCounter + 1;
      }
    }

    /** `removePost`: only a post written by this Sone and present is removed and counted. */
    method RemovePost(post: Post)
      requires post.sone.Some?
      requires Valid()
      modifies this`posts, this`modificationCounter
      ensures Valid()
      ensures var removed := post.sone.value == id && post.id in old(posts);
        && posts == (if removed then old(posts) - {post.id} else old(posts))
        && modificationCounter == old(modificationCounter) + (if removed then 1 else 0)
    {
      if post.sone.value == id && post.id in posts {
        posts := posts - {post.id};
        modificationCounter := modificationCounter + 1;
      }
    }

    // -------------------------------------------------------------------------
    // Replies
    // -------------------------------------------------------------------------

    function GetReplies(): set<Reply>
      reads this`replies
    {
      replies.Values
    }

    /** `setReplies`: replace all replies; counted as a modification even if nothing changed. */
    method SetReplies(newReplies: map<ReplyId, Reply>)
      requires RepliesKeyed(newReplies)
      modifies this`replies, this`modificationCounter
      ensures replies == newReplies
      ensures modificationCounter == old(modificationCounter) + 1
    {
      replies := newReplies;
      modificationCounter := modificationCounter + 1;
    }

    /** `addReply`: only a reply written by this Sone and not yet present is added and counted. */
    method AddReply(reply: Reply)
      requires reply.sone.Some?
      requires Valid()
      modifies this`replies, this`modificationCounter
      ensures Valid()
      ensures var added := reply.sone.value == id && reply.id !in old(replies);
        && replies == (if added then old(replies)[reply.id := reply] else old(replies))
        && modificationCounter == old(modificationCounter) + (if added then 1 else 0)
    {
      if reply.sone.value == id && reply.id !in replies {
        replies := replies[reply.id := reply];
        modificationCounter := modificationCounter + 1;
      }
    }

    /** `removeReply`: only a reply written by this Sone and present is removed and counted. */
    method RemoveReply(reply: Reply)
      requires reply.sone.Some?
      requires Valid()
      modifies this`replies, this`modificationCounter
      ensures Valid()
      ensures var removed := reply.sone.value == id && reply.id in old(replies);
        && replies == (if removed then old(replies) - {reply.id} else old(replies))
        && modificationCounter == old(modificationCounter) + (if removed then 1 else 0)
    {
      if reply.sone.value == id && reply.id in replies {
        replies := replies - {reply.id};
        modificationCounter := modificationCounter + 1;
      }
    }

    // -------------------------------------------------------------------------
    // Blocked Sones and likes: counted exactly when the set changes
    // -------------------------------------------------------------------------

    function IsSoneBlocked(soneId: SoneId): bool
      reads this`blockedSoneIds
    {
      soneId in blockedSoneIds
    }

    method AddBlockedSoneId(soneId: SoneId)
      modifies this`blockedSoneIds, this`modificationCounter
      ensures blockedSoneIds == old(blockedSoneIds) + {soneId}
      ensures modificationCounter == old(modificationCounter) + (if blockedSoneIds == old(blockedSoneIds) then 0 else 1)
    {
      if soneId !in blockedSoneIds {
        blockedSoneIds := blockedSoneIds + {soneId};
        modificationCounter := modificationCounter + 1;
      }
    }

    method RemoveBlockedSoneId(soneId: SoneId)
      modifies this`blockedSoneIds, this`modificationCounter
      ensures blockedSoneIds == old(blockedSoneIds) - {soneId}
      ensures modificationCounter == old(modificationCounter) + (if blockedSoneIds == old(blockedSoneIds) then 0 else 1)
    {
      if soneId in blockedSoneIds {
        blockedSoneIds := blockedSoneIds - {soneId};
        modificationCounter := modificationCounter + 1;
      }
    }

    /** `setLikePostIds`: replace all liked post IDs; always counted. */
    method SetLikePostIds(ids: set<PostId>)
      modifies this`likedPostIds, this`modificationCounter
      ensures likedPostIds == ids
      ensures modificationCounter == old(modificationCounter) + 1
    {
      likedPostIds := ids;
      modificationCounter := modificationCounter + 1;
    }

    function IsLikedPostId(postId: PostId): bool
      reads this`likedPostIds
    {
      postId in likedPostIds
    }

    method AddLikedPostId(postId: PostId)
      modifies this`likedPostIds, this`modificationCounter
      ensures likedPostIds == old(likedPostIds) + {postId}
      ensures modificationCounter == old(modificationCounter) + (if likedPostIds == old(likedPostIds) then 0 else 1)
    {
      if postId !in likedPostIds {
        likedPostIds := likedPostIds + {postId};
        modificationCounter := modificationCounter + 1;
      }
    }

    method RemoveLikedPostId(postId: PostId)
      modifies this`likedPostIds, this`modificationCounter
      ensures likedPostIds == old(likedPostIds) - {postId}
      ensures modificationCounter == old(modificationCounter) + (if likedPostIds == old(likedPostIds) then 0 else 1)
    {
      if postId in likedPostIds {
        likedPostIds := likedPostIds - {postId};
        modificationCounter := modificationCounter + 1;
      }
    }

    /** `setLikeReplyIds`: replace all liked reply IDs; always counted. */
    method SetLikeReplyIds(ids: set<ReplyId>)
      modifies this`likedReplyIds, this`modificationCounter
      ensures likedReplyIds == ids
      ensures modificationCounter == old(modificationCounter) + 1
    {
      likedReplyIds := ids;
      modificationCounter := modificationCounter + 1;
    }

    function IsLikedReplyId(replyId: ReplyId): bool
      reads this`likedReplyIds
    {
      replyId in likedReplyIds
    }

    method AddLikedReplyId(replyId: ReplyId)
      modifies this`likedReplyIds, this`modificationCounter
      ensures likedReplyIds == old(likedReplyIds) + {replyId}
      ensures modificationCounter == old(modificationCounter) + (if likedReplyIds == old(likedReplyIds) then 0 else 1)
    {
      if replyId !in likedReplyIds {
        likedReplyIds := likedReplyIds + {replyId};
        modificationCounter := modificationCounter + 1;
      }
    }

    method RemoveLikedReplyId(replyId: ReplyId)
      modifies this`likedReplyIds, this`modificationCounter
      ensures likedReplyIds == old(likedReplyIds) - {replyId}
      ensures modificationCounter == old(modificationCounter) + (if likedReplyIds == old(likedReplyIds) then 0 else 1)
    {
      if replyId in likedReplyIds {
        likedReplyIds := likedReplyIds - {replyId};
        modificationCounter := modificationCounter + 1;
      }
    }

    // -------------------------------------------------------------------------
    // Modification counter
    // -------------------------------------------------------------------------

    function GetModificationCounter(): int
      reads this`modificationCounter
    {
      modificationCounter
    }

    method SetModificationCounter(counter: int)
      modifies this`modificationCounter
      ensures modificationCounter == counter
    {
      modificationCounter := counter;
    }

    // -------------------------------------------------------------------------
    // Object methods
    // -------------------------------------------------------------------------

    /** `equals`: two Sones are the same Sone when their IDs are equal. */
    function Equals(other: Sone): bool {
      other.id == id
    }

    /** `hashCode`: the hash of the ID. */
    function HashCode(): int {
      IdHash(id)
    }
  }

  /** Sone equality is an equivalence on IDs alone, and equal Sones hash alike. */
  lemma SoneEqualityIsById(a: Sone, b: Sone, c: Sone)
    ensures a.Equals(b) <==> a.id == b.id
    ensures a.Equals(a)
    ensures a.Equals(b) ==> b.Equals(a)
    ensures a.Equals(b) && b.Equals(c) ==> a.Equals(c)
    ensures a.Equals(b) ==> a.HashCode() == b.HashCode()
  {
  }
}
