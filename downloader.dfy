/**
 * The Sone downloader: the set of Sones watched for updates, the fetch of an
 * updated Sone guarded by its status, and the merge of a downloaded document
 * into the Sone it describes.
 */
module Downloader {
  import opened Optional
  import opened Numbers
  import opened Uris
  import opened Entities
  import opened Replies
  import opened Sones
  import opened Registry
  import opened Documents

  /** A call into the Freenet interface's update subscriptions. */
  datatype WatchEvent = Register(sone: SoneId) | Unregister(sone: SoneId)

  /** The outcome of fetching `sone.xml`: nothing found, or data that did or did not decode into a document. */
  datatype FetchResult = NotFound | Fetched(document: Option<SoneDocument>)

  /** The fields of a Sone that the header phase of a merge writes. */
  ghost function HeaderOf(s: Sone): Header
    reads s`name, s`time, s`requestUri, s`insertUri
  {
    Header(s.name, s.time, s.Locators())
  }

  const BlankHeader: Header := Header(None, 0, UriPair(None, None))

  class SoneDownloader {
    const core: Core
    /** The watched Sones, by ID (a `HashSet<Sone>` whose equality is by ID). */
    var watched: map<SoneId, Sone>
    /** Every subscription call made so far, in order. */
    var events: seq<WatchEvent>

    constructor (core: Core)
      ensures this.core == core && watched == map[] && events == []
    {
      this.core := core;
      watched, events := map[], [];
    }

    /** `addSone`: register for updates only when the Sone was not watched yet. */
    method AddSone(sone: Sone)
      modifies this`watched, this`events
      ensures watched == if sone.id in old(watched) then old(watched) else old(watched)[sone.id := sone]
      ensures events == old(events) + (if sone.id in old(watched) then [] else [Register(sone.id)])
    {
      if sone.id !in watched {
        watched := watched[sone.id := sone];
        events := events + [Register(sone.id)];
      }
    }

    /** `removeSone`: unregister only when the Sone was watched. */
    method RemoveSone(sone: Sone)
      modifies this`watched, this`events
      ensures watched == old(watched) - {sone.id}
      ensures events == old(events) + (if sone.id in old(watched) then [Unregister(sone.id)] else [])
    {
      if sone.id in watched {
        watched := watched - {sone.id};
        events := events + [Unregister(sone.id)];
      }
    }

    /** `serviceStop`: unregister every watched Sone once, in some order; the watch set itself stays. */
    method ServiceStop()
      modifies this`events
      ensures |old(events)| <= |events| && events[..|old(events)|] == old(events)
      ensures |events| == |old(events)| + |watched.Keys|
      ensures forall i :: |old(events)| <= i < |events| ==> events[i].Unregister? && events[i].sone in watched
      ensures forall k :: k in watched ==> Unregister(k) in events[|old(events)|..]
    {
      var calls := Unregistrations(watched.Keys);
      events := events + calls;
      assert events[|old(events)|..] == calls;
    }

    /** The `unregisterUsk` calls of `serviceStop`: one per watched ID, in the set's iteration order. */
    method Unregistrations(ids: set<SoneId>) returns (calls: seq<WatchEvent>)
      ensures |calls| == |ids|
      ensures forall i :: 0 <= i < |calls| ==> calls[i].Unregister? && calls[i].sone in ids
      ensures forall k :: k in ids ==> Unregister(k) in calls
    {
      var remaining := ids;
      ghost var done: set<SoneId> := {};
      calls := [];
      while remaining != {}
        invariant remaining + done == ids && remaining !! done
        invariant |calls| == |done|
        invariant forall i :: 0 <= i < |calls| ==> calls[i].Unregister? && calls[i].sone in done
        invariant forall k :: k in done ==> Unregister(k) in calls
        decreases |remaining|
      {
        var k :| k in remaining;
        calls := calls + [Unregister(k)];
        remaining := remaining - {k};
        done := done + {k};
      }
    }

    // -------------------------------------------------------------------------
    // Fetching
    // -------------------------------------------------------------------------

    /**
     * `fetchSone`: skipped while the Sone is downloading; otherwise the Sone
     * is downloading during the fetch and afterwards, on every path, unknown
     * if it has never been inserted (time 0) and idle if it has. A fetched
     * document that the merge accepts makes the Sone known to the core.
     */
    method FetchSone(sone: Sone, result: FetchResult)
      requires core.Valid() && sone.Valid()
      requires core.GetSoneStatus(sone) != Downloading ==> sone.requestUri.Some?
      modifies sone, core, core.sones.Values, core.replies.Values
      ensures core.Valid() && sone.Valid()
      ensures old(core.GetSoneStatus(sone)) == Downloading ==> unchanged(sone) && unchanged(core)
      ensures old(core.GetSoneStatus(sone)) != Downloading ==>
        core.statuses == old(core.statuses)[sone.id := if sone.time == 0 then Unknown else Idle]
      ensures old(core.GetSoneStatus(sone)) != Downloading && (result.NotFound? || result.document.None?) ==>
        && unchanged(sone)
        && core.sones == old(core.sones) && core.posts == old(core.posts) && core.replies == old(core.replies)
        && core.knownSones == old(core.knownSones)
      ensures old(core.GetSoneStatus(sone)) != Downloading && result.Fetched? && result.document.Some? ==>
        var doc := result.document.value;
        && (doc.id == Some(sone.id) && Verdict(doc, old(HeaderOf(sone))).None? ==>
              sone.id in core.knownSones && sone.modificationCounter == 0 && sone.requestUri.Some?)
        && (doc.id != Some(sone.id) || Verdict(doc, old(HeaderOf(sone))).Some? ==>
              core.knownSones == old(core.knownSones) && sone.modificationCounter == old(sone.modificationCounter))
    {
      if core.GetSoneStatus(sone) == Downloading {
        return;
      }
      var requestUri := SetMetaString(sone.requestUri.value, ["sone.xml"]);
      core.SetSoneStatus(sone, Downloading);
      if result.Fetched? && result.document.Some? {
        ghost var downloading := core.statuses;
        ImportFetched(sone, result.document.value, requestUri);
        assert core.statuses == downloading;
      }
      var settled := if sone.time == 0 then Unknown else Idle;
      core.SetSoneStatus(sone, settled);
      assert core.statuses == old(core.statuses)[sone.id := Downloading][sone.id := settled];
      assert old(core.statuses)[sone.id := Downloading][sone.id := settled] == old(core.statuses)[sone.id := settled];
    }

    /** The part of `fetchSone` after a document was fetched: parse it, and add the parsed Sone to the core. */
    method ImportFetched(sone: Sone, doc: SoneDocument, requestUri: Uri)
      requires core.Valid() && sone.Valid()
      modifies sone`name, sone`time, sone`requestUri, sone`insertUri, sone`profile, sone`posts, sone`replies,
        sone`likedPostIds, sone`modificationCounter,
        core`sones, core`posts, core`replies, core`knownSones,
        core.sones.Values`name, core.sones.Values`time, core.sones.Values`requestUri, core.sones.Values`insertUri,
        core.sones.Values`profile, core.sones.Values`posts, core.sones.Values`replies, core.sones.Values`likedPostIds,
        core.sones.Values`modificationCounter, core.replies.Values
      ensures core.Valid() && sone.Valid()
      ensures doc.id == Some(sone.id) && Verdict(doc, old(HeaderOf(sone))).None? ==>
        sone.id in core.knownSones && sone.modificationCounter == 0 && sone.requestUri.Some?
      ensures doc.id != Some(sone.id) || Verdict(doc, old(HeaderOf(sone))).Some? ==>
        core.knownSones == old(core.knownSones) && sone.modificationCounter == old(sone.modificationCounter)
    {
      var parsed, failure := ParseFetched(Some(sone), doc, requestUri);
      if parsed.Some? {
        core.AddSone(parsed.value);
      }
    }

    /**
     * `parseSone(sone, fetchResult, requestUri)`: a parsed Sone takes the
     * fetched URI, without its meta strings, as request URI.
     */
    method ParseFetched(original: Option<Sone>, doc: SoneDocument, requestUri: Uri) returns (parsed: Option<Sone>, failure: Option<Failure>)
      requires core.Valid()
      modifies (if original.Some? then {original.value} else {})`name, (if original.Some? then {original.value} else {})`time,
        (if original.Some? then {original.value} else {})`requestUri, (if original.Some? then {original.value} else {})`insertUri,
        (if original.Some? then {original.value} else {})`profile, (if original.Some? then {original.value} else {})`posts,
        (if original.Some? then {original.value} else {})`replies, (if original.Some? then {original.value} else {})`likedPostIds,
        (if original.Some? then {original.value} else {})`modificationCounter,
        core`sones, core`posts, core`replies, core`knownSones,
        core.sones.Values`name, core.sones.Values`time, core.sones.Values`requestUri, core.sones.Values`insertUri,
        core.sones.Values`profile, core.sones.Values`posts, core.sones.Values`replies, core.sones.Values`likedPostIds,
        core.sones.Values`modificationCounter, core.replies.Values
      ensures core.Valid() && (parsed.Some? ==> parsed.value.Valid())
      ensures original.Some? && old(original.value.Valid()) ==> original.value.Valid()
      ensures parsed.Some? <==> failure.None?
      ensures original.Some? && doc.id != Some(original.value.id) ==> failure == Some(IdMismatch)
      ensures original.None? && doc.id.None? ==> failure == Some(MissingId)
      ensures original.Some? && doc.id == Some(original.value.id) ==> failure == Verdict(doc, old(HeaderOf(original.value)))
      ensures failure.Some? ==>
        core.knownSones == old(core.knownSones) &&
        (original.Some? ==> original.value.modificationCounter == old(original.value.modificationCounter))
      ensures parsed.Some? ==>
        && (original.Some? ==> parsed.value == original.value)
        && (original.None? ==> parsed.value.id == doc.id.value && doc.id.value in core.sones && core.sones[doc.id.value] == parsed.value)
        && parsed.value.modificationCounter == 0 && parsed.value.requestUri.Some?
    {
      parsed, failure := ParseSone(original, doc);
      if parsed.Some? {
        parsed.value.SetRequestUri(SetMetaString(requestUri, []));
      }
    }

    // -------------------------------------------------------------------------
    // Parsing
    // -------------------------------------------------------------------------

    /**
     * `parseSone(originalSone, input)`: the document must carry the original
     * Sone's ID; without an original Sone the target is the core's Sone with
     * the document's ID. Then the document is merged into the target.
     */
    method ParseSone(original: Option<Sone>, doc: SoneDocument) returns (parsed: Option<Sone>, failure: Option<Failure>)
      requires core.Valid()
      modifies (if original.Some? then {original.value} else {})`name, (if original.Some? then {original.value} else {})`time,
        (if original.Some? then {original.value} else {})`requestUri, (if original.Some? then {original.value} else {})`insertUri,
        (if original.Some? then {original.value} else {})`profile, (if original.Some? then {original.value} else {})`posts,
        (if original.Some? then {original.value} else {})`replies, (if original.Some? then {original.value} else {})`likedPostIds,
        (if original.Some? then {original.value} else {})`modificationCounter,
        core`sones, core`posts, core`replies, core`knownSones,
        core.sones.Values`name, core.sones.Values`time, core.sones.Values`requestUri, core.sones.Values`insertUri,
        core.sones.Values`profile, core.sones.Values`posts, core.sones.Values`replies, core.sones.Values`likedPostIds,
        core.sones.Values`modificationCounter, core.replies.Values
      ensures core.Valid() && (parsed.Some? ==> parsed.value.Valid())
      ensures original.Some? && old(original.value.Valid()) ==> original.value.Valid()
      ensures parsed.Some? <==> failure.None?
      ensures old(core.sones).Items <= core.sones.Items
      ensures original.Some? && doc.id != Some(original.value.id) ==>
        failure == Some(IdMismatch) && unchanged(original.value) && unchanged(core)
      ensures original.None? && doc.id.None? ==> failure == Some(MissingId) && unchanged(core)
      ensures original.Some? && doc.id == Some(original.value.id) ==> failure == Verdict(doc, old(HeaderOf(original.value)))
      ensures original.None? && doc.id.Some? ==>
        failure == Verdict(doc, if doc.id.value in old(core.sones) then old(HeaderOf(core.sones[doc.id.value])) else BlankHeader)
      ensures failure.Some? ==>
        core.knownSones == old(core.knownSones) &&
        (original.Some? ==> original.value.modificationCounter == old(original.value.modificationCounter))
      ensures parsed.Some? ==>
        && (original.Some? ==> parsed.value == original.value)
        && (original.None? ==>
              && parsed.value.id == doc.id.value && doc.id.value in core.sones && core.sones[doc.id.value] == parsed.value
              && (parsed.value in old(core.sones.Values) || fresh(parsed.value)))
        && parsed.value.modificationCounter == 0
    {
      var target: Sone;
      if original.Some? {
        if doc.id != Some(original.value.id) {
          return None, Some(IdMismatch);
        }
        target := original.value;
      } else {
        if doc.id.None? {
          return None, Some(MissingId);
        }
        ghost var before := if doc.id.value in core.sones then HeaderOf(core.sones[doc.id.value]) else BlankHeader;
        target := core.GetSone(doc.id.value);
        assert HeaderOf(target) == before;
      }
      ghost var registered := core.sones;
      failure := MergeInto(target, doc);
      if original.None? {
        ItemsGrow(registered, core.sones, doc.id.value);
      }
      parsed := if failure.None? then Some(target) else None;
    }

    /**
     * The body of `parseSone` after the target is known. The header fields
     * and the registry entries are written as the document is read, so they
     * stay written when a later check fails; the profile, posts, replies,
     * liked post IDs and the counter are written together, only on success.
     * Liked reply IDs are read but never applied.
     */
    method MergeInto(target: Sone, doc: SoneDocument) returns (failure: Option<Failure>)
      requires core.Valid()
      modifies target`name, target`time, target`requestUri, target`insertUri,
        target`profile, target`posts, target`replies, target`likedPostIds, target`modificationCounter,
        core`sones, core`posts, core`replies, core`knownSones,
        core.sones.Values`name, core.sones.Values`requestUri, core.sones.Values`insertUri, core.replies.Values
      ensures core.Valid() && (failure.None? || old(target.Valid()) ==> target.Valid())
      ensures failure == Verdict(doc, old(HeaderOf(target)))
      ensures old(core.sones).Items <= core.sones.Items
      ensures var h := HeaderPhase(doc, old(HeaderOf(target)));
        (h.failure.Some? || target.id !in KnownSoneNodeIds(Section(doc.knownSones))) ==> HeaderOf(target) == h.state
      ensures failure.Some? ==>
        && target.profile == old(target.profile) && target.posts == old(target.posts) && target.replies == old(target.replies)
        && target.likedPostIds == old(target.likedPostIds) && target.modificationCounter == old(target.modificationCounter)
        && core.knownSones == old(core.knownSones)
      ensures failure.None? ==>
        && Merged(target, core, doc, old(core.knownSones))
        && KnownSonesNamed(core.HeadView(), Section(doc.knownSones))
        && (forall k :: k in KnownSoneNodeIds(Section(doc.knownSones)) && k != target.id ==>
              LocatorFromNodes(old(core.HeadView()), core.HeadView(), Section(doc.knownSones), k))
    {
      failure := MergeHeader(target, doc);
      if failure.Some? {
        return;
      }
      ghost var heads := core.HeadView();
      forall k | k != target.id
        ensures HasRequestUri(heads, k) == HasRequestUri(old(core.HeadView()), k)
        ensures HasRequestUri(heads, k) ==> heads[k].uris.request == old(core.HeadView())[k].uris.request
      {
      }
      failure := MergeBody(target, doc);
      if failure.None? {
        KnownHeadsFromAgreeingHeads(Section(doc.knownSones), old(core.HeadView()), heads, target.id);
      }
    }

    /** Everything after the header: read the sections, then, if all of them are accepted, apply them. */
    method MergeBody(target: Sone, doc: SoneDocument) returns (failure: Option<Failure>)
      requires core.Valid()
      modifies target`profile, target`posts, target`replies, target`likedPostIds, target`modificationCounter,
        core`sones, core`posts, core`replies, core`knownSones,
        core.sones.Values`name, core.sones.Values`requestUri, core.sones.Values`insertUri, core.replies.Values
      ensures core.Valid() && (failure.None? || old(target.Valid()) ==> target.Valid())
      ensures failure == BodyFailure(doc)
      ensures old(core.sones).Items <= core.sones.Items
      ensures target.id !in KnownSoneNodeIds(Section(doc.knownSones)) ==> target.Head() == old(target.Head())
      ensures failure.Some? ==>
        && target.profile == old(target.profile) && target.posts == old(target.posts) && target.replies == old(target.replies)
        && target.likedPostIds == old(target.likedPostIds) && target.modificationCounter == old(target.modificationCounter)
        && core.knownSones == old(core.knownSones)
      ensures failure.None? ==>
        Merged(target, core, doc, old(core.knownSones)) && core.HeadView() == KnownHeads(Section(doc.knownSones), old(core.HeadView()))
    {
      var body;
      body, failure := ReadBody(target.id, doc);
      if failure.Some? {
        return;
      }
      Commit(target, body);
      CommitMerges(core, target, body, doc, old(core.knownSones));
    }

    /**
     * The profile, post, reply, like and known-Sone sections, read in this
     * order with the first failure ending the read (lines 271-391). Posts,
     * replies and known Sones are looked up in the core's registry, and so
     * registered and changed there, as they are read.
     */
    method ReadBody(sone: SoneId, doc: SoneDocument) returns (body: Body, failure: Option<Failure>)
      requires core.Valid()
      modifies core`sones, core`posts, core`replies, core.sones.Values`name, core.sones.Values`requestUri,
        core.sones.Values`insertUri, core.replies.Values
      ensures core.Valid()
      ensures failure == BodyFailure(doc)
      ensures old(core.sones).Items <= core.sones.Items
      ensures forall s :: s in old(core.sones.Values) && s.id !in KnownSoneNodeIds(Section(doc.knownSones)) ==> s.Head() == old(s.Head())
      ensures failure.None? ==>
        && BodyReads(body, doc)
        && PostsCoherent(PostState(core.posts, body.posts), sone)
        && RepliesLinked(core.replies, body.replyIds, sone, core.posts)
        && RepliesHoldNodes(core.ReplyView(), Section(doc.replies))
        && SonesIntroduced(core.sones, body.knownIds)
        && core.HeadView() == KnownHeads(Section(doc.knownSones), old(core.HeadView()))
    {
      body := NoBody;
      if doc.profile.None? {
        return body, Some(MissingProfile);
      }
      var profile := ProfileOf(doc.profile.value);
      var posts, replyIds;
      posts, replyIds, failure := ReadThreads(sone, Section(doc.posts), Section(doc.replies));
      if failure.Some? {
        return;
      }
      var likedPostIds, likedReplyIds, knownIds;
      likedPostIds, likedReplyIds, knownIds, failure := ReadLikesAndKnown(doc);
      if failure.Some? {
        return;
      }
      body := Body(profile, posts, replyIds, likedPostIds, likedReplyIds, knownIds);
    }

    /** The like sections, then the known-Sone section. */
    method ReadLikesAndKnown(doc: SoneDocument)
      returns (likedPostIds: set<PostId>, likedReplyIds: set<ReplyId>, knownIds: set<SoneId>, failure: Option<Failure>)
      requires core.Valid()
      modifies core`sones, core.sones.Values`name, core.sones.Values`requestUri, core.sones.Values`insertUri
      ensures core.Valid()
      ensures failure == KnownSonesFailure(Section(doc.knownSones))
      ensures core.ReplyView() == old(core.ReplyView()) && core.posts == old(core.posts) && core.replies == old(core.replies)
      ensures old(core.sones).Items <= core.sones.Items
      ensures forall s :: s in old(core.sones.Values) && s.id !in KnownSoneNodeIds(Section(doc.knownSones)) ==> s.Head() == old(s.Head())
      ensures core.HeadView() == KnownHeads(Section(doc.knownSones), old(core.HeadView()))
      ensures likedPostIds == LikedIds(doc.postLikes) && likedReplyIds == LikedIds(doc.replyLikes)
      ensures failure.None? ==> knownIds == KnownSoneNodeIds(Section(doc.knownSones)) && SonesIntroduced(core.sones, knownIds)
    {
      likedPostIds := CollectIds(Section(doc.postLikes));
      likedReplyIds := CollectIds(Section(doc.replyLikes));
      knownIds, failure := ReadKnownSones(Section(doc.knownSones));
    }

    /** The post section, then the reply section. */
    method ReadThreads(sone: SoneId, postNodes: seq<PostNode>, replyNodes: seq<ReplyNode>)
      returns (posts: map<PostId, Post>, replyIds: set<ReplyId>, failure: Option<Failure>)
      requires core.Valid()
      modifies core`replies, core`posts, core.replies.Values
      ensures core.Valid() && core.HeadView() == old(core.HeadView())
      ensures failure == if PostsFailure(postNodes).Some? then PostsFailure(postNodes) else RepliesFailure(replyNodes)
      ensures failure.None? ==>
        && posts.Keys == PostNodeIds(postNodes)
        && PostsCoherent(PostState(core.posts, posts), sone) && PostsHoldNodes(posts, postNodes)
        && replyIds == ReplyNodeIds(replyNodes)
        && RepliesLinked(core.replies, replyIds, sone, core.posts)
        && RepliesHoldNodes(core.ReplyView(), replyNodes)
    {
      replyIds := {};
      posts, failure := ReadPosts(sone, postNodes);
      if failure.Some? {
        return;
      }
      ghost var registry := core.posts;
      replyIds, failure := ReadReplies(sone, replyNodes);
      if failure.Some? {
        return;
      }
      forall k | k in posts
        ensures k in core.posts && core.posts[k] == registry[k]
      {
        ItemsGrow(registry, core.posts, k);
      }
    }

    /** The post section (lines 288-312): the first bad node fails it; otherwise every listed post is collected. */
    method ReadPosts(sone: SoneId, nodes: seq<PostNode>) returns (posts: map<PostId, Post>, failure: Option<Failure>)
      requires core.Valid()
      modifies core`posts
      ensures core.Valid()
      ensures failure == PostsFailure(nodes)
      ensures core.HeadView() == old(core.HeadView()) && core.ReplyView() == old(core.ReplyView())
      ensures failure.None? ==>
        posts.Keys == PostNodeIds(nodes) && PostsCoherent(PostState(core.posts, posts), sone) && PostsHoldNodes(posts, nodes)
    {
      ghost var s0 := PostState(core.posts, map[]);
      posts, failure := ScanPostNodes(sone, nodes);
      ScanPostsFailure(nodes, sone, s0);
      if failure.None? {
        ScanPostsCollects(nodes, sone, s0);
        ScanPostsTakesNodeValues(nodes, sone, s0);
      }
    }

    /**
     * The reply section (lines 314-339): the first bad node fails it;
     * otherwise every listed reply is collected. Posts are only added.
     */
    method ReadReplies(sone: SoneId, nodes: seq<ReplyNode>) returns (replyIds: set<ReplyId>, failure: Option<Failure>)
      requires core.Valid()
      modifies core`replies, core`posts, core.replies.Values
      ensures core.Valid()
      ensures failure == RepliesFailure(nodes)
      ensures core.HeadView() == old(core.HeadView())
      ensures old(core.posts).Items <= core.posts.Items
      ensures failure.None? ==>
        && replyIds == ReplyNodeIds(nodes)
        && RepliesLinked(core.replies, replyIds, sone, core.posts)
        && RepliesHoldNodes(core.ReplyView(), nodes)
    {
      ghost var s0 := ReplyState(core.ReplyView(), core.posts, {});
      replyIds, failure := ScanReplyNodes(sone, nodes);
      ScanRepliesFailure(nodes, sone, s0);
      ScanRepliesOnlyAddsPosts(nodes, sone, s0);
      if failure.None? {
        ScanRepliesCollects(nodes, sone, s0);
        ScanRepliesTakesNodeValues(nodes, sone, s0);
      }
    }

    /**
     * The known-Sone section (lines 367-391): the first bad node fails it;
     * otherwise every listed Sone is collected, named and given a request
     * URI. Sones it does not list keep their name and URIs.
     */
    method ReadKnownSones(nodes: seq<KnownSoneNode>) returns (knownIds: set<SoneId>, failure: Option<Failure>)
      requires core.Valid()
      modifies core`sones, core.sones.Values`name, core.sones.Values`requestUri, core.sones.Values`insertUri
      ensures core.Valid()
      ensures failure == KnownSonesFailure(nodes)
      ensures core.ReplyView() == old(core.ReplyView()) && core.posts == old(core.posts) && core.replies == old(core.replies)
      ensures old(core.sones).Items <= core.sones.Items
      ensures forall s :: s in old(core.sones.Values) && s.id !in KnownSoneNodeIds(nodes) ==> s.Head() == old(s.Head())
      ensures core.HeadView() == KnownHeads(nodes, old(core.HeadView()))
      ensures failure.None? ==>
        && knownIds == KnownSoneNodeIds(nodes)
        && SonesIntroduced(core.sones, knownIds)
        && KnownSonesHoldNodes(old(core.HeadView()), core.HeadView(), nodes)
    {
      ghost var s0 := KnownState(core.HeadView(), {});
      knownIds, failure := ScanKnownNodes(nodes);
      ScanKnownSonesFailure(nodes, s0);
      ScanKnownSonesOnlyTouchesListed(nodes, s0);
      forall s | s in old(core.sones.Values) && s.id !in KnownSoneNodeIds(nodes)
        ensures s.Head() == old(s.Head())
      {
        var k :| k in old(core.sones) && old(core.sones)[k] == s;
        ItemsGrow(old(core.sones), core.sones, k);
      }
      if failure.None? {
        ScanKnownSonesCollects(nodes, s0);
        ScanKnownSonesTakesNodeValues(nodes, s0);
      }
    }

    /** The atomic import of lines 393-401, then `core.addSone` for every known Sone (lines 403-406). */
    method Commit(target: Sone, body: Body)
      requires core.Valid()
      requires PostsKeyed(body.posts) && body.replyIds <= core.replies.Keys && body.knownIds <= core.sones.Keys
      modifies target`profile, target`posts, target`replies, target`likedPostIds, target`modificationCounter, core`knownSones
      ensures core.Valid() && target.Valid() && core.HeadView() == old(core.HeadView()) && core.ReplyView() == old(core.ReplyView())
      ensures target.profile == Some(body.profile) && target.posts == body.posts
      ensures target.replies == map k | k in body.replyIds :: core.replies[k]
      ensures target.likedPostIds == body.likedPostIds && target.modificationCounter == 0
      ensures core.knownSones == WithKnown(old(core.knownSones), body.knownIds, core.sones)
    {
      Import(target, body);
      AddKnownSones(body.knownIds);
    }

    /** Lines 393-401: profile, posts, replies, liked post IDs and a cleared counter, set together. */
    method Import(target: Sone, body: Body)
      requires core.Valid()
      requires PostsKeyed(body.posts) && body.replyIds <= core.replies.Keys
      modifies target`profile, target`posts, target`replies, target`likedPostIds, target`modificationCounter
      ensures target.Valid() && core.HeadView() == old(core.HeadView()) && core.ReplyView() == old(core.ReplyView())
      ensures target.profile == Some(body.profile) && target.posts == body.posts
      ensures target.replies == map k | k in body.replyIds :: core.replies[k]
      ensures target.likedPostIds == body.likedPostIds && target.modificationCounter == 0
    {
      var replies := map k | k in body.replyIds :: core.replies[k];
      target.SetProfile(body.profile);
      target.SetPosts(body.posts);
      target.SetReplies(replies);
      target.SetLikePostIds(body.likedPostIds);
      target.SetModificationCounter(0);
      HeadViewKept(core);
      ReplyViewKept(core);
    }

    /** Name, time, request URI and insert URI (lines 226-269). */
    method MergeHeader(target: Sone, doc: SoneDocument) returns (failure: Option<Failure>)
      modifies target`name, target`time, target`requestUri, target`insertUri
      ensures Step(HeaderOf(target), failure) == HeaderPhase(doc, old(HeaderOf(target)))
    {
      if doc.name.None? {
        return Some(MissingName);
      }
      target.SetName(doc.name);
      if doc.time.None? {
        return Some(MissingTime);
      }
      var time := ParseLong(doc.time.value);
      if time.None? {
        return Some(InvalidTime);
      }
      target.SetTime(time.value);
      if doc.requestUri.Some? {
        match doc.requestUri.value
        case Malformed(_) =>
          return Some(InvalidRequestUri);
        case Parsed(u) =>
          target.SetRequestUri(u);
      }
      if doc.insertUri.Some? && target.insertUri.None? {
        match doc.insertUri.value
        case Malformed(_) =>
          return Some(InvalidInsertUri);
        case Parsed(u) =>
          target.SetInsertUri(u);
          if target.requestUri.None? || target.insertUri.None? {
            return Some(NoRequestUri);
          }
          target.UpdateUris(Max(target.requestUri.value.suggestedEdition, target.insertUri.value.suggestedEdition));
      }
      return None;
    }

    /** The post nodes, collected into a local set (lines 288-312). */
    method ScanPostNodes(sone: SoneId, nodes: seq<PostNode>) returns (collected: map<PostId, Post>, failure: Option<Failure>)
      requires core.Valid()
      modifies core`posts
      ensures core.Valid()
      ensures Step(PostState(core.posts, collected), failure) == ScanPosts(nodes, sone, PostState(old(core.posts), map[]))
    {
      collected := map[];
      var i := 0;
      while i < |nodes|
        invariant 0 <= i <= |nodes|
        invariant core.Valid()
        invariant ScanPosts(nodes, sone, PostState(old(core.posts), map[])) == ScanPosts(nodes[i..], sone, PostState(core.posts, collected))
      {
        assert nodes[i..][0] == nodes[i] && nodes[i..][1..] == nodes[i + 1..];
        collected, failure := ScanPostNode(sone, nodes[i], collected);
        if failure.Some? {
          return;
        }
        i := i + 1;
      }
      return collected, None;
    }

    /** `posts.add(core.getPost(postId).setSone(sone).setTime(Long.parseLong(postTime)).setText(postText))`. */
    method ScanPostNode(sone: SoneId, n: PostNode, collected: map<PostId, Post>) returns (collected': map<PostId, Post>, failure: Option<Failure>)
      requires core.Valid()
      modifies core`posts
      ensures core.Valid()
      ensures Step(PostState(core.posts, collected'), failure) == PostStep(n, sone, PostState(old(core.posts), collected))
    {
      if !CompletePost(n) {
        return collected, Some(IncompletePost);
      }
      ghost var registry := core.posts;
      var post := core.GetPost(n.id.value);
      post := post.(sone := Some(sone));
      core.StorePost(post);
      assert core.posts == registry[n.id.value := post];
      var time := ParseLong(n.time.value);
      if time.None? {
        return collected, Some(InvalidPostTime);
      }
      post := post.(time := time.value, text := n.text);
      core.StorePost(post);
      assert core.posts == registry[n.id.value := post] && post.id == n.id.value;
      return collected[post.id := post], None;
    }

    /** The reply nodes, collected into a local set of reply IDs (lines 314-339). */
    method ScanReplyNodes(sone: SoneId, nodes: seq<ReplyNode>) returns (collected: set<ReplyId>, failure: Option<Failure>)
      requires core.Valid()
      modifies core`replies, core`posts, core.replies.Values
      ensures core.Valid()
      ensures Step(ReplyState(core.ReplyView(), core.posts, collected), failure) ==
        ScanReplies(nodes, sone, ReplyState(old(core.ReplyView()), old(core.posts), {}))
      ensures forall k :: k in core.replies ==> core.replies[k] in old(core.replies.Values) || fresh(core.replies[k])
    {
      collected := {};
      var i := 0;
      while i < |nodes|
        invariant 0 <= i <= |nodes|
        invariant core.Valid()
        invariant forall k :: k in core.replies ==> core.replies[k] in old(core.replies.Values) || fresh(core.replies[k])
        invariant ScanReplies(nodes, sone, ReplyState(old(core.ReplyView()), old(core.posts), {})) ==
          ScanReplies(nodes[i..], sone, ReplyState(core.ReplyView(), core.posts, collected))
      {
        assert nodes[i..][0] == nodes[i] && nodes[i..][1..] == nodes[i + 1..];
        collected, failure := ScanReplyNode(sone, nodes[i], collected);
        if failure.Some? {
          return;
        }
        i := i + 1;
      }
      return collected, None;
    }

    /** `replies.add(core.getReply(replyId).setSone(sone).setPost(core.getPost(replyPostId)).setTime(…).setText(replyText))`. */
    method ScanReplyNode(sone: SoneId, n: ReplyNode, collected: set<ReplyId>) returns (collected': set<ReplyId>, failure: Option<Failure>)
      requires core.Valid()
      modifies core`replies, core`posts, core.replies.Values
      ensures core.Valid()
      ensures Step(ReplyState(core.ReplyView(), core.posts, collected'), failure) ==
        ReplyStep(n, sone, ReplyState(old(core.ReplyView()), old(core.posts), collected))
      ensures forall k :: k in core.replies ==> core.replies[k] in old(core.replies.Values) || fresh(core.replies[k])
    {
      if !CompleteReply(n) {
        return collected, Some(IncompleteReply);
      }
      ghost var view := core.ReplyView();
      ghost var found := if n.id.value in view then view[n.id.value] else BlankReplyData;
      var reply := core.GetReply(n.id.value);
      assert reply.Data() == found;
      ReplyViewUpdate(core, reply);
      ReplyStepAfterLookup(n, sone, ReplyState(view, core.posts, collected));
      collected', failure := FillReply(reply, sone, n, collected);
    }

    /**
     * The rest of a complete reply node, applied to the registered reply it
     * names: author, post (looked up, and so registered), then, with a valid
     * time, time and text.
     */
    method FillReply(reply: Reply, sone: SoneId, n: ReplyNode, collected: set<ReplyId>) returns (collected': set<ReplyId>, failure: Option<Failure>)
      requires CompleteReply(n) && reply.id == n.id.value
      requires core.Valid() && reply.id in core.replies && core.replies[reply.id] == reply
      modifies reply, core`posts
      ensures core.Valid()
      ensures Step(ReplyState(core.ReplyView(), core.posts, collected'), failure) ==
        ReplyStep(n, sone, ReplyState(old(core.ReplyView()), old(core.posts), collected))
    {
      ghost var posts := if n.postId.value in core.posts then core.posts else core.posts[n.postId.value := BlankPost(n.postId.value)];
      var linked := reply.SetSone(Some(sone));
      var post := core.GetPost(n.postId.value);
      assert core.posts == posts && post.id == n.postId.value;
      linked := linked.SetPost(Some(post.id));
      var time := ParseLong(n.time.value);
      if time.Some? {
        linked := linked.SetTime(time.value);
        linked := linked.SetText(n.text);
        collected', failure := collected + {reply.id}, None;
      } else {
        collected', failure := collected, Some(InvalidReplyTime);
      }
      ReplyViewUpdate(core, reply);
    }

    /** The like sections: the set of IDs each lists. */
    method CollectIds(ids: seq<string>) returns (collected: set<string>)
      ensures collected == set x | x in ids
    {
      collected := {};
      var i := 0;
      while i < |ids|
        invariant 0 <= i <= |ids|
        invariant collected == set x | x in ids[..i]
      {
        assert ids[..i + 1] == ids[..i] + [ids[i]];
        collected := collected + {ids[i]};
        i := i + 1;
      }
      assert ids[..|ids|] == ids;
    }

    /** The known-Sone nodes, collected into a local set of Sone IDs (lines 367-391). */
    method ScanKnownNodes(nodes: seq<KnownSoneNode>) returns (collected: set<SoneId>, failure: Option<Failure>)
      requires core.Valid()
      modifies core`sones, core.sones.Values`name, core.sones.Values`requestUri, core.sones.Values`insertUri
      ensures core.Valid()
      ensures Step(KnownState(core.HeadView(), collected), failure) ==
        ScanKnownSones(nodes, KnownState(old(core.HeadView()), {}))
      ensures old(core.sones).Items <= core.sones.Items
      ensures forall k :: k in core.sones ==> core.sones[k] in old(core.sones.Values) || fresh(core.sones[k])
    {
      collected := {};
      var i := 0;
      while i < |nodes|
        invariant 0 <= i <= |nodes|
        invariant core.Valid()
        invariant forall k :: k in core.sones ==> core.sones[k] in old(core.sones.Values) || fresh(core.sones[k])
        invariant old(core.sones).Items <= core.sones.Items
        invariant ScanKnownSones(nodes, KnownState(old(core.HeadView()), {})) ==
          ScanKnownSones(nodes[i..], KnownState(core.HeadView(), collected))
      {
        assert nodes[i..][0] == nodes[i] && nodes[i..][1..] == nodes[i + 1..];
        collected, failure := ScanKnownNode(nodes[i], collected);
        if failure.Some? {
          return;
        }
        i := i + 1;
      }
      return collected, None;
    }

    /** `knownSones.add(core.getSone(knownSoneId).setRequestUri(new FreenetURI(knownSoneKey)).setName(knownSoneName))`. */
    method ScanKnownNode(n: KnownSoneNode, collected: set<SoneId>) returns (collected': set<SoneId>, failure: Option<Failure>)
      requires core.Valid()
      modifies core`sones, core.sones.Values`name, core.sones.Values`requestUri, core.sones.Values`insertUri
      ensures core.Valid()
      ensures Step(KnownState(core.HeadView(), collected'), failure) == KnownStep(n, KnownState(old(core.HeadView()), collected))
      ensures old(core.sones).Items <= core.sones.Items
      ensures forall k :: k in core.sones ==> core.sones[k] in old(core.sones.Values) || fresh(core.sones[k])
    {
      if !CompleteKnownSone(n) {
        return collected, Some(IncompleteKnownSone);
      }
      ghost var view := core.HeadView();
      ghost var found := if n.soneId.value in view then view[n.soneId.value] else BlankHead;
      var known := core.GetSone(n.soneId.value);
      assert known.Head() == found;
      HeadViewUpdate(core, known);
      KnownStepAfterLookup(n, KnownState(view, collected));
      collected', failure := ApplyKnownKey(known, n, collected);
    }

    /**
     * The key of a complete known-Sone node applied to the Sone it names,
     * already registered: a valid key becomes its request URI and the node's
     * name its name; only that Sone's entry of the head view changes.
     */
    method ApplyKnownKey(known: Sone, n: KnownSoneNode, collected: set<SoneId>) returns (collected': set<SoneId>, failure: Option<Failure>)
      requires CompleteKnownSone(n) && known.id == n.soneId.value
      requires core.Valid() && known.id in core.sones && core.sones[known.id] == known
      modifies known`name, known`requestUri, known`insertUri
      ensures Step(KnownState(core.HeadView(), collected'), failure) == KnownStep(n, KnownState(old(core.HeadView()), collected))
      ensures old(core.sones).Items <= core.sones.Items
    {
      match n.soneKey.value {
        case Malformed(_) =>
          assert old(core.HeadView())[known.id := known.Head()] == old(core.HeadView());
          collected', failure := collected, Some(InvalidKnownSoneKey);
        case Parsed(u) =>
          known.SetRequestUri(u);
          known.SetName(n.soneName);
          HeadViewUpdate(core, known);
          collected', failure := collected + {known.id}, None;
      }
    }

    /** Every collected known Sone is handed to the core. */
    method AddKnownSones(ids: set<SoneId>)
      requires core.Valid() && ids <= core.sones.Keys
      modifies core`knownSones
      ensures core.Valid()
      ensures core.knownSones == WithKnown(old(core.knownSones), ids, core.sones)
    {
      var remaining := ids;
      while remaining != {}
        invariant remaining <= core.sones.Keys
        invariant core.Valid()
        invariant WithKnown(core.knownSones, remaining, core.sones) == WithKnown(old(core.knownSones), ids, core.sones)
        decreases |remaining|
      {
        var k :| k in remaining;
        WithKnownStep(core.knownSones, remaining, k, core.sones);
        core.AddSone(core.sones[k]);
        remaining := remaining - {k};
      }
      assert WithKnown(core.knownSones, {}, core.sones) == core.knownSones;
    }
  }

  /** A reply as the reply section leaves it: by `sone`, referring to a post of the registry. */
  ghost predicate LinkedReply(r: Reply, sone: SoneId, posts: map<PostId, Post>)
    reads r
  {
    r.sone == Some(sone) && r.post.Some? && r.post.value in posts
  }

  /** A Sone as the known-Sone section leaves it: named, with a request URI. */
  ghost predicate Introduced(s: Sone)
    reads s
  {
    s.name.Some? && s.requestUri.Some?
  }

  /** Every reply of `ids` is registered and linked as the reply section leaves it. */
  ghost predicate RepliesLinked(replies: map<ReplyId, Reply>, ids: set<ReplyId>, sone: SoneId, posts: map<PostId, Post>)
    reads replies.Values
  {
    forall k :: k in ids ==> k in replies && LinkedReply(replies[k], sone, posts)
  }

  /** Every Sone of `ids` is registered and introduced as the known-Sone section leaves it. */
  ghost predicate SonesIntroduced(sones: map<SoneId, Sone>, ids: set<SoneId>)
    reads sones.Values
  {
    forall k :: k in ids ==> k in sones && Introduced(sones[k])
  }

  /** A map whose entries all stay in another keeps each of its keys, with the same value. */
  lemma ItemsGrow<K, V>(a: map<K, V>, b: map<K, V>, k: K)
    requires a.Items <= b.Items && k in a
    ensures k in b && b[k] == a[k]
  {
    assert (k, a[k]) in a.Items;
  }

  /** What a merge has read after the header, before any of it is applied to the Sone. */
  datatype Body = Body(profile: Profile, posts: map<PostId, Post>, replyIds: set<ReplyId>,
                       likedPostIds: set<PostId>, likedReplyIds: set<ReplyId>, knownIds: set<SoneId>)

  const NoBody: Body := Body(Profile(None, None, None, None, None, None), map[], {}, {}, {}, {})

  /**
   * `body` is what the sections after the header hold: the profile, exactly
   * the listed posts with the values of their last nodes, the listed reply
   * and known-Sone IDs, and the liked IDs.
   */
  predicate BodyReads(body: Body, doc: SoneDocument) {
    && doc.profile.Some? && body.profile == ProfileOf(doc.profile.value)
    && body.posts.Keys == PostNodeIds(Section(doc.posts)) && PostsHoldNodes(body.posts, Section(doc.posts))
    && body.replyIds == ReplyNodeIds(Section(doc.replies))
    && body.likedPostIds == LikedIds(doc.postLikes) && body.likedReplyIds == LikedIds(doc.replyLikes)
    && body.knownIds == KnownSoneNodeIds(Section(doc.knownSones))
  }

  /**
   * `target` and the registry as a successful merge leaves them: the
   * profile is the document's; the posts are exactly the listed ones, as
   * registered, authored by the Sone, with the times and texts of their
   * last nodes; the replies are exactly the listed ones, shared with the
   * registry, with the post IDs, times and texts of their last nodes; the
   * liked post IDs are the listed ones; the counter is cleared; and the
   * listed Sones have been handed to the known Sones.
   */
  ghost predicate Merged(target: Sone, core: Core, doc: SoneDocument, known: map<SoneId, Sone>)
    reads target, core, core.replies.Values
  {
    && doc.profile.Some? && target.profile == Some(ProfileOf(doc.profile.value))
    && target.posts.Keys == PostNodeIds(Section(doc.posts))
    && PostsCoherent(PostState(core.posts, target.posts), target.id)
    && PostsHoldNodes(target.posts, Section(doc.posts))
    && target.replies.Keys == ReplyNodeIds(Section(doc.replies))
    && (forall k :: k in target.replies ==> k in core.replies && core.replies[k] == target.replies[k])
    && RepliesHoldNodes(core.ReplyView(), Section(doc.replies))
    && target.likedPostIds == LikedIds(doc.postLikes)
    && target.modificationCounter == 0
    && KnownSoneNodeIds(Section(doc.knownSones)) <= core.sones.Keys
    && core.knownSones == WithKnown(known, KnownSoneNodeIds(Section(doc.knownSones)), core.sones)
  }

  /** A body read from `doc` and then committed leaves the merge's result. */
  lemma CommitMerges(core: Core, target: Sone, body: Body, doc: SoneDocument, known: map<SoneId, Sone>)
    requires BodyReads(body, doc) && PostsCoherent(PostState(core.posts, body.posts), target.id)
    requires RepliesHoldNodes(core.ReplyView(), Section(doc.replies))
    requires body.replyIds <= core.replies.Keys && body.knownIds <= core.sones.Keys
    requires target.profile == Some(body.profile) && target.posts == body.posts
    requires target.replies == map k | k in body.replyIds :: core.replies[k]
    requires target.likedPostIds == body.likedPostIds && target.modificationCounter == 0
    requires core.knownSones == WithKnown(known, body.knownIds, core.sones)
    ensures Merged(target, core, doc, known)
  {
  }

  /** The known-Sone registry once each of `ids` has been handed to `addSone`: a Sone already known stays. */
  function WithKnown(known: map<SoneId, Sone>, ids: set<SoneId>, sones: map<SoneId, Sone>): map<SoneId, Sone>
    requires ids <= sones.Keys
  {
    (map k | k in ids :: sones[k]) + known
  }

  /**
   * Handing the listed Sones to `addSone` keeps every Sone already known and
   * adds exactly the listed Sones not known yet, as the registry holds them.
   */
  lemma WithKnownAddsOnlyNew(known: map<SoneId, Sone>, ids: set<SoneId>, sones: map<SoneId, Sone>)
    requires ids <= sones.Keys
    ensures var r := WithKnown(known, ids, sones);
      && r.Keys == known.Keys + ids
      && known.Items <= r.Items
      && (forall k :: k in ids && k !in known ==> r[k] == sones[k])
  {
  }

  /** Handing one of the remaining Sones to `addSone` leaves the final registry as it was. */
  lemma WithKnownStep(known: map<SoneId, Sone>, remaining: set<SoneId>, k: SoneId, sones: map<SoneId, Sone>)
    requires remaining <= sones.Keys && k in remaining
    ensures WithKnown(if k in known then known else known[k := sones[k]], remaining - {k}, sones) == WithKnown(known, remaining, sones)
  {
  }

  /** Looking the Sone of a complete node up first does not change what the node then does. */
  lemma KnownStepAfterLookup(n: KnownSoneNode, s: KnownState)
    requires CompleteKnownSone(n)
    ensures var id := n.soneId.value;
      KnownStep(n, s.(heads := s.heads[id := if id in s.heads then s.heads[id] else BlankHead])) == KnownStep(n, s)
  {
    var id := n.soneId.value;
    var found := if id in s.heads then s.heads[id] else BlankHead;
    var s' := s.(heads := s.heads[id := found]);
    assert (if id in s'.heads then s'.heads[id] else BlankHead) == found;
    assert s'.heads[id := found] == s.heads[id := found];
    match n.soneKey.value {
      case Malformed(_) =>
      case Parsed(u) =>
        var h := SoneHead(n.soneName, Uris.SetRequestUri(found.uris, u));
        assert s'.heads[id := h] == s.heads[id := h];
    }
  }

  /** Looking the reply of a complete node up first does not change what the node then does. */
  lemma ReplyStepAfterLookup(n: ReplyNode, sone: SoneId, s: ReplyState)
    requires CompleteReply(n)
    ensures var id := n.id.value;
      ReplyStep(n, sone, s.(replies := s.replies[id := if id in s.replies then s.replies[id] else BlankReplyData])) == ReplyStep(n, sone, s)
  {
    var id := n.id.value;
    var found := if id in s.replies then s.replies[id] else BlankReplyData;
    var s' := s.(replies := s.replies[id := found]);
    assert (if id in s'.replies then s'.replies[id] else BlankReplyData) == found;
    var linked := found.(sone := Some(sone), post := Some(n.postId.value));
    assert s'.replies[id := linked] == s.replies[id := linked];
    match ParseLong(n.time.value) {
      case None =>
      case Some(t) =>
        assert s'.replies[id := linked.(time := t, text := n.text)] == s.replies[id := linked.(time := t, text := n.text)];
    }
  }

  /** When one registered reply and no other changes, the reply view changes at that reply's ID only. */
  twostate lemma ReplyViewUpdate(core: Core, new reply: Reply)
    requires core.Valid() && core.replies == old(core.replies)[reply.id := reply]
    requires forall r :: r in old(core.replies.Values) && r != reply ==> r.Data() == old(r.Data())
    ensures core.ReplyView() == old(core.ReplyView())[reply.id := reply.Data()]
  {
  }

  /** When no registered reply changes, the reply view stays as it was. */
  twostate lemma ReplyViewKept(core: Core)
    requires core.replies == old(core.replies)
    requires forall r :: r in old(core.replies.Values) ==> r.Data() == old(r.Data())
    ensures core.ReplyView() == old(core.ReplyView())
  {
  }

  /** When no registered Sone's name or URIs change, the head view stays as it was. */
  twostate lemma HeadViewKept(core: Core)
    requires core.sones == old(core.sones)
    requires forall s :: s in old(core.sones.Values) ==> s.Head() == old(s.Head())
    ensures core.HeadView() == old(core.HeadView())
  {
  }

  /** When one registered Sone's name and URIs and no other's change, the head view changes at that Sone's ID only. */
  twostate lemma HeadViewUpdate(core: Core, new sone: Sone)
    requires core.Valid() && core.sones == old(core.sones)[sone.id := sone]
    requires forall s :: s in old(core.sones.Values) && s != sone ==> s.Head() == old(s.Head())
    ensures core.HeadView() == old(core.HeadView())[sone.id := sone.Head()]
  {
  }
}
