/**
 * A downloaded Sone document after XML decoding, and the validate-then-merge
 * rules of `parseSone` over it, as functions on values: what each phase reads,
 * which registry entries it creates or changes before it can still fail, and
 * the first failure it meets.
 */
module Documents {
  import opened Optional
  import opened Numbers
  import opened Uris
  import opened Entities
  import opened Replies
  import opened Sones

  /** A URI string of the document, after `new FreenetURI(text)`: malformed, or parsed. */
  datatype UriText = Malformed(text: string) | Parsed(uri: Uri)

  datatype PostNode = PostNode(id: Option<string>, time: Option<string>, text: Option<string>)

  datatype ReplyNode = ReplyNode(id: Option<string>, postId: Option<string>, time: Option<string>, text: Option<string>)

  datatype KnownSoneNode = KnownSoneNode(soneId: Option<string>, soneKey: Option<UriText>, soneName: Option<string>)

  datatype ProfileNode = ProfileNode(
    firstName: Option<string>, middleName: Option<string>, lastName: Option<string>,
    birthDay: Option<string>, birthMonth: Option<string>, birthYear: Option<string>)

  /** Every value and section of the document may be missing. */
  datatype SoneDocument = SoneDocument(
    id: Option<string>,
    name: Option<string>,
    time: Option<string>,
    requestUri: Option<UriText>,
    insertUri: Option<UriText>,
    profile: Option<ProfileNode>,
    posts: Option<seq<PostNode>>,
    replies: Option<seq<ReplyNode>>,
    postLikes: Option<seq<string>>,
    replyLikes: Option<seq<string>>,
    knownSones: Option<seq<KnownSoneNode>>)

  /** Why `parseSone` returns null (or, for the last two header cases, throws). */
  datatype Failure =
    | IdMismatch
    | MissingId            // no original Sone and no ID: `getSone(null)` cannot make a Sone
    | MissingName
    | MissingTime
    | InvalidTime
    | InvalidRequestUri
    | InvalidInsertUri
    | NoRequestUri         // an insert URI was adopted while no request URI exists: a null dereference
    | MissingProfile
    | IncompletePost
    | InvalidPostTime
    | IncompleteReply
    | InvalidReplyTime
    | IncompleteKnownSone
    | InvalidKnownSoneKey

  /** A state reached by a phase, and the failure that ended it early, if any. */
  datatype Step<S> = Step(state: S, failure: Option<Failure>)

  // ---------------------------------------------------------------------------
  // Header: name, time, request URI, insert URI
  // ---------------------------------------------------------------------------

  /** The fields of the target Sone that the header phase writes. */
  datatype Header = Header(name: Option<string>, time: int, uris: UriPair)

  /**
   * Each header field is written as soon as it is read and valid, so a later
   * failure leaves the earlier fields changed. An insert URI is read only when
   * the Sone has none; once adopted, both URIs are raised to the larger of
   * their suggested editions.
   */
  function HeaderPhase(doc: SoneDocument, h: Header): Step<Header> {
    if doc.name.None? then Step(h, Some(MissingName))
    else
      var named := h.(name := doc.name);
      if doc.time.None? then Step(named, Some(MissingTime))
      else match ParseLong(doc.time.value)
        case None => Step(named, Some(InvalidTime))
        case Some(t) =>
          var timed := named.(time := t);
          match doc.requestUri
          case Some(Malformed(_)) => Step(timed, Some(InvalidRequestUri))
          case Some(Parsed(u)) => AdoptInsertUri(doc, timed.(uris := SetRequestUri(timed.uris, u)))
          case None => AdoptInsertUri(doc, timed)
  }

  /** The insert URI part of the header phase. */
  function AdoptInsertUri(doc: SoneDocument, h: Header): Step<Header> {
    if doc.insertUri.None? || h.uris.insert.Some? then Step(h, None)
    else match doc.insertUri.value
      case Malformed(_) => Step(h, Some(InvalidInsertUri))
      case Parsed(u) =>
        var adopted := h.(uris := SetInsertUri(h.uris, u));
        match adopted.uris
        case UriPair(Some(r), Some(i)) =>
          Step(adopted.(uris := UpdateUris(adopted.uris, Max(r.suggestedEdition, i.suggestedEdition))), None)
        case _ => Step(adopted, Some(NoRequestUri))
  }

  /** The header phase succeeds exactly when each field it reads is present and valid. */
  lemma HeaderPhaseSucceedsIff(doc: SoneDocument, h: Header)
    ensures HeaderPhase(doc, h).failure.None? <==>
      && doc.name.Some?
      && doc.time.Some? && ParseLong(doc.time.value).Some?
      && (doc.requestUri.Some? ==> doc.requestUri.value.Parsed?)
      && (doc.insertUri.Some? && h.uris.insert.None? ==>
            doc.insertUri.value.Parsed? && (doc.requestUri.Some? || h.uris.request.Some?))
  {
    if doc.name.Some? && doc.time.Some? && ParseLong(doc.time.value).Some? && doc.requestUri.Some? && doc.requestUri.value.Parsed? {
      var p := SetRequestUri(h.uris, doc.requestUri.value.uri);
      assert p.request.Some?;
      assert p.insert.Some? <==> h.uris.insert.Some?;
    }
  }

  /** The header writes the name, then the time, before anything later can fail. */
  lemma HeaderWritesNameAndTimeFirst(doc: SoneDocument, h: Header)
    ensures var r := HeaderPhase(doc, h);
      && (doc.name.Some? ==> r.state.name == doc.name)
      && (r.failure != Some(MissingName) && r.failure != Some(MissingTime) && r.failure != Some(InvalidTime) ==>
            doc.time.Some? && ParseLong(doc.time.value) == Some(r.state.time))
  {
  }

  /** A Sone that already has an insert URI ignores the document's insert URI entirely. */
  lemma ExistingInsertUriIgnoresDocument(doc: SoneDocument, h: Header)
    requires h.uris.insert.Some?
    ensures HeaderPhase(doc, h) == HeaderPhase(doc.(insertUri := None), h)
  {
    if doc.requestUri.Some? && doc.requestUri.value.Parsed? {
      assert SetRequestUri(h.uris, doc.requestUri.value.uri).insert.Some?;
    }
  }

  /** An adopted insert URI leaves both URIs at or pointing to the larger suggested edition. */
  lemma AdoptedInsertUriRaisesBoth(doc: SoneDocument, h: Header)
    requires h.uris.insert.None? && doc.insertUri.Some? && HeaderPhase(doc, h).failure.None?
    ensures var before := (if doc.requestUri.Some? then SetRequestUri(h.uris, doc.requestUri.value.uri) else h.uris);
      var adopted := SetInsertUri(before, doc.insertUri.value.uri);
      var m := Max(adopted.request.value.suggestedEdition, adopted.insert.value.suggestedEdition);
      var u := HeaderPhase(doc, h).state.uris;
      && u.insert.Some? && SameLocator(u.insert.value, doc.insertUri.value.uri)
      && Reaches(u.request, m) && Reaches(u.insert, m)
  {
    HeaderPhaseSucceedsIff(doc, h);
    if doc.requestUri.Some? {
      assert SetRequestUri(h.uris, doc.requestUri.value.uri).insert.None?;
    }
  }

  // ---------------------------------------------------------------------------
  // Profile
  // ---------------------------------------------------------------------------

  /** Every profile field is optional; an unparsable birth date field becomes absent. */
  function ProfileOf(node: ProfileNode): (p: Profile)
    ensures p.firstName == node.firstName && p.middleName == node.middleName && p.lastName == node.lastName
    ensures p.birthDay.Some? ==> node.birthDay.Some? && ParseSigned(node.birthDay.value, INT_MIN, INT_MAX) == p.birthDay
    ensures p.birthMonth.Some? ==> node.birthMonth.Some? && ParseSigned(node.birthMonth.value, INT_MIN, INT_MAX) == p.birthMonth
    ensures p.birthYear.Some? ==> node.birthYear.Some? && ParseSigned(node.birthYear.value, INT_MIN, INT_MAX) == p.birthYear
    ensures node.birthDay.Some? && ParseSigned(node.birthDay.value, INT_MIN, INT_MAX).Some? ==>
      p.birthDay == ParseSigned(node.birthDay.value, INT_MIN, INT_MAX)
    ensures node.birthMonth.Some? && ParseSigned(node.birthMonth.value, INT_MIN, INT_MAX).Some? ==>
      p.birthMonth == ParseSigned(node.birthMonth.value, INT_MIN, INT_MAX)
    ensures node.birthYear.Some? && ParseSigned(node.birthYear.value, INT_MIN, INT_MAX).Some? ==>
      p.birthYear == ParseSigned(node.birthYear.value, INT_MIN, INT_MAX)
  {
    Profile(node.firstName, node.middleName, node.lastName,
      SafeParseInteger(node.birthDay), SafeParseInteger(node.birthMonth), SafeParseInteger(node.birthYear))
  }

  // ---------------------------------------------------------------------------
  // Posts
  // ---------------------------------------------------------------------------

  /** The post registry, and the posts collected so far for the target Sone. */
  datatype PostState = PostState(registry: map<PostId, Post>, collected: map<PostId, Post>)

  /**
   * The registry is keyed by post ID, and every collected post is the
   * registry's post for its ID, authored by the target Sone.
   */
  predicate PostsCoherent(s: PostState, sone: SoneId) {
    && PostsKeyed(s.registry)
    && forall k :: k in s.collected ==> k in s.registry && s.registry[k] == s.collected[k] && s.collected[k].sone == Some(sone)
  }

  predicate CompletePost(n: PostNode) {
    n.id.Some? && n.time.Some? && n.text.Some?
  }

  /** The first bad post node decides the failure: a missing field, else an unparsable time. */
  function PostsFailure(nodes: seq<PostNode>): Option<Failure> {
    if nodes == [] then None
    else if !CompletePost(nodes[0]) then Some(IncompletePost)
    else if ParseLong(nodes[0].time.value).None? then Some(InvalidPostTime)
    else PostsFailure(nodes[1..])
  }

  /** The IDs the post nodes carry. */
  function PostNodeIds(nodes: seq<PostNode>): set<PostId> {
    if nodes == [] then {}
    else (if nodes[0].id.Some? then {nodes[0].id.value} else {}) + PostNodeIds(nodes[1..])
  }

  /**
   * One post node: looked up (and so registered) and given its author before
   * its time is parsed; with a valid time it gets its time and text and is
   * collected. A post ID listed twice ends with the later node's values.
   */
  function PostStep(n: PostNode, sone: SoneId, s: PostState): Step<PostState> {
    if !CompletePost(n) then Step(s, Some(IncompletePost))
    else
      var id := n.id.value;
      var found := if id in s.registry then s.registry[id] else BlankPost(id);
      var authored := found.(sone := Some(sone));
      match ParseLong(n.time.value)
      case None => Step(s.(registry := s.registry[id := authored]), Some(InvalidPostTime))
      case Some(t) =>
        var post := authored.(time := t, text := n.text);
        Step(PostState(s.registry[id := post], s.collected[id := post]), None)
  }

  /** The post nodes in document order, stopping at the first failure. */
  function ScanPosts(nodes: seq<PostNode>, sone: SoneId, s: PostState): Step<PostState>
    decreases |nodes|
  {
    if nodes == [] then Step(s, None)
    else
      var r := PostStep(nodes[0], sone, s);
      if r.failure.Some? then r else ScanPosts(nodes[1..], sone, r.state)
  }

  /** Whatever the registry holds, scanning fails exactly as `PostsFailure` says. */
  lemma {:induction false} ScanPostsFailure(nodes: seq<PostNode>, sone: SoneId, s: PostState)
    ensures ScanPosts(nodes, sone, s).failure == PostsFailure(nodes)
    decreases |nodes|
  {
    if nodes != [] {
      ScanPostsFailure(nodes[1..], sone, PostStep(nodes[0], sone, s).state);
    }
  }

  /** Post nodes are accepted exactly when every one has an ID, a time, a text and a parsable time. */
  lemma {:induction false} PostsFailureNoneIff(nodes: seq<PostNode>)
    ensures PostsFailure(nodes).None? <==>
      forall i :: 0 <= i < |nodes| ==> CompletePost(nodes[i]) && ParseLong(nodes[i].time.value).Some?
    decreases |nodes|
  {
    if nodes != [] {
      PostsFailureNoneIff(nodes[1..]);
      assert forall i :: 1 <= i < |nodes| ==> nodes[i] == nodes[1..][i - 1];
    }
  }

  /**
   * A successful scan collects exactly the listed posts besides those already
   * collected, each the registry's post for its ID and authored by the target Sone.
   */
  lemma {:induction false} ScanPostsCollects(nodes: seq<PostNode>, sone: SoneId, s: PostState)
    requires PostsFailure(nodes).None?
    requires PostsCoherent(s, sone)
    ensures var r := ScanPosts(nodes, sone, s).state;
      && r.collected.Keys == s.collected.Keys + PostNodeIds(nodes)
      && PostsCoherent(r, sone)
    decreases |nodes|
  {
    if nodes != [] {
      ScanPostsCollects(nodes[1..], sone, PostStep(nodes[0], sone, s).state);
    }
  }

  /** The last post node with ID `k`: the node whose values the scan leaves for `k`. */
  function LastPostNode(nodes: seq<PostNode>, k: PostId): (n: PostNode)
    requires k in PostNodeIds(nodes)
    ensures n.id == Some(k)
    decreases |nodes|
  {
    if k in PostNodeIds(nodes[1..]) then LastPostNode(nodes[1..], k) else nodes[0]
  }

  /** A post holds the time and the text of a post node. */
  predicate HoldsPostNode(p: Post, n: PostNode) {
    n.time.Some? && ParseLong(n.time.value).Some? && p.time == ParseLong(n.time.value).value && p.text == n.text
  }

  /** Every listed post is collected and holds the time and text of the last node with its ID. */
  predicate PostsHoldNodes(posts: map<PostId, Post>, nodes: seq<PostNode>) {
    forall k :: k in PostNodeIds(nodes) ==> k in posts && HoldsPostNode(posts[k], LastPostNode(nodes, k))
  }

  /** Posts collected earlier whose IDs the nodes do not list stay as they were. */
  lemma {:induction false} ScanPostsKeepsUnlisted(nodes: seq<PostNode>, sone: SoneId, s: PostState)
    ensures var r := ScanPosts(nodes, sone, s).state;
      forall k :: k in s.collected && k !in PostNodeIds(nodes) ==> k in r.collected && r.collected[k] == s.collected[k]
    decreases |nodes|
  {
    if nodes != [] {
      ScanPostsKeepsUnlisted(nodes[1..], sone, PostStep(nodes[0], sone, s).state);
    }
  }

  /** After a successful scan, each listed post holds the time and text of the last node with its ID. */
  lemma {:induction false} ScanPostsTakesNodeValues(nodes: seq<PostNode>, sone: SoneId, s: PostState)
    requires PostsFailure(nodes).None?
    ensures PostsHoldNodes(ScanPosts(nodes, sone, s).state.collected, nodes)
    decreases |nodes|
  {
    if nodes != [] {
      var t := PostStep(nodes[0], sone, s).state;
      ScanPostsTakesNodeValues(nodes[1..], sone, t);
      ScanPostsKeepsUnlisted(nodes[1..], sone, t);
    }
  }

  // ---------------------------------------------------------------------------
  // Replies
  // ---------------------------------------------------------------------------

  /** The content of every registered reply, the post registry, and the reply IDs collected so far. */
  datatype ReplyState = ReplyState(replies: map<ReplyId, ReplyData>, posts: map<PostId, Post>, collected: set<ReplyId>)

  /**
   * The post registry is keyed by ID, and every collected reply is registered,
   * authored by the target Sone, and refers to a registered post.
   */
  predicate RepliesCoherent(s: ReplyState, sone: SoneId) {
    && PostsKeyed(s.posts)
    && forall k :: k in s.collected ==>
         k in s.replies && s.replies[k].sone == Some(sone) && s.replies[k].post.Some? && s.replies[k].post.value in s.posts
  }

  predicate CompleteReply(n: ReplyNode) {
    n.id.Some? && n.postId.Some? && n.time.Some? && n.text.Some?
  }

  /** The first bad reply node decides the failure: a missing field, else an unparsable time. */
  function RepliesFailure(nodes: seq<ReplyNode>): Option<Failure> {
    if nodes == [] then None
    else if !CompleteReply(nodes[0]) then Some(IncompleteReply)
    else if ParseLong(nodes[0].time.value).None? then Some(InvalidReplyTime)
    else RepliesFailure(nodes[1..])
  }

  function ReplyNodeIds(nodes: seq<ReplyNode>): set<ReplyId> {
    if nodes == [] then {}
    else (if nodes[0].id.Some? then {nodes[0].id.value} else {}) + ReplyNodeIds(nodes[1..])
  }

  /**
   * One reply node: the reply is looked up (and so registered) and given its
   * author, the post it refers to is looked up (and so registered) and set,
   * and only then is the time parsed; with a valid time the reply gets its
   * time and text and is collected.
   */
  function ReplyStep(n: ReplyNode, sone: SoneId, s: ReplyState): Step<ReplyState> {
    if !CompleteReply(n) then Step(s, Some(IncompleteReply))
    else
      var id := n.id.value;
      var postId := n.postId.value;
      var found := if id in s.replies then s.replies[id] else BlankReplyData;
      var posts := if postId in s.posts then s.posts else s.posts[postId := BlankPost(postId)];
      var linked := found.(sone := Some(sone), post := Some(postId));
      match ParseLong(n.time.value)
      case None => Step(ReplyState(s.replies[id := linked], posts, s.collected), Some(InvalidReplyTime))
      case Some(t) => Step(ReplyState(s.replies[id := linked.(time := t, text := n.text)], posts, s.collected + {id}), None)
  }

  /** The reply nodes in document order, stopping at the first failure. */
  function ScanReplies(nodes: seq<ReplyNode>, sone: SoneId, s: ReplyState): Step<ReplyState>
    decreases |nodes|
  {
    if nodes == [] then Step(s, None)
    else
      var r := ReplyStep(nodes[0], sone, s);
      if r.failure.Some? then r else ScanReplies(nodes[1..], sone, r.state)
  }

  lemma {:induction false} ScanRepliesFailure(nodes: seq<ReplyNode>, sone: SoneId, s: ReplyState)
    ensures ScanReplies(nodes, sone, s).failure == RepliesFailure(nodes)
    decreases |nodes|
  {
    if nodes != [] {
      ScanRepliesFailure(nodes[1..], sone, ReplyStep(nodes[0], sone, s).state);
    }
  }

  lemma {:induction false} RepliesFailureNoneIff(nodes: seq<ReplyNode>)
    ensures RepliesFailure(nodes).None? <==>
      forall i :: 0 <= i < |nodes| ==> CompleteReply(nodes[i]) && ParseLong(nodes[i].time.value).Some?
    decreases |nodes|
  {
    if nodes != [] {
      RepliesFailureNoneIff(nodes[1..]);
      assert forall i :: 1 <= i < |nodes| ==> nodes[i] == nodes[1..][i - 1];
    }
  }

  /** A successful scan collects exactly the listed replies, each authored by the target Sone and linked to a registered post. */
  lemma {:induction false} ScanRepliesCollects(nodes: seq<ReplyNode>, sone: SoneId, s: ReplyState)
    requires RepliesFailure(nodes).None?
    requires RepliesCoherent(s, sone)
    ensures var r := ScanReplies(nodes, sone, s).state;
      && r.collected == s.collected + ReplyNodeIds(nodes)
      && RepliesCoherent(r, sone)
    decreases |nodes|
  {
    if nodes != [] {
      ScanRepliesCollects(nodes[1..], sone, ReplyStep(nodes[0], sone, s).state);
    }
  }

  /** Scanning replies only registers posts that were missing; registered posts keep their content. */
  lemma {:induction false} ScanRepliesOnlyAddsPosts(nodes: seq<ReplyNode>, sone: SoneId, s: ReplyState)
    ensures var r := ScanReplies(nodes, sone, s).state;
      s.posts.Keys <= r.posts.Keys && forall k :: k in s.posts ==> r.posts[k] == s.posts[k]
    decreases |nodes|
  {
    if nodes != [] {
      ScanRepliesOnlyAddsPosts(nodes[1..], sone, ReplyStep(nodes[0], sone, s).state);
    }
  }

  /** The last reply node with ID `k`: the node whose values the scan leaves for `k`. */
  function LastReplyNode(nodes: seq<ReplyNode>, k: ReplyId): (n: ReplyNode)
    requires k in ReplyNodeIds(nodes)
    ensures n.id == Some(k)
    decreases |nodes|
  {
    if k in ReplyNodeIds(nodes[1..]) then LastReplyNode(nodes[1..], k) else nodes[0]
  }

  /** A reply's content refers to the post of a reply node and holds its time and text. */
  predicate HoldsReplyNode(d: ReplyData, n: ReplyNode) {
    && n.postId.Some? && n.time.Some? && ParseLong(n.time.value).Some?
    && d.post == n.postId && d.time == ParseLong(n.time.value).value && d.text == n.text
  }

  /** Every listed reply is registered and holds the post ID, time and text of the last node with its ID. */
  predicate RepliesHoldNodes(replies: map<ReplyId, ReplyData>, nodes: seq<ReplyNode>) {
    forall k :: k in ReplyNodeIds(nodes) ==> k in replies && HoldsReplyNode(replies[k], LastReplyNode(nodes, k))
  }

  /** Replies whose IDs the nodes do not list keep their content. */
  lemma {:induction false} ScanRepliesKeepsUnlisted(nodes: seq<ReplyNode>, sone: SoneId, s: ReplyState)
    ensures var r := ScanReplies(nodes, sone, s).state;
      forall k :: k in s.replies && k !in ReplyNodeIds(nodes) ==> k in r.replies && r.replies[k] == s.replies[k]
    decreases |nodes|
  {
    if nodes != [] {
      ScanRepliesKeepsUnlisted(nodes[1..], sone, ReplyStep(nodes[0], sone, s).state);
    }
  }

  /** After a successful scan, each listed reply holds the post ID, time and text of the last node with its ID. */
  lemma {:induction false} ScanRepliesTakesNodeValues(nodes: seq<ReplyNode>, sone: SoneId, s: ReplyState)
    requires RepliesFailure(nodes).None?
    ensures RepliesHoldNodes(ScanReplies(nodes, sone, s).state.replies, nodes)
    decreases |nodes|
  {
    if nodes != [] {
      var t := ReplyStep(nodes[0], sone, s).state;
      ScanRepliesTakesNodeValues(nodes[1..], sone, t);
      ScanRepliesKeepsUnlisted(nodes[1..], sone, t);
    }
  }

  // ---------------------------------------------------------------------------
  // Liked posts and replies
  // ---------------------------------------------------------------------------

  /** The IDs a like section lists; a missing section lists none. */
  function LikedIds(section: Option<seq<string>>): (ids: set<string>)
    ensures forall x :: x in ids <==> section.Some? && x in section.value
  {
    if section.None? then {} else set x | x in section.value
  }

  // ---------------------------------------------------------------------------
  // Known Sones
  // ---------------------------------------------------------------------------

  /** The name and URIs of every registered Sone, and the IDs of the known Sones collected so far. */
  datatype KnownState = KnownState(heads: map<SoneId, SoneHead>, collected: set<SoneId>)

  predicate CompleteKnownSone(n: KnownSoneNode) {
    n.soneId.Some? && n.soneKey.Some? && n.soneName.Some?
  }

  /** The first bad known-Sone node decides the failure: a missing field, else a malformed key. */
  function KnownSonesFailure(nodes: seq<KnownSoneNode>): Option<Failure> {
    if nodes == [] then None
    else if !CompleteKnownSone(nodes[0]) then Some(IncompleteKnownSone)
    else if nodes[0].soneKey.value.Malformed? then Some(InvalidKnownSoneKey)
    else KnownSonesFailure(nodes[1..])
  }

  function KnownSoneNodeIds(nodes: seq<KnownSoneNode>): set<SoneId> {
    if nodes == [] then {}
    else (if nodes[0].soneId.Some? then {nodes[0].soneId.value} else {}) + KnownSoneNodeIds(nodes[1..])
  }

  /**
   * One known-Sone node: the Sone is looked up (and so registered) before its
   * key is parsed; with a valid key it gets the key as request URI, then the
   * name, and is collected.
   */
  function KnownStep(n: KnownSoneNode, s: KnownState): Step<KnownState> {
    if !CompleteKnownSone(n) then Step(s, Some(IncompleteKnownSone))
    else
      var id := n.soneId.value;
      var found := if id in s.heads then s.heads[id] else BlankHead;
      match n.soneKey.value
      case Malformed(_) => Step(s.(heads := s.heads[id := found]), Some(InvalidKnownSoneKey))
      case Parsed(u) => Step(KnownState(s.heads[id := SoneHead(n.soneName, SetRequestUri(found.uris, u))], s.collected + {id}), None)
  }

  /** The known-Sone nodes in document order, stopping at the first failure. */
  function ScanKnownSones(nodes: seq<KnownSoneNode>, s: KnownState): Step<KnownState>
    decreases |nodes|
  {
    if nodes == [] then Step(s, None)
    else
      var r := KnownStep(nodes[0], s);
      if r.failure.Some? then r else ScanKnownSones(nodes[1..], r.state)
  }

  /** The heads the known-Sone section leaves when it is read from `heads`, up to its first failure. */
  function KnownHeads(nodes: seq<KnownSoneNode>, heads: map<SoneId, SoneHead>): map<SoneId, SoneHead> {
    ScanKnownSones(nodes, KnownState(heads, {})).state.heads
  }

  lemma {:induction false} ScanKnownSonesFailure(nodes: seq<KnownSoneNode>, s: KnownState)
    ensures ScanKnownSones(nodes, s).failure == KnownSonesFailure(nodes)
    decreases |nodes|
  {
    if nodes != [] {
      ScanKnownSonesFailure(nodes[1..], KnownStep(nodes[0], s).state);
    }
  }

  lemma {:induction false} KnownSonesFailureNoneIff(nodes: seq<KnownSoneNode>)
    ensures KnownSonesFailure(nodes).None? <==>
      forall i :: 0 <= i < |nodes| ==> CompleteKnownSone(nodes[i]) && nodes[i].soneKey.value.Parsed?
    decreases |nodes|
  {
    if nodes != [] {
      KnownSonesFailureNoneIff(nodes[1..]);
      assert forall i :: 1 <= i < |nodes| ==> nodes[i] == nodes[1..][i - 1];
    }
  }

  /** A successful scan collects exactly the listed Sones, each registered with a name and a request URI. */
  lemma {:induction false} ScanKnownSonesCollects(nodes: seq<KnownSoneNode>, s: KnownState)
    requires KnownSonesFailure(nodes).None?
    requires forall k :: k in s.collected ==> k in s.heads && s.heads[k].name.Some? && s.heads[k].uris.request.Some?
    ensures var r := ScanKnownSones(nodes, s).state;
      && r.collected == s.collected + KnownSoneNodeIds(nodes)
      && forall k :: k in r.collected ==> k in r.heads && r.heads[k].name.Some? && r.heads[k].uris.request.Some?
    decreases |nodes|
  {
    if nodes != [] {
      ScanKnownSonesCollects(nodes[1..], KnownStep(nodes[0], s).state);
    }
  }

  /** Scanning known Sones changes the name and URIs only of the Sones it lists. */
  lemma {:induction false} ScanKnownSonesOnlyTouchesListed(nodes: seq<KnownSoneNode>, s: KnownState)
    ensures var r := ScanKnownSones(nodes, s).state;
      forall k :: k in s.heads && k !in KnownSoneNodeIds(nodes) ==> k in r.heads && r.heads[k] == s.heads[k]
    decreases |nodes|
  {
    if nodes != [] {
      ScanKnownSonesOnlyTouchesListed(nodes[1..], KnownStep(nodes[0], s).state);
    }
  }

  /** The first known-Sone node with ID `k`: its key is the first request URI a Sone without one receives. */
  function FirstKnownSoneNode(nodes: seq<KnownSoneNode>, k: SoneId): (n: KnownSoneNode)
    requires k in KnownSoneNodeIds(nodes)
    ensures n.soneId == Some(k)
    decreases |nodes|
  {
    if nodes[0].soneId == Some(k) then nodes[0] else FirstKnownSoneNode(nodes[1..], k)
  }

  /** The last known-Sone node with ID `k`: its name is the one the Sone keeps. */
  function LastKnownSoneNode(nodes: seq<KnownSoneNode>, k: SoneId): (n: KnownSoneNode)
    requires k in KnownSoneNodeIds(nodes)
    ensures n.soneId == Some(k)
    decreases |nodes|
  {
    if k in KnownSoneNodeIds(nodes[1..]) then LastKnownSoneNode(nodes[1..], k) else nodes[0]
  }

  predicate HasRequestUri(heads: map<SoneId, SoneHead>, k: SoneId) {
    k in heads && heads[k].uris.request.Some?
  }

  /** Every listed Sone is registered with the name of the last node with its ID, and has a request URI. */
  predicate KnownSonesNamed(heads: map<SoneId, SoneHead>, nodes: seq<KnownSoneNode>) {
    forall k :: k in KnownSoneNodeIds(nodes) ==>
      k in heads && heads[k].name == LastKnownSoneNode(nodes, k).soneName && heads[k].uris.request.Some?
  }

  /**
   * The listed Sone `k` has a request URI that keeps the locator it had in
   * `before`, or, if it had none, takes the locator of the first key listed for it.
   */
  predicate LocatorFromNodes(before: map<SoneId, SoneHead>, after: map<SoneId, SoneHead>, nodes: seq<KnownSoneNode>, k: SoneId) {
    && k in KnownSoneNodeIds(nodes) && k in after && after[k].uris.request.Some?
    && (HasRequestUri(before, k) ==> SameLocator(after[k].uris.request.value, before[k].uris.request.value))
    && (!HasRequestUri(before, k) ==>
          var f := FirstKnownSoneNode(nodes, k);
          f.soneKey.Some? && f.soneKey.value.Parsed? && SameLocator(after[k].uris.request.value, f.soneKey.value.uri))
  }

  /** What the known-Sone section leaves in the heads it started from. */
  predicate KnownSonesHoldNodes(before: map<SoneId, SoneHead>, after: map<SoneId, SoneHead>, nodes: seq<KnownSoneNode>) {
    KnownSonesNamed(after, nodes) && forall k :: k in KnownSoneNodeIds(nodes) ==> LocatorFromNodes(before, after, nodes, k)
  }

  /** One complete node with a valid key: its Sone is named and keyed as the node says, no other Sone changes. */
  lemma KnownStepValues(n: KnownSoneNode, s: KnownState)
    requires CompleteKnownSone(n) && n.soneKey.value.Parsed?
    ensures var t := KnownStep(n, s).state; var id := n.soneId.value;
      && id in t.heads && t.heads[id].name == n.soneName && t.heads[id].uris.request.Some?
      && (HasRequestUri(s.heads, id) ==> SameLocator(t.heads[id].uris.request.value, s.heads[id].uris.request.value))
      && (!HasRequestUri(s.heads, id) ==> SameLocator(t.heads[id].uris.request.value, n.soneKey.value.uri))
      && (forall k :: k != id ==> (k in t.heads <==> k in s.heads) && (k in s.heads ==> t.heads[k] == s.heads[k]))
  {
    var id := n.soneId.value;
    var found := if id in s.heads then s.heads[id] else BlankHead;
    OperationsKeepLocators(found.uris, n.soneKey.value.uri, 0);
    if found.uris.request.None? {
      FirstRequestUriStoredAndRaised(found.uris, n.soneKey.value.uri);
    }
  }

  /** After a successful scan, each listed Sone has the name of the last node with its ID, and a request URI. */
  lemma {:induction false} ScanKnownSonesNamed(nodes: seq<KnownSoneNode>, s: KnownState)
    requires KnownSonesFailure(nodes).None?
    ensures KnownSonesNamed(ScanKnownSones(nodes, s).state.heads, nodes)
    decreases |nodes|
  {
    if nodes != [] {
      var t := KnownStep(nodes[0], s).state;
      KnownStepValues(nodes[0], s);
      ScanKnownSonesNamed(nodes[1..], t);
      ScanKnownSonesOnlyTouchesListed(nodes[1..], t);
    }
  }

  /** After a successful scan, each listed Sone's request URI keeps its locator, or takes the first key's. */
  lemma {:induction false} ScanKnownSonesLocators(nodes: seq<KnownSoneNode>, s: KnownState)
    requires KnownSonesFailure(nodes).None?
    ensures var r := ScanKnownSones(nodes, s).state;
      forall k :: k in KnownSoneNodeIds(nodes) ==> LocatorFromNodes(s.heads, r.heads, nodes, k)
    decreases |nodes|
  {
    if nodes != [] {
      var t := KnownStep(nodes[0], s).state;
      var r := ScanKnownSones(nodes, s).state;
      assert r == ScanKnownSones(nodes[1..], t).state;
      KnownStepValues(nodes[0], s);
      ScanKnownSonesLocators(nodes[1..], t);
      ScanKnownSonesOnlyTouchesListed(nodes[1..], t);
      forall k | k in KnownSoneNodeIds(nodes)
        ensures LocatorFromNodes(s.heads, r.heads, nodes, k)
      {
        if k != nodes[0].soneId.value {
          assert FirstKnownSoneNode(nodes, k) == FirstKnownSoneNode(nodes[1..], k);
          assert LocatorFromNodes(t.heads, r.heads, nodes[1..], k);
        } else if k in KnownSoneNodeIds(nodes[1..]) {
          assert LocatorFromNodes(t.heads, r.heads, nodes[1..], k);
        }
      }
    }
  }

  /**
   * After a successful scan, each listed Sone has the name of the last node
   * with its ID. Its request URI keeps the locator it had; a Sone that had
   * none takes the locator of the first key listed for it.
   */
  lemma ScanKnownSonesTakesNodeValues(nodes: seq<KnownSoneNode>, s: KnownState)
    requires KnownSonesFailure(nodes).None?
    ensures KnownSonesHoldNodes(s.heads, ScanKnownSones(nodes, s).state.heads, nodes)
  {
    ScanKnownSonesNamed(nodes, s);
    ScanKnownSonesLocators(nodes, s);
  }

  /**
   * Reading the known-Sone section from heads whose request URIs agree with
   * `before` except at `id`: the names are the nodes', and each listed Sone
   * other than `id` has a locator as if read from `before`.
   */
  lemma KnownHeadsFromAgreeingHeads(nodes: seq<KnownSoneNode>, before: map<SoneId, SoneHead>, heads: map<SoneId, SoneHead>, id: SoneId)
    requires KnownSonesFailure(nodes).None?
    requires forall k :: k != id ==>
      HasRequestUri(heads, k) == HasRequestUri(before, k)
      && (HasRequestUri(heads, k) ==> heads[k].uris.request == before[k].uris.request)
    ensures var after := KnownHeads(nodes, heads);
      && KnownSonesNamed(after, nodes)
      && forall k :: k in KnownSoneNodeIds(nodes) && k != id ==> LocatorFromNodes(before, after, nodes, k)
  {
    ScanKnownSonesTakesNodeValues(nodes, KnownState(heads, {}));
  }

  // ---------------------------------------------------------------------------
  // The whole document
  // ---------------------------------------------------------------------------

  function Section<T>(section: Option<seq<T>>): seq<T> {
    if section.None? then [] else section.value
  }

  /**
   * Why merging `doc` into a Sone with header `h` fails, if it does: the
   * first failing phase in document order. Missing sections are empty, never
   * a failure; liked IDs cannot fail.
   */
  function Verdict(doc: SoneDocument, h: Header): Option<Failure> {
    var header := HeaderPhase(doc, h).failure;
    if header.Some? then header else BodyFailure(doc)
  }

  /** Why the part of `doc` after the header is refused, if it is; it does not depend on the Sone. */
  function BodyFailure(doc: SoneDocument): Option<Failure> {
    if doc.profile.None? then Some(MissingProfile)
    else if PostsFailure(Section(doc.posts)).Some? then PostsFailure(Section(doc.posts))
    else if RepliesFailure(Section(doc.replies)).Some? then RepliesFailure(Section(doc.replies))
    else KnownSonesFailure(Section(doc.knownSones))
  }

  /** A document is accepted exactly when every phase's checks pass. */
  lemma VerdictNoneIff(doc: SoneDocument, h: Header)
    ensures Verdict(doc, h).None? <==>
      && doc.name.Some?
      && doc.time.Some? && ParseLong(doc.time.value).Some?
      && (doc.requestUri.Some? ==> doc.requestUri.value.Parsed?)
      && (doc.insertUri.Some? && h.uris.insert.None? ==>
            doc.insertUri.value.Parsed? && (doc.requestUri.Some? || h.uris.request.Some?))
      && doc.profile.Some?
      && (forall i :: 0 <= i < |Section(doc.posts)| ==>
            CompletePost(Section(doc.posts)[i]) && ParseLong(Section(doc.posts)[i].time.value).Some?)
      && (forall i :: 0 <= i < |Section(doc.replies)| ==>
            CompleteReply(Section(doc.replies)[i]) && ParseLong(Section(doc.replies)[i].time.value).Some?)
      && (forall i :: 0 <= i < |Section(doc.knownSones)| ==>
            CompleteKnownSone(Section(doc.knownSones)[i]) && Section(doc.knownSones)[i].soneKey.value.Parsed?)
  {
    HeaderPhaseSucceedsIff(doc, h);
    PostsFailureNoneIff(Section(doc.posts));
    RepliesFailureNoneIff(Section(doc.replies));
    KnownSonesFailureNoneIff(Section(doc.knownSones));
  }

  /** Missing sections are read as empty: a document without them is accepted iff its header and profile are. */
  lemma MissingSectionsAreEmpty(doc: SoneDocument, h: Header)
    requires doc.posts.None? && doc.replies.None? && doc.postLikes.None? && doc.replyLikes.None? && doc.knownSones.None?
    ensures Verdict(doc, h) == (if HeaderPhase(doc, h).failure.Some? then HeaderPhase(doc, h).failure
                                else if doc.profile.None? then Some(MissingProfile) else None)
    ensures LikedIds(doc.postLikes) == {} && LikedIds(doc.replyLikes) == {}
  {
  }
}
