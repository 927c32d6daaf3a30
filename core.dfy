/**
 * The core's registry, as far as the downloader and the inserter use it:
 * Sones, posts and replies by ID (a lookup of an unknown ID creates the
 * entry), the per-Sone status, and the known Sones handed to `addSone`.
 */
module Registry {
  import opened Optional
  import opened Entities
  import opened Replies
  import opened Sones

  datatype SoneStatus = Unknown | Idle | Downloading | Inserting

  predicate SonesKeyed(m: map<SoneId, Sone>) {
    forall k :: k in m ==> m[k].id == k
  }

  class Core {
    var sones: map<SoneId, Sone>
    var posts: map<PostId, Post>
    var replies: map<ReplyId, Reply>
    var statuses: map<SoneId, SoneStatus>
    var knownSones: map<SoneId, Sone>

    /** Every registry is keyed by the ID of what it holds. */
    ghost predicate Valid()
      reads this`sones, this`posts, this`replies, this`knownSones
    {
      SonesKeyed(sones) && PostsKeyed(posts) && RepliesKeyed(replies) && SonesKeyed(knownSones)
    }

    /** Every registered Sone keeps its own posts and replies keyed by ID. */
    ghost predicate SonesValid()
      reads this`sones, sones.Values
    {
      forall k :: k in sones ==> sones[k].Valid()
    }

    constructor ()
      ensures Valid()
      ensures sones == map[] && posts == map[] && replies == map[] && statuses == map[] && knownSones == map[]
    {
      sones, posts, replies, statuses, knownSones := map[], map[], map[], map[], map[];
    }

    /** The name and URIs of every registered Sone. */
    ghost function HeadView(): map<SoneId, SoneHead>
      reads this`sones, sones.Values
    {
      map k | k in sones :: sones[k].Head()
    }

    /** The content of every registered reply. */
    ghost function ReplyView(): map<ReplyId, ReplyData>
      reads this`replies, replies.Values
    {
      map k | k in replies :: replies[k].Data()
    }

    /** `getSone(id)`: the registered Sone with this ID, or a new blank one, now registered. */
    method GetSone(id: SoneId) returns (sone: Sone)
      requires Valid()
      modifies this`sones
      ensures Valid()
      ensures old(SonesValid()) ==> SonesValid()
      ensures sone.id == id && id in sones && sones == old(sones)[id := sone]
      ensures id in old(sones) ==> sone == old(sones)[id]
      ensures old(sones).Items <= sones.Items
      ensures id !in old(sones) ==> fresh(sone) && sone.IsBlank() && sone.Valid()
    {
      if id in sones {
        sone := sones[id];
      } else {
        sone := new Sone(id);
        sones := sones[id := sone];
      }
    }

    /** `getPost(id)`: the registered post, or a blank one, now registered. */
    method GetPost(id: PostId) returns (post: Post)
      requires Valid()
      modifies this`posts
      ensures Valid()
      ensures post == (if id in old(posts) then old(posts)[id] else BlankPost(id))
      ensures posts == old(posts)[id := post]
    {
      if id in posts {
        post := posts[id];
      } else {
        post := BlankPost(id);
        posts := posts[id := post];
      }
    }

    /** A post object changed through the reference `getPost` returned. */
    method StorePost(post: Post)
      requires Valid()
      modifies this`posts
      ensures Valid()
      ensures posts == old(posts)[post.id := post]
    {
      posts := posts[post.id := post];
    }

    /** `getReply(id)`: the registered reply, or a new blank one, now registered. */
    method GetReply(id: ReplyId) returns (reply: Reply)
      requires Valid()
      modifies this`replies
      ensures Valid()
      ensures reply.id == id && replies == old(replies)[id := reply]
      ensures id in old(replies) ==> reply == old(replies)[id]
      ensures id !in old(replies) ==> fresh(reply) && reply.Data() == BlankReplyData
    {
      if id in replies {
        reply := replies[id];
      } else {
        reply := new Reply(id);
        replies := replies[id := reply];
      }
    }

    /** `getSoneStatus`: a Sone whose status was never set is `Unknown`. */
    function GetSoneStatus(sone: Sone): SoneStatus
      reads this`statuses
    {
      if sone.id in statuses then statuses[sone.id] else Unknown
    }

    method SetSoneStatus(sone: Sone, status: SoneStatus)
      modifies this`statuses
      ensures statuses == old(statuses)[sone.id := status]
    {
      statuses := statuses[sone.id := status];
    }

    /** `addSone`: the Sone becomes known; a Sone with the same ID already known stays. */
    method AddSone(sone: Sone)
      requires Valid()
      modifies this`knownSones
      ensures Valid()
      ensures knownSones == if sone.id in old(knownSones) then old(knownSones) else old(knownSones)[sone.id := sone]
    {
      if sone.id !in knownSones {
        knownSones := knownSones[sone.id := sone];
      }
    }

    /** `getKnownSones`. */
    function GetKnownSones(): set<Sone>
      reads this`knownSones
    {
      knownSones.Values
    }
  }
}
