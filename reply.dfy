/**
 * A reply: like a post, but always refers to a post. Its ID is fixed at
 * creation; its author, post, time and text are changed in place by setters,
 * which the downloader uses on replies shared through the core's registry.
 */
module Replies {
  import opened Optional
  import opened Entities

  /** The mutable content of a reply, as one value. */
  datatype ReplyData = ReplyData(sone: Option<SoneId>, post: Option<PostId>, time: int, text: Option<string>)

  /** What `new Reply(id)` holds: no author, no post, time 0, no text. */
  const BlankReplyData: ReplyData := ReplyData(None, None, 0, None)

  class Reply {
    const id: ReplyId
    /** The Sone that posted this reply (by ID; Sone equality is by ID). */
    var sone: Option<SoneId>
    /** The post this reply refers to (by ID). */
    var post: Option<PostId>
    var time: int
    var text: Option<string>

    /** `new Reply(id)`: delegates to the five-argument constructor with null, null, 0, null. */
    constructor (id: ReplyId)
      ensures this.id == id && Data() == BlankReplyData
    {
      this.id := id;
      sone, post, time, text := None, None, 0, None;
    }

    /** `new Reply(id, sone, post, time, text)`. */
    constructor Create(id: ReplyId, sone: Option<SoneId>, post: Option<PostId>, time: int, text: Option<string>)
      ensures this.id == id && Data() == ReplyData(sone, post, time, text)
    {
      this.id := id;
      this.sone, this.post, this.time, this.text := sone, post, time, text;
    }

    function Data(): ReplyData
      reads this
    {
      ReplyData(sone, post, time, text)
    }

    method SetSone(sone: Option<SoneId>) returns (self: Reply)
      modifies this`sone
      ensures self == this && Data() == old(Data()).(sone := sone)
    {
      this.sone := sone;
      self := this;
    }

    method SetPost(post: Option<PostId>) returns (self: Reply)
      modifies this`post
      ensures self == this && Data() == old(Data()).(post := post)
    {
      this.post := post;
      self := this;
    }

    method SetTime(time: int) returns (self: Reply)
      modifies this`time
      ensures self == this && Data() == old(Data()).(time := time)
    {
      this.time := time;
      self := this;
    }

    method SetText(text: Option<string>) returns (self: Reply)
      modifies this`text
      ensures self == this && Data() == old(Data()).(text := text)
    {
      this.text := text;
      self := this;
    }

    /** `equals`: two replies are the same reply when their IDs are equal. */
    function Equals(other: Reply): bool {
      other.id == id
    }

    /** `hashCode`: the hash of the ID. */
    function HashCode(): int {
      IdHash(id)
    }
  }

  /**
   * Reply equality is an equivalence on IDs alone, and equal replies hash
   * alike, whatever their author, post, time or text.
   */
  lemma ReplyEqualityIsById(a: Reply, b: Reply, c: Reply)
    ensures a.Equals(b) <==> a.id == b.id
    ensures a.Equals(a)
    ensures a.Equals(b) ==> b.Equals(a)
    ensures a.Equals(b) && b.Equals(c) ==> a.Equals(c)
    ensures a.Equals(b) ==> a.HashCode() == b.HashCode()
  {
  }
}
