/**
 * Identifiers and the value records of the Sone data model that the core uses
 * but whose classes are not part of this model: posts and profiles.
 */
module Entities {
  import opened Optional
  import opened Numbers

  /** Sone, post and reply IDs are UUID strings; equality of entities is equality of IDs. */
  type SoneId = string
  type PostId = string
  type ReplyId = string

  /**
   * A post as far as the core reads and writes it: its author (a Sone ID,
   * null when unset), its time and its text. Post equality is by ID.
   */
  datatype Post = Post(id: PostId, sone: Option<SoneId>, time: int, text: Option<string>)

  /** The post a `Core.getPost` lookup creates for an ID it has not seen. */
  function BlankPost(id: PostId): Post {
    Post(id, None, 0, None)
  }

  /** The profile: names and birth date, each optional. A value, so every copy is independent. */
  datatype Profile = Profile(
    firstName: Option<string>, middleName: Option<string>, lastName: Option<string>,
    birthDay: Option<int>, birthMonth: Option<int>, birthYear: Option<int>)

  /**
   * The hash of an entity ID, a stand-in for `UUID.hashCode` of the ID the
   * string names: an `int` that depends on the ID alone. It is computed here
   * as 31 * h + c with 32-bit wrap-around; nothing relies on this formula,
   * only on the result being a function of the ID.
   */
  function IdHash(id: string): (h: int)
    ensures INT_MIN <= h <= INT_MAX
  {
    if id == [] then 0 else Int32(31 * IdHash(id[..|id| - 1]) + (id[|id| - 1] as int))
  }
}
