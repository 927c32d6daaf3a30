/**
 * The Sone inserter: a loop that waits until a local Sone has not changed
 * for the insertion delay, then publishes a snapshot of it as a Freenet
 * directory with two files, an HTML page and the Sone's XML document.
 *
 * The loop's two locals (the last modification counter it saw and the time
 * it saw it) are a value `Loop`; the part of the Sone the loop reads and
 * writes is a value `Watched`. The pure functions below are the reference
 * definition of one pass; the class's methods change the Sone and the core
 * as the source does and are proved against them.
 */
module Inserter {
  import opened Optional
  import opened Numbers
  import opened Uris
  import opened Entities
  import opened Replies
  import opened Sones
  import opened Registry

  /** The insertion delay before `setInsertionDelay` is called, in seconds. */
  const DefaultInsertionDelay: int := 60

  /** The locals `modificationCounter` and `lastModificationTime` of `serviceRun`. */
  datatype Loop = Loop(modificationCounter: int, lastModificationTime: int)

  /** Both locals start at 0. */
  const Start: Loop := Loop(0, 0)

  /** What `insertDirectory` does: return the final URI's edition, or throw `SoneException`. */
  datatype InsertOutcome = Inserted(edition: int) | InsertFailed

  /**
   * One pass of the loop, as its inputs: the clock read when a change is
   * noticed, the clock read for the delay test, and what the insert would do.
   */
  datatype Tick = Tick(modifiedAt: int, checkedAt: int, outcome: InsertOutcome)

  /** The Sone's modification counter, time and URIs. */
  datatype Watched = Watched(counter: int, time: int, uris: UriPair)

  /** The loop's locals together with the watched part of the Sone. */
  datatype Pass = Pass(loop: Loop, sone: Watched)

  // ---------------------------------------------------------------------------
  // One pass, as a reference definition
  // ---------------------------------------------------------------------------

  /** A counter above the one last seen is taken over, and the Sone is stamped with the time. */
  function Observe(p: Pass, now: int): Pass {
    if p.sone.counter > p.loop.modificationCounter then
      Pass(Loop(p.sone.counter, now), p.sone.(time := now))
    else
      p
  }

  /**
   * A change was seen and more than the delay has passed since: `now - last`
   * is a `long` subtraction and `delay * 1000` an `int` multiplication.
   */
  predicate InsertDue(l: Loop, now: int, delay: int) {
    l.lastModificationTime > 0 && Int64(now - l.lastModificationTime) > Int32(delay * 1000)
  }

  /** The URI the directory is inserted under: the insert URI as a USK, at suggested edition 0. */
  function TargetUri(insertUri: Uri): Uri {
    SetSuggestedEdition(SetKeyType(insertUri, "USK"), 0)
  }

  /** A successful insert raises both of the Sone's URIs to the inserted edition. */
  function Raise(p: Pass, outcome: InsertOutcome): Pass {
    if outcome.Inserted? then Pass(p.loop, p.sone.(uris := UpdateUris(p.sone.uris, outcome.edition))) else p
  }

  /**
   * After a successful insert, a Sone not changed since the counter was taken
   * over has its counter reset, and so do both locals.
   */
  function Reset(p: Pass, success: bool): Pass {
    if success && p.sone.counter == p.loop.modificationCounter then
      Pass(Start, p.sone.(counter := 0))
    else
      p
  }

  /** One pass of `serviceRun`'s loop. */
  function Iteration(p: Pass, t: Tick, delay: int): Pass {
    var seen := Observe(p, t.modifiedAt);
    if InsertDue(seen.loop, t.checkedAt, delay) then Reset(Raise(seen, t.outcome), t.outcome.Inserted?) else seen
  }

  /** The passes of `serviceRun`'s loop, in order. */
  function Run(p: Pass, ticks: seq<Tick>, delay: int): Pass
    decreases |ticks|
  {
    if ticks == [] then p else Iteration(Run(p, ticks[..|ticks| - 1], delay), ticks[|ticks| - 1], delay)
  }

  // ---------------------------------------------------------------------------
  // Properties of one pass
  // ---------------------------------------------------------------------------

  /**
   * Noticing a change: a counter above the one last seen is copied, the
   * time of the change is its clock reading and the Sone carries that time;
   * otherwise nothing changes. Either way the loop has caught up with the
   * Sone, and the Sone's counter and URIs are untouched.
   */
  lemma ObserveCatchesUp(p: Pass, now: int)
    ensures var r := Observe(p, now);
      && r.sone.counter == p.sone.counter && r.sone.uris == p.sone.uris
      && r.loop.modificationCounter >= p.sone.counter
      && (p.sone.counter > p.loop.modificationCounter ==> r.loop == Loop(p.sone.counter, now) && r.sone.time == now)
      && (p.sone.counter <= p.loop.modificationCounter ==> r == p)
  {
  }

  /**
   * The debounce rule: no insert before the first change is seen, and none
   * while the time since the last change is within the delay (for clock
   * readings and delays where neither the subtraction nor the multiplication
   * overflows, the test is plain arithmetic).
   */
  lemma NoInsertWithinDelay(l: Loop, now: int, delay: int)
    requires 0 <= l.lastModificationTime <= now <= LONG_MAX
    requires 0 <= delay * 1000 <= INT_MAX
    ensures InsertDue(l, now, delay) <==> l.lastModificationTime > 0 && now - l.lastModificationTime > delay * 1000
  {
  }

  /** With the default delay, an insert waits more than a minute after the last change. */
  lemma DefaultDelayIsOneMinute(l: Loop, now: int)
    requires 0 <= l.lastModificationTime <= now <= LONG_MAX
    ensures InsertDue(l, now, DefaultInsertionDelay) <==> l.lastModificationTime > 0 && now - l.lastModificationTime > 60000
  {
  }

  /**
   * A delay whose product with 1000 overflows `int` wraps: 2147484 seconds
   * is a negative threshold, so any change is inserted on the next pass.
   */
  lemma LargeDelayWraps(l: Loop, now: int)
    requires 0 < l.lastModificationTime <= now <= LONG_MAX
    ensures InsertDue(l, now, 2147484)
  {
    assert Int32(2147484 * 1000) == -2147483296;
  }

  /** After a failed insert, neither the counter nor the locals change, nor the URIs. */
  lemma FailedInsertChangesNothing(p: Pass)
    ensures Reset(Raise(p, InsertFailed), false) == p
  {
  }

  /**
   * After a successful insert the counter and both locals are reset exactly
   * when the Sone's counter still equals the one taken over; otherwise they
   * stay as they were. The URIs are raised to the inserted edition either way.
   */
  lemma SuccessfulInsertResetsIffUnchanged(p: Pass, edition: int)
    requires p.loop != Start
    ensures var r := Reset(Raise(p, Inserted(edition)), true);
      && r.sone.uris == UpdateUris(p.sone.uris, edition)
      && r.sone.time == p.sone.time
      && (r.loop == Start && r.sone.counter == 0 <==> p.sone.counter == p.loop.modificationCounter)
      && (p.sone.counter != p.loop.modificationCounter ==> r.loop == p.loop && r.sone.counter == p.sone.counter)
  {
  }

  /** A Sone that is not changed is never inserted: a pass from a settled state changes nothing. */
  lemma SettledPassIsIdle(p: Pass, t: Tick, delay: int)
    requires p.loop.lastModificationTime == 0 && p.sone.counter <= p.loop.modificationCounter
    ensures Iteration(p, t, delay) == p
  {
  }

  /**
   * Without changes from elsewhere during the insert, a successful insert
   * settles the loop: counter and locals are 0, the URIs raised, and by
   * `SettledRunIsIdle` nothing more is inserted until the Sone changes again.
   */
  lemma SuccessfulPassSettles(p: Pass, t: Tick, delay: int)
    requires p.sone.counter >= p.loop.modificationCounter
    requires InsertDue(Observe(p, t.modifiedAt).loop, t.checkedAt, delay) && t.outcome.Inserted?
    ensures Iteration(p, t, delay)
      == Pass(Start, Watched(0, Observe(p, t.modifiedAt).sone.time, UpdateUris(p.sone.uris, t.outcome.edition)))
  {
  }

  /** Every pass leaves the loop caught up with the Sone's counter. */
  lemma IterationCatchesUp(p: Pass, t: Tick, delay: int)
    ensures Iteration(p, t, delay).sone.counter <= Iteration(p, t, delay).loop.modificationCounter
  {
    ObserveCatchesUp(p, t.modifiedAt);
  }

  /** The URIs change only by being raised to an inserted edition; present URIs stay present. */
  lemma IterationKeepsUris(p: Pass, t: Tick, delay: int)
    ensures var r := Iteration(p, t, delay);
      && (r.sone.uris.request.Some? <==> p.sone.uris.request.Some?)
      && (r.sone.uris.insert.Some? <==> p.sone.uris.insert.Some?)
      && (r.sone.uris == p.sone.uris || (t.outcome.Inserted? && r.sone.uris == UpdateUris(p.sone.uris, t.outcome.edition)))
  {
  }

  /**
   * Once settled (no change pending, no change time), the loop stays idle
   * for any number of passes in which nothing else changes the Sone.
   */
  lemma {:induction false} SettledRunIsIdle(p: Pass, ticks: seq<Tick>, delay: int)
    requires p.loop.lastModificationTime == 0 && p.sone.counter <= p.loop.modificationCounter
    ensures Run(p, ticks, delay) == p
    decreases |ticks|
  {
    if ticks != [] {
      SettledRunIsIdle(p, ticks[..|ticks| - 1], delay);
      SettledPassIsIdle(p, ticks[|ticks| - 1], delay);
    }
  }

  /** A run keeps the Sone's insert URI present, which every insert needs. */
  lemma {:induction false} RunKeepsInsertUri(p: Pass, ticks: seq<Tick>, delay: int)
    requires p.sone.uris.insert.Some?
    ensures Run(p, ticks, delay).sone.uris.insert.Some?
    decreases |ticks|
  {
    if ticks != [] {
      RunKeepsInsertUri(p, ticks[..|ticks| - 1], delay);
      IterationKeepsUris(Run(p, ticks[..|ticks| - 1], delay), ticks[|ticks| - 1], delay);
    }
  }

  // ---------------------------------------------------------------------------
  // The snapshot and the manifest
  // ---------------------------------------------------------------------------

  /**
   * `InsertInformation`: the Sone's properties, copied so the insert does not
   * hold the Sone's lock. Posts come in `getPosts` order (newest first); the
   * replies are the Sone's reply objects, whose contents stay shared. The
   * liked reply IDs are stored under the key "likeReplyIds" (SoneInserter.java:206),
   * not "likedReplyIds"; this model names the field by its content.
   */
  datatype InsertInformation = InsertInformation(
    id: SoneId, name: Option<string>, time: int, requestUri: Option<Uri>, insertUri: Option<Uri>,
    profile: Option<Profile>, posts: seq<Post>, replies: set<Reply>,
    blockedSoneIds: set<SoneId>, likedPostIds: set<PostId>, likedReplyIds: set<ReplyId>)

  /** `info` holds the Sone's current properties. */
  ghost predicate Copies(info: InsertInformation, sone: Sone)
    reads sone
  {
    && info.id == sone.id && info.name == sone.name && info.time == sone.time
    && info.requestUri == sone.requestUri && info.insertUri == sone.insertUri && info.profile == sone.profile
    && multiset(info.posts) == multiset(sone.posts.Values) && NewestFirst(info.posts)
    && info.replies == sone.replies.Values
    && info.blockedSoneIds == sone.blockedSoneIds
    && info.likedPostIds == sone.likedPostIds && info.likedReplyIds == sone.likedReplyIds
  }

  /** `new InsertInformation(sone)`. */
  method Snapshot(sone: Sone) returns (info: InsertInformation)
    ensures Copies(info, sone)
  {
    var posts := sone.GetPosts();
    info := InsertInformation(sone.id, sone.name, sone.time, sone.requestUri, sone.insertUri, sone.GetProfile(),
      posts, sone.GetReplies(), sone.blockedSoneIds, sone.likedPostIds, sone.likedReplyIds);
  }

  /** A file of the inserted directory: its name, content type, template and the template's inputs. */
  datatype ManifestElement = ManifestElement(
    name: string, contentType: string, templateName: string,
    currentSone: InsertInformation, knownSones: set<Sone>)

  /** The known Sones a template lists: neither blocked by the inserted Sone nor the Sone itself. */
  function ExportedKnownSones(known: set<Sone>, info: InsertInformation): set<Sone> {
    set s | s in known && s.id !in info.blockedSoneIds && s.id != info.id
  }

  /**
   * Over the core's known Sones, which are keyed by ID, the exported IDs are
   * the known IDs less the blocked IDs and the inserted Sone's own.
   */
  lemma ExportedKnownSoneIds(core: Core, info: InsertInformation)
    requires SonesKeyed(core.knownSones)
    ensures (set s | s in ExportedKnownSones(core.knownSones.Values, info) :: s.id)
      == core.knownSones.Keys - info.blockedSoneIds - {info.id}
  {
    var exported := set s | s in ExportedKnownSones(core.knownSones.Values, info) :: s.id;
    forall k | k in core.knownSones.Keys - info.blockedSoneIds - {info.id}
      ensures k in exported
    {
      assert core.knownSones[k] in core.knownSones.Values;
    }
  }

  /** `createManifestElement`: the template with the snapshot and the exported known Sones. */
  function ManifestEntry(name: string, contentType: string, templateName: string,
                         info: InsertInformation, known: set<Sone>): ManifestElement
  {
    ManifestElement(name, contentType, templateName, info, ExportedKnownSones(known, info))
  }

  /** `generateManifestEntries`: the HTML page and the Sone's XML document. */
  function ManifestEntries(info: InsertInformation, known: set<Sone>): (entries: map<string, ManifestElement>)
    ensures entries.Keys == {"index.html", "sone.xml"}
    ensures entries["index.html"].contentType == "text/html; charset=utf-8"
    ensures entries["sone.xml"].contentType == "text/xml; charset=utf-8"
    ensures forall name :: name in entries ==>
      entries[name].name == name && entries[name].currentSone == info
      && entries[name].knownSones == ExportedKnownSones(known, info)
  {
    map[
      "index.html" := ManifestEntry("index.html", "text/html; charset=utf-8", "/templates/insert/index.html", info, known),
      "sone.xml" := ManifestEntry("sone.xml", "text/xml; charset=utf-8", "/templates/insert/sone.xml", info, known)
    ]
  }

  /** What `insertDirectory` is asked to insert: the URI, the files and the default file. */
  datatype InsertRequest = InsertRequest(uri: Uri, entries: map<string, ManifestElement>, defaultName: string)

  // ---------------------------------------------------------------------------
  // The inserter
  // ---------------------------------------------------------------------------

  class SoneInserter {
    const core: Core
    const sone: Sone
    /** `insertionDelay`, in seconds; a static field shared by every inserter in the source. */
    var insertionDelay: int

    constructor (core: Core, sone: Sone)
      ensures this.core == core && this.sone == sone && insertionDelay == DefaultInsertionDelay
    {
      this.core := core;
      this.sone := sone;
      insertionDelay := DefaultInsertionDelay;
    }

    method SetInsertionDelay(delay: int)
      modifies this`insertionDelay
      ensures insertionDelay == delay
    {
      insertionDelay := delay;
    }

    /** The part of the Sone the loop reads and writes. */
    ghost function Watch(): Watched
      reads sone`modificationCounter, sone`time, sone`requestUri, sone`insertUri
    {
      Watched(sone.modificationCounter, sone.time, sone.Locators())
    }

    /**
     * The synchronized block: notice a change, then take a snapshot if the
     * delay has passed.
     */
    method Check(loop: Loop, modifiedAt: int, checkedAt: int) returns (next: Loop, info: Option<InsertInformation>)
      modifies sone`time
      ensures Pass(next, Watch()) == Observe(Pass(loop, old(Watch())), modifiedAt)
      ensures info.Some? <==> InsertDue(next, checkedAt, insertionDelay)
      ensures info.Some? ==> Copies(info.value, sone)
    {
      next := loop;
      if sone.GetModificationCounter() > next.modificationCounter {
        next := Loop(sone.GetModificationCounter(), modifiedAt);
        sone.SetTime(next.lastModificationTime);
      }
      info := None;
      if next.lastModificationTime > 0 && Int64(checkedAt - next.lastModificationTime) > Int32(insertionDelay * 1000) {
        var snapshot := Snapshot(sone);
        info := Some(snapshot);
      }
    }

    /**
     * The insert: the Sone is inserting while the snapshot is inserted as a
     * USK at edition 0 of its insert URI, with `index.html` as default file;
     * a success raises the Sone's URIs to the inserted edition; the Sone is
     * idle afterwards in both cases.
     */
    method Publish(info: InsertInformation, outcome: InsertOutcome) returns (request: InsertRequest, success: bool)
      requires info.insertUri.Some?
      modifies core`statuses, sone`requestUri, sone`insertUri
      ensures request == InsertRequest(TargetUri(info.insertUri.value), ManifestEntries(info, old(core.GetKnownSones())), "index.html")
      ensures success <==> outcome.Inserted?
      ensures sone.Locators() == if outcome.Inserted? then UpdateUris(old(sone.Locators()), outcome.edition) else old(sone.Locators())
      ensures core.statuses == old(core.statuses)[sone.id := Idle]
    {
      success := false;
      core.SetSoneStatus(sone, Inserting);
      request := InsertRequest(TargetUri(info.insertUri.value), ManifestEntries(info, core.GetKnownSones()), "index.html");
      match outcome {
        case Inserted(edition) =>
          sone.UpdateUris(edition);
          success := true;
        case InsertFailed =>
      }
      core.SetSoneStatus(sone, Idle);
      assert core.statuses == old(core.statuses)[sone.id := Inserting][sone.id := Idle];
    }

    /** After a successful insert, reset the counters if the Sone was not changed meanwhile. */
    method Settle(loop: Loop, success: bool) returns (next: Loop)
      modifies sone`modificationCounter
      ensures Pass(next, Watch()) == Reset(Pass(loop, old(Watch())), success)
    {
      next := loop;
      if success {
        if sone.GetModificationCounter() == next.modificationCounter {
          sone.SetModificationCounter(0);
          next := Start;
        }
      }
    }

    /** One pass of the loop; the sleep before it is left out. */
    method Iterate(loop: Loop, tick: Tick) returns (next: Loop)
      requires sone.insertUri.Some?
      modifies sone`time, sone`modificationCounter, sone`requestUri, sone`insertUri, core`statuses
      ensures Pass(next, Watch()) == Iteration(Pass(loop, old(Watch())), tick, insertionDelay)
      ensures core.statuses == if InsertDue(Observe(Pass(loop, old(Watch())), tick.modifiedAt).loop, tick.checkedAt, insertionDelay)
        then old(core.statuses)[sone.id := Idle] else old(core.statuses)
    {
      var info;
      next, info := Check(loop, tick.modifiedAt, tick.checkedAt);
      if info.Some? {
        var request, success := Publish(info.value, tick.outcome);
        next := Settle(next, success);
      }
    }

    /** `serviceRun`: the loop from both locals at 0, one pass per tick until the service stops. */
    method ServiceRun(ticks: seq<Tick>) returns (last: Loop)
      requires sone.insertUri.Some?
      modifies sone`time, sone`modificationCounter, sone`requestUri, sone`insertUri, core`statuses
      ensures Pass(last, Watch()) == Run(Pass(Start, old(Watch())), ticks, insertionDelay)
    {
      last := Start;
      var i := 0;
      while i < |ticks|
        invariant 0 <= i <= |ticks|
        invariant Pass(last, Watch()) == Run(Pass(Start, old(Watch())), ticks[..i], insertionDelay)
        invariant sone.insertUri.Some?
      {
        assert ticks[..i + 1][..i] == ticks[..i];
        IterationKeepsUris(Pass(last, Watch()), ticks[i], insertionDelay);
        last := Iterate(last, ticks[i]);
        i := i + 1;
      }
      assert ticks[..|ticks|] == ticks;
    }
  }
}
