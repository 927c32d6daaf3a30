# Sone: the Sone entity, its download and its insert

A Sone is one user of the Sone social network on Freenet. It has a name, a
request URI that other nodes fetch and, for a local Sone, an insert URI it is
published under. It also has a profile, posts, replies, friends, blocked Sones,
liked posts and replies, and a modification counter that every change worth
publishing bumps. This project models four parts of it in Dafny:

- **The Sone entity** (`sone.dfy`, `uris.dfy`) is a class with the source's
  fields and setters. Each setter states which fields it changes and whether it
  bumps the modification counter. The URI rules are pure functions over a
  `UriPair`, with lemmas about them: how `setRequestUri` and `setInsertUri`
  reconcile an incoming URI with the stored one, and what `updateUris` and
  `updateEditions` do.
- **The reply entity** (`reply.dfy`) is a class whose setters change one field
  each and return the same object. Equality and hashing go by ID.
- **The Sone downloader** (`downloader.dfy`, `document.dfy`, `core.dfy`) covers:
  - the watch set and its subscription calls;
  - the status-guarded `fetchSone`;
  - `parseSone`, the merge of a downloaded, XML-decoded document into a Sone.

  `document.dfy` holds each phase of the merge as a function on values, and
  each failure is a `Failure` value. The class methods in `downloader.dfy`
  mutate the Sone, the shared reply objects and the core's registries as the
  source does, and they are proved against those functions. The merge is not
  all-or-nothing, and the contracts say so:
  - name, time and URIs are written as they are read;
  - registry posts, replies and known Sones are created and changed before a
    later check can fail;
  - only profile, posts, replies, liked post IDs and the counter are applied
    together, on success.
- **The Sone inserter** (`inserter.dfy`) covers:
  - the debounce-and-publish loop of `serviceRun`;
  - the `InsertInformation` snapshot;
  - the manifest's two files;
  - the filter over the known Sones that the templates list.

  One loop pass is a pure function `Iteration`. The class's methods are proved
  against it, and lemmas state the debounce, reset and idleness rules.

The core's registries (`Core`) are not part of this source. `core.dfy` gives
them the behaviour the downloader and the inserter rely on:
- `getSone`, `getPost` and `getReply` create and register a blank entry for an
  unknown ID;
- `addSone` keeps an already known Sone;
- a Sone whose status was never set is `unknown`.

Two points about the code deserve stating up front:
- **Suggested editions are not monotonic.** `updateUris` raises every URI whose
  edition is below the given one to suggest that edition, even when it already
  suggests a later one (`Uris.UpdateUrisCanLowerSuggestedEdition`). As written,
  the reconciliation in `setRequestUri` and `setInsertUri` never changes a
  stored URI, so it neither raises nor lowers one. The corrected reconciliation
  (see "## Findings") can lower one
  (`Uris.ReconciliationCanLowerSuggestedEdition`).
- **A failed merge is partial.** A merge that fails leaves the header fields
  written.

## Model

| member | source | states |
|---|---|---|
| `Replies.Reply.constructor` | src/main/java/net/pterodactylus/sone/data/Reply.java:51-53 | `new Reply(id)` has the ID, no author, no post, time 0 and no text |
| `Replies.Reply.Create` | src/main/java/net/pterodactylus/sone/data/Reply.java:99-105 | the five-argument constructor stores exactly the given ID, author, post, time and text |
| `Replies.Reply.SetSone` | src/main/java/net/pterodactylus/sone/data/Reply.java:136-139 | only the author changes, to the given one; the same reply is returned |
| `Replies.Reply.SetPost` | src/main/java/net/pterodactylus/sone/data/Reply.java:157-160 | only the post changes; the same reply is returned |
| `Replies.Reply.SetTime` | src/main/java/net/pterodactylus/sone/data/Reply.java:178-181 | only the time changes; the same reply is returned |
| `Replies.Reply.SetText` | src/main/java/net/pterodactylus/sone/data/Reply.java:199-202 | only the text changes; the same reply is returned |
| `Replies.ReplyEqualityIsById` | src/main/java/net/pterodactylus/sone/data/Reply.java:212-226 | reply equality holds iff the IDs are equal; it is an equivalence; equal replies hash alike |
| `Sones.Sone.constructor` | src/main/java/net/pterodactylus/sone/data/Sone.java:94-96 | a new Sone has the ID and every other field empty, absent or 0 |
| `Sones.Sone.SetName` | src/main/java/net/pterodactylus/sone/data/Sone.java:127-130 | the name becomes the given one; nothing else changes |
| `Sones.Sone.SetTime` | src/main/java/net/pterodactylus/sone/data/Sone.java:214-217 | the time becomes the given one, without counting a modification |
| `Sones.Sone.SetRequestUri` | src/main/java/net/pterodactylus/sone/data/Sone.java:148-163 | the stored URIs become `Uris.SetRequestUri` of the old ones and the incoming URI, the corrected reconciliation of "## Findings" |
| `Sones.Sone.SetInsertUri` | src/main/java/net/pterodactylus/sone/data/Sone.java:181-196 | the stored URIs become `Uris.SetInsertUri` of the old ones and the incoming URI, the corrected reconciliation of "## Findings" |
| `Sones.Sone.UpdateUris` | src/main/java/net/pterodactylus/sone/data/Sone.java:619-626 | the stored URIs become `Uris.UpdateUris` of the old ones |
| `Sones.Sone.UpdateEditions` | src/main/java/net/pterodactylus/sone/data/Sone.java:636-646 | the stored URIs become `Uris.UpdateEditions` of the old ones |
| `Sones.Sone.SetProfile` | src/main/java/net/pterodactylus/sone/data/Sone.java:238-241 | the profile is set and one modification is counted |
| `Sones.Sone.SetFriends` | src/main/java/net/pterodactylus/sone/data/Sone.java:271-275 | the friends become exactly the given set; no modification is counted |
| `Sones.Sone.AddFriend` | src/main/java/net/pterodactylus/sone/data/Sone.java:296-301 | a Sone other than this one is added; a Sone never becomes its own friend |
| `Sones.Sone.RemoveFriend` | src/main/java/net/pterodactylus/sone/data/Sone.java:310-313 | the friend is no longer among the friends; nothing else changes |
| `Sones.Sone.GetPosts` | src/main/java/net/pterodactylus/sone/data/Sone.java:320-331 | the result is a permutation of the posts, newest first |
| `Sones.InsertNewestFirstCounts` | src/main/java/net/pterodactylus/sone/data/Sone.java:320-331 | inserting a post into the sorted list adds exactly that post |
| `Sones.InsertNewestFirstOrdered` | src/main/java/net/pterodactylus/sone/data/Sone.java:320-331 | inserting a post into a newest-first list keeps it newest first |
| `Sones.PostComparison` | src/main/java/net/pterodactylus/sone/data/Sone.java:325-327 | the comparator's result is an `int`: the `long` difference of the times, clamped |
| `Sones.PostComparisonOrdersByTime` | src/main/java/net/pterodactylus/sone/data/Sone.java:325-327 | when the difference of the times fits in a `long`, the comparator ranks the newer post first and ties equal times |
| `Sones.PostComparisonWraps` | src/main/java/net/pterodactylus/sone/data/Sone.java:325-327 | for times `Long.MAX_VALUE` and -1 the subtraction wraps and each post ranks before the other |
| `Sones.Sone.SetPosts` | src/main/java/net/pterodactylus/sone/data/Sone.java:340-345 | the posts become exactly the given ones and one modification is counted |
| `Sones.Sone.AddPost` | src/main/java/net/pterodactylus/sone/data/Sone.java:354-359 | a post by this Sone that is not yet present is added and counted; otherwise nothing changes |
| `Sones.Sone.RemovePost` | src/main/java/net/pterodactylus/sone/data/Sone.java:367-371 | a post by this Sone that is present is removed and counted; otherwise nothing changes |
| `Sones.Sone.SetReplies` | src/main/java/net/pterodactylus/sone/data/Sone.java:390-395 | the replies become exactly the given ones and one modification is counted |
| `Sones.Sone.AddReply` | src/main/java/net/pterodactylus/sone/data/Sone.java:404-408 | a reply by this Sone that is not yet present is added and counted; otherwise nothing changes |
| `Sones.Sone.RemoveReply` | src/main/java/net/pterodactylus/sone/data/Sone.java:416-420 | a reply by this Sone that is present is removed and counted; otherwise nothing changes |
| `Sones.Sone.AddBlockedSoneId` | src/main/java/net/pterodactylus/sone/data/Sone.java:450-454 | the ID is blocked; a modification is counted exactly when the set changes |
| `Sones.Sone.RemoveBlockedSoneId` | src/main/java/net/pterodactylus/sone/data/Sone.java:462-466 | the ID is unblocked; a modification is counted exactly when the set changes |
| `Sones.Sone.SetLikePostIds` | src/main/java/net/pterodactylus/sone/data/Sone.java:484-489 | the liked post IDs become the given set; one modification is counted |
| `Sones.Sone.AddLikedPostId` | src/main/java/net/pterodactylus/sone/data/Sone.java:510-515 | the ID is liked; counted exactly when the set changes |
| `Sones.Sone.RemoveLikedPostId` | src/main/java/net/pterodactylus/sone/data/Sone.java:524-529 | the ID is no longer liked; counted exactly when the set changes |
| `Sones.Sone.SetLikeReplyIds` | src/main/java/net/pterodactylus/sone/data/Sone.java:547-552 | the liked reply IDs become the given set; one modification is counted |
| `Sones.Sone.AddLikedReplyId` | src/main/java/net/pterodactylus/sone/data/Sone.java:573-578 | the ID is liked; counted exactly when the set changes |
| `Sones.Sone.RemoveLikedReplyId` | src/main/java/net/pterodactylus/sone/data/Sone.java:587-592 | the ID is no longer liked; counted exactly when the set changes |
| `Sones.Sone.SetModificationCounter` | src/main/java/net/pterodactylus/sone/data/Sone.java:609-611 | the counter becomes the given value |
| `Sones.SoneEqualityIsById` | src/main/java/net/pterodactylus/sone/data/Sone.java:656-669 | Sone equality holds iff the IDs are equal; it is an equivalence; equal Sones hash alike |
| `Entities.IdHash` | src/main/java/net/pterodactylus/sone/data/Sone.java:656-658 | the hash of a Sone is the hash of its ID: an `int` that depends on the ID alone (a stand-in for `UUID.hashCode`) |
| `Uris.UpdateUrisTouchesOnlyLowerEditions` | src/main/java/net/pterodactylus/sone/data/Sone.java:619-626 | only a present URI with an edition below the latest changes, and only its suggested edition, which becomes the latest; both URIs then reach the latest |
| `Uris.UpdateUrisIdempotent` | src/main/java/net/pterodactylus/sone/data/Sone.java:619-626 | `updateUris(e)` twice is `updateUris(e)` once |
| `Uris.UpdateUrisCanLowerSuggestedEdition` | src/main/java/net/pterodactylus/sone/data/Sone.java:619-626 | a URI suggesting edition 10 is made to suggest 5: suggested editions are not monotonic |
| `Uris.UpdateEditionsReachesMax` | src/main/java/net/pterodactylus/sone/data/Sone.java:636-646 | both URIs reach the greater of the two editions (a missing one counting 0), keeping their locators |
| `Uris.FirstRequestUriStoredAndRaised` | src/main/java/net/pterodactylus/sone/data/Sone.java:148-153 | the first request URI is stored and both URIs are raised to the greater edition |
| `Uris.FirstInsertUriStoredAndRaised` | src/main/java/net/pterodactylus/sone/data/Sone.java:181-186 | the first insert URI is stored and both URIs are raised to the greater edition |
| `Uris.KeypairMismatchLeavesUrisUnchanged` | src/main/java/net/pterodactylus/sone/data/Sone.java:154-157 | an incoming URI with another keypair leaves both URIs exactly as they were |
| `Uris.MatchingKeypairOnlySuggestsIncomingEdition` | src/main/java/net/pterodactylus/sone/data/Sone.java:158-161 | with a matching keypair, as written the pair stays exactly as it was; corrected, the request URI's suggested edition becomes the incoming edition exactly when that is newer, and the pair changes iff so |
| `Uris.MatchingKeypairOnlySuggestsIncomingEditionInsert` | src/main/java/net/pterodactylus/sone/data/Sone.java:191-194 | the same two readings for the insert URI |
| `Uris.AsWrittenKeepsStoredUris` | src/main/java/net/pterodactylus/sone/data/Sone.java:148-163 | as written, a stored request or insert URI is never changed by `setRequestUri`/`setInsertUri`; a first URI is stored and raised as in the corrected reading |
| `Uris.ReconciliationCanLowerSuggestedEdition` | src/main/java/net/pterodactylus/sone/data/Sone.java:158-161 | a URI at edition 5 suggesting 10, offered edition 7: corrected, it ends up suggesting 7; as written, it keeps 10 |
| `Uris.OperationsKeepLocators` | src/main/java/net/pterodactylus/sone/data/Sone.java:148-196 | once present, a URI keeps its keys, type, meta strings and edition under every operation |
| `Uris.ReconciledSuggestsNewerEdition` | src/main/java/net/pterodactylus/sone/data/Sone.java:158-161 | corrected: a newer edition with the same keypair becomes the suggested edition, and nothing else changes |
| `Uris.AsWrittenNeverChangesStoredUri` | src/main/java/net/pterodactylus/sone/data/Sone.java:158-161 | as written: reconciling with a stored URI never changes it |
| `Uris.DiscardedSuggestedEdition` | src/main/java/net/pterodactylus/sone/data/Sone.java:158-161 | the counterexample: stored edition 3, offered 5; as written it stays 3, corrected it becomes 5 |
| `Numbers.ParseSigned` | src/main/java/net/pterodactylus/sone/core/SoneDownloader.java:241 | a parsed value lies in the range, comes from a non-empty text, and is negative only after a leading `-` |
| `Numbers.ParseLong` | src/main/java/net/pterodactylus/sone/core/SoneDownloader.java:241 | `Long.parseLong`: a result is a `long` value |
| `Numbers.SafeParseInteger` | src/main/java/net/pterodactylus/sone/core/SoneDownloader.java:282-284 | an absent text gives null; a present one gives exactly what `parseInt` gives, an `int` value or null |
| `Numbers.SafeParseFormatInteger` | src/main/java/net/pterodactylus/sone/core/SoneDownloader.java:282-284 | every `int` written in decimal is read back as itself |
| `Numbers.Digits` | src/main/java/net/pterodactylus/sone/core/SoneDownloader.java:241 | the decimal digits of a number, all digits, not empty |
| `Numbers.DigitsRoundTrip` | src/main/java/net/pterodactylus/sone/core/SoneDownloader.java:241 | reading back a number's digits gives the number |
| `Numbers.ParseFormatLong` | src/main/java/net/pterodactylus/sone/core/SoneDownloader.java:241 | every `long` written in decimal parses back to itself |
| `Numbers.ParseFormatSigned` | src/main/java/net/pterodactylus/sone/core/SoneDownloader.java:241 | every number in the range, written in decimal, parses back to itself |
| `Numbers.NonDigitRejected` | src/main/java/net/pterodactylus/sone/core/SoneDownloader.java:241 | a text with a non-digit after the sign never parses |
| `Numbers.Int32` | src/main/java/net/pterodactylus/sone/core/SoneInserter.java:138 | the `int` value congruent modulo 2^32; values in range are kept |
| `Numbers.Int64` | src/main/java/net/pterodactylus/sone/core/SoneInserter.java:138 | the `long` value congruent modulo 2^64; values in range are kept |
| `Registry.Core.GetSone` | src/main/java/net/pterodactylus/sone/core/SoneDownloader.java:223 | the registered Sone for the ID, or a new blank one now registered; other entries stay |
| `Registry.Core.GetPost` | src/main/java/net/pterodactylus/sone/core/SoneDownloader.java:305 | the registered post for the ID, or a blank one now registered |
| `Registry.Core.StorePost` | src/main/java/net/pterodactylus/sone/core/SoneDownloader.java:305 | the post changed in place is what the registry holds for its ID |
| `Registry.Core.GetReply` | src/main/java/net/pterodactylus/sone/core/SoneDownloader.java:332 | the registered reply for the ID, or a new blank one now registered |
| `Registry.Core.SetSoneStatus` | src/main/java/net/pterodactylus/sone/core/SoneDownloader.java:120 | the Sone's status becomes the given one; other statuses stay |
| `Registry.Core.AddSone` | src/main/java/net/pterodactylus/sone/core/SoneDownloader.java:130 | the Sone becomes known unless a Sone with its ID already is |
| `Documents.HeaderPhaseSucceedsIff` | src/main/java/net/pterodactylus/sone/core/SoneDownloader.java:226-269 | the header is accepted iff the name and a parsable time are present, a request URI is well formed, and an adopted insert URI is well formed and has a request URI beside it |
| `Documents.HeaderWritesNameAndTimeFirst` | src/main/java/net/pterodactylus/sone/core/SoneDownloader.java:226-246 | the name is written whenever present, and the time whenever the failure lies past the time |
| `Documents.ExistingInsertUriIgnoresDocument` | src/main/java/net/pterodactylus/sone/core/SoneDownloader.java:259-260 | a Sone with an insert URI ignores the document's insert URI entirely |
| `Documents.AdoptedInsertUriRaisesBoth` | src/main/java/net/pterodactylus/sone/core/SoneDownloader.java:259-263 | an adopted insert URI is stored, and both URIs reach the greater suggested edition |
| `Documents.ProfileOf` | src/main/java/net/pterodactylus/sone/core/SoneDownloader.java:279-286 | names are copied; a birth date field is present exactly when its text is present and parses as an `int`, and then holds the parsed value |
| `Documents.ScanPostsFailure` | src/main/java/net/pterodactylus/sone/core/SoneDownloader.java:295-311 | whatever the registry, the post scan fails exactly at the first bad node |
| `Documents.PostsFailureNoneIff` | src/main/java/net/pterodactylus/sone/core/SoneDownloader.java:295-310 | post nodes are accepted iff each has an ID, a time, a text and a parsable time |
| `Documents.ScanPostsCollects` | src/main/java/net/pterodactylus/sone/core/SoneDownloader.java:295-311 | a successful scan collects exactly the listed posts, each the registry's post for its ID and authored by the Sone |
| `Documents.ScanPostsKeepsUnlisted` | src/main/java/net/pterodactylus/sone/core/SoneDownloader.java:295-311 | a collected post whose ID no later node lists keeps its values |
| `Documents.ScanPostsTakesNodeValues` | src/main/java/net/pterodactylus/sone/core/SoneDownloader.java:305 | after a successful scan each listed post has the parsed time and the text of the last node with its ID |
| `Documents.ScanRepliesFailure` | src/main/java/net/pterodactylus/sone/core/SoneDownloader.java:321-338 | the reply scan fails exactly at the first bad node |
| `Documents.RepliesFailureNoneIff` | src/main/java/net/pterodactylus/sone/core/SoneDownloader.java:321-337 | reply nodes are accepted iff each has an ID, a post ID, a time, a text and a parsable time |
| `Documents.ScanRepliesCollects` | src/main/java/net/pterodactylus/sone/core/SoneDownloader.java:321-338 | a successful scan collects exactly the listed replies, each authored by the Sone and linked to a registered post |
| `Documents.ScanRepliesKeepsUnlisted` | src/main/java/net/pterodactylus/sone/core/SoneDownloader.java:321-338 | a reply whose ID no later node lists keeps its content |
| `Documents.ScanRepliesTakesNodeValues` | src/main/java/net/pterodactylus/sone/core/SoneDownloader.java:332 | after a successful scan each listed reply refers to the post ID and has the parsed time and the text of the last node with its ID |
| `Documents.ScanRepliesOnlyAddsPosts` | src/main/java/net/pterodactylus/sone/core/SoneDownloader.java:332 | the reply scan only registers missing posts; registered posts keep their content |
| `Documents.ScanKnownSonesFailure` | src/main/java/net/pterodactylus/sone/core/SoneDownloader.java:374-390 | the known-Sone scan fails exactly at the first bad node |
| `Documents.KnownSonesFailureNoneIff` | src/main/java/net/pterodactylus/sone/core/SoneDownloader.java:374-389 | known-Sone nodes are accepted iff each has an ID, a well-formed key and a name |
| `Documents.ScanKnownSonesCollects` | src/main/java/net/pterodactylus/sone/core/SoneDownloader.java:374-390 | a successful scan collects exactly the listed Sones, each registered with a name and a request URI |
| `Documents.ScanKnownSonesOnlyTouchesListed` | src/main/java/net/pterodactylus/sone/core/SoneDownloader.java:374-390 | only the listed Sones' names and URIs change |
| `Documents.KnownStepValues` | src/main/java/net/pterodactylus/sone/core/SoneDownloader.java:384 | a complete node with a valid key names its Sone and gives it a request URI that keeps the stored locator or, with none stored, has the key's locator; no other Sone changes |
| `Documents.ScanKnownSonesNamed` | src/main/java/net/pterodactylus/sone/core/SoneDownloader.java:374-390 | after a successful scan each listed Sone has the name of the last node with its ID and a request URI |
| `Documents.ScanKnownSonesLocators` | src/main/java/net/pterodactylus/sone/core/SoneDownloader.java:374-390 | after a successful scan each listed Sone's request URI keeps the locator it had before, or, if it had none, has the locator of the first key listed for it |
| `Documents.KnownHeadsFromAgreeingHeads` | src/main/java/net/pterodactylus/sone/core/SoneDownloader.java:374-390 | when the heads read from differ from `before` only at one ID, the listed Sones are named by their nodes and every other listed Sone's locator is as if read from `before` |
| `Documents.ScanKnownSonesTakesNodeValues` | src/main/java/net/pterodactylus/sone/core/SoneDownloader.java:374-390 | both of the above together: the known-Sone section's values as the scan leaves them |
| `Documents.VerdictNoneIff` | src/main/java/net/pterodactylus/sone/core/SoneDownloader.java:226-391 | a document is accepted iff every check of every phase passes |
| `Documents.MissingSectionsAreEmpty` | src/main/java/net/pterodactylus/sone/core/SoneDownloader.java:289-373 | missing sections count as empty; such a document is accepted iff its header and profile are |
| `Downloader.SoneDownloader.constructor` | src/main/java/net/pterodactylus/sone/core/SoneDownloader.java:73-77 | a new downloader watches nothing and has made no calls |
| `Downloader.SoneDownloader.AddSone` | src/main/java/net/pterodactylus/sone/core/SoneDownloader.java:89-93 | a Sone not yet watched is watched and registered once; a watched one changes nothing |
| `Downloader.SoneDownloader.RemoveSone` | src/main/java/net/pterodactylus/sone/core/SoneDownloader.java:101-105 | the Sone is no longer watched; it is unregistered iff it was watched |
| `Downloader.SoneDownloader.ServiceStop` | src/main/java/net/pterodactylus/sone/core/SoneDownloader.java:418-422 | exactly one unregistration is appended per watched Sone; earlier calls stay |
| `Downloader.SoneDownloader.Unregistrations` | src/main/java/net/pterodactylus/sone/core/SoneDownloader.java:419-421 | one unregistration per ID, for exactly those IDs |
| `Downloader.SoneDownloader.FetchSone` | src/main/java/net/pterodactylus/sone/core/SoneDownloader.java:114-135 | a downloading Sone is skipped untouched; otherwise the status ends unknown (time 0) or idle on every path; nothing fetched leaves Sone and registries unchanged; an accepted document makes the Sone known with counter 0 and a request URI; a refused one leaves the known Sones and the counter |
| `Downloader.SoneDownloader.ImportFetched` | src/main/java/net/pterodactylus/sone/core/SoneDownloader.java:128-131 | an accepted document's Sone is added to the known Sones; a refused one adds nothing |
| `Downloader.SoneDownloader.ParseFetched` | src/main/java/net/pterodactylus/sone/core/SoneDownloader.java:148-166 | the result is that of the merge; a parsed Sone has counter 0 and a request URI |
| `Downloader.SoneDownloader.ParseSone` | src/main/java/net/pterodactylus/sone/core/SoneDownloader.java:189-224 | a mismatched or missing ID fails, changing nothing; otherwise the failure is `Verdict` of the document and the target's header before the merge; the registered target is the result |
| `Downloader.SoneDownloader.MergeInto` | src/main/java/net/pterodactylus/sone/core/SoneDownloader.java:226-408 | failure is `Verdict`; the header is written up to the failure; a failure leaves profile, posts, replies, likes, counter and known Sones; on success the profile is the document's, the posts and replies are exactly the listed ones, shared with the registry, each with the time and text (and, for a reply, the post ID) of the last node with its ID, the liked post IDs are the listed ones, the counter is 0, the listed Sones are known, each with the last node's name and a request URI; a listed Sone other than the merged one keeps its request URI's locator or, with none, takes the first listed key's |
| `Downloader.SoneDownloader.MergeHeader` | src/main/java/net/pterodactylus/sone/core/SoneDownloader.java:226-269 | the header fields become `HeaderPhase`'s state and the failure is its failure |
| `Downloader.SoneDownloader.MergeBody` | src/main/java/net/pterodactylus/sone/core/SoneDownloader.java:271-406 | the failure is `BodyFailure`; on success the profile, the listed posts and replies with the values of their last nodes, the liked post IDs and counter 0 are applied, and the listed Sones are added to the known Sones (`Merged`); the Sones' names and URIs are what the known-Sone scan leaves from those before the body (`KnownHeads`) |
| `Downloader.SoneDownloader.ReadBody` | src/main/java/net/pterodactylus/sone/core/SoneDownloader.java:271-391 | the sections after the header are read; Sones not listed as known keep their name and URIs; on success the profile, the listed posts with their nodes' times and texts, the listed replies linked to the Sone with their nodes' post IDs, times and texts, the liked IDs (`BodyReads`), and the Sones' names and URIs as the known-Sone scan leaves them (`KnownHeads`) |
| `Downloader.SoneDownloader.ReadThreads` | src/main/java/net/pterodactylus/sone/core/SoneDownloader.java:288-339 | the post section, then the reply section: the first failure, else exactly the listed posts and replies, each with the values of the last node with its ID; the Sones' names and URIs do not change |
| `Downloader.SoneDownloader.ReadPosts` | src/main/java/net/pterodactylus/sone/core/SoneDownloader.java:288-312 | the failure is `PostsFailure`; on success exactly the listed posts, authored by the Sone, as registered, each with the parsed time and text of the last node with its ID |
| `Downloader.SoneDownloader.ReadReplies` | src/main/java/net/pterodactylus/sone/core/SoneDownloader.java:314-339 | the failure is `RepliesFailure`; on success exactly the listed reply IDs, each linked to the Sone and a registered post, with the post ID, parsed time and text of the last node with its ID; posts are only added |
| `Downloader.SoneDownloader.ReadKnownSones` | src/main/java/net/pterodactylus/sone/core/SoneDownloader.java:367-391 | the failure is `KnownSonesFailure`; on success exactly the listed IDs, each registered with the name of the last node with its ID and a request URI that keeps its locator or, if it had none, takes the first listed key's; on every path the names and URIs are those the scan from the heads before leaves (`KnownHeads`) |
| `Downloader.SoneDownloader.Commit` | src/main/java/net/pterodactylus/sone/core/SoneDownloader.java:393-406 | the profile, posts, replies, liked post IDs and counter 0 are applied together, then the listed Sones are added to the known Sones; no Sone's name or URIs and no reply change |
| `Downloader.CommitMerges` | src/main/java/net/pterodactylus/sone/core/SoneDownloader.java:393-406 | a committed body read from the document leaves the Sone and the registry as `Merged` states: the document's profile, posts, replies and likes, counter 0, the listed Sones known |
| `Downloader.SoneDownloader.Import` | src/main/java/net/pterodactylus/sone/core/SoneDownloader.java:393-401 | the profile, posts, replies, liked post IDs and counter 0 are set together; no Sone's name or URIs and no reply change |
| `Downloader.SoneDownloader.ReadLikesAndKnown` | src/main/java/net/pterodactylus/sone/core/SoneDownloader.java:341-391 | the liked post and reply IDs are the listed ones; the failure, the collected IDs and the resulting names and URIs are the known-Sone section's |
| `Downloader.SoneDownloader.ScanPostNodes` | src/main/java/net/pterodactylus/sone/core/SoneDownloader.java:295-311 | the loop over post nodes computes `ScanPosts` on the registry |
| `Downloader.SoneDownloader.ScanPostNode` | src/main/java/net/pterodactylus/sone/core/SoneDownloader.java:296-310 | one post node does `PostStep` on the registry |
| `Downloader.SoneDownloader.ScanReplyNodes` | src/main/java/net/pterodactylus/sone/core/SoneDownloader.java:321-338 | the loop over reply nodes computes `ScanReplies` on the reply contents and posts |
| `Downloader.SoneDownloader.ScanReplyNode` | src/main/java/net/pterodactylus/sone/core/SoneDownloader.java:322-337 | one reply node does `ReplyStep`, changing the shared reply object in place |
| `Downloader.SoneDownloader.FillReply` | src/main/java/net/pterodactylus/sone/core/SoneDownloader.java:332 | the looked-up reply gets author and post, then time and text if the time parses |
| `Downloader.SoneDownloader.CollectIds` | src/main/java/net/pterodactylus/sone/core/SoneDownloader.java:348-351 | the loop collects exactly the listed IDs |
| `Downloader.SoneDownloader.ScanKnownNodes` | src/main/java/net/pterodactylus/sone/core/SoneDownloader.java:374-390 | the loop over known-Sone nodes computes `ScanKnownSones` on the registered Sones' names and URIs |
| `Downloader.SoneDownloader.ScanKnownNode` | src/main/java/net/pterodactylus/sone/core/SoneDownloader.java:375-389 | one known-Sone node does `KnownStep`, changing the shared Sone object in place |
| `Downloader.SoneDownloader.ApplyKnownKey` | src/main/java/net/pterodactylus/sone/core/SoneDownloader.java:383-389 | a well-formed key becomes the request URI, then the name is set; a malformed one fails with nothing set |
| `Downloader.SoneDownloader.AddKnownSones` | src/main/java/net/pterodactylus/sone/core/SoneDownloader.java:403-406 | after the loop the known Sones are `WithKnown` of the listed IDs |
| `Downloader.WithKnownAddsOnlyNew` | src/main/java/net/pterodactylus/sone/core/SoneDownloader.java:403-406 | known Sones stay; exactly the listed Sones not yet known are added, as registered |
| `Downloader.KnownStepAfterLookup` | src/main/java/net/pterodactylus/sone/core/SoneDownloader.java:384 | registering the looked-up Sone first does not change what the node does |
| `Downloader.ReplyStepAfterLookup` | src/main/java/net/pterodactylus/sone/core/SoneDownloader.java:332 | registering the looked-up reply first does not change what the node does |
| `Inserter.ObserveCatchesUp` | src/main/java/net/pterodactylus/sone/core/SoneInserter.java:132-137 | a higher counter is copied, the time of change is the clock reading and the Sone is stamped with it; otherwise nothing changes; the loop is caught up |
| `Inserter.NoInsertWithinDelay` | src/main/java/net/pterodactylus/sone/core/SoneInserter.java:138-140 | without overflow, an insert is due iff a change was seen and strictly more than delay×1000 ms have passed |
| `Inserter.DefaultDelayIsOneMinute` | src/main/java/net/pterodactylus/sone/core/SoneInserter.java:61 | with the default delay, an insert is due iff more than 60000 ms have passed since a seen change |
| `Inserter.LargeDelayWraps` | src/main/java/net/pterodactylus/sone/core/SoneInserter.java:138 | a delay of 2147484 s wraps to a negative threshold: any seen change is due at once |
| `Inserter.FailedInsertChangesNothing` | src/main/java/net/pterodactylus/sone/core/SoneInserter.java:153-172 | after a failed insert neither the counters, the change time nor the URIs change |
| `Inserter.SuccessfulInsertResetsIffUnchanged` | src/main/java/net/pterodactylus/sone/core/SoneInserter.java:150-171 | after a success the URIs are raised, and counter and locals reset to 0 iff the Sone's counter equals the captured one |
| `Inserter.SuccessfulPassSettles` | src/main/java/net/pterodactylus/sone/core/SoneInserter.java:132-172 | a due pass whose insert succeeds leaves the loop settled: counters 0, URIs raised |
| `Inserter.SettledPassIsIdle` | src/main/java/net/pterodactylus/sone/core/SoneInserter.java:132-143 | a pass from a settled state changes nothing and inserts nothing |
| `Inserter.SettledRunIsIdle` | src/main/java/net/pterodactylus/sone/core/SoneInserter.java:126-174 | any number of passes from a settled state change nothing |
| `Inserter.IterationCatchesUp` | src/main/java/net/pterodactylus/sone/core/SoneInserter.java:132-137 | after every pass the loop's counter is at least the Sone's |
| `Inserter.IterationKeepsUris` | src/main/java/net/pterodactylus/sone/core/SoneInserter.java:150 | a pass changes the URIs only by raising them to an inserted edition; presence is kept |
| `Inserter.RunKeepsInsertUri` | src/main/java/net/pterodactylus/sone/core/SoneInserter.java:126-174 | a Sone with an insert URI keeps one through any run |
| `Inserter.Snapshot` | src/main/java/net/pterodactylus/sone/core/SoneInserter.java:195-207 | the snapshot holds the Sone's ID, name, time, URIs, profile, posts newest first, replies, blocked IDs and liked IDs |
| `Inserter.ExportedKnownSoneIds` | src/main/java/net/pterodactylus/sone/core/SoneInserter.java:271-281 | over the core's known Sones, the exported IDs are the known IDs less the blocked ones and the Sone's own |
| `Inserter.ManifestEntries` | src/main/java/net/pterodactylus/sone/core/SoneInserter.java:231-241 | exactly `index.html` (text/html) and `sone.xml` (text/xml), each named for its key, over the snapshot and the exported known Sones |
| `Inserter.SoneInserter.constructor` | src/main/java/net/pterodactylus/sone/core/SoneInserter.java:93-98 | the inserter holds its core and Sone; the delay is 60 seconds |
| `Inserter.SoneInserter.SetInsertionDelay` | src/main/java/net/pterodactylus/sone/core/SoneInserter.java:111-113 | the delay becomes the given value |
| `Inserter.SoneInserter.Check` | src/main/java/net/pterodactylus/sone/core/SoneInserter.java:131-141 | the locals and the Sone's time follow `Observe`; a snapshot is taken iff the insert is due |
| `Inserter.SoneInserter.Publish` | src/main/java/net/pterodactylus/sone/core/SoneInserter.java:143-157 | the insert goes to the insert URI as USK at edition 0 with the two manifest entries; success raises the URIs; the status ends idle on both paths |
| `Inserter.SoneInserter.Settle` | src/main/java/net/pterodactylus/sone/core/SoneInserter.java:163-172 | after a success, counter and locals are reset iff the counter equals the captured one |
| `Inserter.SoneInserter.Iterate` | src/main/java/net/pterodactylus/sone/core/SoneInserter.java:126-173 | one pass changes locals and Sone as `Iteration` says; the status is set idle when an insert was due and is untouched otherwise |
| `Inserter.SoneInserter.ServiceRun` | src/main/java/net/pterodactylus/sone/core/SoneInserter.java:123-175 | from both locals at 0, the loop's state after all ticks is `Run` of the ticks |

## Left out

- XML decoding is left out: `XML.transformToDocument` and `SimpleXML`. A document is a value whose every field may be missing, and a document that did not decode is `Fetched(None)`.
- Network calls are left out: `fetchUri`, `registerUsk`, `unregisterUsk` and `insertDirectory`. Their outcomes are parameters (`FetchResult`, `InsertOutcome`); subscription calls are recorded as `WatchEvent`s.
- Threads, `synchronized` and the service framework are left out. Each method runs alone; `shouldStop` and `sleep` are replaced by a finite list of ticks.
- Other threads changing the Sone during an insert are never interleaved in `Inserter.SoneInserter.ServiceRun`. `Inserter.Reset` and `Inserter.SuccessfulInsertResetsIffUnchanged` are stated for any current counter.
- Logging is left out, and so are the clocks and `UUID.randomUUID`. Clock readings are tick parameters. The reply constructors that draw a random ID or read the clock (Reply.java:65-83) are left out; `Replies.Reply.Create` takes both as arguments.
- Template rendering, the HTML and XML text, and the resource streams are left out. A manifest element records its name, content type, template name and the template's inputs. A template that fails to parse or render would yield a null element; that path is left out.
- UUID parsing and canonical forms of IDs are left out. IDs are strings; `Entities.IdHash` stands in for `UUID.hashCode`; only its being an `int` that depends on the ID alone is used, not its formula.
- `Numbers.ParseSigned` accepts ASCII digits only, where `Long.parseLong` also accepts other Unicode digits.
- Posts are values in the core's registry, not shared objects. A post changed through `getPost` is stored back (`Registry.Core.StorePost`), so the model does not capture aliasing of post objects.
- `getFriends` sorting is left out, because it is not used by the core. Friends are a set of IDs.
- Several null dereferences become preconditions, because they throw rather than fail: `Sones.Sone.AddPost`, `RemovePost`, `AddReply` and `RemoveReply` require an author. `Inserter.SoneInserter.Iterate`, `ServiceRun` and `Publish` require an insert URI. `Downloader.SoneDownloader.FetchSone` requires a request URI for a Sone it fetches.
- An insert URI adopted while the Sone has no request URI dereferences null in the source (src/main/java/net/pterodactylus/sone/core/SoneDownloader.java:259-263). The model refuses the document with the failure `NoRequestUri`; `fetchSone` still resets the status, as its `finally` block does.
- `Downloader.SoneDownloader.ParseSone`: a document without an ID and without an original Sone is refused as `MissingId`, because `getSone(null)` belongs to the core, which this source does not include.
- `Downloader.SoneDownloader.MergeInto`: the document's liked reply IDs are read but, as in the source, never applied. The success clause does not repeat that replies are authored by the Sone and linked to a registered post; `Downloader.SoneDownloader.ReadBody` states it.
- `Downloader.SoneDownloader.MergeInto`: when the document lists the merged Sone among its own known Sones, its request URI's locator is not stated, because the header has already changed it before the known-Sone section is read; its name is.
- `Downloader.SoneDownloader.MergeInto`: the friends, blocked IDs and liked reply IDs are kept unchanged by its frame (`modifies`) rather than by an `ensures`.
- `Inserter.SoneInserter.Publish`: the status between the two writes is `inserting`. The contract states only the final `idle`; the intermediate write is in the body.
- `Sones.Sone.SetRequestUri`: runs the corrected reconciliation of "## Findings", which stores the raised URI. As written, the source keeps a stored request URI as it was (`Uris.SetRequestUriAsWritten`). So wherever the downloader sets a request URI on a Sone that already has one, the model raises its suggested edition and the source does not: the header of a merge, a known-Sone entry, and the URI of a fetched Sone.
- `Sones.Sone.SetInsertUri`: likewise runs the corrected reconciliation; as written, the source keeps a stored insert URI as it was (`Uris.SetInsertUriAsWritten`).
- `Sones.Sone.GetPosts`: sorts by the exact times. The source's comparator agrees whenever two times differ by an amount that fits in a `long` (`Sones.PostComparisonOrdersByTime`). Otherwise the subtraction wraps (`Sones.PostComparisonWraps`), the comparator is no order, and `Collections.sort` may give any order or throw. The model does not capture that case.
- `Inserter.Snapshot`: its posts come from `getPosts`, so the same limit on post times applies.
- `Inserter.Snapshot`: the replies are shared objects, so later changes to a reply show in the snapshot. Changes to the Sone's own sets do not.
- `insertionDelay` is static in the source and shared by every inserter; here it is a field of each inserter.

## Findings

| source | as written | input that shows it | evidently intended | confidence | as-written member | corrected member |
|---|---|---|---|---|---|---|
| src/main/java/net/pterodactylus/sone/data/Sone.java:158-161 | `setSuggestedEdition` returns a new URI, and the result is discarded; the same happens for the insert URI at lines 191-194. A stored URI is therefore never raised | stored edition 3, incoming edition 5, same keypair: the suggested edition stays 3 | store the returned URI, so that the suggested edition becomes 5 | high; not executed | `Uris.ReconciledAsWritten` and `Uris.SetRequestUriAsWritten`, shown by `Uris.AsWrittenKeepsStoredUris` and `Uris.DiscardedSuggestedEdition` | `Uris.Reconciled` and `Uris.SetRequestUri`, with `Uris.ReconciledSuggestsNewerEdition`; `Sones.Sone.SetRequestUri` and `Sones.Sone.SetInsertUri` use it |
