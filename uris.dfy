/**
 * Freenet URIs as the Sone entity uses them, and the reconciliation of a Sone's
 * request URI (the public locator other nodes fetch) and insert URI (the private
 * locator its owner publishes under).
 *
 * A `FreenetURI` is a value: its setters (`setSuggestedEdition`, `setKeyType`,
 * `setMetaString`) return a new URI and leave the receiver as it was. The Sone
 * code relies on this reading wherever it uses a returned URI
 * (SoneDownloader.java:119, SoneInserter.java:149, Sone.java:621).
 */
module Uris {
  import opened Optional

  /** The routing and crypto keys of a URI; `equalsKeypair` compares exactly these. */
  type Keypair = string

  datatype Uri = Uri(keyType: string, keypair: Keypair, metaStrings: seq<string>, edition: int, suggestedEdition: int)

  function EqualsKeypair(a: Uri, b: Uri): bool {
    a.keypair == b.keypair
  }

  function SetSuggestedEdition(u: Uri, edition: int): Uri {
    u.(suggestedEdition := edition)
  }

  function SetKeyType(u: Uri, keyType: string): Uri {
    u.(keyType := keyType)
  }

  function SetMetaString(u: Uri, metaStrings: seq<string>): Uri {
    u.(metaStrings := metaStrings)
  }

  /** The request URI and the insert URI of one Sone; either may be absent (null). */
  datatype UriPair = UriPair(request: Option<Uri>, insert: Option<Uri>)

  /** One half of `Sone.updateUris`: raise a present URI whose edition is below `latest`. */
  function RaiseBelow(u: Option<Uri>, latest: int): Option<Uri> {
    if u.Some? && u.value.edition < latest then Some(SetSuggestedEdition(u.value, latest)) else u
  }

  /** `Sone.updateUris(latestEdition)`. */
  function UpdateUris(p: UriPair, latest: int): UriPair {
    UriPair(RaiseBelow(p.request, latest), RaiseBelow(p.insert, latest))
  }

  /** The edition of a URI, where a missing URI counts as edition 0. */
  function EditionOrZero(u: Option<Uri>): int {
    if u.Some? then u.value.edition else 0
  }

  function Max(a: int, b: int): int {
    if a >= b then a else b
  }

  /** `Sone.updateEditions()`: raise both URIs to the greater of their editions. */
  function UpdateEditions(p: UriPair): UriPair {
    UpdateUris(p, Max(EditionOrZero(p.request), EditionOrZero(p.insert)))
  }

  /**
   * Lines 154-161 (and 187-194) of `setRequestUri` (`setInsertUri`) when a
   * URI is already stored, AS WRITTEN: the URI returned by
   * `setSuggestedEdition` is discarded, so the stored URI is returned as it was.
   */
  function ReconciledAsWritten(stored: Uri, incoming: Uri): Uri {
    if !EqualsKeypair(stored, incoming) then stored
    else
      var latest := incoming.edition;
      if latest > stored.edition || latest > stored.suggestedEdition then
        var discarded := SetSuggestedEdition(stored, latest);
        stored
      else stored
  }

  /** The same lines with the returned URI stored, as the code evidently intends. */
  function Reconciled(stored: Uri, incoming: Uri): Uri {
    if !EqualsKeypair(stored, incoming) then stored
    else
      var latest := incoming.edition;
      if latest > stored.edition || latest > stored.suggestedEdition then
        SetSuggestedEdition(stored, latest)
      else stored
  }

  /** `Sone.setRequestUri(incoming)`. */
  function SetRequestUri(p: UriPair, incoming: Uri): UriPair {
    if p.request.None? then UpdateEditions(p.(request := Some(incoming)))
    else p.(request := Some(Reconciled(p.request.value, incoming)))
  }

  /** `Sone.setInsertUri(incoming)`. */
  function SetInsertUri(p: UriPair, incoming: Uri): UriPair {
    if p.insert.None? then UpdateEditions(p.(insert := Some(incoming)))
    else p.(insert := Some(Reconciled(p.insert.value, incoming)))
  }

  /** `Sone.setRequestUri(incoming)` as written: a stored request URI is kept as it was. */
  function SetRequestUriAsWritten(p: UriPair, incoming: Uri): UriPair {
    if p.request.None? then UpdateEditions(p.(request := Some(incoming)))
    else p.(request := Some(ReconciledAsWritten(p.request.value, incoming)))
  }

  /** `Sone.setInsertUri(incoming)` as written: a stored insert URI is kept as it was. */
  function SetInsertUriAsWritten(p: UriPair, incoming: Uri): UriPair {
    if p.insert.None? then UpdateEditions(p.(insert := Some(incoming)))
    else p.(insert := Some(ReconciledAsWritten(p.insert.value, incoming)))
  }

  /** A URI that `UpdateUris(_, latest)` has dealt with: at edition `latest` or later, or pointing there. */
  predicate Reaches(u: Option<Uri>, latest: int) {
    u.Some? ==> u.value.edition >= latest || u.value.suggestedEdition == latest
  }

  /** The part of a URI no Sone operation may change: its keys, type, meta strings and edition. */
  predicate SameLocator(a: Uri, b: Uri) {
    a.keyType == b.keyType && a.keypair == b.keypair && a.metaStrings == b.metaStrings && a.edition == b.edition
  }

  predicate SameLocatorOrBothAbsent(a: Option<Uri>, b: Option<Uri>) {
    (a.None? <==> b.None?) && (a.Some? ==> SameLocator(a.value, b.value))
  }

  // ---------------------------------------------------------------------------
  // Properties of updateUris / updateEditions
  // ---------------------------------------------------------------------------

  /**
   * `updateUris(e)` changes a URI only if it is present and its edition is
   * below `e`, and then only its suggested edition, which becomes `e`.
   */
  lemma UpdateUrisTouchesOnlyLowerEditions(p: UriPair, latest: int)
    ensures var q := UpdateUris(p, latest);
      && SameLocatorOrBothAbsent(q.request, p.request)
      && SameLocatorOrBothAbsent(q.insert, p.insert)
      && (p.request.Some? && p.request.value.edition >= latest ==> q.request == p.request)
      && (p.insert.Some? && p.insert.value.edition >= latest ==> q.insert == p.insert)
      && (p.request.Some? && p.request.value.edition < latest ==> q.request.value.suggestedEdition == latest)
      && (p.insert.Some? && p.insert.value.edition < latest ==> q.insert.value.suggestedEdition == latest)
      && Reaches(q.request, latest) && Reaches(q.insert, latest)
  {
  }

  /** Applying `updateUris` twice with the same edition is the same as applying it once. */
  lemma UpdateUrisIdempotent(p: UriPair, latest: int)
    ensures UpdateUris(UpdateUris(p, latest), latest) == UpdateUris(p, latest)
  {
  }

  /**
   * `updateUris` may LOWER a suggested edition: a URI at edition 1 that
   * already suggests edition 10 is made to suggest edition 5.
   */
  lemma UpdateUrisCanLowerSuggestedEdition(k: Keypair)
    ensures var u := Uri("USK", k, [], 1, 10);
      UpdateUris(UriPair(Some(u), None), 5).request.value.suggestedEdition == 5
  {
  }

  /**
   * `updateEditions` brings both URIs to the greater edition of the two, a
   * missing URI counting as edition 0; a missing URI stays missing.
   */
  lemma UpdateEditionsReachesMax(p: UriPair)
    ensures var m := Max(EditionOrZero(p.request), EditionOrZero(p.insert));
      var q := UpdateEditions(p);
      && Reaches(q.request, m) && Reaches(q.insert, m)
      && SameLocatorOrBothAbsent(q.request, p.request)
      && SameLocatorOrBothAbsent(q.insert, p.insert)
  {
    UpdateUrisTouchesOnlyLowerEditions(p, Max(EditionOrZero(p.request), EditionOrZero(p.insert)));
  }

  // ---------------------------------------------------------------------------
  // Properties of setRequestUri / setInsertUri
  // ---------------------------------------------------------------------------

  /**
   * The first `setRequestUri` stores the incoming URI and then raises both
   * URIs to the greater of the two editions (a missing insert URI counting 0).
   */
  lemma FirstRequestUriStoredAndRaised(p: UriPair, incoming: Uri)
    requires p.request.None?
    ensures var m := Max(incoming.edition, EditionOrZero(p.insert));
      var q := SetRequestUri(p, incoming);
      && q.request.Some? && SameLocator(q.request.value, incoming)
      && (incoming.edition >= m ==> q.request == Some(incoming))
      && q.insert == RaiseBelow(p.insert, m)
      && Reaches(q.request, m) && Reaches(q.insert, m)
  {
  }

  /** The first `setInsertUri` stores the incoming URI and raises both URIs likewise. */
  lemma FirstInsertUriStoredAndRaised(p: UriPair, incoming: Uri)
    requires p.insert.None?
    ensures var m := Max(EditionOrZero(p.request), incoming.edition);
      var q := SetInsertUri(p, incoming);
      && q.insert.Some? && SameLocator(q.insert.value, incoming)
      && (incoming.edition >= m ==> q.insert == Some(incoming))
      && q.request == RaiseBelow(p.request, m)
      && Reaches(q.request, m) && Reaches(q.insert, m)
  {
  }

  /** A stored URI is never replaced by one with another keypair: the pair is left exactly as it was. */
  lemma KeypairMismatchLeavesUrisUnchanged(p: UriPair, incoming: Uri)
    ensures p.request.Some? && !EqualsKeypair(p.request.value, incoming) ==> SetRequestUri(p, incoming) == p
    ensures p.insert.Some? && !EqualsKeypair(p.insert.value, incoming) ==> SetInsertUri(p, incoming) == p
  {
  }

  /**
   * With a matching keypair, the code as written leaves the pair exactly as it
   * was. With the raised URI stored, the only change to the stored URI is that
   * its suggested edition becomes the incoming edition, and that happens
   * exactly when the incoming edition exceeds the stored edition or the stored
   * suggested edition. The other URI of the pair is untouched either way.
   */
  lemma MatchingKeypairOnlySuggestsIncomingEdition(p: UriPair, incoming: Uri)
    requires p.request.Some? && EqualsKeypair(p.request.value, incoming)
    ensures SetRequestUriAsWritten(p, incoming) == p
    ensures var stored := p.request.value;
      var q := SetRequestUri(p, incoming);
      var raise := incoming.edition > stored.edition || incoming.edition > stored.suggestedEdition;
      && q.insert == p.insert
      && q.request == Some(if raise then stored.(suggestedEdition := incoming.edition) else stored)
      && (q != p <==> raise && incoming.edition != stored.suggestedEdition)
  {
  }

  /** The same rule for the insert URI. */
  lemma MatchingKeypairOnlySuggestsIncomingEditionInsert(p: UriPair, incoming: Uri)
    requires p.insert.Some? && EqualsKeypair(p.insert.value, incoming)
    ensures SetInsertUriAsWritten(p, incoming) == p
    ensures var stored := p.insert.value;
      var q := SetInsertUri(p, incoming);
      var raise := incoming.edition > stored.edition || incoming.edition > stored.suggestedEdition;
      && q.request == p.request
      && q.insert == Some(if raise then stored.(suggestedEdition := incoming.edition) else stored)
      && (q != p <==> raise && incoming.edition != stored.suggestedEdition)
  {
  }

  /**
   * As written, a stored URI is never changed, whatever is offered; the first
   * URI of each kind is stored and raised alike under both readings.
   */
  lemma AsWrittenKeepsStoredUris(p: UriPair, incoming: Uri)
    ensures p.request.Some? ==> SetRequestUriAsWritten(p, incoming) == p
    ensures p.insert.Some? ==> SetInsertUriAsWritten(p, incoming) == p
    ensures p.request.None? ==> SetRequestUriAsWritten(p, incoming) == SetRequestUri(p, incoming)
    ensures p.insert.None? ==> SetInsertUriAsWritten(p, incoming) == SetInsertUri(p, incoming)
  {
    if p.request.Some? {
      AsWrittenNeverChangesStoredUri(p.request.value, incoming);
    }
    if p.insert.Some? {
      AsWrittenNeverChangesStoredUri(p.insert.value, incoming);
    }
  }

  /**
   * With the raised URI stored, the reconciliation does not keep the suggested
   * edition monotonic: a URI at edition 5 suggesting 10, offered edition 7,
   * ends up suggesting 7. As written it keeps suggesting 10.
   */
  lemma ReconciliationCanLowerSuggestedEdition(k: Keypair)
    ensures var stored := Uri("USK", k, [], 5, 10);
      var incoming := Uri("USK", k, [], 7, 7);
      && SetRequestUri(UriPair(Some(stored), None), incoming).request.value.suggestedEdition == 7
      && SetRequestUriAsWritten(UriPair(Some(stored), None), incoming).request.value.suggestedEdition == 10
  {
  }

  /** Once present, a URI keeps its keys, type, meta strings and edition under every operation. */
  lemma OperationsKeepLocators(p: UriPair, incoming: Uri, latest: int)
    ensures p.request.Some? ==> SameLocator(SetRequestUri(p, incoming).request.value, p.request.value)
    ensures p.insert.Some? ==> SameLocator(SetRequestUri(p, incoming).insert.value, p.insert.value)
    ensures p.request.Some? ==> SameLocator(SetInsertUri(p, incoming).request.value, p.request.value)
    ensures p.insert.Some? ==> SameLocator(SetInsertUri(p, incoming).insert.value, p.insert.value)
    ensures SameLocatorOrBothAbsent(UpdateUris(p, latest).request, p.request)
    ensures SameLocatorOrBothAbsent(UpdateUris(p, latest).insert, p.insert)
  {
  }

  // ---------------------------------------------------------------------------
  // The discarded result in setRequestUri / setInsertUri
  // ---------------------------------------------------------------------------

  /**
   * With the returned URI stored, a URI offered at a newer edition under the
   * same keypair is remembered as the suggested edition, and nothing else changes.
   */
  lemma ReconciledSuggestsNewerEdition(stored: Uri, incoming: Uri)
    requires EqualsKeypair(stored, incoming) && incoming.edition > stored.edition
    ensures Reconciled(stored, incoming) == stored.(suggestedEdition := incoming.edition)
  {
  }

  /** As written, reconciling with an existing URI never changes it. */
  lemma {:induction false} AsWrittenNeverChangesStoredUri(stored: Uri, incoming: Uri)
    ensures ReconciledAsWritten(stored, incoming) == stored
  {
  }

  /**
   * A stored request URI at edition 3 offered edition 5 under the same keypair:
   * the code computes the raise and throws it away; the intended reconciliation
   * suggests edition 5.
   */
  lemma DiscardedSuggestedEdition(k: Keypair)
    ensures var stored := Uri("USK", k, [], 3, 3);
      var incoming := Uri("USK", k, [], 5, 5);
      && ReconciledAsWritten(stored, incoming).suggestedEdition == 3
      && Reconciled(stored, incoming).suggestedEdition == 5
  {
  }
}
