/**
 * The client's per-artist info panel: the artist map (a persisted atom), the
 * ref that mirrors it, the fetch state machine, the trigger on a new
 * now-playing value and the choice of what to show.
 */
module NowPlayingPanel {
  import opened Wrappers
  import opened Strings
  import opened Http
  import opened SpotifyTypes

  /** What the POST to /api/artist-info yields on the client. */
  datatype InfoReply =
    | InfoReplied(status: nat, text: Option<string>)  // the `text` field of the JSON body
    | InfoThrown(message: string)                     // fetch or body parsing threw

  const LoadingState: ArtistState := ArtistState(Loading, None, None)

  /** A fetch is suppressed while one is in flight or after one succeeded. */
  predicate FetchSuppressed(m: ArtistMap, name: string) {
    name in m && (m[name].status == Loading || m[name].status == Loaded)
  }

  /** The entry a finished request leaves behind. */
  function Settled(reply: InfoReply): (s: ArtistState)
    ensures s.status == Loaded <==> reply.InfoReplied? && IsOk(reply.status)
    ensures s.status == Loaded ==> s.text == reply.text && s.error.None?
    ensures s.status != Loaded ==> s.status == Error && s.text.None? && s.error.Some?
    ensures reply.InfoThrown? ==> s.error == Some(reply.message)
    ensures reply.InfoReplied? && !IsOk(reply.status) ==> s.error == Some("HTTP " + Decimal(reply.status))
  {
    match reply
    case InfoThrown(message) => ArtistState(Error, None, Some(message))
    case InfoReplied(status, text) =>
      if IsOk(status) then ArtistState(Loaded, text, None)
      else ArtistState(Error, None, Some("HTTP " + Decimal(status)))
  }

  /**
   * The guard as a state machine: marking a name loading suppresses further
   * fetches for it, and a settled entry suppresses them exactly when the
   * request succeeded, so an error is retried.
   */
  lemma SuppressedExactlyWhileLoadingOrLoaded(m: ArtistMap, name: string, reply: InfoReply)
    ensures FetchSuppressed(m[name := LoadingState], name)
    ensures FetchSuppressed(m[name := Settled(reply)], name) <==> reply.InfoReplied? && IsOk(reply.status)
  {
  }

  /**
   * The name the trigger fetches is the key the render reads: a truthy
   * first artist name is the key itself, and otherwise the render reads
   * the empty key, which no fetch ever creates.
   */
  lemma FetchedNameIsRenderedKey(np: Option<Playback>)
    ensures Truthy(FirstArtistName(np)) ==> FirstArtistName(np).GetOr("") == FirstArtistName(np).value
    ensures !Truthy(FirstArtistName(np)) <==> FirstArtistName(np).GetOr("") == ""
  {
  }

  /** Entries that only this panel's transitions can produce. */
  predicate Coherent(s: ArtistState) {
    match s.status
    case Idle => false
    case Loading => s.text.None? && s.error.None?
    case Loaded => s.error.None?
    case Error => s.text.None? && s.error.Some?
  }

  /** The panel's map invariant: coherent entries, and never an entry for the empty name. */
  predicate WellFormed(m: ArtistMap) {
    "" !in m && forall k :: k in m ==> Coherent(m[k])
  }

  /** What the info block shows. */
  datatype Shown = Nothing | LoadingMessage | InfoText(text: Option<string>) | ErrorMessage(error: Option<string>)

  /**
   * The render: the entry under the first artist's name (or under "" when
   * there is none) decides the block, by its status alone.
   */
  function ArtistBlock(m: ArtistMap, np: Option<Playback>): (r: Shown)
    ensures var key := FirstArtistName(np).GetOr("");
            && (r == Nothing <==> key !in m || m[key].status == Idle)
            && (r == LoadingMessage <==> key in m && m[key].status == Loading)
            && (r.InfoText? <==> key in m && m[key].status == Loaded)
            && (r.InfoText? ==> r.text == m[key].text)
            && (r.ErrorMessage? <==> key in m && m[key].status == Error)
            && (r.ErrorMessage? ==> r.error == m[key].error)
  {
    var key := FirstArtistName(np).GetOr("");
    if key !in m then Nothing
    else
      match m[key].status
      case Idle => Nothing
      case Loading => LoadingMessage
      case Loaded => InfoText(m[key].text)
      case Error => ErrorMessage(m[key].error)
  }

  /**
   * The block depends on nothing but the entry under the current first
   * artist's name: maps that agree there render alike.
   */
  lemma BlockDependsOnlyOnCurrentEntry(m1: ArtistMap, m2: ArtistMap, np: Option<Playback>)
    requires var key := FirstArtistName(np).GetOr("");
             (key in m1 <==> key in m2) && (key in m1 ==> m1[key] == m2[key])
    ensures ArtistBlock(m1, np) == ArtistBlock(m2, np)
  {
  }

  /** With no artist playing, a well-formed map shows nothing. */
  lemma NoArtistShowsNothing(m: ArtistMap, np: Option<Playback>)
    requires WellFormed(m)
    requires FirstArtistName(np).None?
    ensures ArtistBlock(m, np) == Nothing
  {
  }

  class ArtistPanel {
    /** The persisted artist atom. */
    var artistCache: ArtistMap
    /** `artistCacheRef.current`, which the fetch guard reads. */
    var cacheRef: ArtistMap

    /** The atom starts from its persisted value and the ref from the atom. */
    constructor (persisted: ArtistMap)
      ensures artistCache == persisted && cacheRef == persisted
    {
      artistCache := persisted;
      cacheRef := persisted;
    }

    /** The effect that copies the atom into the ref after a render. */
    method SyncRef()
      modifies this
      ensures cacheRef == artistCache && artistCache == old(artistCache)
    {
      cacheRef := artistCache;
    }

    /**
     * The first half of fetchArtistInfo: unless the ref says the name is
     * loading or loaded, mark it loading in the atom, point the ref at the
     * new map and issue the request.
     */
    method BeginFetch(name: string) returns (requested: bool)
      modifies this
      ensures requested <==> !FetchSuppressed(old(cacheRef), name)
      ensures !requested ==> artistCache == old(artistCache) && cacheRef == old(cacheRef)
      ensures requested ==> artistCache == old(artistCache)[name := LoadingState] && cacheRef == artistCache
    {
      if FetchSuppressed(cacheRef, name) {
        return false;
      }
      artistCache := artistCache[name := LoadingState];
      cacheRef := artistCache;
      requested := true;
    }

    /**
     * The second half of fetchArtistInfo: the reply settles the name's entry
     * in the atom; the ref is left until the next render.
     */
    method CompleteFetch(name: string, reply: InfoReply)
      modifies this
      ensures artistCache == old(artistCache)[name := Settled(reply)]
      ensures cacheRef == old(cacheRef)
    {
      artistCache := artistCache[name := Settled(reply)];
    }

    /**
     * fetchArtistInfo run to completion with no other update in between:
     * suppressed, or loading and then settled by the reply.
     */
    method FetchArtistInfo(name: string, reply: InfoReply) returns (requested: bool)
      modifies this
      ensures requested <==> !FetchSuppressed(old(cacheRef), name)
      ensures !requested ==> artistCache == old(artistCache) && cacheRef == old(cacheRef)
      ensures requested ==>
        artistCache == old(artistCache)[name := Settled(reply)]
        && cacheRef == old(artistCache)[name := LoadingState]
    {
      requested := BeginFetch(name);
      if requested {
        CompleteFetch(name, reply);
      }
    }

    /**
     * The effect on a new now-playing value: fetch for the first artist when
     * that name is present and non-empty, otherwise do nothing.
     */
    method OnNowPlaying(np: Option<Playback>, reply: InfoReply) returns (requested: bool)
      modifies this
      ensures !Truthy(FirstArtistName(np)) ==>
        !requested && artistCache == old(artistCache) && cacheRef == old(cacheRef)
      ensures Truthy(FirstArtistName(np)) ==>
        var name := FirstArtistName(np).value;
        && (requested <==> !FetchSuppressed(old(cacheRef), name))
        && (requested ==> artistCache == old(artistCache)[name := Settled(reply)]
                          && cacheRef == old(artistCache)[name := LoadingState])
        && (!requested ==> artistCache == old(artistCache) && cacheRef == old(cacheRef))
      ensures WellFormed(old(artistCache)) && WellFormed(old(cacheRef)) ==>
        WellFormed(artistCache) && WellFormed(cacheRef)
    {
      var name := FirstArtistName(np);
      if Truthy(name) {
        requested := FetchArtistInfo(name.value, reply);
      } else {
        requested := false;
      }
    }
  }

  /**
   * An error is not terminal: after a failed request and a render, the next
   * request for the same name goes out and can load the text.
   */
  method RetryAfterError(name: string, message: string, text: string)
    returns (firstRequested: bool, secondRequested: bool, shown: ArtistState)
    ensures firstRequested && secondRequested
    ensures shown == ArtistState(Loaded, Some(text), None)
  {
    var panel := new ArtistPanel(map[]);
    firstRequested := panel.FetchArtistInfo(name, InfoThrown(message));
    panel.SyncRef();
    secondRequested := panel.FetchArtistInfo(name, InfoReplied(200, Some(text)));
    shown := panel.artistCache[name];
  }

  /**
   * Loaded is terminal for the exact name, but a spelling that differs only
   * in case is another key and is fetched again.
   */
  method LoadedSuppressesExactNameOnly(text: string)
    returns (sameName: bool, otherCase: bool)
    ensures !sameName && otherCase
  {
    var panel := new ArtistPanel(map[]);
    var first := panel.FetchArtistInfo("Radiohead", InfoReplied(200, Some(text)));
    panel.SyncRef();
    sameName := panel.FetchArtistInfo("Radiohead", InfoReplied(200, Some(text)));
    otherCase := panel.FetchArtistInfo("radiohead", InfoReplied(200, Some(text)));
  }

  /**
   * Before the render after a settled request the ref still says loading,
   * so a second request for the name in that window is suppressed.
   */
  method StaleRefSuppresses(name: string, message: string) returns (secondRequested: bool, shown: ArtistState)
    ensures !secondRequested
    ensures shown == ArtistState(Error, None, Some(message))
  {
    var panel := new ArtistPanel(map[]);
    var first := panel.FetchArtistInfo(name, InfoThrown(message));
    secondRequested := panel.FetchArtistInfo(name, InfoThrown("again"));
    shown := panel.artistCache[name];
  }
}
