/**
 * The client's now-playing poll step and the device-transfer call. Each
 * fetch is replaced by the reply it gets.
 */
module UseSpotify {
  import opened Wrappers
  import opened Strings
  import opened Http
  import opened SpotifyTypes

  /** A reply body as `res.json()` reads it. */
  datatype Json = Parsed(value: Option<Playback>) | Unparsable

  /** What the currently-playing request yields. */
  datatype PlayerReply =
    | Replied(status: nat, body: Json)
    | FetchFailed(message: string)

  /**
   * The 204 updater: nothing is playing any more. A playing state keeps its
   * track and progress and only stops playing; a null or paused state stays.
   */
  function AfterNothingPlaying(prev: Option<Playback>): (r: Option<Playback>)
    ensures r.Some? <==> prev.Some?
    ensures r.Some? ==> !r.value.isPlaying && r.value.(isPlaying := prev.value.isPlaying) == prev.value
  {
    if prev.Some? && prev.value.isPlaying then Some(prev.value.(isPlaying := false)) else prev
  }

  /** A second 204 in a row changes nothing more. */
  lemma AfterNothingPlayingIdempotent(prev: Option<Playback>)
    ensures AfterNothingPlaying(AfterNothingPlaying(prev)) == AfterNothingPlaying(prev)
  {
  }

  /** The now-playing atom. */
  class NowPlayingStore {
    var nowPlaying: Option<Playback>

    constructor ()
      ensures nowPlaying == None
    {
      nowPlaying := None;
    }

    /**
     * fetchNowPlaying: a 204 applies AfterNothingPlaying; another ok status
     * with a readable body replaces the state wholesale; a non-ok status, an
     * unreadable body or a failed fetch is swallowed and changes nothing.
     */
    method FetchNowPlaying(reply: PlayerReply)
      modifies this
      ensures reply.Replied? && reply.status == 204 ==>
        nowPlaying == AfterNothingPlaying(old(nowPlaying))
      ensures reply.Replied? && reply.status != 204 && IsOk(reply.status) && reply.body.Parsed? ==>
        nowPlaying == reply.body.value
      ensures reply.Replied? && reply.status != 204 && (!IsOk(reply.status) || reply.body.Unparsable?) ==>
        nowPlaying == old(nowPlaying)
      ensures reply.FetchFailed? ==> nowPlaying == old(nowPlaying)
    {
      match reply
      case FetchFailed(_) =>
      case Replied(status, body) =>
        if status == 204 {
          nowPlaying := AfterNothingPlaying(nowPlaying);
        } else if IsOk(status) && body.Parsed? {
          nowPlaying := body.value;
        }
    }
  }

  /** What the transfer request yields. */
  datatype TransferReply =
    | TransferReplied(status: nat, bodyText: string)
    | TransferUnreachable(message: string)

  /**
   * transferToDevice: returns normally exactly when the reply is ok; a
   * non-ok reply throws a message naming the status and the body.
   */
  function TransferToDevice(reply: TransferReply): (r: Result<(), string>)
    ensures r.Success? <==> reply.TransferReplied? && IsOk(reply.status)
    ensures reply.TransferReplied? && !IsOk(reply.status) ==>
      r.error == "Transfer failed: " + Decimal(reply.status) + " " + reply.bodyText
    ensures reply.TransferUnreachable? ==> r == Failure(reply.message)
  {
    match reply
    case TransferUnreachable(message) => Failure(message)
    case TransferReplied(status, bodyText) =>
      if IsOk(status) then Success(())
      else Failure("Transfer failed: " + Decimal(status) + " " + bodyText)
  }
}
