/**
 * The Track value and its two sources: the "currently playing" and the
 * "recently played" replies of the Spotify Web API, given here as values
 * (the HTTP requests themselves are not modelled). Each normaliser mirrors the
 * branches of `getCurrentTrack` / `getRecentTrack`, including their `catch`,
 * which turns every thrown error into "no track".
 */
module Tracks {
  import opened Wrappers

  /** The normalised track the badge is rendered from. */
  datatype Track = Track(
    name: string,
    artist: string,
    album: string,
    image: Option<string>,
    url: string,
    isPlaying: bool)

  // The parts of an API track object the script reads.
  datatype Artist = Artist(name: string)
  datatype Image = Image(url: string)
  datatype Album = Album(name: string, images: seq<Image>)
  datatype Item = Item(name: string, artists: seq<Artist>, album: Album, spotifyUrl: string)

  /** Body of a currently-playing reply: `item` may be absent; `is_playing`. */
  datatype PlaybackState = PlaybackState(item: Option<Item>, isPlaying: bool)

  /** A status the HTTP client resolves with: 2xx. Any other status is a rejection. */
  type Success = s: int | 200 <= s < 300 witness 200

  /**
   * Outcome of the currently-playing GET. `NowPlayingFailed` stands for every
   * rejected request (network error, or a non-2xx status, which the HTTP
   * client raises as an error); `data` is `None` for an empty body.
   */
  datatype NowPlayingReply =
    | NowPlayingFailed
    | NowPlayingReceived(status: Success, data: Option<PlaybackState>)

  /** One play-history entry and a page of them. */
  datatype PlayHistory = PlayHistory(track: Item, playedAt: string)
  datatype HistoryPage = HistoryPage(items: Option<seq<PlayHistory>>)

  /** Outcome of the recently-played GET (`limit=1`). */
  datatype RecentReply =
    | RecentFailed
    | RecentReceived(status: Success, data: Option<HistoryPage>)

  /** The status code the API uses for "nothing is playing". */
  const NoContent: Success := 204

  /**
   * The Track object literal built from an API item: the first artist's name,
   * the first cover image's URL if any (`images[0]?.url`). Reading
   * `artists[0].name` of an empty artist list throws, and the enclosing
   * `catch` returns null, so that case gives no track.
   */
  function TrackOfItem(item: Item, playing: bool): (r: Option<Track>)
    ensures r.Some? <==> |item.artists| > 0
    ensures r.Some? ==> (
      && r.value.name == item.name && r.value.artist == item.artists[0].name
      && r.value.album == item.album.name && r.value.url == item.spotifyUrl
      && r.value.isPlaying == playing)
    ensures r.Some? ==> (r.value.image.Some? <==> |item.album.images| > 0)
    ensures r.Some? && r.value.image.Some? ==> r.value.image.value == item.album.images[0].url
  {
    if |item.artists| == 0 then None
    else
      var image := if |item.album.images| > 0 then Some(item.album.images[0].url) else None;
      Some(Track(item.name, item.artists[0].name, item.album.name, image, item.spotifyUrl, playing))
  }

  /** A non-204 currently-playing reply whose body holds an `item`. */
  predicate HasItem(reply: NowPlayingReply)
  {
    && reply.NowPlayingReceived?
    && reply.status != NoContent
    && reply.data.Some?
    && reply.data.value.item.Some?
  }

  /** A recently-played reply whose body holds a non-empty `items` list. */
  predicate HasHistory(reply: RecentReply)
  {
    && reply.RecentReceived?
    && reply.data.Some?
    && reply.data.value.items.Some?
    && |reply.data.value.items.value| > 0
  }

  /**
   * `getCurrentTrack`: a 204 reply, a body without `item`, or a failed request
   * give no track; otherwise the track carries the reply's `is_playing` flag.
   */
  function CurrentTrackOf(reply: NowPlayingReply): (r: Option<Track>)
    ensures reply.NowPlayingFailed? ==> r.None?
    ensures reply.NowPlayingReceived? && reply.status == NoContent ==> r.None?
    ensures reply.NowPlayingReceived? && (reply.data.None? || reply.data.value.item.None?) ==> r.None?
    ensures r.Some? ==> (
      && HasItem(reply)
      && r.value.isPlaying == reply.data.value.isPlaying
      && r == TrackOfItem(reply.data.value.item.value, reply.data.value.isPlaying))
    ensures HasItem(reply) && |reply.data.value.item.value.artists| > 0 ==> r.Some?
  {
    match reply
    case NowPlayingFailed => None
    case NowPlayingReceived(status, data) =>
      if status == NoContent then None
      else if data.Some? && data.value.item.Some? then
        TrackOfItem(data.value.item.value, data.value.isPlaying)
      else None
  }

  /**
   * `getRecentTrack`: the first history entry, if there is one, as a track
   * that is never playing. A missing body makes reading `items` throw, which
   * the `catch` turns into no track.
   */
  function RecentTrackOf(reply: RecentReply): (r: Option<Track>)
    ensures r.Some? ==> !r.value.isPlaying
    ensures reply.RecentFailed? ==> r.None?
    ensures reply.RecentReceived? && reply.data.Some? && reply.data.value.items == Some([]) ==> r.None?
    ensures r.Some? <==> HasHistory(reply) && |reply.data.value.items.value[0].track.artists| > 0
    ensures r.Some? ==> r == TrackOfItem(reply.data.value.items.value[0].track, false)
  {
    match reply
    case RecentFailed => None
    case RecentReceived(status, data) =>
      if data.None? then None
      else if data.value.items.Some? && |data.value.items.value| > 0 then
        TrackOfItem(data.value.items.value[0].track, false)
      else None
  }

  /**
   * The track `main` ends up with: the current one when there is one,
   * otherwise the recent one.
   */
  function Resolve(now: NowPlayingReply, recent: RecentReply): (r: Option<Track>)
    ensures CurrentTrackOf(now).Some? ==> r == CurrentTrackOf(now)
    ensures CurrentTrackOf(now).None? ==> r == RecentTrackOf(recent)
  {
    var current := CurrentTrackOf(now);
    if current.Some? then current else RecentTrackOf(recent)
  }

  /**
   * A resolved track is playing only when it came from the currently-playing
   * reply and that reply said playback is active.
   */
  lemma PlayingOnlyFromNowPlaying(now: NowPlayingReply, recent: RecentReply)
    ensures Resolve(now, recent).Some? && Resolve(now, recent).value.isPlaying
        <==> CurrentTrackOf(now).Some? && now.data.value.isPlaying
  {
  }

  /** With nothing playing and an empty history, there is no track at all. */
  lemma NothingToShow(now: NowPlayingReply, recent: RecentReply)
    requires now.NowPlayingReceived? && now.status == NoContent
    requires recent.RecentReceived? && recent.data == Some(HistoryPage(Some([])))
    ensures Resolve(now, recent).None?
  {
  }
}
