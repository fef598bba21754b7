/**
 * `main`: check the three credentials, obtain an access token, look up the
 * current track and fall back to the recent one, render the badge and write
 * it to `assets/spotify-widget.svg`.
 *
 * The network is replaced by its answers, given as inputs (the token reply,
 * the currently-playing reply, the recently-played reply); what the run does
 * to the outside world is returned instead of performed: the requests it
 * sends, in order, and the file it writes, if any.
 */
module Widget {
  import opened Wrappers
  import opened Tracks
  import Badge

  /** `SPOTIFY_CLIENT_ID`, `SPOTIFY_CLIENT_SECRET`, `SPOTIFY_REFRESH_TOKEN`; `None` when unset. */
  datatype Env = Env(clientId: Option<string>, clientSecret: Option<string>, refreshToken: Option<string>)

  /** JavaScript truthiness of a possibly undefined string: defined and not empty. */
  predicate Truthy(v: Option<string>)
  {
    v.Some? && v.value != ""
  }

  /** The guard `CLIENT_ID && CLIENT_SECRET && REFRESH_TOKEN`. */
  predicate ConfigPresent(env: Env)
  {
    Truthy(env.clientId) && Truthy(env.clientSecret) && Truthy(env.refreshToken)
  }

  /**
   * Outcome of the token POST. `TokenFailed` is every error `getAccessToken`
   * catches (it then returns null); a received body may lack `access_token`.
   */
  datatype TokenReply = TokenFailed | TokenReceived(accessToken: Option<string>)

  /** `getAccessToken()`. */
  function AccessTokenOf(reply: TokenReply): (r: Option<string>)
    ensures r.Some? <==> reply.TokenReceived? && reply.accessToken.Some?
    ensures r.Some? ==> r == reply.accessToken
  {
    match reply
    case TokenFailed => None
    case TokenReceived(token) => token
  }

  const TokenUrl: string := "https://accounts.spotify.com/api/token"
  const ProfileUrl: string := "https://api.spotify.com/v1/me"
  const NowPlayingUrl: string := "https://api.spotify.com/v1/me/player/currently-playing"
  const RecentUrl: string := "https://api.spotify.com/v1/me/player/recently-played?limit=1"
  const WidgetPath: string := "assets/spotify-widget.svg"

  /** A request the run sends: the form-encoded token POST, or an authorised API GET. */
  datatype Request =
    | TokenExchange(url: string, form: string)
    | ApiGet(url: string, authorization: string)

  datatype FileWrite = FileWrite(path: string, contents: string)

  /** What a run does: the requests it sends, in order, and the file it writes. */
  datatype RunResult = RunResult(requests: seq<Request>, written: Option<FileWrite>)

  function TokenRequest(refreshToken: string): Request
  {
    TokenExchange(TokenUrl, "grant_type=refresh_token&refresh_token=" + refreshToken)
  }

  function Bearer(accessToken: string): string
  {
    "Bearer " + accessToken
  }

  /** Both gates of `main` pass: the credentials are set and a token was obtained. */
  predicate Proceeds(env: Env, token: TokenReply)
  {
    ConfigPresent(env) && Truthy(AccessTokenOf(token))
  }

  /** The requests `main` sends, in order, given the configuration, the token reply and the now-playing reply. */
  function Requests(env: Env, token: TokenReply, now: NowPlayingReply): seq<Request>
  {
    if !ConfigPresent(env) then []
    else
      var exchange := [TokenRequest(env.refreshToken.value)];
      var accessToken := AccessTokenOf(token);
      if !Truthy(accessToken) then exchange
      else
        var auth := Bearer(accessToken.value);
        var fallback := if CurrentTrackOf(now).None? then [ApiGet(RecentUrl, auth)] else [];
        exchange + [ApiGet(ProfileUrl, auth), ApiGet(NowPlayingUrl, auth)] + fallback
  }

  /** What `main` does, as a function of the configuration and the replies it gets. */
  function Plan(env: Env, token: TokenReply, now: NowPlayingReply, recent: RecentReply): (r: RunResult)
    ensures !ConfigPresent(env) ==> r == RunResult([], None)
    ensures ConfigPresent(env) && !Truthy(AccessTokenOf(token)) ==>
      r == RunResult([TokenRequest(env.refreshToken.value)], None)
    ensures r.requests == Requests(env, token, now)
    ensures r.written.Some? <==> Proceeds(env, token)
    ensures r.written.Some? ==> r.written.value == FileWrite(WidgetPath, Badge.Render(Resolve(now, recent)))
  {
    var written := if Proceeds(env, token) then Some(FileWrite(WidgetPath, Badge.Render(Resolve(now, recent)))) else None;
    RunResult(Requests(env, token, now), written)
  }

  /** `main`, step by step: early returns at the two gates, then `let track` and its reassignment. */
  method Run(env: Env, token: TokenReply, now: NowPlayingReply, recent: RecentReply)
    returns (requests: seq<Request>, written: Option<FileWrite>)
    ensures RunResult(requests, written) == Plan(env, token, now, recent)
  {
    requests, written := [], None;
    if !ConfigPresent(env) {
      return;
    }
    requests := requests + [TokenRequest(env.refreshToken.value)];
    var accessToken := AccessTokenOf(token);
    if !Truthy(accessToken) {
      return;
    }
    var auth := Bearer(accessToken.value);
    requests := requests + [ApiGet(ProfileUrl, auth)];
    requests := requests + [ApiGet(NowPlayingUrl, auth)];
    var track := CurrentTrackOf(now);
    if track.None? {
      requests := requests + [ApiGet(RecentUrl, auth)];
      track := RecentTrackOf(recent);
    }
    assert track == Resolve(now, recent);
    assert requests == Requests(env, token, now);
    var svg := Badge.Render(track);
    written := Some(FileWrite(WidgetPath, svg));
  }

  /** A run stopped at either gate sends no API request and writes no file. */
  lemma GatesStopTheRun(env: Env, token: TokenReply, now: NowPlayingReply, recent: RecentReply)
    requires !Proceeds(env, token)
    ensures forall q :: q in Plan(env, token, now, recent).requests ==> q.TokenExchange?
    ensures Plan(env, token, now, recent).written.None?
  {
  }

  /**
   * Once both gates pass, the run sends the token request, then the profile and
   * currently-playing lookups, and the recently-played lookup exactly once when
   * there is no current track and never otherwise; every lookup carries the
   * access token.
   */
  lemma LookupsOfAProceedingRun(env: Env, token: TokenReply, now: NowPlayingReply)
    requires Proceeds(env, token)
    ensures var requests := Requests(env, token, now);
      var auth := Bearer(AccessTokenOf(token).value);
      && |requests| >= 3
      && requests[..3] == [TokenRequest(env.refreshToken.value), ApiGet(ProfileUrl, auth), ApiGet(NowPlayingUrl, auth)]
      && multiset(requests)[ApiGet(RecentUrl, auth)] == (if CurrentTrackOf(now).None? then 1 else 0)
      && (forall q :: q in requests && q.ApiGet? ==> q.authorization == auth)
  {
    var requests := Requests(env, token, now);
    var auth := Bearer(AccessTokenOf(token).value);
    var head := [TokenRequest(env.refreshToken.value), ApiGet(ProfileUrl, auth), ApiGet(NowPlayingUrl, auth)];
    var fallback := if CurrentTrackOf(now).None? then [ApiGet(RecentUrl, auth)] else [];
    assert requests == head + fallback;
    assert requests[..3] == head;
    UrlsDiffer();
    assert multiset(requests) == multiset(head) + multiset(fallback);
    assert multiset(head)[ApiGet(RecentUrl, auth)] == 0;
  }

  lemma UrlsDiffer()
    ensures ProfileUrl != RecentUrl && NowPlayingUrl != RecentUrl
  {
    assert |ProfileUrl| < |NowPlayingUrl| < |RecentUrl|;
  }

  /** When something is playing, its track is the one rendered and the fallback is never consulted. */
  lemma CurrentTrackWins(env: Env, token: TokenReply, now: NowPlayingReply, recent: RecentReply, other: RecentReply)
    requires Proceeds(env, token) && CurrentTrackOf(now).Some?
    ensures Plan(env, token, now, recent).written == Some(FileWrite(WidgetPath, Badge.Render(CurrentTrackOf(now))))
    ensures Plan(env, token, now, recent) == Plan(env, token, now, other)
  {
  }

  /** With nothing playing and no history, the placeholder badge is still written. */
  lemma NothingFoundWritesPlaceholder(env: Env, token: TokenReply, now: NowPlayingReply, recent: RecentReply)
    requires Proceeds(env, token) && CurrentTrackOf(now).None? && RecentTrackOf(recent).None?
    ensures Plan(env, token, now, recent).written == Some(FileWrite(WidgetPath, Badge.Placeholder))
  {
  }
}
