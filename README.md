# Spotify now-playing badge, modelled in Dafny

The script `scripts/spotify.js` refreshes a Spotify access token, asks the
Spotify Web API what the user is playing (falling back to the most recently
played track), renders the result as a 400 x 120 SVG badge, and writes it to
`assets/spotify-widget.svg`. This project models the decision logic and the
rendering of that script, with the network replaced by the replies it would
receive:

- `text.dfy` (module `Text`): the `truncate` helper of `generateSVG`, and
  the prefix / suffix / occurrence predicates the badge properties use.
- `tracks.dfy` (module `Tracks`): the `Track` value, the currently-playing
  and recently-played replies as datatypes, and the normalisation done by
  `getCurrentTrack` and `getRecentTrack`, including their `catch`
  branches. `Resolve` is the "current, else recent" choice of `main`.
- `badge.dfy` (module `Badge`): `generateSVG` as `Render`. The template is
  rebuilt character for character from its fixed pieces and the interpolated
  values (`PartsIn`), with `STYLE_CONFIG` as one constant `Style`. The long
  fixed runs of the template are gathered in a `Frame` value; the badge
  properties are proved for any frame and then applied to the script's
  own (`ScriptFrame`).
- `widget.dfy` (module `Widget`): `main`. `Run` is a method with the
  source's early returns and its reassignment of `track`. `Plan` is the
  function that specifies it, and `Requests` is the request part of `Plan`.
  A run returns the requests it sends, in order, and the file it writes, if
  any.
- `wrappers.dfy`: the `Option` type that stands for `null` / `undefined`.

Behaviour of the code worth knowing:

- Track text is interpolated into the markup without escaping.
  `NameMarkupIsNotEscaped` shows the consequence: a track that is not
  playing can still put `<circle` into the document through its name.
- The cover-art area is always the fixed grey placeholder, and `image` and
  `url` are never read (`CoverAndLinkUnused`).
- When no token is obtained, `main` returns normally. The model records that
  no lookup is sent and no file is written; the exit status is not modelled.

Other modelling decisions:

- "Missing" follows JavaScript truthiness. An environment value or an
  access token that is unset or empty stops the run (`Truthy`).
- `item.artists[0].name` throws on an empty artist list. The surrounding
  `catch` returns null, so such an item gives no track (`TrackOfItem`).
- The HTTP client raises an error for a network failure and for any non-2xx
  status. Both are the `NowPlayingFailed` / `RecentFailed` / `TokenFailed`
  replies; a received reply carries a 2xx status (`Success`).

## Model

| member | source | states |
|---|---|---|
| `Text.Truncate` | scripts/spotify.js:186 | a string of at most `limit` characters is returned unchanged; a longer one becomes exactly `limit + 3` characters: its first `limit` characters, then `"..."` |
| `Text.TruncateFixedPoint` | scripts/spotify.js:186 | truncation leaves a string unchanged exactly when it is within the limit or its tail after the limit already is `"..."` |
| `Text.TruncateAgreement` | scripts/spotify.js:186 | two strings truncate to the same text exactly when they are equal, or both exceed the limit and share their first `limit` characters |
| `Tracks.TrackOfItem` | scripts/spotify.js:75-82 | the track takes the item's name, first artist, album name, link and the given playing flag; the image is the first cover URL, absent when there is none; an item without artists gives no track |
| `Tracks.CurrentTrackOf` | scripts/spotify.js:63-94 | a failed request, a 204 reply, or a body without `item` give no track; otherwise the track is built from `item` and its `isPlaying` equals the reply's `is_playing` |
| `Tracks.RecentTrackOf` | scripts/spotify.js:109-134 | a track exists exactly when the reply holds a non-empty `items` list whose first entry has an artist; it is built from that first entry and is never playing; an empty list gives no track |
| `Tracks.Resolve` | scripts/spotify.js:252-258 | the current track whenever there is one, otherwise the recent one |
| `Tracks.PlayingOnlyFromNowPlaying` | scripts/spotify.js:252-258 | the resolved track is playing exactly when it came from the currently-playing reply and that reply's `is_playing` was true |
| `Tracks.NothingToShow` | scripts/spotify.js:63-67 | a 204 now-playing reply and an empty history resolve to no track |
| `Badge.Render` | scripts/spotify.js:164-225 | no contract of its own: the `Badge` lemmas below state its properties |
| `Badge.StatusColorFollowsPlaying` | scripts/spotify.js:189-199 | the `.status` rule is filled with `#1db954` exactly when the track is playing, and with `#888888` exactly when it is not |
| `Badge.NowPlayingLabelIffPlaying` | scripts/spotify.js:188-212 | at the status element's fixed offset, the document holds "🎵 Now Playing" exactly when the track is playing |
| `Badge.RecentlyPlayedLabelIffPaused` | scripts/spotify.js:188-212 | at the same offset, the document holds "🎵 Recently Played" exactly when the track is not playing |
| `Badge.PulseIffPlaying` | scripts/spotify.js:218-224 | the document ends with the pulsing `<circle>` and its `<animate>` child, right before `</svg>`, exactly when the track is playing |
| `Badge.TitleShowsName` | scripts/spotify.js:213 | the title element holds the name as is when it has at most 25 characters, else its first 25 characters followed by `"..."` |
| `Badge.ArtistLine` | scripts/spotify.js:214 | the artist element, at its offset right after the title line, holds `"by "` and the artist as is when it has at most 25 characters, else `"by "`, its first 25 characters and `"..."` |
| `Badge.AlbumLine` | scripts/spotify.js:215 | the album element, at its offset right after the artist line, holds the album as is when it has at most 30 characters, else its first 30 characters followed by `"..."` |
| `Badge.CoverAndLinkUnused` | scripts/spotify.js:207-209 | changing a track's image URL or link does not change its badge: the cover area is the fixed placeholder |
| `Badge.PlaceholderBadge` | scripts/spotify.js:169-178 | with no track the badge is the fixed placeholder; it contains "Not playing anything", does not open with the style sheet that carries the status colour, and does not end with the pulsing dot |
| `Badge.PlaceholderIsNoTrackBadge` | scripts/spotify.js:169-192 | the placeholder differs from the badge of every track |
| `Badge.NameMarkupIsNotEscaped` | scripts/spotify.js:213 | a track that is not playing, named `<circle r="4"/>`, yields a document containing `<circle` without ending in the pulsing dot: text is not escaped |
| `Badge.PlayingTrackExample` | scripts/spotify.js:191-224 | a playing track "Song A" by "Artist B" shows the accent colour, "Now Playing", the title "Song A", the line "by Artist B" and the pulsing dot |
| `Widget.Truthy` | scripts/spotify.js:233 | no contract of its own: JavaScript truthiness of an optional string, defined and not empty; `Widget.Plan` and `Widget.GatesStopTheRun` state its effect |
| `Widget.ConfigPresent` | scripts/spotify.js:233 | no contract of its own: the three credentials are all truthy; `Widget.Plan` and `Widget.GatesStopTheRun` state its effect |
| `Widget.AccessTokenOf` | scripts/spotify.js:41-47 | a failed request or a body without `access_token` gives no token; otherwise the token is the body's `access_token` |
| `Widget.Plan` | scripts/spotify.js:228-285 | with a credential missing nothing is sent and nothing is written; with no usable token only the token request is sent and nothing is written; a file is written exactly when both gates pass, and it is the badge of the resolved track at `assets/spotify-widget.svg` |
| `Widget.Run` | scripts/spotify.js:228-285 | the step-by-step run (early returns, `track` reassigned to the recent track when there is no current one) sends exactly the requests and writes exactly the file that `Plan` describes |
| `Widget.GatesStopTheRun` | scripts/spotify.js:233-245 | a run stopped at either gate sends no API lookup (at most the token request) and writes no file |
| `Widget.LookupsOfAProceedingRun` | scripts/spotify.js:241-258 | the request trace (`Requests`, the one `Plan` returns): a run that passes both gates sends the token request, the profile lookup and the currently-playing lookup, in that order; it sends the recently-played lookup exactly once when there is no current track and never otherwise; every lookup carries `Bearer <token>` |
| `Widget.CurrentTrackWins` | scripts/spotify.js:252-258 | when a current track exists, its badge is written, and the recently-played reply has no influence on the run |
| `Widget.NothingFoundWritesPlaceholder` | scripts/spotify.js:255-280 | with no current and no recent track, the placeholder badge is still written |

## Left out

- The HTTP exchanges themselves (the token POST, the three GETs) are not modelled. Their replies are inputs, and the requests appear in the run's result as values.
- The `Basic` authorization header of the token request is not modelled. It is built with a base64 encoding done by a library call. The form body of that request is modelled.
- The profile lookup (`getUserProfile`) is modelled only as a request in the run's trace, because `main` discards its result.
- `fs.ensureDir` is not modelled. `fs.writeFile` is modelled as the returned `FileWrite`.
- Console output and timestamps are not modelled. They are diagnostic only and do not affect control flow.
- The asynchronous sequencing and the top-level `.catch` of `main` are not modelled. The steps are taken in order, and no step of the modelled core throws past its own `catch`.
- Lengths count Unicode scalar values, while JavaScript's `length`/`substring` count UTF-16 code units. The two differ for text with characters outside the Basic Multilingual Plane, such as emoji in a track name.
- JSON fields with unexpected types (a non-string name, a non-boolean `is_playing`) are not modelled. Fields have the types the API documents.
- Badge.PulseIffPlaying: presence of the dot is stated as "the document ends with it". It is not stated as "no `<circle` anywhere when not playing", because unescaped track text can contain that markup (see `NameMarkupIsNotEscaped`).
- Badge.PlaceholderBadge: "no status line and no dot" is stated through the placeholder's opening and ending. It is not stated as the absence of those substrings anywhere in the text.
