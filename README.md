# Artist info: cache, token rule and client state, modelled in Dafny

This project models the sequential logic of a small "now playing" web app.

- **Server (`backend/src/server.ts`).** The `artist_info_cache` table is a map from exact-case artist name to a row: summary text, `created_at` and `updated_at`.
  - The case-insensitive lookup and the exact-key upsert are methods of the class `ArtistInfoStore`. Both fail open.
  - `HandleArtistInfo` models the `/api/artist-info` handler. It returns the JSON answer and a trace of the calls it made: the cache read (with what it found), the summarizer call (with its prompt) and the cache write.
  - The in-memory Spotify access token and its one-minute freshness margin are the class `TokenState`.
- **Client (`frontend/src`).**
  - The per-artist fetch state machine over the artist map, with the ref that the fetch guard reads, is the class `ArtistPanel`.
  - `OnNowPlaying` is the effect that triggers a fetch. `ArtistBlock` is the choice of what the info block shows.
  - The now-playing poll step is `NowPlayingStore.FetchNowPlaying`, with the pure 204 updater `AfterNothingPlaying`.
  - `TransferToDevice` is the device-transfer call.

The network, the database, the summarizer and the clock are parameters:

- every request is replaced by the reply it receives;
- `lookupFails`/`writeFails` say whether a storage call errors;
- a `Summary` says what the summarizer yields: `Text(s)`, `NoText` or `Fail`;
- clock readings are integers.

Files: `wrappers.dfy`, `strings.dfy`, `http.dfy`, `artist_info_cache.dfy`, `spotify_token.dfy`, `spotify_types.dfy`, `use_spotify.dfy`, `now_playing_panel.dfy`.

## Where the code departs from its evident intent (the model follows the code)

- **Case-insensitive keys.** The lookup compares `LOWER(artist_name) = LOWER($1)` (`backend/src/server.ts:155`). The upsert's conflict target, however, is the exact-case primary key (`backend/src/server.ts:173`, `backend/src/init-db.ts:13`). The store does not keep case variants apart on its own (`UpsertKeepsCaseVariants`).
  - The handler keeps "at most one row per lower-cased name, every text non-empty" only because it writes after a case-insensitive miss and only truthy text.
  - A failed (fail-open) read followed by a successful write breaks that invariant. `HandleArtistInfo` therefore promises the invariant for requests whose read succeeds, and `FailedReadAddsCaseVariant` shows the failing case.
- **Empty summaries.** The handler writes only when `result.text` is truthy and answers `{...result, cached: false}` (`backend/src/server.ts:202-206`). An empty summary is therefore answered as `{text: "", cached: false}` and not stored. Only a summarizer result with no text at all leaves `text` undefined.
- **Empty stored text.** A stored empty text counts as a miss, because the hit test is JavaScript truthiness (`backend/src/server.ts:190`).

## Model

Plain definitions that take no row of their own, because the rows of the members built on them state what they mean:
- `Wrappers.Truthy`: JavaScript truthiness of an optional string (`backend/src/server.ts:184`, `190`, `202`; `frontend/src/NowPlaying.tsx:59`).
- `Http.IsOk`: `res.ok`, the 2xx statuses.
- `ArtistInfoCache.Prompt`: the prompt of `backend/src/server.ts:198`.
- `ArtistInfoCache.SummaryText` and `ArtistInfoCache.Cacheable`: the forwarded `text` and the write test of `backend/src/server.ts:202-206`.
- `SpotifyToken.NeedsRefresh`: the freshness test of `backend/src/server.ts:65`.
- `NowPlayingPanel.FetchSuppressed`: the guard of `frontend/src/NowPlaying.tsx:15-18`.

| member | source | states |
|---|---|---|
| `Strings.Lower` | backend/src/server.ts:155 | lower-casing keeps the length of the name |
| `Strings.LowerAt` | backend/src/server.ts:155 | each character is lower-cased in place, so no upper-case letter is left |
| `Strings.LowerIdempotent` | backend/src/server.ts:155 | lower-casing a lower-cased name changes nothing |
| `Strings.LowerIgnoresCase` | backend/src/server.ts:155 | names that differ only in letter case lower-case to the same string |
| `Strings.Decimal` | frontend/src/NowPlaying.tsx:41 | a status renders as one or more decimal digits that stand for the status, with a leading zero only for 0 |
| `ArtistInfoCache.Cached` | backend/src/server.ts:154-158 | a text is found exactly when some stored name matches case-insensitively, and it is that row's text |
| `ArtistInfoCache.Upserted` | backend/src/server.ts:170-176 | the upsert adds or overwrites only the exact name: text and updated_at are set, created_at is kept on overwrite and set on insert, other rows are untouched |
| `ArtistInfoCache.PromptDeterminesName` | backend/src/server.ts:197-199 | equal prompts come from equal names, so each spelling of an artist is summarized under its own prompt |
| `ArtistInfoCache.ArtistInfoStore.constructor` | backend/src/init-db.ts:11-18 | the table starts with the given rows |
| `ArtistInfoCache.ArtistInfoStore.Lookup` | backend/src/server.ts:150-163 | a storage failure returns null; otherwise a text is returned iff a row matches case-insensitively, and it is a matching row's text (unique on a case-unique table) |
| `ArtistInfoCache.ArtistInfoStore.Upsert` | backend/src/server.ts:165-180 | on success the table becomes the upsert of the exact name; on a storage failure it is unchanged and nothing is raised |
| `ArtistInfoCache.HandleArtistInfo` | backend/src/server.ts:182-211 | missing or empty name: 400 with no read, call or write. Hit: cached text with `cached: true`, no summarizer call, no write. Miss: one summarizer call with the prompt for the name. A failure gives a 500 with no write; otherwise the answer has `cached: false`, and the exact name is written iff the text is non-empty. Requests whose read succeeds keep the table case-unique with non-empty texts |
| `ArtistInfoCache.WriteAfterMissKeepsInvariant` | backend/src/server.ts:189-204 | a non-empty write after a case-insensitive miss keeps the table case-unique with non-empty texts |
| `ArtistInfoCache.LookupAfterUpsert` | backend/src/server.ts:150-180 | on a case-unique table, when the upserted name is stored exactly as spelled or not at all, the table stays case-unique and every spelling of the name that differs only in case finds the new text (last write wins) |
| `ArtistInfoCache.UpsertKeepsCaseVariants` | backend/src/server.ts:171-174 | upserting "low" beside "Low" leaves two rows that one lookup matches: the store alone does not enforce case-insensitive uniqueness |
| `ArtistInfoCache.CaseInsensitiveHitScenario` | backend/src/server.ts:182-211 | "Radiohead" then "radiohead" on an empty table: a miss answered with the summary, then a hit with the same text and no summarizer call |
| `ArtistInfoCache.FailedReadAddsCaseVariant` | backend/src/server.ts:153-204 | a failed read with "Low" stored makes a request for "low" regenerate and store a second, case-variant row |
| `SpotifyToken.TokenState.constructor` | backend/src/server.ts:21-22 | no token and expiry 0 at start-up |
| `SpotifyToken.TokenState.RefreshAccessToken` | backend/src/server.ts:33-61 | a grant stores the token and sets the expiry to the reply time plus expires_in seconds; a refusal throws "Failed to refresh token: " plus the body and changes neither variable |
| `SpotifyToken.TokenState.GetAccessToken` | backend/src/server.ts:64-70 | a non-empty token checked more than one minute before expiry is returned unchanged with no refresh; otherwise the result (including the refresh's own error) and the new state are those of the refresh |
| `SpotifyToken.RefreshStaysDue` | backend/src/server.ts:65 | once a refresh is due it stays due as the clock moves on; only a refresh makes the token usable again |
| `SpotifyToken.GrantedTokenReusedUntilMargin` | backend/src/server.ts:57-65 | a granted non-empty token passes the freshness test exactly until one minute before its expiry |
| `SpotifyToken.ShortGrantAlwaysRefreshed` | backend/src/server.ts:57-65 | a grant of 60 seconds or less fails the freshness test from the moment it is stored |
| `SpotifyToken.EmptyTokenAlwaysRefreshed` | backend/src/server.ts:65 | an empty token is refreshed whatever its expiry |
| `SpotifyToken.SecondRequestReusesToken` | backend/src/server.ts:57-70 | from no token, a first request refreshes, and a second inside the window gets the same token even though the endpoint would now refuse |
| `SpotifyTypes.FirstArtistName` | frontend/src/NowPlaying.tsx:58 | the first artist's name exists exactly when there is a state, an item and at least one artist |
| `UseSpotify.AfterNothingPlaying` | frontend/src/useSpotify.tsx:25-30 | after a 204 a present state stops playing and keeps every other field; a null state stays null |
| `UseSpotify.AfterNothingPlayingIdempotent` | frontend/src/useSpotify.tsx:23-30 | a second 204 changes nothing more |
| `UseSpotify.NowPlayingStore.constructor` | frontend/src/Spotify/SpotifyAtoms.tsx:8 | the now-playing state starts null |
| `UseSpotify.NowPlayingStore.FetchNowPlaying` | frontend/src/useSpotify.tsx:20-39 | a 204 applies the updater; another ok status with a readable body replaces the state wholesale; a non-ok status, an unreadable body or a thrown fetch leave it unchanged |
| `UseSpotify.TransferToDevice` | frontend/src/useSpotify.tsx:5-15 | returns normally iff the reply is ok; otherwise throws "Transfer failed: ", the status and the body, or the fetch's own error |
| `NowPlayingPanel.SuppressedExactlyWhileLoadingOrLoaded` | frontend/src/NowPlaying.tsx:15-53 | a name marked loading is suppressed; a settled name is suppressed exactly when its request succeeded, so an error is retried |
| `NowPlayingPanel.FetchedNameIsRenderedKey` | frontend/src/NowPlaying.tsx:57-88 | the name the trigger fetches is the key the render reads; with no truthy name the render reads the empty key |
| `NowPlayingPanel.Settled` | frontend/src/NowPlaying.tsx:40-53 | an ok reply settles as loaded with the body's text; a non-ok status as an error "HTTP " plus the status; a thrown error as an error with its message |
| `NowPlayingPanel.ArtistBlock` | frontend/src/NowPlaying.tsx:75-88 | the block is "Loading...", the text or the error message exactly when the current artist's entry is loading, loaded or in error, and nothing otherwise |
| `NowPlayingPanel.BlockDependsOnlyOnCurrentEntry` | frontend/src/NowPlaying.tsx:75-88 | two maps that agree on the current artist's entry render the same block |
| `NowPlayingPanel.NoArtistShowsNothing` | frontend/src/NowPlaying.tsx:57-88 | with no first artist, a map the panel built shows nothing |
| `NowPlayingPanel.ArtistPanel.constructor` | frontend/src/NowPlaying.tsx:8-9 | the atom and the ref start from the persisted map |
| `NowPlayingPanel.ArtistPanel.SyncRef` | frontend/src/NowPlaying.tsx:10-12 | the render effect copies the atom into the ref |
| `NowPlayingPanel.ArtistPanel.BeginFetch` | frontend/src/NowPlaying.tsx:15-27 | suppressed with nothing changed iff the ref has the name loading or loaded; otherwise only that key becomes loading and the ref is the new map |
| `NowPlayingPanel.ArtistPanel.CompleteFetch` | frontend/src/NowPlaying.tsx:29-53 | only the name's key is replaced, by the settled entry; the ref is untouched |
| `NowPlayingPanel.ArtistPanel.FetchArtistInfo` | frontend/src/NowPlaying.tsx:14-55 | suppressed with nothing changed, or that one key is settled by the reply while the ref holds the loading map |
| `NowPlayingPanel.ArtistPanel.OnNowPlaying` | frontend/src/NowPlaying.tsx:57-62 | a fetch is made only for a present, non-empty first artist name; the panel's map invariant is kept (coherent entries, no empty key) |
| `NowPlayingPanel.RetryAfterError` | frontend/src/NowPlaying.tsx:14-55 | the error state is not terminal: after a render, a new request for the name goes out and can load the text |
| `NowPlayingPanel.LoadedSuppressesExactNameOnly` | frontend/src/NowPlaying.tsx:14-48 | loaded suppresses the exact name only; a spelling that differs in case is fetched again |
| `NowPlayingPanel.StaleRefSuppresses` | frontend/src/NowPlaying.tsx:10-27 | until the next render the ref still says loading, so a second request in that window is suppressed |

## Left out

- HandleArtistInfo: the case-unique, non-empty-text invariant is promised only for requests whose cache read succeeds, because the code writes after a failed read too (see `FailedReadAddsCaseVariant`).
- Postgres `LOWER` lower-cases by locale and Unicode; the model lower-cases ASCII `A`-`Z` only.
- SQL parsing, and which row `rows[0]` is when several rows match. The model returns some matching row.
- Concurrency: concurrent misses racing on the server, interleaved `setArtistCache` updates, and the `setInterval` polling loop (`frontend/src/useSpotify.tsx:41-47`). Every step is sequential. The two halves of `fetchArtistInfo` are separate methods, so an update between them can be modelled.
- The HTTP calls to Spotify and the token endpoint, the Express/CORS/static-file setup and the currently-playing proxy route. Each fetch is replaced by its reply.
- The Gemini client internals. The summarizer is an outcome: text, no text, or failure.
- `backend/src/init-db.ts` is not part of this model beyond its schema facts: an exact-case primary key and `NOT NULL` text.
- The Jotai atoms, localStorage persistence and `App.tsx`. The persisted map is the panel constructor's argument.
- React rendering beyond the choice of the info block.
- `Date.now()` is replaced by integer clock readings. `expires_in` is an integer here, where JavaScript allows a fraction.
- A token reply without `expires_in`. In JavaScript this makes `tokenExpiry` NaN (`backend/src/server.ts:58`). The test at `backend/src/server.ts:65` is then always false, so the token is never refreshed again. The model's `expiresIn` is always an integer and cannot express this.
- A token reply whose JSON has no `access_token`. The code then stores `undefined` as the token and still sets the expiry (`backend/src/server.ts:57-58`), so every later request refreshes. `Granted` always carries a string and cannot express this.
- Logging: the `console.log`/`console.error` calls (`backend/src/server.ts:160`, `178`, `191`, `195`, `208`; `frontend/src/useSpotify.tsx:37`) have no effect on state or results and are not modelled.
- A request body whose `artistName` is not a string.
