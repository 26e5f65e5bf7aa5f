# llmix core in Dafny

This project models the core of llmix, a shared music-listening service, and proves properties of the model. In llmix, the participants of a listening session request tracks from a music catalog (Spotify) and vote on them, and a language model (the "arbiter") is consulted on every request. The model covers six parts of the source:

- **Session engine** (`session_manager.dfy`, module `Sessions`).
  - A `SessionManager` maps session ids to `Session` objects.
  - Each session holds a queue of `QueueItem`s, and every item records its slot in `position`.
  - Covered: voting, appending a request, removal with renumbering, seeding a new session from a playlist, and resolving that playlist by name.
  - The central invariant: in every queue, each item's `position` equals its index (`Contiguous`).
- **Spotify provider** (`spotify_provider.dfy`, module `Spotify`). Its decision logic is modelled:
  - the mapping of catalog JSON to records;
  - the client-credentials token (section 4.4 of RFC 6749), when it is refreshed and what a refresh leaves behind;
  - the choice of request headers;
  - the guard on user operations;
  - the requests the playlist operations send: chunks of at most 100 URIs for "Add items to playlist", and the three-field payload of "Reorder playlist items" in the Spotify Web API.

  HTTP is modelled as a log of the requests sent. The statuses and bodies that come back are inputs.
- **OAuth2 callback listener** (`oauth2_server.dfy`, module `OAuth2`). This is the redirect side of the authorization-code grant (sections 4.1.2 and 4.1.3 of RFC 6749). It models:
  - the redirect URI;
  - the decision table of the callback handler;
  - the sequence of callbacks the listener serves until shutdown;
  - the authorization URL;
  - the verdict of `get_auth_tokens`.
- **User directory** (`user_manager.dfy`, module `Users`): a set of users whose usernames stay unique, with lookups by username and by id.
- **Function-call guard** (`llm_bridge.dfy`, module `LlmBridge`):
  - the fixed list of functions the language model may call;
  - the rewriting of a `username` argument into the resolved user;
  - the track summary handed back to the model.
- **Records** (`components.dfy`, module `Components`), plus the Python library behaviour the flow relies on (`text.dfy`, module `Strings`): `str` of an integer, `urllib.parse.quote` and `string.Template.substitute`. `wrappers.dfy` and `errors.dfy` hold the result types and the exceptions.

Behaviour of the code that a reader might not expect:

- **Playlist resolution picks the last match** (src/session/session_manager.py:127-133). Every listed playlist with the requested name overwrites the earlier choice, so the last one wins. The tracks of every playlist with that name are concatenated.
- **The arbiter's advice is discarded** (src/session/session_manager.py:101-119). The reply of `_evaluate_track_placement` is never read, and the request is always appended at the tail.
- **Voting outside the queue returns `false`** (src/session/session_manager.py:38-47). No error is raised.
- **A track request can raise `KeyError`** (src/session/session_manager.py:160-176), and then nothing is appended. This happens when the session's playlist has no `id`, or when the requester has no Spotify connection with an account `id`.
- **A refused token exchange answers 400 and keeps listening** (src/music/auth/oauth2_server.py:62-72). No failure is recorded, and `get_auth_tokens` waits with no time-out.

The model completes records where the callers rely on more than `components.py` declares:

- `User` carries `connections`, `email` and `hashed_password`. `create_user` (src/user/user_manager.py:86-95) passes no `display_name`, which `components.py` requires, so the model sets it to the empty string (`Users.Registered`).
- `Components.UserToken` is defined by the model. `spotify_provider.py` imports it from `components.py`, which does not declare it. Its fields are those the code reads or would have to store: the website, the access and refresh tokens, the expiry, and an `info` map holding the account information. The `info['id']` field comes from src/session/session_manager.py:165 and src/music/providers/spotify_provider.py:232.
- `Track` carries `uri`.
- `QueueItem` and `PlaybackState` are built with the defaults their callers assume.

## Model

| member | source | states |
|---|---|---|
| Components.PermissionValue | src/music/components.py:7-12 | each permission's `auto()` value lies between 1 and 5 |
| Components.AllPermissionsComplete | src/music/components.py:7-12 | the enumeration has exactly five members and every permission is one of them |
| Components.PermissionValuesDistinct | src/music/components.py:7-12 | two permissions have the same value exactly when they are the same member |
| Components.NewUser | src/music/components.py:14-23 | a user built from the declared fields is active and linked to no website |
| Components.NewTrack | src/music/components.py:33-45 | a track's optional fields default to no album, not explicit, no preview, external URL or popularity, and playable |
| Components.DefaultPlaybackState | src/music/components.py:60-67 | `PlaybackState()` is stopped at position 0 with repeat off and shuffle off |
| Components.NewQueueItem | src/music/components.py:69-76 | a new queue item has no voters yet and carries its track, requester and slot |
| Strings.NatToString | src/music/auth/oauth2_server.py:33 | the rendering of a number is a non-empty run of decimal digits with no leading zero |
| Strings.NatToStringRoundTrip | src/music/auth/oauth2_server.py:33 | reading the rendered digits back gives the number |
| Strings.NatToStringInjective | src/music/auth/oauth2_server.py:33 | distinct ports render to distinct strings |
| Strings.IntToString | src/music/auth/oauth2_server.py:33 | `str` of an integer: a minus sign before the digits of a negative number, otherwise the digits of `NatToString` |
| Strings.QuoteChar | src/music/auth/oauth2_server.py:105 | a safe character is copied; any other becomes a `%`-escape |
| Strings.Quote | src/music/auth/oauth2_server.py:105 | quoting never shortens a string |
| Strings.QuoteConcat | src/music/auth/oauth2_server.py:105 | quoting distributes over concatenation |
| Strings.QuoteIdentity | src/music/auth/oauth2_server.py:105 | quoting leaves a string unchanged exactly when all its characters are safe |
| Strings.QuoteOutputIsUrlSafe | src/music/auth/oauth2_server.py:105 | a quoted string holds only safe characters and `%` escapes |
| Strings.Substitute | src/music/auth/oauth2_server.py:102-106 | `string.Template.substitute`, left to right: `$$` gives a dollar sign; `$name` and `${name}` give the value of the longest identifier; an unknown name raises `KeyError`; any other `$` raises `ValueError`; its behaviour is stated by the five lemmas below |
| Strings.SubstituteLiteral | src/music/auth/oauth2_server.py:102-106 | text without `$` passes through substitution unchanged |
| Strings.SubstitutePlaceholder | src/music/auth/oauth2_server.py:102-106 | a known `$name` is replaced by its value |
| Strings.SubstituteUnknown | src/music/auth/oauth2_server.py:102-106 | an unknown `$name` raises `KeyError` naming it |
| Strings.SubstituteTrailingDollar | src/music/auth/oauth2_server.py:102-106 | a `$` at the end of the template raises `ValueError` |
| Strings.SubstituteTwo | src/music/auth/oauth2_server.py:102-106 | two known placeholders in plain text are both replaced and the text around them is kept |
| OAuth2.CodeOf | src/music/auth/oauth2_server.py:48-51 | the code is the first `code` value, and only a non-empty one counts |
| OAuth2.RedirectUri | src/music/auth/oauth2_server.py:33 | the f-string `http://localhost:{port}/callback`; `DefaultRedirectUri` and `QuotedRedirectUri` state its value and its quoting |
| OAuth2.ExchangeForm | src/music/auth/oauth2_server.py:52-58 | the exchange form has exactly the five fields `grant_type=authorization_code`, `code`, `redirect_uri`, `client_id` and `client_secret` |
| OAuth2.Handle | src/music/auth/oauth2_server.py:44-80 | decision table: another path gets 200 "running" and no change; a callback without a code gets 400 and no change; an accepted exchange stores the tokens, answers 200 and triggers shutdown; a refused one answers 400 and changes neither tokens nor shutdown; an exchange is posted exactly for callbacks with a code |
| OAuth2.Serve | src/music/auth/oauth2_server.py:93-110 | `serve_forever` over the requests that arrive: each handled in turn by `Handle` until one triggers shutdown; the three lemmas below state when it stops and what it stores |
| OAuth2.ServeShutsDownIffCompleted | src/music/auth/oauth2_server.py:62-68 | the listener shuts down exactly when some request is a callback with a code whose exchange is accepted |
| OAuth2.ServeWithoutCompletion | src/music/auth/oauth2_server.py:69-80 | with no accepted exchange, the tokens are unchanged, the listener keeps running, and one exchange is posted per callback with a code |
| OAuth2.ServeStopsAtFirstCompletion | src/music/auth/oauth2_server.py:62-68 | the first accepted exchange decides the stored tokens, and no later request is served |
| OAuth2.Verdict | src/music/auth/oauth2_server.py:110-115 | once the listener has stopped, the tokens are returned exactly when some are stored, and otherwise the call raises; while it still runs there is no verdict |
| OAuth2.AuthorizationUrl | src/music/auth/oauth2_server.py:102-106 | the template substituted with `client_id` and the percent-encoded `redirect_uri`; `AuthorizationUrlFills` states the result |
| OAuth2.AuthorizationUrlFills | src/music/auth/oauth2_server.py:102-106 | a template with `$client_id` and `$redirect_uri` gets the client id and the quoted redirect URI |
| OAuth2.DefaultRedirectUri | src/music/auth/oauth2_server.py:18-33 | the default redirect URI is `http://localhost:8888/callback` |
| OAuth2.QuotedRedirectUri | src/music/auth/oauth2_server.py:103-105 | the quoted redirect URI has its two colons escaped and the port and path kept |
| OAuth2.OAuth2Server.constructor | src/music/auth/oauth2_server.py:12-37 | the redirect URI is `http://localhost:<port>/callback`, and no tokens are stored yet |
| OAuth2.OAuth2Server.HandleGet | src/music/auth/oauth2_server.py:44-80 | the handler's new state and response are those of `Handle` |
| OAuth2.OAuth2Server.GetAuthTokens | src/music/auth/oauth2_server.py:85-115 | the authorization URL is opened, the callbacks are served until shutdown, and the stored tokens are returned or the call raises; a bad template makes the call raise without opening a URL |
| Spotify.SpotifyAuthorizationUrl | src/music/providers/spotify_provider.py:164-171 | the user authorization URL is the Spotify template with the client id and the quoted redirect URI in place |
| Spotify.FirstImageUrl | src/music/providers/spotify_provider.py:128 | the image URL is the first image's `url`; absent images give none; an empty image list raises `IndexError` |
| Spotify.CreateArtist | src/music/providers/spotify_provider.py:122-129 | an artist is built exactly when `id` and `name` are present and the image list is not empty; the `KeyError` names the first missing key |
| Spotify.CreateAlbum | src/music/providers/spotify_provider.py:131-142 | an album is built exactly when its four keys are present and the image list is not empty; it is released now, by the given artist, without tracks or genres |
| Spotify.CreateTrack | src/music/providers/spotify_provider.py:144-162 | the artist comes from the first listed artist, and the album is built with that artist; the track is playable exactly when not marked local; every field comes from its key |
| Spotify.CreateArtistRoundTrip | src/music/providers/spotify_provider.py:122-129 | reading back the catalog's rendering of any artist gives the artist |
| Spotify.CreateTrackRoundTrip | src/music/providers/spotify_provider.py:144-162 | reading back the catalog's rendering of a track of the provider's shape gives the track |
| Spotify.CreateTrackIsProviderShaped | src/music/providers/spotify_provider.py:144-162 | every built track has an album by its own artist, released now, without tracks or genres, and a Spotify URL |
| Spotify.StatusOutcome | src/music/providers/spotify_provider.py:106 | exactly the 4xx and 5xx statuses raise, each carrying its status |
| Spotify.BearerHeaders | src/music/providers/spotify_provider.py:77-80 | the headers are exactly `Authorization: Bearer <token>` and a JSON content type |
| Spotify.RequireUserConnection | src/music/providers/spotify_provider.py:113-120 | a user operation goes ahead exactly for a user with a `spotify` connection; otherwise it raises `ValueError` |
| Spotify.NeedsRefresh | src/music/providers/spotify_provider.py:26-29 | the test of `_ensure_token`: no token, an empty token, no expiry, or an expiry that has been reached |
| Spotify.TokenRequest | src/music/providers/spotify_provider.py:33-49 | the client-credentials POST to the accounts endpoint, form-encoded, with `grant_type`, `client_id` and `client_secret` |
| Spotify.Refreshed | src/music/providers/spotify_provider.py:31-67 | a refresh succeeds exactly on a non-error reply with both keys, and then expiry = now + `expires_in`; an HTTP error or no reply changes nothing; a missing key raises `ValueError` and keeps the old expiry, after the new token is already stored |
| Spotify.RefreshedTokenIsCurrent | src/music/providers/spotify_provider.py:28-55 | after a successful refresh, no further refresh is needed until the token expires |
| Spotify.Chunks | src/music/providers/spotify_provider.py:245-246 | the slices `uris[i:i+100]` for `i` in `range(0, len(uris), 100)`; `ChunksProperties` states their sizes, count and concatenation |
| Spotify.ChunksFromFlatten | src/music/providers/spotify_provider.py:245-246 | the chunks from a start index concatenate to the URIs from that index |
| Spotify.ChunksFromSizes | src/music/providers/spotify_provider.py:245-246 | every chunk has 1 to 100 URIs, and every chunk but the last has exactly 100 |
| Spotify.ChunksFromCount | src/music/providers/spotify_provider.py:245 | the number of chunks is the ceiling of the remaining count divided by 100 |
| Spotify.ChunksProperties | src/music/providers/spotify_provider.py:245-247 | the chunks of a URI list concatenate to the list; there are ceil(n/100) of them (none for n = 0); all but the last hold 100 |
| Spotify.ChunksOf250 | src/music/providers/spotify_provider.py:245-246 | 250 URIs give chunks of 100, 100 and 50 |
| Spotify.PostsOf | src/music/providers/spotify_provider.py:247 | one POST per chunk, in chunk order, to the playlist's tracks URL |
| Spotify.Issue | src/music/providers/spotify_provider.py:245-247 | the requests sent one after another, each answered by its status, stopping after the first 4xx or 5xx reply; `IssueStopsAtFirstError` states the prefix sent and the outcome |
| Spotify.IssueStopsAtFirstError | src/music/providers/spotify_provider.py:245-247 | the requests sent are a prefix of those due; all are sent and the call succeeds exactly when no reply is an error; otherwise the run stops at the first error and raises its status |
| Spotify.SentUrisOfPosts | src/music/providers/spotify_provider.py:247 | the POSTs carry the chunks' URIs in order |
| Spotify.AcceptedPostsCarryEveryUri | src/music/providers/spotify_provider.py:245-247 | when every reply succeeds, every request is sent and together they carry exactly the URI list, in order |
| Spotify.ReorderBody | src/music/providers/spotify_provider.py:258-262 | the reorder payload has exactly `range_start`, `insert_before` and `range_length`, with the given values |
| Spotify.SpotifyProvider.constructor | src/music/providers/spotify_provider.py:21-24 | a new provider has no token, no expiry and has sent nothing |
| Spotify.SpotifyProvider.RefreshToken | src/music/providers/spotify_provider.py:31-67 | sends the client-credentials request, and then token and outcome are those of `Refreshed` |
| Spotify.SpotifyProvider.EnsureToken | src/music/providers/spotify_provider.py:26-29 | refreshes exactly when the token is missing or empty, or the expiry is missing or reached; otherwise nothing changes |
| Spotify.SpotifyProvider.GetHeaders | src/music/providers/spotify_provider.py:69-80 | a connected user's own token is used without touching the app token; otherwise the app token is used, refreshed first if need be |
| Spotify.SpotifyProvider.AddTracksToPlaylist | src/music/providers/spotify_provider.py:241-247 | an unconnected user is refused before any request; otherwise the chunk POSTs go out in order until the first error reply |
| Spotify.SpotifyProvider.ReorderPlaylistTracks | src/music/providers/spotify_provider.py:249-268 | an unconnected user is refused; otherwise one PUT carries exactly the reorder payload, with `range_length` defaulting to 1 |
| Users.AddKeepsUsernamesUnique | src/user/user_manager.py:50-55 | adding a user under a free username keeps usernames unique |
| Users.RemoveKeepsUsernamesUnique | src/user/user_manager.py:57-60 | a removal keeps usernames unique |
| Users.UsernameDeterminesUser | src/user/user_manager.py:66-68 | in a directory with unique usernames, a username names at most one user |
| Users.Registered | src/user/user_manager.py:86-95 | a created user has the given id, name, email and password hash, the given permissions or none, is created now, and has no connections |
| Users.CacheKeyedByUsername | src/user/user_manager.py:38-44 | a cache that maps each username to its user holds users with unique usernames |
| Users.UserManager.constructor | src/user/user_manager.py:16-33 | the directory starts with the users read from its cache, and is valid whenever their usernames are unique |
| Users.UserManager.GetUserByUsername | src/user/user_manager.py:66-68 | returns a member with that username, or `None` exactly when there is none; with unique usernames, the only such member |
| Users.UserManager.GetUserById | src/user/user_manager.py:62-64 | returns a member with that id, or `None` exactly when there is none |
| Users.UserManager.AddUser | src/user/user_manager.py:50-55 | a taken username raises `ValueError` and changes nothing; otherwise the set gains exactly that user; uniqueness is kept |
| Users.UserManager.RemoveUser | src/user/user_manager.py:57-60 | removes exactly that user; an absent user is an error and changes nothing |
| Users.UserManager.CreateUser | src/user/user_manager.py:70-97 | a taken username is refused before anything is built; otherwise exactly the new user is added and returned; uniqueness is kept |
| LlmBridge.SchemaNames | src/llm/llm_bridge.py:149 | the accepted names are the schemas' names, in order |
| LlmBridge.Schemas | src/llm/llm_bridge.py:12-145 | the six schemas offered, in order, each with its declared and required parameters; `create_playlist` is commented out and absent |
| LlmBridge.CallableNames | src/llm/llm_bridge.py:12-145 | the callable names are exactly the six listed, and `create_playlist` is not one of them |
| LlmBridge.SchemasAreWellFormed | src/llm/llm_bridge.py:12-145 | every schema requires only the parameters it declares, and only `get_user_playlists` takes a username |
| LlmBridge.Passed | src/llm/llm_bridge.py:152-159 | the arguments are passed on with the same keys and the same values |
| LlmBridge.ExecuteFunction | src/llm/llm_bridge.py:147-159 | an unknown name raises `ValueError` before any lookup; an unknown username raises `ValueError`; otherwise `username` is replaced by `user`, set to the resolved user, and every other argument passes through unchanged |
| LlmBridge.FormatTrackResponse | src/llm/llm_bridge.py:161-169 | the summary copies id, name, artist and duration, and has an album title exactly when the track has an album |
| LlmBridge.SummaryOfCatalogTrack | src/llm/llm_bridge.py:161-169 | the summary of a catalog track carries the catalog's id, name, duration and album name |
| Sessions.VoteAt | src/session/session_manager.py:38-47 | returns true exactly for a valid slot; otherwise the queue is unchanged; only the target item's voters change, by add or discard |
| Sessions.VoteIsIdempotent | src/session/session_manager.py:42-45 | repeating a vote leaves the queue as one vote left it |
| Sessions.VoteCounts | src/session/session_manager.py:42-45 | an upvote counts a voter once; a downvote by a user who never voted changes nothing |
| Sessions.VoteKeepsContiguous | src/session/session_manager.py:38-47 | a vote keeps every item at its slot |
| Sessions.Renumbered | src/session/session_manager.py:185-188 | renumbering keeps the queue's length |
| Sessions.RenumberedIsContiguous | src/session/session_manager.py:185-188 | after renumbering, every item sits at its index and nothing but positions has changed; an ordered queue stays as it is |
| Sessions.PopIndex | src/session/session_manager.py:193-196 | `pop` removes index `p` or `n + p` exactly when `-n <= p < n` |
| Sessions.RemovalKeepsOrder | src/session/session_manager.py:190-198 | a removal leaves exactly one item fewer, the others in their order with only positions changed, and every item at its slot |
| Sessions.Requested | src/session/session_manager.py:107-113 | the item a request becomes: requested now, at slot `len(queue)`, with the requester as its only voter |
| Sessions.RequestKeepsContiguous | src/session/session_manager.py:107-119 | appending a request at slot `len(queue)` keeps the queue ordered |
| Sessions.Seeded | src/session/session_manager.py:83-92 | the seeded queue has one item per playlist track |
| Sessions.SeededQueue | src/session/session_manager.py:83-92 | the seeded items are in playlist order at positions 0..k-1, each requested by the initiator, with the initiator as its only voter |
| Sessions.QueueContextOf | src/session/session_manager.py:143-158 | the arbiter sees every item in order, and its vote count is the number of distinct voters |
| Sessions.ContextIgnoresPositions | src/session/session_manager.py:143-158 | renumbering does not change what the arbiter is shown |
| Sessions.PlacementPrompt | src/session/session_manager.py:160-176 | the prompt needs the playlist's `id` and the requester's Spotify account `id`; otherwise it raises `KeyError` |
| Sessions.TracksFrom | src/session/session_manager.py:130-131 | the tracks built from one playlist's track objects, in order, failing with the first error of `_create_track` |
| Sessions.Scan | src/session/session_manager.py:127-133 | the loop over the listed playlists: `KeyError` for a playlist without `name`, or for a matching one without `id`; otherwise the last match and the tracks of every match, in order; the lemmas below state this |
| Sessions.Resolve | src/session/session_manager.py:122-141 | an unconnected user is refused; a created playlist is the one the catalog's `create` returned, comes with no tracks, and only when no listed playlist has the name; otherwise the result is a listed playlist of that name, with no later playlist of that name |
| Sessions.ScanChoosesLastMatch | src/session/session_manager.py:127-133 | the scan picks the last playlist with the name, and picks none exactly when no playlist has it |
| Sessions.ScanAppend | src/session/session_manager.py:127-133 | over two listings, the tracks of the second follow those of the first, and a match in the second overrides the first |
| Sessions.TracksFromStopsAtError | src/session/session_manager.py:130-131 | a track that cannot be built aborts the whole playlist with its error |
| Sessions.ScanStopsAtError | src/session/session_manager.py:127-133 | an error while scanning a prefix is the error of the whole scan |
| Sessions.Session.constructor | src/session/session_manager.py:74-82 | a new session has no invitees, an empty queue, default playback and no theme |
| Sessions.Session.AddUser | src/session/session_manager.py:29-31 | the invitees gain the user; nothing else changes |
| Sessions.Session.RemoveUser | src/session/session_manager.py:33-36 | the invitees lose the user if present; nothing else changes |
| Sessions.Session.VoteTrack | src/session/session_manager.py:38-47 | the new queue and the answer are those of `VoteAt`; nothing else changes |
| Sessions.SessionManager.constructor | src/session/session_manager.py:51-52 | the manager starts with no sessions |
| Sessions.SessionManager.GetSession | src/session/session_manager.py:97-99 | a session is found exactly for a stored id, and it carries that id |
| Sessions.SessionManager.GetQueue | src/session/session_manager.py:200-203 | an unknown id gives an empty queue; every queue handed out is ordered |
| Sessions.SessionManager.BuildTracks | src/session/session_manager.py:130-131 | the tracks of one fetched playlist are built in order, stopping at the first failure |
| Sessions.SessionManager.SetPlaylist | src/session/session_manager.py:122-141 | the loop computes `Resolve` |
| Sessions.SessionManager.CreateSession | src/session/session_manager.py:68-95 | a failed resolution stores nothing; otherwise a fresh session with the seeded queue is stored under its new id |
| Sessions.SessionManager.AddTrackRequest | src/session/session_manager.py:101-119 | an unknown session answers false; a prompt failure or a raising arbiter leaves the queue unchanged; otherwise exactly one item is appended at the tail, with the requester as voter; the arbiter never changes the queue |
| Sessions.SessionManager.UpdateQueuePositions | src/session/session_manager.py:185-188 | the queue becomes its renumbering; nothing else changes |
| Sessions.SessionManager.RemoveTrack | src/session/session_manager.py:190-198 | false for an unknown session or a position at or past the end; `IndexError` for a position before `-len`; otherwise one item is popped and the queue renumbered; the manager invariant is kept |

## Left out

- HTTP traffic is not modelled. Requests are an append-only log, and the replies are statuses and JSON records given as inputs. `_make_request` is reduced to its headers and `raise_for_status`.
- `Spotify.StatusAt`: a request beyond the given status list is answered with 200.
- `OAuth2.Handle`: every posted exchange gets a reply with a status. A `requests.post` that raises inside `do_GET` (src/music/auth/oauth2_server.py:60) would go to the server's `handle_error`: the browser gets no page and the listener keeps serving. That case is not modelled.
- `OAuth2.OAuth2Server.GetAuthTokens`: the source binds the listener and starts serving (src/music/auth/oauth2_server.py:93-99) before it substitutes the template (:102-106). On a bad template the source raises while that listener is still serving, and a later callback can still post an exchange and store tokens. In the model the failed call serves nothing.
- `Strings.Substitute`: the `ValueError` for an invalid placeholder carries the message without its line and column.
- Threads, `serve_forever`, `server.shutdown` and `webbrowser.open` are all concurrency or OS effects. The listener serves a finite sequence of requests, shutdown is a flag, and the opened URL is a log.
- The system has no locks and no time-outs, so there is nothing of them to model.
- `request_user_token` is modelled only through the authorization URL it builds (`Spotify.SpotifyAuthorizationUrl`). The `UserToken` it builds from the reply is left out, and so is the module-level token code in `src/music/auth/user_token.py`.
- `search_tracks`, `get_track`, `get_artist`, `get_user_information`, `play_user_playlist` and `pause_playback` are one HTTP call each around the modelled mapping and guard. They are left out.
- `get_user_playlists`, `get_user_playlist` and `create_playlist` appear only as the answers of `Sessions.Catalog`. Each playlist object is reduced to its string fields, and a catalog fetch yields the playlist's track objects directly.
- `format_artist_response` is left out: it reads `artist.popularity`, which `Artist` does not have, so it always raises `AttributeError`.
- `LlmBridge.ExecuteFunction` returns the call it would dispatch. The dispatch by `getattr` is left out. (`set_playlist_track_order` passes the guard, but the provider has no such method.)
- `LlmBridge.Show`: a list argument is rendered exactly only if its strings contain no quote or backslash.
- `Users.UserManager.GetUserByUsername` and `Users.UserManager.GetUserById` walk the set in an unspecified order. Python's iteration order of a set is not modelled, so "first" means any match.
- Python's `User` dataclass is unhashable. The source's `users: Set[User]` and `invited_users` would raise `TypeError` on `add`. The model treats users as values in sets.
- The user cache (`_initialize_cache`, `_load_user_cache`, `_write_user_cache`) is left out, and so are bcrypt and the interactive `user_creation_prompt`. The constructor receives the cached users, and `CreateUser` receives the hashed password and the new id.
- Each `QueueItem` is a value, so the model does not capture sharing of item objects between lists. A queue is reassigned, not updated in place.
- The arbiter (the language-model provider) and the prompt text are left out. The model keeps the facts the prompt is built from, and whether the arbiter call raised.
- `_update_playlist` only fetches a playlist and drops the result. It is left out.
- `SessionManager._setup` and configuration loading are left out. So are `src/ui/prompts.py`, `src/main.py`, `src/llm/load_prompt.py` and the abstract base classes.
- Time is an integer clock passed as `now`. `Album.release_date` is that reading.
- A UUID is an opaque natural number, supplied as a parameter where the source calls `uuid4()`.
