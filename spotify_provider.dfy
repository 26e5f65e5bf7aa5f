/** The decision logic of the Spotify catalog provider,
    src/music/providers/spotify_provider.py: the mapping of catalog JSON to
    records, the client-credentials token (section 4.4 of RFC 6749) and when
    it is refreshed, the request headers, the guard on user operations, and
    the requests the playlist operations send.

    HTTP is a log of the requests the provider sends; the answers it gets are
    inputs (a status code per request, and the token endpoint's reply). Time
    is an integer clock in seconds passed as `now`. */
module Spotify {
  import opened Wrappers
  import opened Errors
  import opened Components
  import opened Strings
  import opened OAuth2

  const BaseUrl: string := "https://api.spotify.com/v1"
  const AuthUrl: string := "https://accounts.spotify.com/api/token"

  /** The "Add items to playlist" endpoint takes at most this many URIs per request. */
  const MaxUrisPerRequest: nat := 100

  /** The key of a user's Spotify account in `User.connections`. */
  const ConnectionKey: string := "spotify"

  const NotConnected: string := "User does not have a Spotify connection"
  const BadAuthResponse: string := "Invalid response format from Spotify auth server"

  // The authorization URL of request_user_token, in three literal pieces
  // around its two placeholders.
  const AuthorizePrefix: string := "https://accounts.spotify.com" + "/authorize?client_id="
  const AuthorizeMiddle: string := "&response_type=code" + "&redirect_uri="
  const AuthorizeScope: string :=
    "&scope=user-read-playback-state" + "%20playlist-modify-public" + "%20playlist-modify-private"
    + "%20user-read-private"

  /** The template `request_user_token` gives the authorization flow. */
  function SpotifyAuthTemplate(): string
  {
    AuthorizePrefix + "$client_id" + AuthorizeMiddle + "$redirect_uri" + AuthorizeScope
  }

  /** The authorization URL the browser is sent to: the client id and the
      quoted redirect URI in place, the scope as written. */
  lemma SpotifyAuthorizationUrl(clientId: string, redirectUri: string)
    ensures AuthorizationUrl(SpotifyAuthTemplate(), clientId, redirectUri)
            == Success(AuthorizePrefix + clientId + AuthorizeMiddle + Quote(redirectUri) + AuthorizeScope)
  {
    PrefixIsPlainText();
    MiddleIsPlainText();
    ScopeIsPlainText();
    AuthorizationUrlFills(AuthorizePrefix, AuthorizeMiddle, AuthorizeScope, clientId, redirectUri);
  }

  lemma PrefixIsPlainText()
    ensures '$' !in AuthorizePrefix
  {
  }

  lemma MiddleIsPlainText()
    ensures '$' !in AuthorizeMiddle && AuthorizeMiddle[0] == '&'
  {
  }

  lemma ScopeIsPlainText()
    ensures '$' !in AuthorizeScope && AuthorizeScope[0] == '&'
  {
  }

  // ---------------------------------------------------------------------
  // Catalog JSON and the records built from it
  // ---------------------------------------------------------------------

  /** The catalog objects as the Web API returns them. A field is `None` when
      its key is absent; a field that may hold JSON `null` has a second Option. */
  datatype ImageJson = ImageJson(url: Option<string>)

  datatype ArtistJson = ArtistJson(
    id: Option<string>,
    name: Option<string>,
    genres: Option<seq<string>>,
    images: Option<seq<ImageJson>>)

  datatype AlbumJson = AlbumJson(
    id: Option<string>,
    name: Option<string>,
    albumType: Option<string>,
    totalTracks: Option<int>,
    images: Option<seq<ImageJson>>)

  datatype TrackJson = TrackJson(
    id: Option<string>,
    name: Option<string>,
    artists: Option<seq<ArtistJson>>,
    album: Option<AlbumJson>,
    durationMs: Option<int>,
    uri: Option<string>,
    explicit: Option<bool>,
    previewUrl: Option<Option<string>>,
    externalUrls: Option<map<string, string>>,
    popularity: Option<Option<int>>,
    isLocal: Option<bool>)

  /** `d[key]`: the value, or KeyError naming the key. */
  function Get<T>(field: Option<T>, key: string): Result<T, Error>
  {
    if field.Some? then Success(field.value) else Failure(KeyError(key))
  }

  /** `d.get(key, default)`. */
  function GetOr<T>(field: Option<T>, default: T): T
  {
    if field.Some? then field.value else default
  }

  /** `d.get("images", [{}])[0].get("url")`: no image list gives no URL, an
      empty list raises IndexError, otherwise the first image's URL if any. */
  function FirstImageUrl(images: Option<seq<ImageJson>>): (r: Result<Option<string>, Error>)
    ensures r.Failure? <==> images == Some([])
    ensures r.Failure? ==> r.error == IndexError
    ensures images.None? ==> r == Success(None)
    ensures r.Success? && images.Some? ==> r.value == images.value[0].url
  {
    match images
    case None => Success(None)
    case Some(list) => if list == [] then Failure(IndexError) else Success(list[0].url)
  }

  /** `_create_artist`. The keys are read in the order the constructor's
      arguments are written, so the first problem met is the one raised. */
  function CreateArtist(a: ArtistJson): (r: Result<Artist, Error>)
    ensures a.id.None? ==> r == Failure(KeyError("id"))
    ensures a.id.Some? && a.name.None? ==> r == Failure(KeyError("name"))
    ensures a.id.Some? && a.name.Some? && a.images == Some([]) ==> r == Failure(IndexError)
    ensures r.Success? <==> a.id.Some? && a.name.Some? && a.images != Some([])
    ensures r.Success? ==> r.value.artistId == a.id.value && r.value.name == a.name.value
    ensures r.Success? ==> r.value.genres == GetOr(a.genres, []) && r.value.imageUrl == FirstImageUrl(a.images).value
  {
    var id :- Get(a.id, "id");
    var name :- Get(a.name, "name");
    var image :- FirstImageUrl(a.images);
    Success(Artist(id, name, GetOr(a.genres, []), image))
  }

  /** `_create_album`: the release date is the time of the call and the
      track list is empty, whatever the catalog says. */
  function CreateAlbum(a: AlbumJson, artist: Artist, now: Instant): (r: Result<Album, Error>)
    ensures r.Success? <==> a.id.Some? && a.name.Some? && a.albumType.Some? && a.totalTracks.Some? && a.images != Some([])
    ensures a.id.None? ==> r == Failure(KeyError("id"))
    ensures a.id.Some? && a.name.None? ==> r == Failure(KeyError("name"))
    ensures r.Success? ==> r.value.artist == artist && r.value.releaseDate == now && r.value.tracks == []
    ensures r.Success? ==> r.value.albumId == a.id.value && r.value.title == a.name.value && r.value.genres == None
    ensures r.Success? ==> r.value.albumType == a.albumType.value && r.value.totalTracks == a.totalTracks.value
  {
    var id :- Get(a.id, "id");
    var name :- Get(a.name, "name");
    var albumType :- Get(a.albumType, "album_type");
    var total :- Get(a.totalTracks, "total_tracks");
    var image :- FirstImageUrl(a.images);
    Success(Album(id, name, artist, now, [], albumType, total, image, None))
  }

  /** `d["external_urls"]["spotify"]`. */
  function SpotifyUrl(urls: Option<map<string, string>>): Result<string, Error>
  {
    var m :- Get(urls, "external_urls");
    if ConnectionKey in m then Success(m[ConnectionKey]) else Failure(KeyError(ConnectionKey))
  }

  /** `track_data["artists"][0]`. */
  function FirstArtist(artists: Option<seq<ArtistJson>>): Result<ArtistJson, Error>
  {
    var list :- Get(artists, "artists");
    if list == [] then Failure(IndexError) else Success(list[0])
  }

  /** `_create_track`: the artist is the first one listed, the album is built
      with that artist, and a track is playable unless it is marked local. */
  function CreateTrack(j: TrackJson, now: Instant): (r: Result<Track, Error>)
    ensures j.artists.None? ==> r == Failure(KeyError("artists"))
    ensures j.artists == Some([]) ==> r == Failure(IndexError)
    ensures r.Success? ==> j.artists.Some? && |j.artists.value| > 0
                           && CreateArtist(j.artists.value[0]) == Success(r.value.artist)
    ensures r.Success? ==> j.album.Some? && r.value.album.Some?
                           && CreateAlbum(j.album.value, r.value.artist, now) == Success(r.value.album.value)
    ensures r.Success? ==> r.value.isPlayable == (j.isLocal != Some(true))
    ensures r.Success? ==> j.id == Some(r.value.trackId) && j.name == Some(r.value.title) && j.uri == Some(r.value.uri)
                           && j.durationMs == Some(r.value.durationMs) && j.explicit == Some(r.value.explicit)
    ensures r.Success? ==> j.previewUrl == Some(r.value.previewUrl) && j.popularity == Some(r.value.popularity)
    ensures r.Success? ==> r.value.externalUrl.Some? && SpotifyUrl(j.externalUrls) == Success(r.value.externalUrl.value)
  {
    var first :- FirstArtist(j.artists);
    var artist :- CreateArtist(first);
    var albumJson :- Get(j.album, "album");
    var album :- CreateAlbum(albumJson, artist, now);
    var id :- Get(j.id, "id");
    var name :- Get(j.name, "name");
    var duration :- Get(j.durationMs, "duration_ms");
    var uri :- Get(j.uri, "uri");
    var explicit :- Get(j.explicit, "explicit");
    var preview :- Get(j.previewUrl, "preview_url");
    var external :- SpotifyUrl(j.externalUrls);
    var popularity :- Get(j.popularity, "popularity");
    Success(Track(id, name, artist, duration, uri, Some(album), explicit, preview, Some(external), popularity,
                  !GetOr(j.isLocal, false)))
  }

  // The catalog's own rendering of a record, to state that the mapping
  // above loses nothing.

  function ImagesOf(url: Option<string>): Option<seq<ImageJson>>
  {
    if url.Some? then Some([ImageJson(url)]) else None
  }

  function ArtistJsonOf(a: Artist): ArtistJson
  {
    ArtistJson(Some(a.artistId), Some(a.name), Some(a.genres), ImagesOf(a.imageUrl))
  }

  function AlbumJsonOf(a: Album): AlbumJson
  {
    AlbumJson(Some(a.albumId), Some(a.title), Some(a.albumType), Some(a.totalTracks), ImagesOf(a.imageUrl))
  }

  /** A track as `_create_track` builds it at time `now`: with an album by the
      same artist, released now, without tracks or genres, and with a Spotify URL. */
  predicate ProviderShaped(t: Track, now: Instant)
  {
    && t.album.Some? && t.externalUrl.Some?
    && t.album.value.artist == t.artist && t.album.value.releaseDate == now
    && t.album.value.tracks == [] && t.album.value.genres == None
  }

  function TrackJsonOf(t: Track): TrackJson
    requires t.album.Some? && t.externalUrl.Some?
  {
    TrackJson(Some(t.trackId), Some(t.title), Some([ArtistJsonOf(t.artist)]), Some(AlbumJsonOf(t.album.value)),
              Some(t.durationMs), Some(t.uri), Some(t.explicit), Some(t.previewUrl),
              Some(map[ConnectionKey := t.externalUrl.value]), Some(t.popularity), Some(!t.isPlayable))
  }

  /** Reading back the catalog's rendering of an artist gives the artist. */
  lemma CreateArtistRoundTrip(a: Artist)
    ensures CreateArtist(ArtistJsonOf(a)) == Success(a)
  {
    assert FirstImageUrl(ImagesOf(a.imageUrl)) == Success(a.imageUrl);
  }

  /** Reading back the catalog's rendering of a track gives the track, for
      every track of the shape the provider builds. */
  lemma CreateTrackRoundTrip(t: Track, now: Instant)
    requires ProviderShaped(t, now)
    ensures CreateTrack(TrackJsonOf(t), now) == Success(t)
  {
    CreateArtistRoundTrip(t.artist);
    var al := t.album.value;
    assert FirstImageUrl(ImagesOf(al.imageUrl)) == Success(al.imageUrl);
    assert CreateAlbum(AlbumJsonOf(al), t.artist, now) == Success(al);
    assert SpotifyUrl(Some(map[ConnectionKey := t.externalUrl.value])) == Success(t.externalUrl.value);
  }

  /** Every track the mapping produces has the provider's shape. */
  lemma CreateTrackIsProviderShaped(j: TrackJson, now: Instant)
    requires CreateTrack(j, now).Success?
    ensures ProviderShaped(CreateTrack(j, now).value, now)
  {
  }

  // ---------------------------------------------------------------------
  // Requests
  // ---------------------------------------------------------------------

  /** A request body: none, a form, a JSON list of URIs, or a JSON object of numbers. */
  datatype Body = NoBody | Form(fields: map<string, string>) | UriList(uris: seq<string>) | Numbers(values: map<string, int>)

  /** One request the provider sends. */
  datatype ApiCall = ApiCall(verb: string, url: string, headers: map<string, string>, body: Body)

  /** `raise_for_status`: a 4xx or 5xx reply is an error. */
  predicate IsHttpError(status: int) { 400 <= status < 600 }

  /** The status of one reply, as the error it raises. */
  function StatusOutcome(status: int): (r: Outcome<Error>)
    ensures r.Fail? <==> IsHttpError(status)
    ensures r.Fail? ==> r.error == HttpError(status)
  {
    if IsHttpError(status) then Fail(HttpError(status)) else Pass
  }

  /** The headers of an authorised call. */
  function BearerHeaders(token: string): (h: map<string, string>)
    ensures h.Keys == {"Authorization", "Content-Type"}
    ensures h["Authorization"] == "Bearer " + token && h["Content-Type"] == "application/json"
  {
    map["Authorization" := "Bearer " + token, "Content-Type" := "application/json"]
  }

  /** Whether the user has linked a Spotify account. */
  predicate Connected(user: User) { ConnectionKey in user.connections }

  /** `_require_user_connection`: a user operation goes ahead only for a
      connected user. */
  function RequireUserConnection(user: User): (r: Outcome<Error>)
    ensures r.Pass? <==> Connected(user)
    ensures r.Fail? ==> r.error == ValueError(NotConnected)
  {
    if Connected(user) then Pass else Fail(ValueError(NotConnected))
  }

  /** The headers of a call made for a connected user: its own token. */
  function UserHeaders(user: User): map<string, string>
    requires Connected(user)
  {
    BearerHeaders(user.connections[ConnectionKey].accessToken)
  }

  function PlaylistTracksUrl(playlistId: string): string
  {
    BaseUrl + "/playlists/" + playlistId + "/tracks"
  }

  // ---------------------------------------------------------------------
  // The application token
  // ---------------------------------------------------------------------

  /** The token endpoint's JSON reply; a field is `None` when its key is absent. */
  datatype AuthBody = AuthBody(accessToken: Option<string>, expiresIn: Option<int>)

  /** What the token request gets back: no reply at all (a connection error
      or time-out), or a status and a body. */
  datatype AuthReply = Unreachable(reason: string) | AuthReply(status: int, body: AuthBody)

  /** `_access_token` and `_token_expiry`. */
  datatype TokenState = TokenState(accessToken: Option<string>, expiry: Option<Instant>)

  /** The test in `_ensure_token`: no token (or an empty one), no expiry, or
      an expiry that has been reached. */
  predicate NeedsRefresh(t: TokenState, now: Instant)
  {
    t.accessToken.None? || t.accessToken.value == "" || t.expiry.None? || now >= t.expiry.value
  }

  /** The client-credentials request `_refresh_token` sends. */
  function TokenRequest(clientId: string, clientSecret: string): ApiCall
  {
    ApiCall("POST", AuthUrl, map["Content-Type" := "application/x-www-form-urlencoded"],
            Form(map["grant_type" := "client_credentials", "client_id" := clientId, "client_secret" := clientSecret]))
  }

  /** `_refresh_token`'s effect on the token and what it raises. The access
      token is written before `expires_in` is read, so a reply without
      `expires_in` leaves the new token with the old expiry. */
  function Refreshed(t: TokenState, now: Instant, reply: AuthReply): (out: (TokenState, Outcome<Error>))
    ensures out.1.Pass? <==> reply.AuthReply? && !IsHttpError(reply.status)
                             && reply.body.accessToken.Some? && reply.body.expiresIn.Some?
    ensures out.1.Pass? ==> out.0 == TokenState(reply.body.accessToken, Some(now + reply.body.expiresIn.value))
    ensures out.1.Fail? ==> out.0.expiry == t.expiry
    ensures out.1.Fail? && (reply.Unreachable? || IsHttpError(reply.status)) ==> out.0 == t
    ensures reply.AuthReply? && IsHttpError(reply.status) ==> out.1 == Fail(HttpError(reply.status))
    ensures reply.AuthReply? && !IsHttpError(reply.status) && out.1.Fail?
            ==> out.1.error == ValueError(BadAuthResponse)
                && out.0.accessToken == (if reply.body.accessToken.Some? then reply.body.accessToken else t.accessToken)
  {
    match reply
    case Unreachable(reason) => (t, Fail(Failed(reason)))
    case AuthReply(status, body) =>
      if IsHttpError(status) then (t, Fail(HttpError(status)))
      else if body.accessToken.None? then (t, Fail(ValueError(BadAuthResponse)))
      else
        var t' := t.(accessToken := body.accessToken);
        if body.expiresIn.None? then (t', Fail(ValueError(BadAuthResponse)))
        else (t'.(expiry := Some(now + body.expiresIn.value)), Pass)
  }

  /** A refresh that succeeds with a non-empty token and a positive lifetime
      leaves a token that needs no refresh until it expires. */
  lemma RefreshedTokenIsCurrent(t: TokenState, now: Instant, reply: AuthReply, later: Instant)
    requires Refreshed(t, now, reply).1.Pass?
    requires reply.body.accessToken.value != ""
    requires now <= later < now + reply.body.expiresIn.value
    ensures !NeedsRefresh(Refreshed(t, now, reply).0, later)
  {
  }

  // ---------------------------------------------------------------------
  // Chunking the URIs of add_tracks_to_playlist
  // ---------------------------------------------------------------------

  function Min(a: int, b: int): int { if a <= b then a else b }

  /** The slices `uris[i:i + 100]` for `i` in `range(start, len(uris), 100)`. */
  function ChunksFrom(uris: seq<string>, start: nat): seq<seq<string>>
    decreases |uris| - start
  {
    if start >= |uris| then []
    else [uris[start..Min(start + MaxUrisPerRequest, |uris|)]] + ChunksFrom(uris, start + MaxUrisPerRequest)
  }

  function Chunks(uris: seq<string>): seq<seq<string>>
  {
    ChunksFrom(uris, 0)
  }

  function Flatten<T>(parts: seq<seq<T>>): seq<T>
  {
    if parts == [] then [] else parts[0] + Flatten(parts[1..])
  }

  /** The chunks, joined in order, are exactly the URIs from `start` on. */
  lemma {:induction false} ChunksFromFlatten(uris: seq<string>, start: nat)
    requires start <= |uris|
    decreases |uris| - start
    ensures Flatten(ChunksFrom(uris, start)) == uris[start..]
  {
    if start < |uris| {
      var stop := Min(start + MaxUrisPerRequest, |uris|);
      var cs := ChunksFrom(uris, start);
      assert cs[1..] == ChunksFrom(uris, start + MaxUrisPerRequest);
      if start + MaxUrisPerRequest <= |uris| {
        ChunksFromFlatten(uris, start + MaxUrisPerRequest);
      } else {
        assert ChunksFrom(uris, start + MaxUrisPerRequest) == [];
      }
      assert uris[start..] == uris[start..stop] + uris[stop..];
    }
  }

  /** Every chunk holds between 1 and 100 URIs, and all but the last hold 100. */
  lemma {:induction false} ChunksFromSizes(uris: seq<string>, start: nat)
    decreases |uris| - start
    ensures forall k :: 0 <= k < |ChunksFrom(uris, start)| ==> 1 <= |ChunksFrom(uris, start)[k]| <= MaxUrisPerRequest
    ensures forall k :: 0 <= k < |ChunksFrom(uris, start)| - 1 ==> |ChunksFrom(uris, start)[k]| == MaxUrisPerRequest
  {
    if start < |uris| {
      ChunksFromSizes(uris, start + MaxUrisPerRequest);
      var cs := ChunksFrom(uris, start);
      var rest := ChunksFrom(uris, start + MaxUrisPerRequest);
      assert cs == [cs[0]] + rest;
      forall k | 0 <= k < |cs|
        ensures 1 <= |cs[k]| <= MaxUrisPerRequest
        ensures k < |cs| - 1 ==> |cs[k]| == MaxUrisPerRequest
      {
        if k == 0 {
          var stop := Min(start + MaxUrisPerRequest, |uris|);
          assert cs[0] == uris[start..stop];
          assert |cs[0]| == stop - start;
          if rest != [] {
            assert start + MaxUrisPerRequest < |uris|;
            assert stop == start + MaxUrisPerRequest;
          }
        } else {
          assert cs[k] == rest[k - 1];
        }
      }
    }
  }

  /** There are ceil((n - start) / 100) chunks. */
  lemma {:induction false} ChunksFromCount(uris: seq<string>, start: nat)
    requires start <= |uris|
    decreases |uris| - start
    ensures |ChunksFrom(uris, start)| == (|uris| - start + MaxUrisPerRequest - 1) / MaxUrisPerRequest
  {
    if start < |uris| && start + MaxUrisPerRequest <= |uris| {
      ChunksFromCount(uris, start + MaxUrisPerRequest);
    }
  }

  /** The chunking of add_tracks_to_playlist: the chunks join up to the input,
      each holds at most 100 URIs and only the last may hold fewer, and there
      are ceil(n / 100) of them. */
  lemma ChunksProperties(uris: seq<string>)
    ensures Flatten(Chunks(uris)) == uris
    ensures |Chunks(uris)| == (|uris| + MaxUrisPerRequest - 1) / MaxUrisPerRequest
    ensures forall k :: 0 <= k < |Chunks(uris)| ==> 1 <= |Chunks(uris)[k]| <= MaxUrisPerRequest
    ensures forall k :: 0 <= k < |Chunks(uris)| - 1 ==> |Chunks(uris)[k]| == MaxUrisPerRequest
  {
    ChunksFromFlatten(uris, 0);
    ChunksFromCount(uris, 0);
    ChunksFromSizes(uris, 0);
  }

  /** 250 URIs go out as 100, 100 and 50. */
  lemma ChunksOf250(uris: seq<string>)
    requires |uris| == 250
    ensures Chunks(uris) == [uris[..100], uris[100..200], uris[200..]]
  {
    assert ChunksFrom(uris, 300) == [];
    assert ChunksFrom(uris, 200) == [uris[200..250]];
    assert uris[200..250] == uris[200..];
    assert ChunksFrom(uris, 100) == [uris[100..200]] + ChunksFrom(uris, 200);
  }

  /** The POST requests for a list of chunks. */
  function PostsOf(url: string, headers: map<string, string>, chunks: seq<seq<string>>): (calls: seq<ApiCall>)
    ensures |calls| == |chunks|
    ensures forall k :: 0 <= k < |chunks| ==> calls[k] == ApiCall("POST", url, headers, UriList(chunks[k]))
  {
    if chunks == [] then [] else [ApiCall("POST", url, headers, UriList(chunks[0]))] + PostsOf(url, headers, chunks[1..])
  }

  /** The status of the `k`-th request sent; requests past the end of the
      list are answered with 200. */
  function StatusAt(statuses: seq<int>, k: nat): int
  {
    if k < |statuses| then statuses[k] else 200
  }

  /** Sending `calls` one after another, the `k`-th answered with
      `StatusAt(statuses, k)`, stopping at the first error: the calls sent and
      the outcome. */
  function Issue(calls: seq<ApiCall>, statuses: seq<int>, k: nat): (seq<ApiCall>, Outcome<Error>)
    decreases |calls|
  {
    if calls == [] then ([], Pass)
    else if IsHttpError(StatusAt(statuses, k)) then ([calls[0]], Fail(HttpError(StatusAt(statuses, k))))
    else
      var rest := Issue(calls[1..], statuses, k + 1);
      ([calls[0]] + rest.0, rest.1)
  }

  /** The calls sent are a prefix of the calls to send. All are sent, with
      success, exactly when none of their replies is an error; otherwise the
      run stops at the first error reply and raises its status. */
  lemma {:induction false} IssueStopsAtFirstError(calls: seq<ApiCall>, statuses: seq<int>, k: nat)
    decreases |calls|
    ensures var out := Issue(calls, statuses, k);
      |out.0| <= |calls| && out.0 == calls[..|out.0|]
    ensures Issue(calls, statuses, k).1.Pass?
            <==> Issue(calls, statuses, k).0 == calls && forall j :: k <= j < k + |calls| ==> !IsHttpError(StatusAt(statuses, j))
    ensures Issue(calls, statuses, k).1.Fail? ==>
              |Issue(calls, statuses, k).0| >= 1
              && Issue(calls, statuses, k).1 == Fail(HttpError(StatusAt(statuses, k + |Issue(calls, statuses, k).0| - 1)))
              && IsHttpError(StatusAt(statuses, k + |Issue(calls, statuses, k).0| - 1))
    ensures forall j :: k <= j < k + |Issue(calls, statuses, k).0| - 1 ==> !IsHttpError(StatusAt(statuses, j))
  {
    if calls != [] && !IsHttpError(StatusAt(statuses, k)) {
      IssueStopsAtFirstError(calls[1..], statuses, k + 1);
      var rest := Issue(calls[1..], statuses, k + 1);
      assert calls == [calls[0]] + calls[1..];
      if rest.1.Pass? {
        assert forall j :: k <= j < k + |calls| ==> !IsHttpError(StatusAt(statuses, j)) by {
          forall j | k <= j < k + |calls| ensures !IsHttpError(StatusAt(statuses, j)) {
            if j > k { assert k + 1 <= j < k + 1 + |calls[1..]|; }
          }
        }
      } else {
        assert !(forall j :: k <= j < k + |calls| ==> !IsHttpError(StatusAt(statuses, j))) by {
          var j := k + 1 + |rest.0| - 1;
          assert k <= j < k + |calls|;
        }
      }
    }
  }

  /** The URIs carried by a list of requests, in order. */
  function SentUris(calls: seq<ApiCall>): seq<string>
  {
    if calls == [] then []
    else (if calls[0].body.UriList? then calls[0].body.uris else []) + SentUris(calls[1..])
  }

  lemma {:induction false} SentUrisOfPosts(url: string, headers: map<string, string>, chunks: seq<seq<string>>)
    ensures SentUris(PostsOf(url, headers, chunks)) == Flatten(chunks)
  {
    if chunks != [] {
      SentUrisOfPosts(url, headers, chunks[1..]);
      assert PostsOf(url, headers, chunks)[1..] == PostsOf(url, headers, chunks[1..]);
    }
  }

  /** When every reply is a success, add_tracks_to_playlist sends one request
      per chunk and the requests carry all the URIs, in their order. */
  lemma AcceptedPostsCarryEveryUri(url: string, headers: map<string, string>, uris: seq<string>, statuses: seq<int>)
    requires forall j :: 0 <= j < |Chunks(uris)| ==> !IsHttpError(StatusAt(statuses, j))
    ensures Issue(PostsOf(url, headers, Chunks(uris)), statuses, 0) == (PostsOf(url, headers, Chunks(uris)), Pass)
    ensures SentUris(Issue(PostsOf(url, headers, Chunks(uris)), statuses, 0).0) == uris
  {
    IssueStopsAtFirstError(PostsOf(url, headers, Chunks(uris)), statuses, 0);
    SentUrisOfPosts(url, headers, Chunks(uris));
    ChunksProperties(uris);
  }

  /** The calls `sent` already, then the rest of a run. */
  function After(sent: seq<ApiCall>, out: (seq<ApiCall>, Outcome<Error>)): (seq<ApiCall>, Outcome<Error>)
  {
    (sent + out.0, out.1)
  }

  /** One step of `Issue`. */
  lemma IssueCons(call: ApiCall, tail: seq<ApiCall>, statuses: seq<int>, k: nat)
    ensures var status := StatusAt(statuses, k);
      Issue([call] + tail, statuses, k)
      == if IsHttpError(status) then ([call], Fail(HttpError(status)))
         else ([call] + Issue(tail, statuses, k + 1).0, Issue(tail, statuses, k + 1).1)
  {
    assert ([call] + tail)[1..] == tail;
  }

  /** The payload of "Reorder playlist items". */
  function ReorderBody(rangeStart: int, insertBefore: int, rangeLength: int): (body: map<string, int>)
    ensures body.Keys == {"range_start", "insert_before", "range_length"}
    ensures body["range_start"] == rangeStart && body["insert_before"] == insertBefore
    ensures body["range_length"] == rangeLength
  {
    map["range_start" := rangeStart, "insert_before" := insertBefore, "range_length" := rangeLength]
  }

  class SpotifyProvider {
    const clientId: string
    const clientSecret: string
    var accessToken: Option<string>
    var tokenExpiry: Option<Instant>
    /** Every request sent, in order. */
    var log: seq<ApiCall>

    constructor (clientId: string, clientSecret: string)
      ensures this.clientId == clientId && this.clientSecret == clientSecret
      ensures accessToken == None && tokenExpiry == None && log == []
    {
      this.clientId := clientId;
      this.clientSecret := clientSecret;
      accessToken := None;
      tokenExpiry := None;
      log := [];
    }

    function Token(): TokenState
      reads this
    {
      TokenState(accessToken, tokenExpiry)
    }

    /** `_refresh_token`: ask the token endpoint for a new application token. */
    method RefreshToken(now: Instant, reply: AuthReply) returns (r: Outcome<Error>)
      modifies this`accessToken, this`tokenExpiry, this`log
      ensures log == old(log) + [TokenRequest(clientId, clientSecret)]
      ensures (Token(), r) == Refreshed(old(Token()), now, reply)
    {
      log := log + [TokenRequest(clientId, clientSecret)];
      match reply
      case Unreachable(reason) =>
        r := Fail(Failed(reason));
      case AuthReply(status, body) =>
        if IsHttpError(status) {
          r := Fail(HttpError(status));
        } else if body.accessToken.None? {
          r := Fail(ValueError(BadAuthResponse));
        } else {
          accessToken := body.accessToken;
          if body.expiresIn.None? {
            r := Fail(ValueError(BadAuthResponse));
          } else {
            tokenExpiry := Some(now + body.expiresIn.value);
            r := Pass;
          }
        }
    }

    /** `_ensure_token`: refresh exactly when the token is missing or expired. */
    method EnsureToken(now: Instant, reply: AuthReply) returns (r: Outcome<Error>)
      modifies this`accessToken, this`tokenExpiry, this`log
      ensures NeedsRefresh(old(Token()), now) ==>
                log == old(log) + [TokenRequest(clientId, clientSecret)]
                && (Token(), r) == Refreshed(old(Token()), now, reply)
      ensures !NeedsRefresh(old(Token()), now) ==> r == Pass && Token() == old(Token()) && log == old(log)
      ensures r.Pass? ==> accessToken.Some?
    {
      if accessToken.None? || accessToken.value == "" || tokenExpiry.None? || now >= tokenExpiry.value {
        r := RefreshToken(now, reply);
      } else {
        r := Pass;
      }
    }

    /** `_get_headers`: a connected user's own token, otherwise the
        application token, refreshed first if need be. */
    method GetHeaders(user: Option<User>, now: Instant, reply: AuthReply) returns (r: Result<map<string, string>, Error>)
      modifies this`accessToken, this`tokenExpiry, this`log
      ensures user.Some? && Connected(user.value) ==>
                r == Success(UserHeaders(user.value)) && Token() == old(Token()) && log == old(log)
      ensures !(user.Some? && Connected(user.value)) ==>
                (NeedsRefresh(old(Token()), now) ==>
                   log == old(log) + [TokenRequest(clientId, clientSecret)]
                   && Token() == Refreshed(old(Token()), now, reply).0)
                && (!NeedsRefresh(old(Token()), now) ==> Token() == old(Token()) && log == old(log))
                && (r.Success? ==> accessToken.Some? && r.value == BearerHeaders(accessToken.value))
                && (r.Failure? ==> NeedsRefresh(old(Token()), now)
                                   && Fail(r.error) == Refreshed(old(Token()), now, reply).1)
    {
      if user.Some? && ConnectionKey in user.value.connections {
        return Success(BearerHeaders(user.value.connections[ConnectionKey].accessToken));
      }
      var ensured := EnsureToken(now, reply);
      if ensured.Fail? {
        return Failure(ensured.error);
      }
      r := Success(BearerHeaders(accessToken.value));
    }

    /** `add_tracks_to_playlist`: one POST per chunk of at most 100 URIs, in
        order, stopping at the first reply that is an error. */
    method AddTracksToPlaylist(user: User, playlistId: string, trackUris: seq<string>, statuses: seq<int>)
      returns (r: Outcome<Error>)
      modifies this`log
      ensures !Connected(user) ==> r == Fail(ValueError(NotConnected)) && log == old(log)
      ensures Connected(user) ==>
        var sent := Issue(PostsOf(PlaylistTracksUrl(playlistId), UserHeaders(user), Chunks(trackUris)), statuses, 0);
        log == old(log) + sent.0 && r == sent.1
    {
      if ConnectionKey !in user.connections {
        return Fail(ValueError(NotConnected));
      }
      var url := PlaylistTracksUrl(playlistId);
      ghost var all := PostsOf(url, UserHeaders(user), Chunks(trackUris));
      ghost var sent: seq<ApiCall> := [];
      var i := 0;
      var k := 0;
      ghost var whole := Issue(all, statuses, 0);
      assert [] + whole.0 == whole.0;
      assert After([], whole) == whole;
      while i < |trackUris|
        invariant i == MaxUrisPerRequest * k
        invariant log == old(log) + sent
        invariant Issue(all, statuses, 0) == After(sent, Issue(PostsOf(url, UserHeaders(user), ChunksFrom(trackUris, i)), statuses, k))
      {
        var chunk := trackUris[i..Min(i + MaxUrisPerRequest, |trackUris|)];
        var call := ApiCall("POST", url, UserHeaders(user), UriList(chunk));
        ghost var tail := PostsOf(url, UserHeaders(user), ChunksFrom(trackUris, i + MaxUrisPerRequest));
        assert PostsOf(url, UserHeaders(user), ChunksFrom(trackUris, i)) == [call] + tail;
        IssueCons(call, tail, statuses, k);
        ghost var next := Issue(tail, statuses, k + 1);
        log := log + [call];
        var status := StatusAt(statuses, k);
        if IsHttpError(status) {
          sent := sent + [call];
          return Fail(HttpError(status));
        }
        assert sent + ([call] + next.0) == (sent + [call]) + next.0;
        sent := sent + [call];
        i := i + MaxUrisPerRequest;
        k := k + 1;
      }
      assert ChunksFrom(trackUris, i) == [];
      r := Pass;
    }

    /** `reorder_playlist_tracks`: one PUT carrying exactly the three fields
        of the reorder payload. */
    method ReorderPlaylistTracks(user: User, playlistId: string, rangeStart: int, insertBefore: int,
                                 rangeLength: int := 1, status: int := 200)
      returns (r: Outcome<Error>)
      modifies this`log
      ensures !Connected(user) ==> r == Fail(ValueError(NotConnected)) && log == old(log)
      ensures Connected(user) ==>
        log == old(log) + [ApiCall("PUT", PlaylistTracksUrl(playlistId), UserHeaders(user),
                                   Numbers(ReorderBody(rangeStart, insertBefore, rangeLength)))]
        && r == StatusOutcome(status)
    {
      if ConnectionKey !in user.connections {
        return Fail(ValueError(NotConnected));
      }
      log := log + [ApiCall("PUT", PlaylistTracksUrl(playlistId), UserHeaders(user),
                            Numbers(ReorderBody(rangeStart, insertBefore, rangeLength)))];
      r := StatusOutcome(status);
    }
  }
}
