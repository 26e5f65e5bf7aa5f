/** The listening-session engine (src/session/session_manager.py): sessions
    whose queues are seeded from a playlist of the initiator, grow by track
    requests, are reordered by nobody but shrink by removals, and carry the
    votes of the users.

    A queue item is a value here and a session's queue a sequence the
    methods reassign. The catalog provider the manager talks to is an input
    (`Catalog`): the answers it gives to the playlist listing, to the fetch of
    one playlist and to the creation of a playlist. So is the arbiter, the
    language model consulted on every request, whose reply the source
    discards: only whether it raised is an input. Ids and clock readings are
    parameters. */
module Sessions {
  import opened Wrappers
  import opened Errors
  import opened Components
  import Spotify

  // ----- The queue as a sequence of items -----

  /** Every item sits at the slot its `position` names. */
  ghost predicate Contiguous(queue: seq<QueueItem>)
  {
    forall k :: 0 <= k < |queue| ==> queue[k].position == k
  }

  /** The item after one vote: `add` of the voter for an upvote, `discard`
      for a downvote. */
  function Voted(item: QueueItem, userId: Uuid, upvote: bool): QueueItem
  {
    item.(votes := if upvote then item.votes + {userId} else item.votes - {userId})
  }

  /** `vote_track` on a queue: a vote on the item at `k` when `k` is a slot of
      the queue, and otherwise nothing. */
  function VoteAt(queue: seq<QueueItem>, k: int, userId: Uuid, upvote: bool): (out: (seq<QueueItem>, bool))
    ensures out.1 <==> 0 <= k < |queue|
    ensures !out.1 ==> out.0 == queue
    ensures |out.0| == |queue|
    ensures forall j :: 0 <= j < |queue| && j != k ==> out.0[j] == queue[j]
    ensures out.1 ==> out.0[k].votes == (if upvote then queue[k].votes + {userId} else queue[k].votes - {userId})
    ensures out.1 ==> out.0[k].track == queue[k].track && out.0[k].requestedBy == queue[k].requestedBy
                      && out.0[k].requestedAt == queue[k].requestedAt && out.0[k].position == queue[k].position
  {
    if 0 <= k < |queue| then (queue[k := Voted(queue[k], userId, upvote)], true) else (queue, false)
  }

  /** Voting twice the same way has the effect of voting once. */
  lemma VoteIsIdempotent(queue: seq<QueueItem>, k: int, userId: Uuid, upvote: bool)
    ensures VoteAt(VoteAt(queue, k, userId, upvote).0, k, userId, upvote).0 == VoteAt(queue, k, userId, upvote).0
  {
    if 0 <= k < |queue| {
      assert Voted(Voted(queue[k], userId, upvote), userId, upvote) == Voted(queue[k], userId, upvote);
    }
  }

  /** A voter counts once: an upvote makes the voter one of the item's voters
      and raises the count by one only if they were not one already; a
      downvote by someone who never voted changes nothing. */
  lemma VoteCounts(item: QueueItem, userId: Uuid)
    ensures userId in Voted(item, userId, true).votes
    ensures |Voted(item, userId, true).votes| == |item.votes| + (if userId in item.votes then 0 else 1)
    ensures userId !in Voted(item, userId, false).votes
    ensures userId !in item.votes ==> Voted(item, userId, false) == item
  {
  }

  /** A vote keeps every item at its slot. */
  lemma VoteKeepsContiguous(queue: seq<QueueItem>, k: int, userId: Uuid, upvote: bool)
    requires Contiguous(queue)
    ensures Contiguous(VoteAt(queue, k, userId, upvote).0)
  {
  }

  /** The queue with every `position` set to the item's index, as
      `_update_queue_positions` leaves it. */
  function Renumbered(queue: seq<QueueItem>): (r: seq<QueueItem>)
    ensures |r| == |queue|
  {
    seq(|queue|, k requires 0 <= k < |queue| => queue[k].(position := k))
  }

  /** Renumbering puts every item at its slot and changes nothing but the
      positions; a queue already in order is left as it is. */
  lemma RenumberedIsContiguous(queue: seq<QueueItem>)
    ensures Contiguous(Renumbered(queue))
    ensures forall k :: 0 <= k < |queue| ==> Renumbered(queue)[k].(position := 0) == queue[k].(position := 0)
    ensures Contiguous(queue) ==> Renumbered(queue) == queue
  {
  }

  /** The index `list.pop(position)` removes from a list of `n` items: a
      negative position counts from the end, and a position outside
      `-n .. n-1` has none. */
  function PopIndex(n: nat, position: int): (r: Option<nat>)
    ensures r.Some? <==> -(n as int) <= position < n
    ensures r.Some? ==> r.value < n && (if position < 0 then r.value == n + position else r.value == position)
  {
    if 0 <= position < n then Some(position)
    else if -(n as int) <= position < 0 then Some(n + position)
    else None
  }

  /** The queue without its item at `k`. */
  function RemoveAt(queue: seq<QueueItem>, k: nat): seq<QueueItem>
    requires k < |queue|
  {
    queue[..k] + queue[k + 1..]
  }

  /** After a removal and the renumbering, the queue is one item shorter,
      keeps the other items in their order with nothing but their positions
      changed, and has every item at its slot. */
  lemma RemovalKeepsOrder(queue: seq<QueueItem>, k: nat)
    requires k < |queue|
    ensures |Renumbered(RemoveAt(queue, k))| == |queue| - 1
    ensures Contiguous(Renumbered(RemoveAt(queue, k)))
    ensures forall j :: 0 <= j < k ==> Renumbered(RemoveAt(queue, k))[j] == queue[j].(position := j)
    ensures forall j :: k <= j < |queue| - 1 ==> Renumbered(RemoveAt(queue, k))[j] == queue[j + 1].(position := j)
  {
    RenumberedIsContiguous(RemoveAt(queue, k));
  }

  /** The item a request becomes: requested now by the requester, who is its
      first voter, at the slot after the current last item. */
  function Requested(track: Track, requestedBy: User, queue: seq<QueueItem>, now: Instant): QueueItem
  {
    QueueItem(track, requestedBy, now, {requestedBy.userId}, |queue|)
  }

  /** Appending a request to a queue in order keeps it in order. */
  lemma RequestKeepsContiguous(queue: seq<QueueItem>, track: Track, requestedBy: User, now: Instant)
    requires Contiguous(queue)
    ensures Contiguous(queue + [Requested(track, requestedBy, queue, now)])
  {
  }

  /** The queue `create_session` seeds from the playlist's tracks: one item
      per track, in playlist order, each requested by the initiator and voted
      for by them. */
  function Seeded(tracks: seq<Track>, initiator: User, now: Instant): (q: seq<QueueItem>)
    ensures |q| == |tracks|
  {
    seq(|tracks|, k requires 0 <= k < |tracks| => QueueItem(tracks[k], initiator, now, {initiator.userId}, k))
  }

  /** The seeded queue is in order and holds the playlist's tracks as they
      come, each with the initiator as its only voter. */
  lemma SeededQueue(tracks: seq<Track>, initiator: User, now: Instant)
    ensures Contiguous(Seeded(tracks, initiator, now))
    ensures forall k :: 0 <= k < |tracks| ==>
              Seeded(tracks, initiator, now)[k].track == tracks[k]
              && Seeded(tracks, initiator, now)[k].votes == {initiator.userId}
              && Seeded(tracks, initiator, now)[k].requestedBy == initiator
  {
  }

  // ----- What the arbiter is shown -----

  /** One queue entry as the arbiter sees it: the track's title, artist,
      genres and popularity, and how many users voted for it. */
  datatype ContextEntry = ContextEntry(title: string, artist: string, genres: seq<string>,
                                       popularity: Option<int>, votes: nat)

  datatype QueueContext = QueueContext(currentQueue: seq<ContextEntry>, themeKeywords: seq<string>)

  function EntryOf(item: QueueItem): ContextEntry
  {
    ContextEntry(item.track.title, item.track.artist.name, item.track.artist.genres,
                 item.track.popularity, |item.votes|)
  }

  /** `_get_queue_context`: the queue in order, each item reduced to what the
      arbiter is shown, its vote count the number of distinct voters. */
  function QueueContextOf(queue: seq<QueueItem>, themeKeywords: seq<string>): (c: QueueContext)
    ensures |c.currentQueue| == |queue| && c.themeKeywords == themeKeywords
    ensures forall k :: 0 <= k < |queue| ==> c.currentQueue[k].votes == |queue[k].votes|
                                              && c.currentQueue[k].title == queue[k].track.title
  {
    QueueContext(seq(|queue|, k requires 0 <= k < |queue| => EntryOf(queue[k])), themeKeywords)
  }

  /** The context does not show positions, so renumbering does not change
      what the arbiter is shown. */
  lemma ContextIgnoresPositions(queue: seq<QueueItem>, themeKeywords: seq<string>)
    ensures QueueContextOf(Renumbered(queue), themeKeywords) == QueueContextOf(queue, themeKeywords)
  {
    assert forall k :: 0 <= k < |queue| ==> EntryOf(Renumbered(queue)[k]) == EntryOf(queue[k]);
  }

  /** The facts the placement prompt is built from: the session's playlist,
      the account of the requester on the catalog, the queue and the track. */
  datatype Prompt = Prompt(playlistId: string, ownerId: string, context: QueueContext, track: Track)

  /** `_evaluate_track_placement` up to the arbiter call: the playlist must
      have an `id`, and the requester a catalog connection whose account
      information has one, or the lookup raises `KeyError`. */
  function PlacementPrompt(playlist: map<string, string>, requester: User, context: QueueContext, track: Track)
    : (r: Result<Prompt, Error>)
    ensures "id" !in playlist ==> r == Failure(KeyError("id"))
    ensures "id" in playlist && Spotify.ConnectionKey !in requester.connections ==>
              r == Failure(KeyError(Spotify.ConnectionKey))
    ensures r.Success? <==> ("id" in playlist && Spotify.ConnectionKey in requester.connections
                            && "id" in requester.connections[Spotify.ConnectionKey].info)
    ensures r.Success? ==> r.value == Prompt(playlist["id"], requester.connections[Spotify.ConnectionKey].info["id"],
                                             context, track)
  {
    if "id" !in playlist then Failure(KeyError("id"))
    else if Spotify.ConnectionKey !in requester.connections then Failure(KeyError(Spotify.ConnectionKey))
    else if "id" !in requester.connections[Spotify.ConnectionKey].info then Failure(KeyError("id"))
    else Success(Prompt(playlist["id"], requester.connections[Spotify.ConnectionKey].info["id"], context, track))
  }

  // ----- Resolving the session's playlist -----

  /** The catalog's answers: the initiator's playlists (or what the listing
      raised), the track objects of a playlist by id (or what the fetch
      raised), and the playlist created for a name and description (or what
      the creation raised). A playlist is its JSON object reduced to its
      string fields. */
  datatype Catalog = Catalog(
    playlists: Result<seq<map<string, string>>, Error>,
    fetch: string -> Result<seq<Spotify.TrackJson>, Error>,
    create: (string, string) -> Result<map<string, string>, Error>)

  /** The description a playlist created for a session is given. */
  const SessionDescription: string := "Session"

  /** The playlist a session plays, the tracks to seed its queue with, and
      whether the playlist had to be created. */
  datatype Resolution = Resolution(playlist: map<string, string>, tracks: seq<Track>, created: bool)

  /** The playlist carries the given name. */
  predicate NameIs(p: map<string, string>, name: string)
  {
    "name" in p && p["name"] == name
  }

  /** The tracks built from a playlist's track objects, in order; the first
      one that cannot be built raises. */
  function TracksFrom(items: seq<Spotify.TrackJson>, now: Instant): Result<seq<Track>, Error>
    decreases |items|
  {
    if items == [] then Success([])
    else
      var before :- TracksFrom(items[..|items| - 1], now);
      var t :- Spotify.CreateTrack(items[|items| - 1], now);
      Success(before + [t])
  }

  /** The loop of `set_playlist` over the listed playlists: the last playlist
      with the target name, and the tracks of every playlist with that name,
      in listing order. */
  function Scan(ps: seq<map<string, string>>, target: string,
                fetch: string -> Result<seq<Spotify.TrackJson>, Error>, now: Instant)
    : Result<(Option<map<string, string>>, seq<Track>), Error>
    decreases |ps|
  {
    if ps == [] then Success((None, []))
    else
      var before :- Scan(ps[..|ps| - 1], target, fetch, now);
      var p := ps[|ps| - 1];
      if "name" !in p then Failure(KeyError("name"))
      else if p["name"] != target then Success(before)
      else if "id" !in p then Failure(KeyError("id"))
      else
        var items :- fetch(p["id"]);
        var more :- TracksFrom(items, now);
        Success((Some(p), before.1 + more))
  }

  /** `set_playlist`: the catalog guard, the listing, the scan, and the
      creation of a playlist under the target name when none matched. */
  function Resolve(user: User, target: string, catalog: Catalog, now: Instant): (r: Result<Resolution, Error>)
    ensures !Spotify.Connected(user) ==> r == Failure(ValueError(Spotify.NotConnected))
    ensures r.Success? ==> catalog.playlists.Success?
    ensures r.Success? && r.value.created ==>
              r.value.tracks == [] && forall k :: 0 <= k < |catalog.playlists.value| ==>
                                        !NameIs(catalog.playlists.value[k], target)
    ensures r.Success? && r.value.created ==> catalog.create(target, SessionDescription) == Success(r.value.playlist)
    ensures r.Success? && !r.value.created ==>
              NameIs(r.value.playlist, target) && r.value.playlist in catalog.playlists.value
    ensures r.Success? && !r.value.created ==>
              exists k :: 0 <= k < |catalog.playlists.value| && catalog.playlists.value[k] == r.value.playlist
                          && forall j :: k < j < |catalog.playlists.value| ==> !NameIs(catalog.playlists.value[j], target)
  {
    if !Spotify.Connected(user) then Failure(ValueError(Spotify.NotConnected))
    else
      var listed :- catalog.playlists;
      var found :- Scan(listed, target, catalog.fetch, now);
      ScanChoosesLastMatch(listed, target, catalog.fetch, now);
      if found.0.Some? then Success(Resolution(found.0.value, found.1, false))
      else if "id" !in user.connections[Spotify.ConnectionKey].info then Failure(KeyError("id"))
      else
        var made :- catalog.create(target, SessionDescription);
        Success(Resolution(made, [], true))
  }

  /** A scan that succeeds picks the LAST listed playlist with the target
      name, and picks none exactly when no listed playlist has that name;
      with no pick there are no tracks. */
  lemma {:induction false} ScanChoosesLastMatch(ps: seq<map<string, string>>, target: string,
                                               fetch: string -> Result<seq<Spotify.TrackJson>, Error>, now: Instant)
    requires Scan(ps, target, fetch, now).Success?
    ensures var found := Scan(ps, target, fetch, now).value;
            (found.0.None? <==> forall k :: 0 <= k < |ps| ==> !NameIs(ps[k], target))
            && (found.0.None? ==> found.1 == [])
            && (found.0.Some? ==> exists k :: 0 <= k < |ps| && ps[k] == found.0.value && NameIs(ps[k], target)
                                             && forall j :: k < j < |ps| ==> !NameIs(ps[j], target))
    decreases |ps|
  {
    if ps != [] {
      var init := ps[..|ps| - 1];
      var p := ps[|ps| - 1];
      ScanChoosesLastMatch(init, target, fetch, now);
      assert forall k :: 0 <= k < |init| ==> ps[k] == init[k];
      var found := Scan(ps, target, fetch, now).value;
      if NameIs(p, target) {
        assert found.0 == Some(p);
      } else {
        assert found == Scan(init, target, fetch, now).value;
        if found.0.Some? {
          var k :| 0 <= k < |init| && init[k] == found.0.value && NameIs(init[k], target)
                   && forall j :: k < j < |init| ==> !NameIs(init[j], target);
          assert ps[k] == found.0.value && forall j :: k < j < |ps| ==> !NameIs(ps[j], target);
        }
      }
    }
  }

  /** Scanning two listings one after the other: the tracks of the second
      follow those of the first, and a match in the second overrides any
      match in the first. */
  lemma {:induction false} ScanAppend(ps: seq<map<string, string>>, qs: seq<map<string, string>>, target: string,
                                     fetch: string -> Result<seq<Spotify.TrackJson>, Error>, now: Instant)
    requires Scan(ps + qs, target, fetch, now).Success?
    ensures Scan(ps, target, fetch, now).Success? && Scan(qs, target, fetch, now).Success?
    ensures var whole := Scan(ps + qs, target, fetch, now).value;
            var first := Scan(ps, target, fetch, now).value;
            var second := Scan(qs, target, fetch, now).value;
            whole.1 == first.1 + second.1
            && whole.0 == (if second.0.Some? then second.0 else first.0)
    decreases |qs|
  {
    if qs == [] {
      assert ps + qs == ps;
    } else {
      var qInit := qs[..|qs| - 1];
      assert (ps + qs)[..|ps + qs| - 1] == ps + qInit;
      assert (ps + qs)[|ps + qs| - 1] == qs[|qs| - 1];
      ScanAppend(ps, qInit, target, fetch, now);
    }
  }

  /** An error in a prefix of the items is the error of the whole list. */
  lemma {:induction false} TracksFromStopsAtError(items: seq<Spotify.TrackJson>, i: nat, now: Instant)
    requires i <= |items| && TracksFrom(items[..i], now).Failure?
    ensures TracksFrom(items, now) == TracksFrom(items[..i], now)
    decreases |items| - i
  {
    if i < |items| {
      assert items[..i + 1][..i] == items[..i];
      TracksFromStopsAtError(items, i + 1, now);
    } else {
      assert items[..i] == items;
    }
  }

  /** An error in a prefix of the listing is the error of the whole scan. */
  lemma {:induction false} ScanStopsAtError(ps: seq<map<string, string>>, i: nat, target: string,
                                           fetch: string -> Result<seq<Spotify.TrackJson>, Error>, now: Instant)
    requires i <= |ps| && Scan(ps[..i], target, fetch, now).Failure?
    ensures Scan(ps, target, fetch, now) == Scan(ps[..i], target, fetch, now)
    decreases |ps| - i
  {
    if i < |ps| {
      assert ps[..i + 1][..i] == ps[..i];
      ScanStopsAtError(ps, i + 1, target, fetch, now);
    } else {
      assert ps[..i] == ps;
    }
  }

  // ----- Sessions -----

  /** One listening session. The queue, the invited users, the playback state
      and the theme keywords are the fields the source updates in place. */
  class Session {
    const sessionId: Uuid
    const name: string
    const initiator: User
    var invitedUsers: set<User>
    var queue: seq<QueueItem>
    var playbackState: PlaybackState
    const playlist: map<string, string>
    const createdAt: Instant
    var themeKeywords: seq<string>

    /** A session as `create_session` first builds it: nobody invited, an
        empty queue, playback at its defaults and no theme. */
    constructor(sessionId: Uuid, name: string, initiator: User, playlist: map<string, string>, now: Instant)
      ensures this.sessionId == sessionId && this.name == name && this.initiator == initiator
      ensures this.playlist == playlist && createdAt == now
      ensures invitedUsers == {} && queue == [] && playbackState == DefaultPlaybackState() && themeKeywords == []
    {
      this.sessionId := sessionId;
      this.name := name;
      this.initiator := initiator;
      this.playlist := playlist;
      createdAt := now;
      invitedUsers := {};
      queue := [];
      playbackState := DefaultPlaybackState();
      themeKeywords := [];
    }

    method AddUser(user: User)
      modifies this
      ensures invitedUsers == old(invitedUsers) + {user}
      ensures queue == old(queue) && playbackState == old(playbackState) && themeKeywords == old(themeKeywords)
    {
      invitedUsers := invitedUsers + {user};
    }

    /** Removes the user if invited; otherwise nothing happens. */
    method RemoveUser(user: User)
      modifies this
      ensures invitedUsers == old(invitedUsers) - {user}
      ensures queue == old(queue) && playbackState == old(playbackState) && themeKeywords == old(themeKeywords)
    {
      if user in invitedUsers {
        invitedUsers := invitedUsers - {user};
      }
    }

    /** `vote_track`: true exactly when the position is a slot of the queue,
        and then the vote lands on that item alone. */
    method VoteTrack(userId: Uuid, queuePosition: int, upvote: bool := true) returns (ok: bool)
      modifies this
      ensures (queue, ok) == VoteAt(old(queue), queuePosition, userId, upvote)
      ensures invitedUsers == old(invitedUsers) && playbackState == old(playbackState)
      ensures themeKeywords == old(themeKeywords)
    {
      if 0 <= queuePosition < |queue| {
        var item := queue[queuePosition];
        if upvote {
          item := item.(votes := item.votes + {userId});
        } else {
          item := item.(votes := item.votes - {userId});
        }
        queue := queue[queuePosition := item];
        return true;
      }
      return false;
    }
  }

  /** What `add_track_request` answers: `False` for an unknown session, and
      `None` (it falls off its end) once the request is queued. */
  datatype RequestReply = SessionMissing | Appended

  class SessionManager {
    var sessions: map<Uuid, Session>

    /** Every session is stored under its own id, and every queue has each
        item at its slot. */
    ghost predicate Valid()
      reads this, sessions.Values
    {
      forall id :: id in sessions ==> sessions[id].sessionId == id && Contiguous(sessions[id].queue)
    }

    constructor()
      ensures sessions == map[] && Valid()
    {
      sessions := map[];
    }

    /** `sessions.get(session_id)`; a session found carries the id it is
        stored under. */
    function GetSession(sessionId: Uuid): (r: Option<Session>)
      reads this, sessions.Values
      ensures r.Some? <==> sessionId in sessions
      ensures r.Some? ==> r.value == sessions[sessionId]
      ensures r.Some? && Valid() ==> r.value.sessionId == sessionId
    {
      if sessionId in sessions then Some(sessions[sessionId]) else None
    }

    /** The queue of a session, or an empty one for an unknown id; in a valid
        manager every queue handed out has each item at its slot. */
    function GetQueue(sessionId: Uuid): (q: seq<QueueItem>)
      reads this, sessions.Values
      ensures sessionId !in sessions ==> q == []
      ensures sessionId in sessions ==> q == sessions[sessionId].queue
      ensures Valid() ==> Contiguous(q)
    {
      if sessionId in sessions then sessions[sessionId].queue else []
    }

    /** The inner loop of `set_playlist`: builds the tracks of one fetched
        playlist in order, stopping at the first that cannot be built. */
    method BuildTracks(items: seq<Spotify.TrackJson>, now: Instant) returns (r: Result<seq<Track>, Error>)
      ensures r == TracksFrom(items, now)
    {
      var tracks: seq<Track> := [];
      var j := 0;
      while j < |items|
        invariant 0 <= j <= |items|
        invariant TracksFrom(items[..j], now) == Success(tracks)
      {
        assert items[..j + 1][..j] == items[..j] && items[..j + 1][j] == items[j];
        var t := Spotify.CreateTrack(items[j], now);
        if t.Failure? {
          TracksFromStopsAtError(items, j + 1, now);
          return Failure(t.error);
        }
        tracks := tracks + [t.value];
        j := j + 1;
      }
      assert items[..j] == items;
      return Success(tracks);
    }

    /** `set_playlist`, with the loop of the source over the listing. */
    method SetPlaylist(user: User, target: string, catalog: Catalog, now: Instant) returns (r: Result<Resolution, Error>)
      ensures r == Resolve(user, target, catalog, now)
    {
      if !Spotify.Connected(user) {
        return Failure(ValueError(Spotify.NotConnected));
      }
      if catalog.playlists.Failure? {
        return Failure(catalog.playlists.error);
      }
      var listed := catalog.playlists.value;
      var playlistTarget: Option<map<string, string>> := None;
      var tracks: seq<Track> := [];
      var i := 0;
      while i < |listed|
        invariant 0 <= i <= |listed|
        invariant Scan(listed[..i], target, catalog.fetch, now) == Success((playlistTarget, tracks))
      {
        var playlist := listed[i];
        assert listed[..i + 1][..i] == listed[..i] && listed[..i + 1][i] == playlist;
        if "name" !in playlist {
          ScanStopsAtError(listed, i + 1, target, catalog.fetch, now);
          return Failure(KeyError("name"));
        }
        if playlist["name"] == target {
          if "id" !in playlist {
            ScanStopsAtError(listed, i + 1, target, catalog.fetch, now);
            return Failure(KeyError("id"));
          }
          var songs := catalog.fetch(playlist["id"]);
          if songs.Failure? {
            ScanStopsAtError(listed, i + 1, target, catalog.fetch, now);
            return Failure(songs.error);
          }
          var more := BuildTracks(songs.value, now);
          if more.Failure? {
            ScanStopsAtError(listed, i + 1, target, catalog.fetch, now);
            return Failure(more.error);
          }
          tracks := tracks + more.value;
          playlistTarget := Some(playlist);
        }
        i := i + 1;
      }
      assert listed[..i] == listed;
      ScanChoosesLastMatch(listed, target, catalog.fetch, now);
      if playlistTarget.Some? {
        return Success(Resolution(playlistTarget.value, tracks, false));
      }
      if "id" !in user.connections[Spotify.ConnectionKey].info {
        return Failure(KeyError("id"));
      }
      var made := catalog.create(target, SessionDescription);
      if made.Failure? {
        return Failure(made.error);
      }
      return Success(Resolution(made.value, tracks, true));
    }

    /** `create_session`: resolves the playlist named like the session, seeds
        a fresh session's queue with its tracks and stores the session under
        its new id. A failure while resolving stores nothing. */
    method CreateSession(name: string, initiator: User, sessionId: Uuid, catalog: Catalog, now: Instant)
      returns (r: Result<Session, Error>)
      modifies this
      ensures var res := Resolve(initiator, name, catalog, now);
              res.Failure? ==> r == Failure(res.error) && sessions == old(sessions)
      ensures var res := Resolve(initiator, name, catalog, now);
              res.Success? ==>
                && r.Success? && fresh(r.value)
                && sessions == old(sessions)[sessionId := r.value]
                && r.value.sessionId == sessionId && r.value.name == name && r.value.initiator == initiator
                && r.value.playlist == res.value.playlist && r.value.createdAt == now
                && r.value.queue == Seeded(res.value.tracks, initiator, now)
                && r.value.invitedUsers == {} && r.value.playbackState == DefaultPlaybackState()
                && r.value.themeKeywords == []
      ensures old(Valid()) ==> Valid()
    {
      var res := SetPlaylist(initiator, name, catalog, now);
      if res.Failure? {
        return Failure(res.error);
      }
      var tracks := res.value.tracks;
      var session := new Session(sessionId, name, initiator, res.value.playlist, now);
      var i := 0;
      while i < |tracks|
        invariant 0 <= i <= |tracks|
        invariant session.queue == Seeded(tracks[..i], initiator, now)
        invariant session.invitedUsers == {} && session.playbackState == DefaultPlaybackState()
        invariant session.themeKeywords == [] && sessions == old(sessions)
      {
        var item := NewQueueItem(tracks[i], initiator, |session.queue|, now);
        item := item.(votes := item.votes + {initiator.userId});
        assert item == QueueItem(tracks[i], initiator, now, {initiator.userId}, i);
        assert forall k :: 0 <= k < i ==> tracks[..i + 1][k] == tracks[..i][k];
        assert Seeded(tracks[..i + 1], initiator, now) == Seeded(tracks[..i], initiator, now) + [item];
        session.queue := session.queue + [item];
        i := i + 1;
      }
      assert tracks[..i] == tracks;
      SeededQueue(tracks, initiator, now);
      sessions := sessions[sessionId := session];
      return Success(session);
    }

    /** `add_track_request`: for a known session, the arbiter is shown the
        queue and the track; then the request is appended at the tail with the
        requester as its voter. The arbiter's answer does not touch the queue;
        a failure to build the prompt or a raising arbiter leaves the queue as
        it was. `asked` is the prompt the arbiter was shown, if it was asked. */
    method AddTrackRequest(sessionId: Uuid, track: Track, requestedBy: User, arbiter: Outcome<Error>, now: Instant)
      returns (r: Result<RequestReply, Error>, asked: Option<Prompt>)
      modifies if sessionId in sessions then {sessions[sessionId]} else {}
      ensures sessionId !in sessions ==> r == Success(SessionMissing) && asked == None
      ensures sessionId in sessions ==>
                var s := sessions[sessionId];
                var q := old(s.queue);
                var p := PlacementPrompt(s.playlist, requestedBy, QueueContextOf(q, old(s.themeKeywords)), track);
                && (p.Failure? ==> r == Failure(p.error) && asked == None && s.queue == q)
                && (p.Success? ==> asked == Some(p.value))
                && (p.Success? && arbiter.Fail? ==> r == Failure(arbiter.error) && s.queue == q)
                && (p.Success? && arbiter.Pass? ==> r == Success(Appended) && s.queue == q + [Requested(track, requestedBy, q, now)])
      ensures sessionId in sessions ==>
                var s := sessions[sessionId];
                s.invitedUsers == old(s.invitedUsers) && s.playbackState == old(s.playbackState)
                && s.themeKeywords == old(s.themeKeywords)
      ensures old(Valid()) ==> Valid()
    {
      var found := GetSession(sessionId);
      if found.None? {
        return Success(SessionMissing), None;
      }
      var session := found.value;
      var item := NewQueueItem(track, requestedBy, |session.queue|, now);
      item := item.(votes := item.votes + {requestedBy.userId});
      var context := QueueContextOf(session.queue, session.themeKeywords);
      var prompt := PlacementPrompt(session.playlist, requestedBy, context, track);
      if prompt.Failure? {
        return Failure(prompt.error), None;
      }
      if arbiter.Fail? {
        return Failure(arbiter.error), Some(prompt.value);
      }
      assert item == Requested(track, requestedBy, session.queue, now);
      if old(Valid()) {
        RequestKeepsContiguous(session.queue, track, requestedBy, now);
      }
      session.queue := session.queue + [item];
      return Success(Appended), Some(prompt.value);
    }

    /** `_update_queue_positions`: sets each item's position to its index. */
    method UpdateQueuePositions(session: Session)
      modifies session
      ensures session.queue == Renumbered(old(session.queue))
      ensures session.invitedUsers == old(session.invitedUsers) && session.playbackState == old(session.playbackState)
      ensures session.themeKeywords == old(session.themeKeywords)
    {
      var i := 0;
      while i < |session.queue|
        invariant 0 <= i <= |session.queue| && |session.queue| == |old(session.queue)|
        invariant forall k :: 0 <= k < i ==> session.queue[k] == old(session.queue)[k].(position := k)
        invariant forall k :: i <= k < |session.queue| ==> session.queue[k] == old(session.queue)[k]
        invariant session.invitedUsers == old(session.invitedUsers) && session.playbackState == old(session.playbackState)
        invariant session.themeKeywords == old(session.themeKeywords)
      {
        session.queue := session.queue[i := session.queue[i].(position := i)];
        i := i + 1;
      }
    }

    /** `remove_track`: false for an unknown session or a position at or past
        the end; otherwise `list.pop` (a negative position counts from the end,
        one before the start raises `IndexError`) and the renumbering. */
    method RemoveTrack(sessionId: Uuid, position: int) returns (r: Result<bool, Error>)
      modifies if sessionId in sessions then {sessions[sessionId]} else {}
      ensures sessionId !in sessions ==> r == Success(false)
      ensures sessionId in sessions ==>
                var s := sessions[sessionId];
                var q := old(s.queue);
                && (position >= |q| ==> r == Success(false) && s.queue == q)
                && (position < -|q| ==> r == Failure(IndexError) && s.queue == q)
                && (-|q| <= position < |q| ==>
                      r == Success(true) && s.queue == Renumbered(RemoveAt(q, PopIndex(|q|, position).value)))
      ensures sessionId in sessions ==>
                var s := sessions[sessionId];
                s.invitedUsers == old(s.invitedUsers) && s.playbackState == old(s.playbackState)
                && s.themeKeywords == old(s.themeKeywords)
      ensures old(Valid()) ==> Valid()
    {
      var found := GetSession(sessionId);
      if found.None? || position >= |found.value.queue| {
        return Success(false);
      }
      var session := found.value;
      var index := PopIndex(|session.queue|, position);
      if index.None? {
        return Failure(IndexError);
      }
      session.queue := RemoveAt(session.queue, index.value);
      UpdateQueuePositions(session);
      RenumberedIsContiguous(session.queue);
      return Success(true);
    }
  }
}
