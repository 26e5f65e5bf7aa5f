/** The records shared by the session engine, the catalog provider, the user
    directory and the function bridge (src/music/components.py).

    The dataclasses of the source are values here. Three of them are completed
    where their callers already rely on more than the declarations give:
    `User` carries the `connections` map and the directory's `email` and
    `hashed_password`, `Track` carries the `uri` the provider fills in, and
    `QueueItem` and `PlaybackState` get the defaults their callers assume. */
module Components {
  import opened Wrappers

  /** A UUID, as an opaque identifier. */
  type Uuid = nat

  /** A `datetime`, as a reading of an integer clock in seconds. */
  type Instant = int

  /** The five access rights of a user; `auto()` numbers them 1 to 5. */
  datatype Permission = EditQueue | ControlPlayback | ControlVolume | ManagePlaylists | Admin

  /** The value `auto()` gives each member, in declaration order. */
  function PermissionValue(p: Permission): (n: nat)
    ensures 1 <= n <= 5
  {
    match p
    case EditQueue => 1
    case ControlPlayback => 2
    case ControlVolume => 3
    case ManagePlaylists => 4
    case Admin => 5
  }

  /** Every member of the enumeration. */
  function AllPermissions(): set<Permission>
  {
    {EditQueue, ControlPlayback, ControlVolume, ManagePlaylists, Admin}
  }

  /** The enumeration has exactly five members, and `AllPermissions` lists
      each of them. */
  lemma {:induction false} AllPermissionsComplete(p: Permission)
    ensures p in AllPermissions() && |AllPermissions()| == 5
  {
    match p
    case EditQueue =>
    case ControlPlayback =>
    case ControlVolume =>
    case ManagePlaylists =>
    case Admin =>
  }

  /** Distinct members have distinct values, so the five are all different. */
  lemma PermissionValuesDistinct(p: Permission, q: Permission)
    ensures PermissionValue(p) == PermissionValue(q) <==> p == q
  {
  }

  /** One linked account of a user: the credential obtained for one website,
      and the account information the website reported (its `id` above all). */
  datatype UserToken = UserToken(
    website: string,
    accessToken: string,
    refreshToken: string,
    tokenExpiry: Instant,
    info: map<string, string>)

  datatype User = User(
    userId: Uuid,
    username: string,
    displayName: string,
    email: string,
    hashedPassword: string,
    permissions: set<Permission>,
    createdAt: Instant,
    lastActive: Instant,
    isActive: bool,
    connections: map<string, UserToken>)

  /** A user built from the declared fields alone: active, and not yet linked
      to any website. */
  function NewUser(userId: Uuid, username: string, displayName: string,
                   permissions: set<Permission>, createdAt: Instant, lastActive: Instant): (u: User)
    ensures u.isActive && u.connections == map[]
    ensures u.userId == userId && u.username == username && u.permissions == permissions
  {
    User(userId, username, displayName, "", "", permissions, createdAt, lastActive, true, map[])
  }

  datatype Artist = Artist(
    artistId: string,
    name: string,
    genres: seq<string>,
    imageUrl: Option<string>)

  datatype Track = Track(
    trackId: string,
    title: string,
    artist: Artist,
    durationMs: int,
    uri: string,
    album: Option<Album>,
    explicit: bool,
    previewUrl: Option<string>,
    externalUrl: Option<string>,
    popularity: Option<int>,
    isPlayable: bool)

  datatype Album = Album(
    albumId: string,
    title: string,
    artist: Artist,
    releaseDate: Instant,
    tracks: seq<Track>,
    albumType: string,
    totalTracks: int,
    imageUrl: Option<string>,
    genres: Option<seq<string>>)

  /** A track built from its required fields, every other field at its default. */
  function NewTrack(trackId: string, title: string, artist: Artist, durationMs: int, uri: string): (t: Track)
    ensures t.album == None && !t.explicit && t.previewUrl == None && t.externalUrl == None
    ensures t.popularity == None && t.isPlayable
    ensures t.trackId == trackId && t.title == title && t.artist == artist && t.durationMs == durationMs
  {
    Track(trackId, title, artist, durationMs, uri, None, false, None, None, None, true)
  }

  datatype PlaybackState = PlaybackState(
    isPlaying: bool,
    positionMs: int,
    volumePercent: int,
    repeatMode: string,
    shuffleMode: bool)

  /** The state `PlaybackState()` stands for: stopped at the start, volume
      zero, repeat off, shuffle off. */
  function DefaultPlaybackState(): (p: PlaybackState)
    ensures !p.isPlaying && p.positionMs == 0 && !p.shuffleMode && p.repeatMode == "off"
  {
    PlaybackState(false, 0, 0, "off", false)
  }

  /** One request in a session queue. `votes` holds the ids of the users who
      voted for it; being a set, it counts each voter once. `position` is the
      slot the item is meant to occupy in its queue. */
  datatype QueueItem = QueueItem(
    track: Track,
    requestedBy: User,
    requestedAt: Instant,
    votes: set<Uuid>,
    position: int)

  /** A queue item as its callers construct it: no votes yet, requested now. */
  function NewQueueItem(track: Track, requestedBy: User, position: int, now: Instant): (q: QueueItem)
    ensures q.votes == {} && q.requestedAt == now
    ensures q.track == track && q.requestedBy == requestedBy && q.position == position
  {
    QueueItem(track, requestedBy, now, {}, position)
  }
}
