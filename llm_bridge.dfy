/** The bridge through which the language model calls the catalog
    (src/llm/llm_bridge.py): the fixed list of callable functions, the guard
    that refuses any other name and resolves a `username` argument to a user
    of the directory, and the summary of a track handed back to the model.

    The final dispatch (`getattr` on the provider) is not part of this model:
    `ExecuteFunction` returns the call it would dispatch. */
module LlmBridge {
  import opened Wrappers
  import opened Errors
  import opened Components
  import opened Strings
  import opened Users
  import Spotify

  /** One function schema offered to the model: its name, the parameters it
      declares and those among them it requires. The descriptions are left
      out. */
  datatype Schema = Schema(name: string, parameters: seq<string>, required: seq<string>)

  /** The schemas, in the order they are offered. `create_playlist` is
      commented out in the source and so is not among them. */
  function Schemas(): seq<Schema>
  {
    [ Schema("search_tracks", ["query", "limit"], ["query"]),
      Schema("get_track", ["track_id"], ["track_id"]),
      Schema("get_artist", ["artist_id"], ["artist_id"]),
      Schema("get_user_playlists", ["username"], ["username"]),
      Schema("add_tracks_to_playlist", ["playlist_id", "track_uris"], ["playlist_id", "track_uris"]),
      Schema("set_playlist_track_order", ["playlist_id", "track_sequence", "insert_at_track"],
             ["playlist_id", "track_sequence", "insert_at_track"]) ]
  }

  /** `[schema["name"] for schema in schemas]`. */
  function SchemaNames(schemas: seq<Schema>): (names: seq<string>)
    ensures |names| == |schemas|
    ensures forall k :: 0 <= k < |schemas| ==> names[k] == schemas[k].name
  {
    if schemas == [] then [] else [schemas[0].name] + SchemaNames(schemas[1..])
  }

  /** The names the guard accepts. */
  function FunctionNames(): seq<string>
  {
    SchemaNames(Schemas())
  }

  /** Exactly six names are callable, and `create_playlist` is not one. */
  lemma CallableNames()
    ensures FunctionNames() == ["search_tracks", "get_track", "get_artist", "get_user_playlists",
                                "add_tracks_to_playlist", "set_playlist_track_order"]
    ensures "create_playlist" !in FunctionNames()
  {
  }

  /** Every schema requires only parameters it declares, and only
      `get_user_playlists` takes a `username`. */
  lemma SchemasAreWellFormed()
    ensures forall k, p :: 0 <= k < |Schemas()| && p in Schemas()[k].required ==> p in Schemas()[k].parameters
    ensures forall k :: 0 <= k < |Schemas()| && "username" in Schemas()[k].parameters ==>
                          Schemas()[k].name == "get_user_playlists"
  {
  }

  /** The values a call from the model carries, as the schemas declare them:
      strings, integers, booleans and lists of strings. */
  datatype ArgValue = Text(text: string) | Number(number: int) | Flag(flag: bool) | Texts(texts: seq<string>)

  /** An argument of the dispatched call: a value passed on as given, or the
      user a `username` was resolved to. */
  datatype Argument = Given(value: ArgValue) | Resolved(user: User)

  /** The call the bridge dispatches: a provider operation and its keyword
      arguments. */
  datatype Dispatch = Dispatch(name: string, arguments: map<string, Argument>)

  /** Python's `str` of a list of strings, each element in single quotes. */
  function ShowTexts(texts: seq<string>): string
  {
    if texts == [] then ""
    else if |texts| == 1 then "'" + texts[0] + "'"
    else "'" + texts[0] + "', " + ShowTexts(texts[1..])
  }

  /** Python's `str` of an argument value, as an f-string renders it. */
  function Show(v: ArgValue): string
  {
    match v
    case Text(s) => s
    case Number(n) => IntToString(n)
    case Flag(b) => if b then "True" else "False"
    case Texts(ss) => "[" + ShowTexts(ss) + "]"
  }

  function UnknownFunction(name: string): Error
  {
    ValueError("Unknown function: " + name)
  }

  function UserNotFound(v: ArgValue): Error
  {
    ValueError("User not found: " + Show(v))
  }

  /** The arguments passed on unchanged. */
  function Passed(kwargs: map<string, ArgValue>): (args: map<string, Argument>)
    ensures args.Keys == kwargs.Keys
    ensures forall k :: k in kwargs ==> args[k] == Given(kwargs[k])
  {
    map k | k in kwargs :: Given(kwargs[k])
  }

  /** A `username` value names a user of the directory: a string equal to
      some user's username (a value of any other type never compares equal). */
  ghost predicate Names(users: set<User>, v: ArgValue)
  {
    v.Text? && Taken(users, v.text)
  }

  /** `args` is `kwargs` with `username` taken out and `user` set to a user of
      the directory who has that username; everything else passes unchanged. */
  ghost predicate Rewritten(kwargs: map<string, ArgValue>, args: map<string, Argument>, users: set<User>)
  {
    && "username" in kwargs && kwargs["username"].Text?
    && args.Keys == kwargs.Keys - {"username"} + {"user"}
    && args["user"].Resolved?
    && args["user"].user in users
    && args["user"].user.username == kwargs["username"].text
    && forall k :: k in kwargs && k != "username" && k != "user" ==> args[k] == Given(kwargs[k])
  }

  /** `execute_function` up to the dispatch: an unknown name is refused before
      anything is looked up; a `username` is replaced by the user it names, or
      refused when it names nobody; every other argument is passed through. */
  method ExecuteFunction(functionName: string, directory: UserManager, kwargs: map<string, ArgValue>)
    returns (r: Result<Dispatch, Error>)
    ensures functionName !in FunctionNames() ==> r == Failure(UnknownFunction(functionName))
    ensures functionName in FunctionNames() && "username" !in kwargs ==>
              r == Success(Dispatch(functionName, Passed(kwargs)))
    ensures functionName in FunctionNames() && "username" in kwargs && !Names(directory.users, kwargs["username"]) ==>
              r == Failure(UserNotFound(kwargs["username"]))
    ensures functionName in FunctionNames() && "username" in kwargs && Names(directory.users, kwargs["username"]) ==>
              r.Success? && r.value.name == functionName && Rewritten(kwargs, r.value.arguments, directory.users)
  {
    if functionName !in FunctionNames() {
      return Failure(UnknownFunction(functionName));
    }
    var args := Passed(kwargs);
    if "username" in kwargs {
      var username := kwargs["username"];
      args := map k | k in args && k != "username" :: args[k];
      var found: Option<User> := None;
      if username.Text? {
        found := directory.GetUserByUsername(username.text);
      }
      if found.None? {
        return Failure(UserNotFound(username));
      }
      args := args["user" := Resolved(found.value)];
    }
    return Success(Dispatch(functionName, args));
  }

  /** The fields of a track handed back to the model. */
  datatype TrackSummary = TrackSummary(id: string, name: string, artists: Artist, album: Option<string>, durationMs: int)

  /** `format_track_response`: a projection of the track, its album reduced to
      the album's title. */
  function FormatTrackResponse(t: Track): (s: TrackSummary)
    ensures s.id == t.trackId && s.name == t.title && s.artists == t.artist && s.durationMs == t.durationMs
    ensures s.album.Some? <==> t.album.Some?
    ensures t.album.Some? ==> s.album.value == t.album.value.title
  {
    TrackSummary(t.trackId, t.title, t.artist, if t.album.Some? then Some(t.album.value.title) else None, t.durationMs)
  }

  /** The summary of a track read from the catalog carries the catalog's own
      id, name, duration and album name. */
  lemma SummaryOfCatalogTrack(j: Spotify.TrackJson, now: Instant)
    requires Spotify.CreateTrack(j, now).Success?
    ensures var s := FormatTrackResponse(Spotify.CreateTrack(j, now).value);
            j.id == Some(s.id) && j.name == Some(s.name) && j.durationMs == Some(s.durationMs)
            && j.album.Some? && s.album.Some? && j.album.value.name == Some(s.album.value)
  {
  }
}
