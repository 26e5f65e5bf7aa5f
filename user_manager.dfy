/** The in-memory user directory (src/user/user_manager.py): a set of users
    in which no two share a username, looked up by username or by id.

    The JSON cache behind the set, the password hashing and the interactive
    prompts are not part of this model: the constructor receives the users the
    cache held, and `CreateUser` receives the already hashed password, the new
    id and the clock reading as parameters. */
module Users {
  import opened Wrappers
  import opened Errors
  import opened Components

  /** Some user of `users` goes by `name`. */
  ghost predicate Taken(users: set<User>, name: string)
  {
    exists u :: u in users && u.username == name
  }

  /** No two distinct users of the set share a username. */
  ghost predicate UniqueUsernames(users: set<User>)
  {
    forall a, b :: a in users && b in users && a.username == b.username ==> a == b
  }

  /** The error `add_user` raises for a username already in use. */
  function AlreadyExists(name: string): Error
  {
    ValueError("User with username '" + name + "' already exists")
  }

  /** The error `create_user` raises for a username already in use. */
  function AlreadyTaken(name: string): Error
  {
    ValueError("Username '" + name + "' is already taken")
  }

  /** Adding a user whose username is free keeps the usernames unique. */
  lemma AddKeepsUsernamesUnique(users: set<User>, user: User)
    requires UniqueUsernames(users) && !Taken(users, user.username)
    ensures UniqueUsernames(users + {user})
  {
  }

  /** Removing users never breaks uniqueness. */
  lemma RemoveKeepsUsernamesUnique(users: set<User>, user: User)
    requires UniqueUsernames(users)
    ensures UniqueUsernames(users - {user})
  {
  }

  /** In a directory with unique usernames, a username names at most one
      user, so a lookup by username has only one possible answer. */
  lemma UsernameDeterminesUser(users: set<User>, a: User, b: User)
    requires UniqueUsernames(users) && a in users && b in users
    ensures a.username == b.username <==> a == b
  {
  }

  /** The cache file maps each user's username to that user, so the users it
      holds have unique usernames. */
  lemma CacheKeyedByUsername(cache: map<string, User>)
    requires forall name :: name in cache ==> cache[name].username == name
    ensures UniqueUsernames(cache.Values)
  {
    forall a, b | a in cache.Values && b in cache.Values && a.username == b.username
      ensures a == b
    {
      var ka :| ka in cache && cache[ka] == a;
      var kb :| kb in cache && cache[kb] == b;
    }
  }

  /** The user `create_user` builds: no display name, the given permissions
      or none (`permissions or set()`), created and active now, and linked to
      no website. */
  function Registered(userId: Uuid, username: string, email: string, hashedPassword: string,
                      permissions: Option<set<Permission>>, now: Instant): (u: User)
    ensures u.userId == userId && u.username == username && u.email == email
    ensures u.hashedPassword == hashedPassword
    ensures u.permissions == (if permissions.Some? then permissions.value else {})
    ensures u.createdAt == now && u.lastActive == now && u.isActive && u.connections == map[]
  {
    var granted := if permissions.Some? then permissions.value else {};
    User(userId, username, "", email, hashedPassword, granted, now, now, true, map[])
  }

  class UserManager {
    var users: set<User>

    /** The directory invariant that `add_user` and `create_user` keep. */
    ghost predicate Valid()
      reads this
    {
      UniqueUsernames(users)
    }

    /** A directory holding the users read from its cache; it is valid
        whenever the cache is, as every cache `_write_user_cache` writes is
        (`CacheKeyedByUsername`). */
    constructor(cached: set<User>)
      ensures users == cached
      ensures UniqueUsernames(cached) ==> Valid()
    {
      users := cached;
    }

    /** The first user with the given username, in whatever order the set is
        walked; `None` exactly when nobody has that username. */
    method GetUserByUsername(name: string) returns (r: Option<User>)
      ensures r.Some? ==> r.value in users && r.value.username == name
      ensures r.None? <==> forall u :: u in users ==> u.username != name
      ensures r.Some? && Valid() ==> forall u :: u in users && u.username == name ==> u == r.value
    {
      var remaining := users;
      while remaining != {}
        invariant remaining <= users
        invariant forall u :: u in users - remaining ==> u.username != name
        decreases |remaining|
      {
        var u :| u in remaining;
        if u.username == name {
          return Some(u);
        }
        remaining := remaining - {u};
      }
      return None;
    }

    /** The first user with the given id; `None` exactly when no user has it. */
    method GetUserById(userId: Uuid) returns (r: Option<User>)
      ensures r.Some? ==> r.value in users && r.value.userId == userId
      ensures r.None? <==> forall u :: u in users ==> u.userId != userId
    {
      var remaining := users;
      while remaining != {}
        invariant remaining <= users
        invariant forall u :: u in users - remaining ==> u.userId != userId
        decreases |remaining|
      {
        var u :| u in remaining;
        if u.userId == userId {
          return Some(u);
        }
        remaining := remaining - {u};
      }
      return None;
    }

    /** Adds `user` unless its username is already in use, in which case the
        directory is left as it was and a `ValueError` is raised. */
    method AddUser(user: User) returns (r: Outcome<Error>)
      modifies this
      ensures Taken(old(users), user.username) ==> r == Fail(AlreadyExists(user.username)) && users == old(users)
      ensures !Taken(old(users), user.username) ==> r == Pass && users == old(users) + {user}
      ensures old(Valid()) ==> Valid()
    {
      var existing := GetUserByUsername(user.username);
      if existing.Some? {
        return Fail(AlreadyExists(user.username));
      }
      users := users + {user};
      if old(Valid()) {
        AddKeepsUsernamesUnique(old(users), user);
      }
      return Pass;
    }

    /** Removes `user`; removing a user who is not there is an error, as with
        `set.remove`. */
    method RemoveUser(user: User) returns (r: Outcome<Error>)
      modifies this
      ensures user in old(users) ==> r == Pass && users == old(users) - {user}
      ensures user !in old(users) ==> r == Fail(MissingElement) && users == old(users)
      ensures old(Valid()) ==> Valid()
    {
      if user !in users {
        return Fail(MissingElement);
      }
      users := users - {user};
      return Pass;
    }

    /** Registers a new user under a free username and returns it; a taken
        username is refused before anything is built. */
    method CreateUser(username: string, email: string, hashedPassword: string,
                      permissions: Option<set<Permission>>, userId: Uuid, now: Instant)
      returns (r: Result<User, Error>)
      modifies this
      ensures Taken(old(users), username) ==> r == Failure(AlreadyTaken(username)) && users == old(users)
      ensures !Taken(old(users), username) ==>
                var u := Registered(userId, username, email, hashedPassword, permissions, now);
                r == Success(u) && users == old(users) + {u}
      ensures old(Valid()) ==> Valid()
    {
      var existing := GetUserByUsername(username);
      if existing.Some? {
        return Failure(AlreadyTaken(username));
      }
      var user := Registered(userId, username, email, hashedPassword, permissions, now);
      var _ := AddUser(user);
      return Success(user);
    }
  }
}
