/** MovieReviewApi's `UsersController`: a list of users held in memory
    (one list for the whole process), with ids assigned on creation as one
    more than the largest id in use, or 1 for the first user. */
module MovieReviewUsersController {
  import opened Wrappers
  import opened Tables
  import opened MovieReviewModels

  /** The largest id in a non-empty list of users. */
  function MaxId(users: seq<User>): (m: int)
    requires |users| > 0
    ensures forall i :: 0 <= i < |users| ==> users[i].id <= m
    ensures exists i :: 0 <= i < |users| && users[i].id == m
  {
    if |users| == 1 then users[0].id
    else
      var rest := MaxId(users[1..]);
      assert forall i :: 1 <= i < |users| ==> users[i] == users[1..][i - 1];
      if users[0].id >= rest then users[0].id else rest
  }

  /** The id `CreateUser` gives a new user. */
  function NextUserId(users: seq<User>): int
  {
    if |users| > 0 then MaxId(users) + 1 else 1
  }

  /** A new id is larger than every id in the list, so appending the new
      user keeps ids unique; the first user gets 1. */
  lemma NextUserIdIsFresh(users: seq<User>, user: User)
    requires UniqueKeys(users, UserKey)
    ensures forall i :: 0 <= i < |users| ==> users[i].id < NextUserId(users)
    ensures users == [] ==> NextUserId(users) == 1
    ensures UniqueKeys(users + [user.(id := NextUserId(users))], UserKey)
  {
    AppendUnique(users, UserKey, user.(id := NextUserId(users)));
  }

  /** The user `UpdateUser` leaves in place: every field of `updated`
      except the id, which stays. */
  function UpdatedUser(existing: User, updated: User): (r: User)
    ensures r == updated.(id := existing.id)
  {
    existing.(email := updated.email, username := updated.username, firstName := updated.firstName,
              lastName := updated.lastName, password := updated.password,
              notificationPreference := updated.notificationPreference)
  }

  class UsersController {
    var users: seq<User>

    /** Ids stay unique: each comes from `NextUserId`. */
    ghost predicate Valid()
      reads this
    {
      UniqueKeys(users, UserKey)
    }

    constructor ()
      ensures Valid() && users == []
    {
      users := [];
    }

    /** Every user, in creation order. */
    function GetUsers(): (r: Response<seq<User>>)
      reads this
      ensures r.Ok? && |r.value| == |users| && forall i :: 0 <= i < |users| ==> r.value[i] == users[i]
    {
      Ok(users)
    }

    /** The user with id `id`, or NotFound. */
    function GetUser(id: int): (r: Response<User>)
      reads this
      ensures r == NotFound("") <==> KeyAbsent(users, UserKey, id)
      ensures r.Ok? ==> r.value.id == id && r.value in users
      ensures r.Ok? || r == NotFound("")
    {
      match Find(users, UserKey, id)
      case None => NotFound("")
      case Some(user) => Ok(user)
    }

    /** Gives `newUser` the next id, appends it and answers Created. */
    method CreateUser(newUser: User) returns (response: Response<User>)
      requires Valid()
      modifies this
      ensures Valid()
      ensures response == Created(newUser.(id := NextUserId(old(users))))
      ensures users == old(users) + [response.value]
      ensures forall i :: 0 <= i < |old(users)| ==> old(users)[i].id < response.value.id
      ensures GetUser(response.value.id) == Ok(response.value)
    {
      NextUserIdIsFresh(users, newUser);
      var user := newUser.(id := NextUserId(users));
      AppendFind(users, UserKey, user);
      users := users + [user];
      response := Created(user);
    }

    /** Overwrites every field of user `id` but its id, in place; NotFound
        and no change when there is no such user. */
    method UpdateUser(id: int, updatedUser: User) returns (response: Response<User>)
      requires Valid()
      modifies this
      ensures Valid()
      ensures KeyAbsent(old(users), UserKey, id) ==> response == NotFound("") && users == old(users)
      ensures !KeyAbsent(old(users), UserKey, id) ==>
        var i := IndexOf(old(users), UserKey, id).value;
        && response == NoContent
        && users == old(users)[i := UpdatedUser(old(users)[i], updatedUser)]
        && GetUser(id) == Ok(updatedUser.(id := id))
    {
      var found := IndexOf(users, UserKey, id);
      if found.None? {
        return NotFound("");
      }
      var i := found.value;
      var user := users[i];
      user := user.(email := updatedUser.email);
      user := user.(username := updatedUser.username);
      user := user.(firstName := updatedUser.firstName);
      user := user.(lastName := updatedUser.lastName);
      user := user.(password := updatedUser.password);
      user := user.(notificationPreference := updatedUser.notificationPreference);
      ReplaceFind(users, UserKey, i, user);
      users := users[i := user];
      response := NoContent;
    }

    /** Removes user `id`, after which `GetUser(id)` answers NotFound;
        NotFound and no change when there is no such user. */
    method DeleteUser(id: int) returns (response: Response<User>)
      requires Valid()
      modifies this
      ensures Valid()
      ensures KeyAbsent(old(users), UserKey, id) ==> response == NotFound("") && users == old(users)
      ensures !KeyAbsent(old(users), UserKey, id) ==>
        && response == NoContent
        && users == RemoveAt(old(users), IndexOf(old(users), UserKey, id).value)
      ensures GetUser(id) == NotFound("")
    {
      var found := IndexOf(users, UserKey, id);
      if found.None? {
        return NotFound("");
      }
      RemoveFind(users, UserKey, id, found.value);
      users := RemoveAt(users, found.value);
      response := NoContent;
    }
  }
}
