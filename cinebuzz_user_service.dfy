/** CineBuzz's `UserService`: list, find, add, update and delete users. An
    update copies the account fields but not the notification
    preferences. */
module CineBuzzUserService {
  import opened Wrappers
  import opened Tables
  import opened CineBuzzModels

  /** The user `UpdateUserAsync` stores: the new Email, Username, FirstName,
      LastName and Password; Id and NotificationPreference as they were. */
  function UpdatedUser(existing: User, incoming: User): (r: User)
    ensures r == incoming.(id := existing.id, notificationPreference := existing.notificationPreference)
  {
    existing.(email := incoming.email, username := incoming.username, firstName := incoming.firstName,
              lastName := incoming.lastName, password := incoming.password)
  }

  class UserService {
    const db: CineBuzzDbContext

    constructor (context: CineBuzzDbContext)
      ensures db == context
    {
      db := context;
    }

    /** Every stored user, in store order. */
    function GetAllUsersAsync(): (r: seq<User>)
      reads db
      ensures |r| == |db.users| && forall i :: 0 <= i < |r| ==> r[i] == db.users[i]
    {
      db.users
    }

    /** The user with id `id`, or None. */
    function GetUserByIdAsync(id: int): (r: Option<User>)
      reads db
      ensures r.Some? ==> r.value.id == id && r.value in db.users
      ensures r.None? <==> forall u :: u in db.users ==> u.id != id
    {
      Find(db.users, UserKey, id)
    }

    /** Stores `user` (under a generated id when its Id is 0) and returns
        it; an id already in use makes the save fail. */
    method AddUserAsync(user: User) returns (r: Result<User, StoreError>)
      requires db.Valid()
      modifies db`users
      ensures db.Valid()
      ensures ChooseKey(old(db.users), UserKey, user.id).None? ==>
        r == Failure(DuplicateKey) && db.users == old(db.users)
      ensures ChooseKey(old(db.users), UserKey, user.id).Some? ==>
        && r.Success?
        && r.value == user.(id := ChooseKey(old(db.users), UserKey, user.id).value)
        && db.users == old(db.users) + [r.value]
        && |db.users| == |old(db.users)| + 1
        && GetUserByIdAsync(r.value.id) == Some(r.value)
    {
      var key := ChooseKey(db.users, UserKey, user.id);
      if key.None? {
        return Failure(DuplicateKey);
      }
      var stored := user.(id := key.value);
      AppendFind(db.users, UserKey, stored);
      AppendUnique(db.users, UserKey, stored);
      db.users := db.users + [stored];
      r := Success(stored);
    }

    /** Overwrites the account fields of user `id` and returns it; None and
        no change when there is no such user. */
    method UpdateUserAsync(id: int, user: User) returns (r: Option<User>)
      requires db.Valid()
      modifies db`users
      ensures db.Valid()
      ensures KeyAbsent(old(db.users), UserKey, id) ==> r.None? && db.users == old(db.users)
      ensures !KeyAbsent(old(db.users), UserKey, id) ==>
        var i := IndexOf(old(db.users), UserKey, id).value;
        && r == Some(UpdatedUser(old(db.users)[i], user))
        && db.users == old(db.users)[i := r.value]
      ensures r.Some? ==> GetUserByIdAsync(id) == r
      ensures forall k :: k != id ==> GetUserByIdAsync(k) == old(GetUserByIdAsync(k))
    {
      var found := IndexOf(db.users, UserKey, id);
      if found.None? {
        return None;
      }
      var i := found.value;
      var existing := db.users[i];
      existing := existing.(email := user.email);
      existing := existing.(username := user.username);
      existing := existing.(firstName := user.firstName);
      existing := existing.(lastName := user.lastName);
      existing := existing.(password := user.password);
      ReplaceFind(db.users, UserKey, i, existing);
      db.users := db.users[i := existing];
      r := Some(existing);
    }

    /** Deletes user `id` if it exists; otherwise does nothing. */
    method DeleteUserAsync(id: int)
      requires db.Valid()
      modifies db`users
      ensures db.Valid()
      ensures KeyAbsent(old(db.users), UserKey, id) ==> db.users == old(db.users)
      ensures !KeyAbsent(old(db.users), UserKey, id) ==>
        db.users == RemoveAt(old(db.users), IndexOf(old(db.users), UserKey, id).value)
      ensures GetUserByIdAsync(id).None?
      ensures forall k :: k != id ==> GetUserByIdAsync(k) == old(GetUserByIdAsync(k))
    {
      var found := IndexOf(db.users, UserKey, id);
      if found.Some? {
        RemoveFind(db.users, UserKey, id, found.value);
        db.users := RemoveAt(db.users, found.value);
      }
    }
  }
}
