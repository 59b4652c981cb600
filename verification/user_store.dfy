/** The user table behind the authentication service. Its callers use
    `get_user_by_email`, `get_user_by_id`, `create_user` and
    `update_user_profile`, which `common/database.py` does not define, so they
    are given here the plainest meaning their names and callers suggest: a
    table in id order with an AUTOINCREMENT counter. */
module UserStore {
  import opened Wrappers
  import opened Entities
  import opened Seqs

  datatype StoredUser = StoredUser(
    id: int,
    email: string,
    name: Option<string>,
    avatarUrl: Option<string>,
    hashedPassword: string)

  datatype Users = Users(rows: seq<StoredUser>, nextId: int)

  const NoUsers: Users := Users([], 1)

  /** The response model `User`: the stored user without its password hash. */
  function Public(u: StoredUser): User {
    User(u.id, u.email, u.name, u.avatarUrl)
  }

  /** Ids increase in row order and lie below the counter. */
  ghost predicate ValidIds(db: Users) {
    && (forall i, j | 0 <= i < j < |db.rows| :: db.rows[i].id < db.rows[j].id)
    && (forall i | 0 <= i < |db.rows| :: db.rows[i].id < db.nextId)
  }

  /** No two users share an email. */
  ghost predicate UniqueEmails(db: Users) {
    forall i, j | 0 <= i < j < |db.rows| :: db.rows[i].email != db.rows[j].email
  }

  ghost predicate Valid(db: Users) {
    ValidIds(db) && UniqueEmails(db)
  }

  function GetUserByEmail(db: Users, email: string): Option<StoredUser> {
    FindFirst(db.rows, (u: StoredUser) => u.email == email)
  }

  function GetUserById(db: Users, id: int): Option<StoredUser> {
    FindFirst(db.rows, (u: StoredUser) => u.id == id)
  }

  datatype Created = Created(users: Users, user: StoredUser)

  /** `create_user`: a new row under the next id, with the given password hash. */
  function CreateUser(db: Users, email: string, hashedPassword: string): (r: Created)
    ensures r.user == StoredUser(db.nextId, email, None, None, hashedPassword)
    ensures r.users == Users(db.rows + [r.user], db.nextId + 1)
  {
    var user := StoredUser(db.nextId, email, None, None, hashedPassword);
    Created(Users(db.rows + [user], db.nextId + 1), user)
  }

  /** The fields a profile update may set; an absent field is left as it is. */
  datatype ProfileUpdate = ProfileUpdate(name: Option<string>, avatarUrl: Option<string>)

  function ApplyProfile(u: StoredUser, p: ProfileUpdate): StoredUser {
    u.(name := if p.name.Some? then p.name else u.name,
       avatarUrl := if p.avatarUrl.Some? then p.avatarUrl else u.avatarUrl)
  }

  datatype Updated = Updated(users: Users, user: Option<StoredUser>)

  /** `update_user_profile`: updates the row with id `id`, if there is one, and
      returns it; every other row is left alone. */
  function UpdateProfile(db: Users, id: int, p: ProfileUpdate): (r: Updated)
    ensures |r.users.rows| == |db.rows| && r.users.nextId == db.nextId
    ensures forall i | 0 <= i < |db.rows| && db.rows[i].id != id :: r.users.rows[i] == db.rows[i]
    ensures forall i | 0 <= i < |db.rows| && db.rows[i].id == id ::
      r.users.rows[i] == ApplyProfile(db.rows[i], p)
    ensures r.user.None? <==> GetUserById(db, id).None?
    ensures r.user.Some? ==> r.user.value == ApplyProfile(GetUserById(db, id).value, p)
  {
    var rows := seq(|db.rows|, i requires 0 <= i < |db.rows| =>
      if db.rows[i].id == id then ApplyProfile(db.rows[i], p) else db.rows[i]);
    var found := GetUserById(db, id);
    Updated(Users(rows, db.nextId), if found.Some? then Some(ApplyProfile(found.value, p)) else None)
  }

  /** A profile update keeps ids and emails, so it keeps the store valid. */
  lemma UpdateKeepsValid(db: Users, id: int, p: ProfileUpdate)
    requires Valid(db)
    ensures Valid(UpdateProfile(db, id, p).users)
  {
    var r := UpdateProfile(db, id, p).users;
    assert forall i | 0 <= i < |db.rows| :: r.rows[i].id == db.rows[i].id && r.rows[i].email == db.rows[i].email;
  }

  /** In a store with distinct ids, looking a stored user up by id finds it. */
  lemma FindStoredById(db: Users, k: nat)
    requires ValidIds(db) && k < |db.rows|
    ensures GetUserById(db, db.rows[k].id) == Some(db.rows[k])
  {
    FindFirstUnique(db.rows, k, (u: StoredUser) => u.id == db.rows[k].id);
  }
}
