/** The user records the notification engine and the profile and admin
    handlers read and write (the user directory). Only the fields those
    handlers touch are modelled. */
module Users {
  import opened Wrappers

  type UserId = nat

  /** `user.preferences`; `None` stands for a field that is absent or null in
      the stored document. */
  datatype Preferences = Preferences(theme: Option<string>, notifications: Option<bool>, emailReminders: Option<bool>)

  /** A user document. `None` stands for an absent or null field, and `preferences`
      is `None` when the document has no preferences object; an empty string is
      an unset string field. Times are milliseconds. */
  datatype User = User(
    id: UserId,
    email: string,
    password: string,
    role: string,
    isDeleted: bool,
    notificationsEnabled: Option<bool>,
    preferences: Option<Preferences>,
    preferredNotificationTime: string,
    firstName: string,
    lastName: string,
    bio: string,
    profilePicture: string,
    createdAt: int,
    updatedAt: int)

  /** No two documents share an id (MongoDB's `_id` is unique). */
  ghost predicate DistinctIds(users: seq<User>) {
    forall i, j :: 0 <= i < j < |users| ==> users[i].id != users[j].id
  }

  /** `findById`: the position of the document with the given id. */
  function IndexOf(users: seq<User>, id: UserId): (r: Option<nat>)
    ensures r.Some? ==> r.value < |users| && users[r.value].id == id
    ensures r.None? <==> forall u :: u in users ==> u.id != id
  {
    if users == [] then None
    else if users[0].id == id then Some(0)
    else match IndexOf(users[1..], id)
         case None => None
         case Some(k) => Some(k + 1)
  }

  /** `User.findById(id)`: the document, or null. */
  function FindById(users: seq<User>, id: UserId): (r: Option<User>)
    ensures r.Some? ==> r.value in users && r.value.id == id
    ensures r.None? <==> forall u :: u in users ==> u.id != id
  {
    match IndexOf(users, id)
    case None => None
    case Some(i) => Some(users[i])
  }

  /** With distinct ids, looking up a stored user's id finds that user. */
  lemma FindByIdOfMember(users: seq<User>, u: User)
    requires DistinctIds(users) && u in users
    ensures FindById(users, u.id) == Some(u)
  {
    var i :| 0 <= i < |users| && users[i] == u;
    var j := IndexOf(users, u.id).value;
    assert i == j by {
      if i < j {
      } else if j < i {
      }
    }
  }

  /** `User.find({ _id: { $in: ids }, isDeleted: { $ne: true } })`, in collection order. */
  function ActiveAmong(users: seq<User>, ids: seq<UserId>): (r: seq<User>)
    ensures forall u :: u in r <==> u in users && u.id in ids && !u.isDeleted
    ensures |r| <= |users|
  {
    if users == [] then []
    else (if users[0].id in ids && !users[0].isDeleted then [users[0]] else []) + ActiveAmong(users[1..], ids)
  }

  /** `User.find({ role, isDeleted: { $ne: true } })`, in collection order. */
  function ActiveWithRole(users: seq<User>, role: string): (r: seq<User>)
    ensures forall u :: u in r <==> u in users && u.role == role && !u.isDeleted
    ensures |r| <= |users|
  {
    if users == [] then []
    else (if users[0].role == role && !users[0].isDeleted then [users[0]] else []) + ActiveWithRole(users[1..], role)
  }

  /** The ids of some users, in order (`users.map(u => u._id)`). */
  function Ids(users: seq<User>): (r: seq<UserId>)
    ensures |r| == |users|
    ensures forall k :: 0 <= k < |users| ==> r[k] == users[k].id
  {
    if users == [] then [] else [users[0].id] + Ids(users[1..])
  }

  /** An id is listed exactly when some user carrying it is. */
  lemma IdsMembership(users: seq<User>, x: UserId)
    ensures x in Ids(users) <==> exists u :: u in users && u.id == x
  {
    if x in Ids(users) {
      var k :| 0 <= k < |users| && Ids(users)[k] == x;
      assert users[k] in users;
    }
  }

  /** The user directory: a collection of user documents that some handlers update in place. */
  class UserCollection {
    var users: seq<User>

    ghost predicate Valid()
      reads this
    {
      DistinctIds(users)
    }

    constructor (initial: seq<User>)
      requires DistinctIds(initial)
      ensures Valid() && users == initial
    {
      users := initial;
    }

    /** `user.save()` of a changed copy of the document at position `i`. */
    method Put(i: nat, u: User)
      requires Valid() && i < |users| && u.id == users[i].id
      modifies this
      ensures Valid() && users == old(users)[i := u]
    {
      users := users[i := u];
    }

    /** `findByIdAndDelete` of the document at position `i`. */
    method DeleteAt(i: nat)
      requires Valid() && i < |users|
      modifies this
      ensures Valid() && users == old(users)[..i] + old(users)[i + 1..]
    {
      var rest := users[..i] + users[i + 1..];
      assert forall a, b :: 0 <= a < b < |rest| ==> rest[a].id != rest[b].id by {
        forall a, b | 0 <= a < b < |rest| ensures rest[a].id != rest[b].id {
          var a' := if a < i then a else a + 1;
          var b' := if b < i then b else b + 1;
          assert rest[a] == users[a'] && rest[b] == users[b'];
        }
      }
      users := rest;
    }
  }
}
