/** The admin handlers (controllers/adminController.js): user listing without
    passwords, role changes, the cascading delete and the statistics. */
module AdminController {
  import opened Wrappers
  import opened Users
  import opened Response
  import opened HabitModel

  const UserNotFound := "User not found"

  /** A user document selected with `-password`. */
  datatype PublicUser = PublicUser(
    id: UserId, email: string, role: string, isDeleted: bool,
    notificationsEnabled: Option<bool>, preferences: Option<Preferences>, preferredNotificationTime: string,
    firstName: string, lastName: string, bio: string, profilePicture: string, createdAt: int, updatedAt: int)

  /** The projection that drops the password and keeps every other field. */
  function Public(u: User): (p: PublicUser)
    ensures p.id == u.id && p.email == u.email && p.role == u.role && p.isDeleted == u.isDeleted
    ensures p.preferences == u.preferences && p.notificationsEnabled == u.notificationsEnabled
    ensures p.preferredNotificationTime == u.preferredNotificationTime
    ensures p.firstName == u.firstName && p.lastName == u.lastName && p.bio == u.bio && p.profilePicture == u.profilePicture
    ensures p.createdAt == u.createdAt && p.updatedAt == u.updatedAt
  {
    PublicUser(u.id, u.email, u.role, u.isDeleted, u.notificationsEnabled, u.preferences,
               u.preferredNotificationTime, u.firstName, u.lastName, u.bio, u.profilePicture, u.createdAt, u.updatedAt)
  }

  /** Two users that differ only in their password look the same once projected. */
  lemma PublicHidesPassword(u: User, pw: string)
    ensures Public(u.(password := pw)) == Public(u)
  {
  }

  /** The projection loses nothing but the password: users with the same
      projection differ at most in their password. */
  lemma PublicKeepsTheRest(u: User, v: User)
    requires Public(u) == Public(v)
    ensures u.(password := v.password) == v
  {
  }

  /** `getAllUsers`: every document, soft-deleted ones included, in order. */
  function GetAllUsers(users: seq<User>): (r: Reply<seq<PublicUser>>)
    ensures r.Success? && r.status == 200 && r.data.Some? && |r.data.value| == |users|
    ensures forall k :: 0 <= k < |users| ==> r.data.value[k] == Public(users[k])
  {
    SuccessReply("Users fetched successfully", Some(seq(|users|, k requires 0 <= k < |users| => Public(users[k]))))
  }

  /** `getUserById`. */
  function GetUserById(users: seq<User>, id: UserId): (r: Reply<PublicUser>)
    ensures FindById(users, id).None? <==> r == ErrorReply(UserNotFound, 404)
    ensures FindById(users, id).Some? ==> r == SuccessReply("User fetched successfully", Some(Public(FindById(users, id).value)))
  {
    match FindById(users, id)
    case None => ErrorReply(UserNotFound, 404)
    case Some(u) => SuccessReply("User fetched successfully", Some(Public(u)))
  }

  /** `updateUserRole`: the role is checked before any lookup; only `role` changes. */
  method UpdateUserRole(store: UserCollection, id: UserId, role: string) returns (r: Reply<User>)
    requires store.Valid()
    modifies store
    ensures store.Valid()
    ensures role != "user" && role != "admin" ==> r == ErrorReply("Invalid role", 400) && store.users == old(store.users)
    ensures (role == "user" || role == "admin") && IndexOf(old(store.users), id).None? ==>
              r == ErrorReply(UserNotFound, 404) && store.users == old(store.users)
    ensures (role == "user" || role == "admin") && IndexOf(old(store.users), id).Some? ==>
              var i := IndexOf(old(store.users), id).value;
              var v := old(store.users)[i].(role := role);
              store.users == old(store.users)[i := v] && r == SuccessReply("Role updated successfully", Some(v))
  {
    if role != "user" && role != "admin" {
      return ErrorReply("Invalid role", 400);
    }
    var found := IndexOf(store.users, id);
    if found.None? {
      return ErrorReply(UserNotFound, 404);
    }
    var u := store.users[found.value];
    u := u.(role := role);
    store.Put(found.value, u);
    return SuccessReply("Role updated successfully", Some(u));
  }

  /** `deleteUser`: the hard delete of the user and of exactly their habits. */
  method DeleteUser(users: UserCollection, habits: HabitCollection, id: UserId) returns (r: Reply<User>)
    requires users.Valid() && habits.Valid()
    modifies users, habits
    ensures users.Valid() && habits.Valid()
    ensures IndexOf(old(users.users), id).None? ==>
              r == ErrorReply(UserNotFound, 404) && users.users == old(users.users) && habits.habits == old(habits.habits)
    ensures IndexOf(old(users.users), id).Some? ==>
              var i := IndexOf(old(users.users), id).value;
              && users.users == old(users.users)[..i] + old(users.users)[i + 1..]
              && habits.habits == NotOwnedBy(old(habits.habits), id)
              && r == SuccessReply("User and associated habits deleted successfully")
  {
    var found := IndexOf(users.users, id);
    if found.None? {
      return ErrorReply(UserNotFound, 404);
    }
    users.DeleteAt(found.value);
    habits.DeleteOwnedBy(id);
    return SuccessReply("User and associated habits deleted successfully");
  }

  /** Another user's habits come through the cascade unchanged, in order and
      with their multiplicity. */
  lemma {:induction false} OthersKeepTheirHabits(habits: seq<Habit>, id: UserId, other: UserId)
    requires other != id
    ensures OwnedBy(NotOwnedBy(habits, id), other) == OwnedBy(habits, other)
    decreases |habits|
  {
    if habits != [] {
      OthersKeepTheirHabits(habits[1..], id, other);
      var tail := NotOwnedBy(habits[1..], id);
      if habits[0].userId != id {
        var kept := [habits[0]] + tail;
        assert kept[0] == habits[0] && kept[1..] == tail;
      } else {
        assert NotOwnedBy(habits, id) == tail;
      }
    }
  }

  /** After the cascade no habit of the deleted user is left and every other
      user's habits are all still there. */
  lemma CascadeRemovesExactlyTheirs(habits: seq<Habit>, id: UserId, other: UserId)
    requires other != id
    ensures OwnedBy(NotOwnedBy(habits, id), id) == []
    ensures OwnedBy(NotOwnedBy(habits, id), other) == OwnedBy(habits, other)
  {
    var rest := NotOwnedBy(habits, id);
    if OwnedBy(rest, id) != [] {
      assert OwnedBy(rest, id)[0] in OwnedBy(rest, id);
    }
    OthersKeepTheirHabits(habits, id, other);
  }

  // ---------------------------------------------------------------------------
  // getStats

  const WeekMs := 7 * 24 * 60 * 60 * 1000
  const MonthMs := 30 * 24 * 60 * 60 * 1000

  datatype Stats = Stats(totalUsers: nat, totalHabits: nat, adminUsers: nat, regularUsers: nat, week: nat, month: nat)

  /** `countDocuments({ role })`; soft-deleted users are counted. */
  function CountRole(users: seq<User>, role: string): (c: nat)
    ensures c <= |users|
    ensures c == 0 <==> forall u :: u in users ==> u.role != role
  {
    if users == [] then 0 else (if users[0].role == role then 1 else 0) + CountRole(users[1..], role)
  }

  /** `countDocuments({ createdAt: { $gte: since } })`. */
  function CountSince(users: seq<User>, since: int): (c: nat)
    ensures c <= |users|
    ensures c == 0 <==> forall u :: u in users ==> u.createdAt < since
  {
    if users == [] then 0 else (if users[0].createdAt >= since then 1 else 0) + CountSince(users[1..], since)
  }

  /** A later cut-off never counts more users. */
  lemma {:induction false} CountSinceAntitone(users: seq<User>, early: int, late: int)
    requires early <= late
    ensures CountSince(users, late) <= CountSince(users, early)
  {
    if users != [] {
      CountSinceAntitone(users[1..], early, late);
    }
  }

  /** Users of two different roles are counted apart, so together they are at most all users. */
  lemma {:induction false} RolesPartition(users: seq<User>, a: string, b: string)
    requires a != b
    ensures CountRole(users, a) + CountRole(users, b) <= |users|
  {
    if users != [] {
      RolesPartition(users[1..], a, b);
    }
  }

  /** `getStats` at time `now` (milliseconds). */
  function GetStats(users: seq<User>, habits: seq<Habit>, now: int): (r: Reply<Stats>)
    ensures r.Success? && r.status == 200 && r.data.Some?
    ensures var s := r.data.value;
            && s.totalUsers == |users| && s.totalHabits == |habits|
            && s.adminUsers == CountRole(users, "admin") && s.regularUsers == CountRole(users, "user")
            && s.week == CountSince(users, now - WeekMs) && s.month == CountSince(users, now - MonthMs)
            && s.week <= s.month && s.month <= s.totalUsers
            && s.adminUsers + s.regularUsers <= s.totalUsers
  {
    CountSinceAntitone(users, now - MonthMs, now - WeekMs);
    RolesPartition(users, "admin", "user");
    SuccessReply("Admin statistics fetched successfully",
                 Some(Stats(|users|, |habits|, CountRole(users, "admin"), CountRole(users, "user"),
                            CountSince(users, now - WeekMs), CountSince(users, now - MonthMs))))
  }
}
