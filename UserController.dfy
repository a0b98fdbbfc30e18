/** The profile handlers (controllers/userController.js): conditional field
    assignments on the caller's own document, then a save. */
module UserController {
  import opened Wrappers
  import opened Users
  import opened Response
  import opened NotificationPreferences

  const UserNotFound := "User not found"

  /** `getProfile`. The document's `toJSON` transform is not part of this model,
      so the document itself is the data. */
  function GetProfile(users: seq<User>, caller: UserId): (r: Reply<User>)
    ensures FindById(users, caller).None? <==> r == ErrorReply(UserNotFound, 404)
    ensures r.Success? ==> r.status == 200 && r.data == FindById(users, caller)
  {
    match FindById(users, caller)
    case None => ErrorReply(UserNotFound, 404)
    case Some(u) => SuccessReply("Profile fetched successfully", Some(u))
  }

  /** The assignments of `updateProfile`, one field at a time. */
  method AssignProfile(u: User, firstName: string, lastName: string, bio: Option<string>, profilePicture: string, now: int)
    returns (v: User)
    ensures v.firstName == (if firstName != "" then firstName else u.firstName)
    ensures v.lastName == (if lastName != "" then lastName else u.lastName)
    ensures v.bio == bio.GetOr(u.bio)
    ensures v.profilePicture == (if profilePicture != "" then profilePicture else u.profilePicture)
    ensures v == u.(firstName := v.firstName, lastName := v.lastName, bio := v.bio,
                    profilePicture := v.profilePicture, updatedAt := now)
  {
    v := u;
    if firstName != "" { v := v.(firstName := firstName); }
    if lastName != "" { v := v.(lastName := lastName); }
    if bio.Some? { v := v.(bio := bio.value); }
    if profilePicture != "" { v := v.(profilePicture := profilePicture); }
    v := v.(updatedAt := now);
  }

  /** `updateProfile`: empty `firstName`, `lastName` and `profilePicture` are
      ignored, while a supplied `bio` is stored even when it is empty. */
  method UpdateProfile(store: UserCollection, caller: UserId, validationErrors: seq<string>,
                       firstName: string, lastName: string, bio: Option<string>, profilePicture: string, now: int)
    returns (r: Reply<User>)
    requires store.Valid()
    modifies store
    ensures store.Valid()
    ensures validationErrors != [] ==> r == ValidationFailed(validationErrors) && store.users == old(store.users)
    ensures validationErrors == [] && IndexOf(old(store.users), caller).None? ==>
              r == ErrorReply(UserNotFound, 404) && store.users == old(store.users)
    ensures validationErrors == [] && IndexOf(old(store.users), caller).Some? ==>
              var i := IndexOf(old(store.users), caller).value;
              var u := old(store.users)[i];
              && |store.users| == |old(store.users)|
              && var v := store.users[i];
              && store.users == old(store.users)[i := v]
              && v.firstName == (if firstName != "" then firstName else u.firstName)
              && v.lastName == (if lastName != "" then lastName else u.lastName)
              && v.bio == bio.GetOr(u.bio)
              && v.profilePicture == (if profilePicture != "" then profilePicture else u.profilePicture)
              && v.updatedAt == now
              && v == u.(firstName := v.firstName, lastName := v.lastName, bio := v.bio,
                         profilePicture := v.profilePicture, updatedAt := now)
              && r == SuccessReply("Profile updated successfully", Some(v))
  {
    if validationErrors != [] {
      return ValidationFailed(validationErrors);
    }
    var found := IndexOf(store.users, caller);
    if found.None? {
      return ErrorReply(UserNotFound, 404);
    }
    var i := found.value;
    var u := AssignProfile(store.users[i], firstName, lastName, bio, profilePicture, now);
    store.Put(i, u);
    return SuccessReply("Profile updated successfully", Some(u));
  }

  /** The new preferences object: `theme` only when non-empty, the two flags
      whenever supplied (false included). */
  function PatchPreferences(p: Preferences, theme: string, notifications: Option<bool>, emailReminders: Option<bool>): (q: Preferences)
    ensures q.theme == (if theme != "" then Some(theme) else p.theme)
    ensures q.notifications == (if notifications.Some? then notifications else p.notifications)
    ensures q.emailReminders == (if emailReminders.Some? then emailReminders else p.emailReminders)
  {
    var q := if theme != "" then p.(theme := Some(theme)) else p;
    var q := if notifications.Some? then q.(notifications := notifications) else q;
    if emailReminders.Some? then q.(emailReminders := emailReminders) else q
  }

  /** The field whose assignment throws first when the document has no
      preferences object, if any is assigned. */
  function FirstAssigned(theme: string, notifications: Option<bool>, emailReminders: Option<bool>): (f: Option<string>)
    ensures f.None? <==> theme == "" && notifications.None? && emailReminders.None?
  {
    if theme != "" then Some("theme")
    else if notifications.Some? then Some("notifications")
    else if emailReminders.Some? then Some("emailReminders")
    else None
  }

  /** What assigning a property of a missing object throws. */
  function SetOnUndefined(field: string): string {
    "Cannot set properties of undefined (setting '" + field + "')"
  }

  /** `updatePreferences`. */
  method UpdatePreferences(store: UserCollection, caller: UserId,
                           theme: string, notifications: Option<bool>, emailReminders: Option<bool>, now: int)
    returns (r: Reply<User>)
    requires store.Valid()
    modifies store
    ensures store.Valid()
    ensures IndexOf(old(store.users), caller).None? ==> r == ErrorReply(UserNotFound, 404) && store.users == old(store.users)
    ensures IndexOf(old(store.users), caller).Some? ==>
              var i := IndexOf(old(store.users), caller).value;
              var u := old(store.users)[i];
              var failing := FirstAssigned(theme, notifications, emailReminders);
              && (u.preferences.None? && failing.Some? ==>
                    r == ErrorReply(SetOnUndefined(failing.value)) && store.users == old(store.users))
              && (u.preferences.None? && failing.None? ==>
                    store.users == old(store.users)[i := u.(updatedAt := now)]
                    && r == SuccessReply("Preferences updated successfully", Some(u.(updatedAt := now))))
              && (u.preferences.Some? ==>
                    var v := u.(preferences := Some(PatchPreferences(u.preferences.value, theme, notifications, emailReminders)),
                                updatedAt := now);
                    store.users == old(store.users)[i := v]
                    && r == SuccessReply("Preferences updated successfully", Some(v)))
  {
    var found := IndexOf(store.users, caller);
    if found.None? {
      return ErrorReply(UserNotFound, 404);
    }
    var i := found.value;
    var u := store.users[i];
    if u.preferences.None? {
      var failing := FirstAssigned(theme, notifications, emailReminders);
      if failing.Some? {
        return ErrorReply(SetOnUndefined(failing.value));
      }
    } else {
      var p := u.preferences.value;
      if theme != "" { p := p.(theme := Some(theme)); }
      if notifications.Some? { p := p.(notifications := notifications); }
      if emailReminders.Some? { p := p.(emailReminders := emailReminders); }
      u := u.(preferences := Some(p));
    }
    u := u.(updatedAt := now);
    store.Put(i, u);
    return SuccessReply("Preferences updated successfully", Some(u));
  }

  /** Turning in-app notifications off through the preferences closes the in-app
      channel, and turning email reminders off closes the email channel. Both
      are independent of the other fields. */
  lemma SwitchingOffClosesChannel(u: User, theme: string, notifications: Option<bool>, emailReminders: Option<bool>)
    requires u.preferences.Some?
    ensures var v := u.(preferences := Some(PatchPreferences(u.preferences.value, theme, notifications, emailReminders)));
            && (notifications == Some(false) ==> !ShouldSendInApp(Some(v)))
            && (emailReminders == Some(false) ==> !ShouldSendEmail(Some(v)))
            && (notifications.None? ==> (ShouldSendInApp(Some(v)) <==> ShouldSendInApp(Some(u))))
            && (emailReminders.None? ==> (ShouldSendEmail(Some(v)) <==> ShouldSendEmail(Some(u))))
  {
  }

  /** `changePassword`; `matches(stored, candidate)` stands for the document's
      password comparison. The password field becomes `newPassword`; the hashing
      done on save is left out of this model. */
  method ChangePassword(store: UserCollection, caller: UserId, validationErrors: seq<string>,
                        currentPassword: string, newPassword: string, matches: (string, string) -> bool)
    returns (r: Reply<User>)
    requires store.Valid()
    modifies store
    ensures store.Valid()
    ensures validationErrors != [] ==> r == ValidationFailed(validationErrors) && store.users == old(store.users)
    ensures validationErrors == [] && IndexOf(old(store.users), caller).None? ==>
              r == ErrorReply(UserNotFound, 404) && store.users == old(store.users)
    ensures validationErrors == [] && IndexOf(old(store.users), caller).Some? ==>
              var i := IndexOf(old(store.users), caller).value;
              var u := old(store.users)[i];
              && (!matches(u.password, currentPassword) ==>
                    r == ErrorReply("Current password is incorrect", 401) && store.users == old(store.users))
              && (matches(u.password, currentPassword) ==>
                    r == SuccessReply("Password changed successfully")
                    && store.users == old(store.users)[i := u.(password := newPassword)])
  {
    if validationErrors != [] {
      return ValidationFailed(validationErrors);
    }
    var found := IndexOf(store.users, caller);
    if found.None? {
      return ErrorReply(UserNotFound, 404);
    }
    var i := found.value;
    var u := store.users[i];
    if !matches(u.password, currentPassword) {
      return ErrorReply("Current password is incorrect", 401);
    }
    store.Put(i, u.(password := newPassword));
    return SuccessReply("Password changed successfully");
  }
}
