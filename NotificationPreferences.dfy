/** The preference resolver (utils/notificationPreferences.js): total
    predicates over a user document, possibly missing, that decide whether the
    in-app and the email channel may be used, plus two directory queries
    built on them. */
module NotificationPreferences {
  import opened Wrappers
  import opened Users

  /** Notifications are globally on only when the flag is exactly `true`. */
  predicate IsNotificationsEnabled(user: Option<User>): (b: bool)
    ensures b ==> user.Some?
  {
    user.Some? && user.value.notificationsEnabled == Some(true)
  }

  /** `preferences.notifications === true`, false when there is no preferences object. */
  predicate InAppOptIn(u: User) {
    u.preferences.Some? && u.preferences.value.notifications == Some(true)
  }

  /** `preferences.emailReminders === true`, false when there is no preferences object. */
  predicate EmailOptIn(u: User) {
    u.preferences.Some? && u.preferences.value.emailReminders == Some(true)
  }

  /** The in-app channel: the global switch and the in-app opt-in. A user
      without a preferences object never passes. */
  predicate ShouldSendInApp(user: Option<User>): (b: bool)
    ensures b ==> IsNotificationsEnabled(user) && user.value.preferences.Some?
  {
    IsNotificationsEnabled(user) && InAppOptIn(user.value)
  }

  /** The email channel: the global switch and the email opt-in. A user
      without a preferences object never passes. */
  predicate ShouldSendEmail(user: Option<User>): (b: bool)
    ensures b ==> IsNotificationsEnabled(user) && user.value.preferences.Some?
  {
    IsNotificationsEnabled(user) && EmailOptIn(user.value)
  }

  /** The three checks in terms of the stored fields: a missing user is never
      notifiable, and each channel needs the global flag and its own flag to be
      exactly true, a missing preferences object counting as false. */
  lemma EligibilityByFields(user: Option<User>)
    ensures user.None? ==> !IsNotificationsEnabled(user) && !ShouldSendInApp(user) && !ShouldSendEmail(user)
    ensures IsNotificationsEnabled(user) <==> user.Some? && user.value.notificationsEnabled == Some(true)
    ensures ShouldSendInApp(user) <==>
              && user.Some? && user.value.notificationsEnabled == Some(true)
              && user.value.preferences.Some? && user.value.preferences.value.notifications == Some(true)
    ensures ShouldSendEmail(user) <==>
              && user.Some? && user.value.notificationsEnabled == Some(true)
              && user.value.preferences.Some? && user.value.preferences.value.emailReminders == Some(true)
    ensures user.Some? && user.value.preferences.None? ==> !ShouldSendInApp(user) && !ShouldSendEmail(user)
  {
  }

  /** With the global flag off, no channel is open, whatever the per-channel flags say. */
  lemma GlobalSwitchClosesEveryChannel(user: Option<User>)
    requires !IsNotificationsEnabled(user)
    ensures !ShouldSendInApp(user) && !ShouldSendEmail(user)
    ensures forall t, c :: !ShouldSendNotification(user, t, c)
  {
  }

  /** The stored preferred time, or "morning" when the user is missing or the field is empty. */
  function PreferredNotificationTime(user: Option<User>): (t: string)
    ensures user.Some? && user.value.preferredNotificationTime != "" ==> t == user.value.preferredNotificationTime
    ensures user.None? || user.value.preferredNotificationTime == "" ==> t == "morning"
    ensures t != ""
  {
    if user.None? || user.value.preferredNotificationTime == "" then "morning"
    else user.value.preferredNotificationTime
  }

  /** Channel "email" uses the email predicate, every other channel the in-app
      one; the notification type is accepted and ignored. */
  predicate ShouldSendNotification(user: Option<User>, notificationType: string := "system", channel: string := "inapp"): (b: bool)
    ensures b ==> IsNotificationsEnabled(user)
    ensures b == (if channel == "email" then ShouldSendEmail(user) else ShouldSendInApp(user))
  {
    if user.None? || !IsNotificationsEnabled(user) then false
    else if channel == "email" then ShouldSendEmail(user)
    else ShouldSendInApp(user)
  }

  /** The decision is exactly the channel's predicate and does not depend on the type. */
  lemma ShouldSendNotificationByChannel(user: Option<User>, t1: string, t2: string, channel: string)
    ensures ShouldSendNotification(user, t1, channel) == ShouldSendNotification(user, t2, channel)
    ensures channel == "email" ==> ShouldSendNotification(user, t1, channel) == ShouldSendEmail(user)
    ensures channel != "email" ==> ShouldSendNotification(user, t1, channel) == ShouldSendInApp(user)
  {
  }

  /** The users among `candidates` that pass the channel's check, in order. */
  function Passing(candidates: seq<User>, channel: string, notificationType: string): (r: seq<User>)
    ensures forall u :: u in r <==> u in candidates && ShouldSendNotification(Some(u), notificationType, channel)
  {
    if candidates == [] then []
    else (if ShouldSendNotification(Some(candidates[0]), notificationType, channel) then [candidates[0]] else [])
         + Passing(candidates[1..], channel, notificationType)
  }

  /** `filterUsersByPreferences`: the ids of the non-deleted users among `userIds`
      that pass the channel's check; when the lookup fails (`lookupFails`), the
      input list is returned unchanged. */
  function FilterUsersByPreferences(directory: seq<User>, userIds: seq<UserId>, lookupFails: bool,
                                    channel: string := "inapp", notificationType: string := "system"): (r: seq<UserId>)
    ensures lookupFails ==> r == userIds
    ensures !lookupFails ==> forall x :: x in r ==> x in userIds
    ensures !lookupFails ==> forall x :: x in r <==>
              exists u :: u in directory && u.id == x && x in userIds && !u.isDeleted
                          && ShouldSendNotification(Some(u), notificationType, channel)
  {
    if lookupFails then userIds
    else
      var found := Passing(ActiveAmong(directory, userIds), channel, notificationType);
      forall x ensures x in Ids(found) <==> exists u :: u in found && u.id == x {
        IdsMembership(found, x);
      }
      Ids(found)
  }

  /** What `getUserNotificationPreferences` returns for a known user. */
  datatype PreferenceSummary = PreferenceSummary(
    notificationsEnabled: Option<bool>,
    preferredNotificationTime: string,
    preferences: Option<Preferences>,
    shouldSendInApp: bool,
    shouldSendEmail: bool)

  /** `getUserNotificationPreferences`: null for an unknown id or a failed
      lookup; otherwise the stored flags and the two channel decisions. Soft
      deletion is not checked. */
  function GetUserNotificationPreferences(directory: seq<User>, userId: UserId, lookupFails: bool := false): (r: Option<PreferenceSummary>)
    ensures lookupFails || FindById(directory, userId).None? ==> r.None?
    ensures !lookupFails && FindById(directory, userId).Some? ==>
              var u := FindById(directory, userId).value;
              r.Some? && r.value.shouldSendInApp == ShouldSendInApp(Some(u))
              && r.value.shouldSendEmail == ShouldSendEmail(Some(u))
              && r.value.notificationsEnabled == u.notificationsEnabled
              && r.value.preferences == u.preferences
              && r.value.preferredNotificationTime == u.preferredNotificationTime
  {
    if lookupFails then None
    else
      match FindById(directory, userId)
      case None => None
      case Some(u) =>
        Some(PreferenceSummary(u.notificationsEnabled, u.preferredNotificationTime, u.preferences,
                               ShouldSendInApp(Some(u)), ShouldSendEmail(Some(u))))
  }
}
