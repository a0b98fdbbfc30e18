/** The preference-aware send paths (services/notificationService.js): the
    recipients are filtered through the preference resolver, a record is
    stored for the in-app-eligible ones only, every emit is caught on its own,
    and email delivery is reported per recipient. */
module NotificationService {
  import opened Wrappers
  import opened Users
  import opened NotificationPreferences
  import opened NotificationModel
  import opened Realtime

  const NoValidRecipients := "No valid recipients found"
  const NoNotifiableAdmins := "No admins with notifications enabled"
  const UserNotFound := "User not found"
  const GloballyDisabled := "User has notifications disabled globally"
  const InAppDisabled := "User has in-app notifications disabled"

  /** The `type` `notifyAdmins` uses when none is given. */
  const DefaultAdminType := "admin_alert"

  datatype EmailStatus = Sent | Failed

  /** One entry of `emailResults`. */
  datatype EmailResult = EmailResult(userId: UserId, email: string, status: EmailStatus, error: Option<string>)

  /** The object `sendNotificationWithPreferences` resolves to; `emailResults`
      is present only when the email branch ran. */
  datatype SendSummary = SendSummary(
    success: bool,
    notification: Option<Notification>,
    inAppCount: nat,
    emailCount: nat,
    emailResults: Option<seq<EmailResult>>)

  // ---------------------------------------------------------------------------
  // Recipient selection

  /** The in-app list the selection loop builds: each found user whose fresh
      preference lookup allows in-app delivery, when `sendInApp` is set. */
  function InAppRecipients(directory: seq<User>, found: seq<User>, sendInApp: bool): seq<UserId>
    decreases |found|
  {
    if found == [] then []
    else
      var u := found[|found| - 1];
      var prefs := GetUserNotificationPreferences(directory, u.id);
      InAppRecipients(directory, found[..|found| - 1], sendInApp)
      + (if sendInApp && prefs.Some? && prefs.value.shouldSendInApp then [u.id] else [])
  }

  /** The email list the same loop builds, holding the user documents. */
  function EmailRecipients(directory: seq<User>, found: seq<User>, sendEmail: bool): seq<User>
    decreases |found|
  {
    if found == [] then []
    else
      var u := found[|found| - 1];
      var prefs := GetUserNotificationPreferences(directory, u.id);
      EmailRecipients(directory, found[..|found| - 1], sendEmail)
      + (if sendEmail && prefs.Some? && prefs.value.shouldSendEmail then [u] else [])
  }

  /** The loop at the heart of `sendNotificationWithPreferences`: one fresh
      preference lookup per found user, pushing to either list. */
  method SelectRecipients(directory: seq<User>, found: seq<User>, sendInApp: bool, sendEmail: bool)
    returns (inApp: seq<UserId>, email: seq<User>)
    ensures inApp == InAppRecipients(directory, found, sendInApp)
    ensures email == EmailRecipients(directory, found, sendEmail)
  {
    inApp, email := [], [];
    var i := 0;
    while i < |found|
      invariant 0 <= i <= |found|
      invariant inApp == InAppRecipients(directory, found[..i], sendInApp)
      invariant email == EmailRecipients(directory, found[..i], sendEmail)
    {
      assert found[..i + 1][..i] == found[..i];
      var prefs := GetUserNotificationPreferences(directory, found[i].id);
      if sendInApp && prefs.Some? && prefs.value.shouldSendInApp {
        inApp := inApp + [found[i].id];
      }
      if sendEmail && prefs.Some? && prefs.value.shouldSendEmail {
        email := email + [found[i]];
      }
      i := i + 1;
    }
    assert found[..i] == found;
  }

  /** Over users taken from a directory with distinct ids, the in-app list
      holds exactly the ids of the users that pass the in-app check, and the
      email list exactly the users that pass the email check. */
  lemma {:induction false} RecipientsOfFound(directory: seq<User>, found: seq<User>, sendInApp: bool, sendEmail: bool)
    requires DistinctIds(directory)
    requires forall u :: u in found ==> u in directory
    ensures forall x :: x in InAppRecipients(directory, found, sendInApp) <==>
              sendInApp && exists u :: u in found && u.id == x && ShouldSendInApp(Some(u))
    ensures forall u :: u in EmailRecipients(directory, found, sendEmail) <==>
              sendEmail && u in found && ShouldSendEmail(Some(u))
    ensures |InAppRecipients(directory, found, sendInApp)| <= |found|
    ensures |EmailRecipients(directory, found, sendEmail)| <= |found|
    decreases |found|
  {
    if found != [] {
      var init, u := found[..|found| - 1], found[|found| - 1];
      assert found == init + [u];
      RecipientsOfFound(directory, init, sendInApp, sendEmail);
      FindByIdOfMember(directory, u);
    }
  }

  /** The selection as the source promises it: the in-app list is exactly the
      requested non-deleted users that pass in-app eligibility (empty when
      `sendInApp` is off), and the email list likewise for email. */
  lemma SelectionIsEligibility(directory: seq<User>, recipientIds: seq<UserId>, sendInApp: bool, sendEmail: bool)
    requires DistinctIds(directory)
    ensures var found := ActiveAmong(directory, recipientIds);
            forall x :: x in InAppRecipients(directory, found, sendInApp) <==>
              sendInApp && x in recipientIds
              && exists u :: u in directory && u.id == x && !u.isDeleted && ShouldSendInApp(Some(u))
    ensures var found := ActiveAmong(directory, recipientIds);
            forall u :: u in EmailRecipients(directory, found, sendEmail) <==>
              sendEmail && u in directory && u.id in recipientIds && !u.isDeleted && ShouldSendEmail(Some(u))
  {
    RecipientsOfFound(directory, ActiveAmong(directory, recipientIds), sendInApp, sendEmail);
  }

  // ---------------------------------------------------------------------------
  // Email delivery

  /** The result entry for one email recipient. */
  function EmailResultFor(u: User, rejected: set<string>): (r: EmailResult)
    ensures r.userId == u.id && r.email == u.email
    ensures r.status == Sent <==> r.error.None?
  {
    if u.email in rejected then EmailResult(u.id, u.email, Failed, Some(MailFailure))
    else EmailResult(u.id, u.email, Sent, None)
  }

  /** The mails the transport accepts, in order. */
  function Accepted(users: seq<User>, rejected: set<string>, subject: string, html: string): seq<Mail>
    decreases |users|
  {
    if users == [] then []
    else
      var u := users[|users| - 1];
      Accepted(users[..|users| - 1], rejected, subject, html)
      + (if u.email in rejected then [] else [Mail(u.email, subject, html)])
  }

  /** The email loop: one send per recipient, each failure caught and recorded. */
  method SendEmails(mailer: Mailer, recipients: seq<User>, subject: string, html: string)
    returns (results: seq<EmailResult>)
    modifies mailer
    ensures mailer.rejected == old(mailer.rejected)
    ensures |results| == |recipients|
    ensures forall k :: 0 <= k < |recipients| ==> results[k] == EmailResultFor(recipients[k], mailer.rejected)
    ensures mailer.sent == old(mailer.sent) + Accepted(recipients, mailer.rejected, subject, html)
  {
    ghost var sent0 := mailer.sent;
    results := [];
    var i := 0;
    while i < |recipients|
      invariant 0 <= i <= |recipients| && mailer.rejected == old(mailer.rejected)
      invariant |results| == i
      invariant forall k :: 0 <= k < i ==> results[k] == EmailResultFor(recipients[k], mailer.rejected)
      invariant mailer.sent == sent0 + Accepted(recipients[..i], mailer.rejected, subject, html)
    {
      assert recipients[..i + 1][..i] == recipients[..i];
      ghost var before := Accepted(recipients[..i], mailer.rejected, subject, html);
      AppendAssoc(sent0, before, [Mail(recipients[i].email, subject, html)]);
      var thrown := mailer.Send(recipients[i].email, subject, html);
      if thrown.None? {
        results := results + [EmailResult(recipients[i].id, recipients[i].email, Sent, None)];
      } else {
        results := results + [EmailResult(recipients[i].id, recipients[i].email, Failed, thrown)];
      }
      i := i + 1;
    }
    assert recipients[..i] == recipients;
  }

  // ---------------------------------------------------------------------------
  // sendNotificationWithPreferences

  /** Whether the email branch runs: email requested, someone eligible, and
      both a subject and a body given. */
  predicate EmailBranchRuns(sendEmail: bool, emailRecipients: seq<User>, emailSubject: string, emailHtml: string) {
    sendEmail && emailRecipients != [] && emailSubject != "" && emailHtml != ""
  }

  /** The in-app half of `sendNotificationWithPreferences`: with at least one
      in-app recipient, one record for exactly them, then one caught emit per
      receiver; with none, nothing at all. */
  method DeliverInApp(
    store: NotificationCollection, io: Socket?, inApp: seq<UserId>, senderId: Option<UserId>,
    ntype: string, title: string, message: string, category: Option<string>, relatedHabitId: Option<nat>)
    returns (r: Result<Option<Notification>>)
    requires store.Valid()
    modifies store, io
    ensures store.Valid()
    ensures io != null ==> io.unreachable == old(io.unreachable)
    ensures inApp == [] ==>
              r == Ok(None) && store.records == old(store.records)
              && (io != null ==> io.attempts == old(io.attempts) && io.delivered == old(io.delivered))
    ensures inApp != [] ==>
              var created := NewRecord(|old(store.records)|, inApp, senderId, ntype, title, message, category, relatedHabitId);
              && (created.Err? ==> r == Err(created.msg) && store.records == old(store.records)
                                   && (io != null ==> io.attempts == old(io.attempts) && io.delivered == old(io.delivered)))
              && (created.Ok? ==>
                    && r == Ok(Some(created.value))
                    && store.records == old(store.records) + [created.value]
                    && (io != null ==> FannedOutEach(io, inApp, "new-notification", RecordPayload(created.value))))
  {
    if inApp == [] {
      return Ok(None);
    }
    var created := store.Create(inApp, senderId, ntype, title, message, category, relatedHabitId);
    if created.Err? {
      return Err(created.msg);
    }
    if io != null {
      EmitEach(io, inApp, "new-notification", RecordPayload(created.value));
    }
    return Ok(Some(created.value));
  }

  /** `sendNotificationWithPreferences(options)`; an error result is a rejected
      promise. `recipientIds` is the id list (a single id is the one-element list). */
  method SendNotificationWithPreferences(
    store: NotificationCollection, directory: seq<User>, io: Socket?, mailer: Mailer,
    recipientIds: seq<UserId>, title: string, message: string,
    ntype: string := "system", senderId: Option<UserId> := None,
    emailSubject: string := "", emailHtml: string := "",
    sendEmail: bool := false, sendInApp: bool := true,
    category: Option<string> := None, relatedHabitId: Option<nat> := None)
    returns (r: Result<SendSummary>)
    requires store.Valid() && DistinctIds(directory)
    modifies store, io, mailer
    ensures store.Valid()
    ensures io != null ==> io.unreachable == old(io.unreachable)
    ensures mailer.rejected == old(mailer.rejected)
    // No recipient at all: rejected before anything is stored or sent.
    ensures ActiveAmong(directory, recipientIds) == [] ==>
              && r == Err(NoValidRecipients) && store.records == old(store.records)
              && mailer.sent == old(mailer.sent)
              && (io != null ==> io.attempts == old(io.attempts) && io.delivered == old(io.delivered))
    ensures ActiveAmong(directory, recipientIds) != [] ==>
              var found := ActiveAmong(directory, recipientIds);
              var inApp := InAppRecipients(directory, found, sendInApp);
              var email := EmailRecipients(directory, found, sendEmail);
              var created := NewRecord(|old(store.records)|, inApp, senderId, ntype, title, message, category, relatedHabitId);
              // No in-app recipient: no record, no emit.
              && (inApp == [] ==> store.records == old(store.records) && r.Ok? && r.value.notification.None?
                                  && (io != null ==> io.attempts == old(io.attempts) && io.delivered == old(io.delivered)))
              // A record the schema rejects: the call fails before any email.
              && (inApp != [] && created.Err? ==>
                    && r == Err(created.msg) && store.records == old(store.records) && mailer.sent == old(mailer.sent)
                    && (io != null ==> io.attempts == old(io.attempts) && io.delivered == old(io.delivered)))
              // Otherwise one record for exactly the in-app list, one caught emit per receiver.
              && (inApp != [] && created.Ok? ==>
                    && store.records == old(store.records) + [created.value]
                    && r.Ok? && r.value.notification == Some(created.value)
                    && (io != null ==> FannedOutEach(io, inApp, "new-notification", RecordPayload(created.value))))
              && (r.Ok? ==>
                    && r.value.success && r.value.inAppCount == |inApp|
                    && (EmailBranchRuns(sendEmail, email, emailSubject, emailHtml) ==>
                          && r.value.emailCount == |email|
                          && r.value.emailResults.Some? && |r.value.emailResults.value| == |email|
                          && (forall k :: 0 <= k < |email| ==>
                                r.value.emailResults.value[k] == EmailResultFor(email[k], mailer.rejected))
                          && mailer.sent == old(mailer.sent) + Accepted(email, mailer.rejected, emailSubject, emailHtml))
                    && (!EmailBranchRuns(sendEmail, email, emailSubject, emailHtml) ==>
                          r.value.emailCount == 0 && r.value.emailResults.None? && mailer.sent == old(mailer.sent)))
  {
    var found := ActiveAmong(directory, recipientIds);
    if found == [] {
      return Err(NoValidRecipients);
    }
    var inApp, email := SelectRecipients(directory, found, sendInApp, sendEmail);
    var delivered := DeliverInApp(store, io, inApp, senderId, ntype, title, message, category, relatedHabitId);
    if delivered.Err? {
      return Err(delivered.msg);
    }
    var notification := delivered.value;
    if sendEmail && email != [] && emailSubject != "" && emailHtml != "" {
      var results := SendEmails(mailer, email, emailSubject, emailHtml);
      return Ok(SendSummary(true, notification, |inApp|, |email|, Some(results)));
    }
    return Ok(SendSummary(true, notification, |inApp|, 0, None));
  }

  // ---------------------------------------------------------------------------
  // sendHabitReminderWithPreferences

  /** `sendHabitReminderWithPreferences`: the three checks, in order, before
      any record exists; then a single-receiver reminder record and one caught
      "habit-reminder" emit. The lookup does not skip soft-deleted users. */
  method SendHabitReminderWithPreferences(
    store: NotificationCollection, directory: seq<User>, io: Socket?,
    userId: UserId, habitName: string, message: string,
    habitId: Option<nat> := None, preferredTime: string := "morning")
    returns (r: Result<Notification>)
    requires store.Valid()
    modifies store, io
    ensures store.Valid()
    ensures io != null ==> io.unreachable == old(io.unreachable)
    ensures var user := FindById(directory, userId);
            && (user.None? ==> r == Err(UserNotFound))
            && (user.Some? && !IsNotificationsEnabled(user) ==> r == Err(GloballyDisabled))
            && (IsNotificationsEnabled(user) && !ShouldSendInApp(user) ==> r == Err(InAppDisabled))
            && (ShouldSendInApp(user) ==>
                  r == NewRecord(|old(store.records)|, [userId], Some(userId), "habit_reminder", "Habit Reminder",
                                 message, None, habitId))
    ensures r.Err? ==> store.records == old(store.records) && (io != null ==> io.attempts == old(io.attempts) && io.delivered == old(io.delivered))
    ensures r.Ok? ==>
              && store.records == old(store.records) + [r.value]
              && r.value.receivers == [userId] && r.value.sender == Some(userId)
              && r.value.ntype == "habit_reminder" && r.value.title == "Habit Reminder"
              && (io != null ==> io.attempts == old(io.attempts) + [Emission(userId, "habit-reminder",
                    ReminderPayload(r.value.id, habitName, preferredTime, message, r.value.createdAt))])
    ensures r.Ok? && io != null ==>
              io.delivered == old(io.delivered) +
                (if userId in io.unreachable then []
                 else [Emission(userId, "habit-reminder",
                         ReminderPayload(r.value.id, habitName, preferredTime, message, r.value.createdAt))])
  {
    var user := FindById(directory, userId);
    if user.None? {
      return Err(UserNotFound);
    }
    if !IsNotificationsEnabled(user) {
      return Err(GloballyDisabled);
    }
    if !ShouldSendInApp(user) {
      return Err(InAppDisabled);
    }
    r := store.Create([userId], Some(userId), "habit_reminder", "Habit Reminder", message, None, habitId);
    if r.Ok? && io != null {
      var _ := io.Emit(userId, "habit-reminder",
                       ReminderPayload(r.value.id, habitName, preferredTime, message, r.value.createdAt));
    }
  }

  // ---------------------------------------------------------------------------
  // notifyAdmins

  /** What `notifyAdmins` resolves to. */
  datatype AdminNotice = AdminNotice(notification: Notification, notifiedAdminCount: nat, adminIds: seq<UserId>)

  /** `User.find({ _id: { $in: adminIds }, role: "admin", isDeleted: { $ne: true } })`
      filtered by in-app eligibility. */
  function NotifiableAdmins(directory: seq<User>, adminIds: seq<UserId>): (r: seq<User>)
    ensures forall u :: u in r <==>
              u in directory && u.id in adminIds && u.role == "admin" && !u.isDeleted && ShouldSendInApp(Some(u))
  {
    if directory == [] then []
    else
      var u := directory[0];
      (if u.id in adminIds && u.role == "admin" && !u.isDeleted && ShouldSendInApp(Some(u)) then [u] else [])
      + NotifiableAdmins(directory[1..], adminIds)
  }

  /** `notifyAdmins(adminIds, title, message, type = "admin_alert", senderId, io)`;
      `ntype` is `None` when the caller passes no type. */
  method NotifyAdmins(store: NotificationCollection, directory: seq<User>, io: Socket?,
                      adminIds: seq<UserId>, title: string, message: string,
                      ntype: Option<string>, senderId: Option<UserId>)
    returns (r: Result<AdminNotice>)
    requires store.Valid()
    modifies store, io
    ensures store.Valid()
    ensures io != null ==> io.unreachable == old(io.unreachable)
    ensures Ids(NotifiableAdmins(directory, adminIds)) == [] ==> r == Err(NoNotifiableAdmins)
    ensures var admins := Ids(NotifiableAdmins(directory, adminIds));
            var created := NewRecord(|old(store.records)|, admins, senderId, ntype.GetOr(DefaultAdminType), title, message);
            admins != [] && created.Err? ==> r == Err(created.msg)
    ensures var admins := Ids(NotifiableAdmins(directory, adminIds));
            var created := NewRecord(|old(store.records)|, admins, senderId, ntype.GetOr(DefaultAdminType), title, message);
            admins != [] && created.Ok? ==>
              && r == Ok(AdminNotice(created.value, |admins|, admins))
              && store.records == old(store.records) + [created.value]
              && (io != null ==> FannedOutEach(io, admins, "new-notification", RecordPayload(created.value)))
    ensures r.Err? ==> store.records == old(store.records)
    ensures r.Err? && io != null ==> io.attempts == old(io.attempts) && io.delivered == old(io.delivered)
    // The default type is not one the schema admits, so a call without a type never succeeds.
    ensures ntype.None? ==> r.Err?
  {
    var admins := Ids(NotifiableAdmins(directory, adminIds));
    if admins == [] {
      return Err(NoNotifiableAdmins);
    }
    var created := store.Create(admins, senderId, ntype.GetOr(DefaultAdminType), title, message);
    if created.Err? {
      return Err(created.msg);
    }
    if io != null {
      EmitEach(io, admins, "new-notification", RecordPayload(created.value));
    }
    return Ok(AdminNotice(created.value, |admins|, admins));
  }

  // ---------------------------------------------------------------------------
  // getUserNotificationSettings

  /** What `getUserNotificationSettings` resolves to. */
  datatype SettingsView = SettingsView(
    userId: UserId,
    notificationsEnabled: Option<bool>,
    preferredNotificationTime: string,
    inAppNotifications: bool,
    emailReminders: bool,
    theme: string)

  /** The projection of a user's flags, with `?? true` / `?? "light"` defaults
      for absent preference fields. */
  function GetUserNotificationSettings(directory: seq<User>, userId: UserId): (r: Result<SettingsView>)
    ensures FindById(directory, userId).None? <==> r == Err(UserNotFound)
    ensures r.Ok? ==> var u := FindById(directory, userId).value;
              && r.value.userId == userId
              && r.value.notificationsEnabled == u.notificationsEnabled
              && r.value.preferredNotificationTime == u.preferredNotificationTime
              && (u.preferences.None? ==> r.value.inAppNotifications && r.value.emailReminders && r.value.theme == "light")
              && (u.preferences.Some? ==>
                    && r.value.inAppNotifications == u.preferences.value.notifications.GetOr(true)
                    && r.value.emailReminders == u.preferences.value.emailReminders.GetOr(true)
                    && r.value.theme == u.preferences.value.theme.GetOr("light"))
  {
    match FindById(directory, userId)
    case None => Err(UserNotFound)
    case Some(u) =>
      var p := u.preferences;
      Ok(SettingsView(
        u.id, u.notificationsEnabled, u.preferredNotificationTime,
        if p.Some? then p.value.notifications.GetOr(true) else true,
        if p.Some? then p.value.emailReminders.GetOr(true) else true,
        if p.Some? then p.value.theme.GetOr("light") else "light"))
  }

  /** The summary's defaults are optimistic where the resolver is strict: a
      user with no preferences object is shown both channels on, yet neither
      channel is open for them. */
  lemma SettingsViewDiffersFromResolver(directory: seq<User>, userId: UserId)
    requires FindById(directory, userId).Some? && FindById(directory, userId).value.preferences.None?
    ensures GetUserNotificationSettings(directory, userId).value.inAppNotifications
    ensures !ShouldSendInApp(FindById(directory, userId)) && !ShouldSendEmail(FindById(directory, userId))
  {
  }
}
