# Smart Habit Tracker back end — notification engine and habit state, in Dafny

This project models the core of the Smart Habit Tracker back end (an Express and
MongoDB service) and proves properties of that model with Dafny 4.11.

The core is the notification engine:

- a **preference resolver** decides, per user, whether the in-app channel and
  the email channel may be used;
- **two send paths** exist side by side. The controller path stores one shared
  record for a computed receiver list and emits `"new-notification"` to each
  receiver's room with no per-emit catch. The service path filters the
  recipients through the resolver, stores a record only for the in-app-eligible
  ones, catches every emit on its own and reports email delivery per recipient;
- every record is **shared by its receivers**. Each receiver's read state and
  hidden state live in the record's `readBy` and `deletedBy` lists. The inbox,
  the unread count, mark-read, mark-unread, mark-all-read and the per-user
  delete are operations on those lists.

Around it sit the habit records with their completion log and streak
counters, the analytics counters, the profile, admin and global-settings
handlers, pagination and the response envelope.

Modelling choices:

- Each MongoDB collection is a class whose field is a `seq` of records. The
  classes are `NotificationCollection`, `HabitCollection`, `UserCollection` and
  `SettingsCollection`. Handlers are methods that change those fields.
- A notification's id is its position in the store. Its `createdAt` is the same
  sequence number, so "newest first" is reverse store order.
- A JSON field that may be absent or null is an `Option`. A check `=== true` is
  `== Some(true)`. An empty string stands for an absent or empty string field.
- The Socket.IO handle is a nullable `Realtime.Socket`. `null` is the handle
  that `server.js` never registers:
  - calling `io.to` on it throws, so a controller send with at least one
    receiver stores its record and then answers 500;
  - the service functions skip their emits when it is null.
- An emit to a room in the socket's `unreachable` set throws. The socket logs
  every attempt and every delivery, so "one attempt per recipient" and "the
  loop stops at the first failure" are statements about those logs.
- The SMTP helper is a `Mailer` that rejects the addresses in its `rejected`
  set. It fails with `"Failed to send reset email"`, as the helper does.
- Dates are day numbers. The weekday and the day of the month of a day are
  parameters of the weekly view. The month view gets the first day of the
  month and the number of days in it. Clock readings are parameters too.
- `comparePassword` is an uninterpreted function parameter.
- A save that fails schema validation is an error result with the schema's
  message prefix. For notifications this covers the `type` enum and the
  required `title` and `message`. For habits it covers the required `name` and
  the three enums.

## Model

| member | source | states |
|---|---|---|
| Response.SuccessReply | utils/response.js:1-7 | the envelope has `success: true`, echoes message and data; data defaults to none and status to 200 |
| Response.ErrorReply | utils/response.js:9-15 | the envelope has `success: false`, echoes message and errors; status defaults to 500 and errors to none |
| Response.ValidationFailed | utils/response.js:17-23 | always an error envelope with status 400, so never a 2xx reply, message "Validation failed", the errors passed through |
| Pagination.Skip | utils/pagination.js:1-8 | skip = (page − 1) × limit, so 0 on the first page |
| Pagination.CeilDiv | utils/pagination.js:19 | the page count is the least q with q × limit ≥ total, and 0 exactly when total is 0 |
| Pagination.Paginate | utils/pagination.js:1-21 | page echoed; total is the whole query's size; at most `limit` results, namely the documents from position `skip` on; defaults 1 and 20 |
| Pagination.PageWithinRangeIsNonEmpty | utils/pagination.js:8-19 | a page number between 1 and totalPages has at least one result |
| Seqs.RemoveAll | controllers/notificationController.js:266-268 | the filtered list holds exactly the other elements, never the removed one |
| Seqs.Dedup | controllers/notificationController.js:141 | `[...new Set(s)]` never grows the list and keeps only elements of the input |
| Seqs.DedupSpec | controllers/notificationController.js:141 | de-duplication keeps exactly the same members, each once, and never grows the list |
| Users.IndexOf | controllers/userController.js:8 | `findById`: the position of a document with that id, or none exactly when no document carries it |
| Users.FindById | controllers/userController.js:8 | `findById`: a stored document with that id, or null exactly when none exists |
| Users.FindByIdOfMember | controllers/userController.js:8 | with unique ids, looking up a stored user's id finds that user |
| Users.ActiveAmong | services/notificationService.js:49-52 | the found users are exactly the non-deleted users whose id was requested |
| Users.ActiveWithRole | controllers/notificationController.js:61-64 | the found users are exactly the non-deleted users with that role |
| Users.Ids | controllers/notificationController.js:66 | `map(u => u._id)`: one id per user, in order |
| Users.IdsMembership | controllers/notificationController.js:66 | an id is listed exactly when some listed user carries it |
| Users.UserCollection.Put | controllers/userController.js:34 | a save replaces one document and keeps ids unique |
| Users.UserCollection.DeleteAt | controllers/adminController.js:46 | `findByIdAndDelete` removes exactly that document and keeps ids unique |
| NotificationPreferences.EligibilityByFields | utils/notificationPreferences.js:8-39 | a missing user is never notifiable; global needs `notificationsEnabled` exactly true; each channel needs global and its own flag exactly true; a missing preferences object closes both channels |
| NotificationPreferences.IsNotificationsEnabled | utils/notificationPreferences.js:8-11 | a missing user is never globally enabled |
| NotificationPreferences.ShouldSendInApp | utils/notificationPreferences.js:18-25 | the in-app channel is open only with the global switch on and a preferences object present |
| NotificationPreferences.ShouldSendEmail | utils/notificationPreferences.js:32-39 | the email channel is open only with the global switch on and a preferences object present |
| NotificationPreferences.ShouldSendNotification | utils/notificationPreferences.js:60-75 | open only with the global switch on; otherwise exactly the email check for channel "email" and the in-app check for any other channel |
| NotificationPreferences.GlobalSwitchClosesEveryChannel | utils/notificationPreferences.js:18-39 | with the global flag off, neither channel is open, whatever type or channel is asked for |
| NotificationPreferences.PreferredNotificationTime | utils/notificationPreferences.js:46-51 | the stored time when non-empty, otherwise "morning" |
| NotificationPreferences.ShouldSendNotificationByChannel | utils/notificationPreferences.js:60-75 | channel "email" decides by the email check, any other channel by the in-app check, and the type has no effect |
| NotificationPreferences.Passing | utils/notificationPreferences.js:95-97 | the kept users are exactly the candidates that pass the channel's check |
| NotificationPreferences.FilterUsersByPreferences | utils/notificationPreferences.js:84-103 | only requested ids of non-deleted users passing the check, all of them; the input unchanged when the lookup fails |
| NotificationPreferences.GetUserNotificationPreferences | utils/notificationPreferences.js:110-128 | null for an unknown user or failed lookup; otherwise the stored fields and the two channel decisions equal to the predicates |
| NotificationModel.NewRecord | models/Notification.js:3-75 | creation succeeds iff the type is one of the eight values and title and message are non-empty; readBy and deletedBy start empty; sender, habit, category, actionUrl and deletedAt default to null; isDeleted false; receivers kept as given |
| NotificationModel.WithReader | controllers/notificationController.js:243-246 | the caller becomes a reader exactly once; no other field changes |
| NotificationModel.WithoutReader | controllers/notificationController.js:265-270 | every occurrence of the caller leaves `readBy`; no other field changes |
| NotificationModel.HiddenFor | controllers/notificationController.js:309-312 | the caller is in `deletedBy` once, and the record is neither visible nor unread for them; no other field changes |
| NotificationModel.ReadByAll | controllers/notificationController.js:281-289 | the update marks a record read for the caller exactly when they receive it, hidden or not |
| NotificationModel.PerUserOperationsIdempotent | controllers/notificationController.js:243-312 | marking read, marking unread and hiding are each idempotent |
| NotificationModel.ReadUnreadRoundTrip | controllers/notificationController.js:243-270 | read then unread restores an unread record; unread never un-hides |
| NotificationModel.VisibleNewestFirst | controllers/notificationController.js:205-209 | exactly the records the user receives and has not hidden |
| NotificationModel.Inbox | controllers/notificationController.js:205-210 | at most 50 records, each visible to the user, and all of them when there are at most 50; which 50 and their order: InboxNewestFirst |
| NotificationModel.VisibleNewestFirstOrdered | controllers/notificationController.js:209 | the inbox is strictly newest first |
| NotificationModel.DescendingPrefix | controllers/notificationController.js:209-210 | the first k of a newest-first list are newest first, and each record it leaves out is older than every record it keeps |
| NotificationModel.InboxNewestFirst | controllers/notificationController.js:205-210 | in a store whose ids are positions, the inbox is strictly newest first, and every visible record left out is older than every record in it, so the 50 returned are the newest 50 |
| NotificationModel.UnreadCount | controllers/notificationController.js:221-225 | zero exactly when no visible record is unread by the user |
| NotificationModel.MarkAllRead | controllers/notificationController.js:281-289 | the store-wide update applied to each record in place |
| NotificationModel.MarkAllReadClearsUnread | controllers/notificationController.js:281-289 | afterwards nothing is unread for the caller, and a second call changes nothing |
| NotificationModel.MarkAllReadKeepsOthers | controllers/notificationController.js:281-289 | another user's unread count does not move |
| NotificationModel.CreatedRecordHeadsInbox | controllers/notificationController.js:32-38 | a record just created heads each receiver's inbox with its title, message and type |
| NotificationModel.HideRemovesFromInbox | controllers/notificationController.js:309-312 | hiding takes the record out of the caller's inbox, lowers their unread count by one if it was unread, and leaves others' counts alone |
| NotificationModel.NotificationCollection.Create | controllers/notificationController.js:32-38 | a valid record is appended with the next id; an invalid one stores nothing |
| NotificationModel.NotificationCollection.MarkReadAt | controllers/notificationController.js:243-246 | the push and save on one record, keeping the store invariant |
| NotificationModel.NotificationCollection.MarkUnreadAt | controllers/notificationController.js:265-270 | the filter and save on one record, keeping the store invariant |
| NotificationModel.NotificationCollection.HideAt | controllers/notificationController.js:309-312 | the push and save on one record, keeping the store invariant |
| NotificationModel.NotificationCollection.MarkAllReadFor | controllers/notificationController.js:281-289 | the `updateMany` over the whole store |
| NotificationModel.FindForReceiver | controllers/notificationController.js:236-239 | found exactly when the id exists and the caller is one of its receivers; hidden records are found too |
| Realtime.FirstUnreachable | controllers/notificationController.js:77-79 | the position of the first room whose emit throws, or the length when none does |
| Realtime.Reachable | services/notificationService.js:90-100 | the rooms an emit reaches, never more than the rooms listed; which rooms: ReachableMembers |
| Realtime.ReachableMembers | services/notificationService.js:90-100 | the reached rooms are exactly the listed rooms whose emit does not throw |
| Realtime.Socket.Emit | controllers/notificationController.js:41 | each call is logged; it throws for an unreachable room and delivers otherwise |
| Realtime.FanOutError | controllers/notificationController.js:76-84 | an unguarded loop fails on the unset handle when there is a room, or at the first unreachable room |
| Realtime.EmitUntilFailure | controllers/notificationController.js:76-84 | emits in order up to and including the first one that throws, and none after it |
| Realtime.EmitEach | services/notificationService.js:89-101 | one attempt per room, in order; delivery to every reachable room; a failure never stops the loop |
| Realtime.SecondRoomFailing | controllers/notificationController.js:76-79 | with the second of three rooms failing, the unguarded loop delivers only to the first, the catching loop to the first and third |
| Realtime.CatchingDeliversMore | services/notificationService.js:89-101 | the catching loop reaches every room the unguarded loop reaches; with no unreachable room both reach every room |
| Realtime.ReachableAppend | services/notificationService.js:90-100 | the rooms reached over two lists in a row are those reached over the first, then those over the second |
| Realtime.AllReachable | services/notificationService.js:90-100 | when no listed room is unreachable, every room is reached, in order |
| Realtime.ReachableSplitAtFailure | services/notificationService.js:89-101 | the catching loop reaches every room before the first failure, then whatever it reaches from the failing room on |
| Realtime.LaterRoomsReached | services/notificationService.js:89-101 | something is reached from the failing room on exactly when some later room is reachable |
| Realtime.FailureCostsLaterRooms | controllers/notificationController.js:76-79 | the catching loop delivers to more rooms than the unguarded one exactly when a room after the first failure is reachable; when none is, both deliver to the same rooms |
| Realtime.Mailer.Send | utils/sendMail.js:13-31 | a mail is either accepted and logged or fails with "Failed to send reset email" |
| NotificationService.SelectRecipients | services/notificationService.js:58-72 | the loop builds the two lists the specification functions define |
| NotificationService.RecipientsOfFound | services/notificationService.js:62-72 | over found users, the in-app list is exactly those passing in-app eligibility, the email list those passing email eligibility, each only when its flag is set |
| NotificationService.SelectionIsEligibility | services/notificationService.js:49-72 | the in-app and email lists are exactly the requested non-deleted users passing each check; empty when `sendInApp` or `sendEmail` is off |
| NotificationService.EmailResultFor | services/notificationService.js:108-126 | each entry names the user and address; "sent" exactly when no error is recorded |
| NotificationService.DeliverInApp | services/notificationService.js:77-101 | no in-app recipient: nothing stored or emitted; a rejected record: the error with nothing stored or emitted; otherwise the record for exactly those recipients is appended and one caught emit is made per receiver |
| NotificationService.SendEmails | services/notificationService.js:106-128 | one result per recipient in order; accepted mails are logged; failures are caught |
| NotificationService.SendNotificationWithPreferences | services/notificationService.js:27-145 | "No valid recipients found" with nothing stored, emitted or mailed; no emit when the in-app list is empty or the record is rejected; a record iff the in-app list is non-empty, with exactly that list as receivers; one caught emit per receiver; per-recipient email results when the email branch runs, otherwise emailCount 0; success and the in-app count always reported |
| NotificationService.SendHabitReminderWithPreferences | services/notificationService.js:157-210 | the three refusals, in order, with nothing stored or emitted; otherwise one record to `[userId]` from `userId`, type habit_reminder, title "Habit Reminder", and one `"habit-reminder"` emit that is always attempted, is delivered exactly when the user's room is reachable, and otherwise fails silently; earlier attempts and deliveries are kept |
| NotificationService.NotifiableAdmins | services/notificationService.js:230-239 | exactly the requested non-deleted admins with in-app eligibility |
| NotificationService.NotifyAdmins | services/notificationService.js:222-275 | fails when no admin qualifies, and on any failure nothing is stored or emitted; otherwise one record for exactly the qualifying admins and one caught emit each; without an explicit type it always fails, since "admin_alert" is not an admitted type |
| NotificationService.GetUserNotificationSettings | services/notificationService.js:282-299 | "User not found" exactly for an unknown id; otherwise the user's id, `notificationsEnabled` and `preferredNotificationTime` as stored, and each preference field as stored, or true, true and "light" when it or the whole preferences object is absent |
| NotificationService.SettingsViewDiffersFromResolver | services/notificationService.js:295-296 | a user without preferences is shown in-app on, yet neither channel is open for them |
| NotificationController.Publish | controllers/notificationController.js:32-46 | the shared create-then-emit tail: a rejected record answers 500 with nothing stored or emitted; otherwise the record is stored before the emits, and the first emit failure becomes the reply |
| NotificationController.SendToUser | controllers/notificationController.js:9-47 | 400 for a missing field, then 403 for a "user" caller whose target is not a non-deleted admin, then 400 for a self-target, all before any record; otherwise one record to the receiver and one unguarded emit |
| NotificationController.RegularUsers | controllers/notificationController.js:61-66 | exactly the ids of non-deleted accounts with role "user" |
| NotificationController.OtherAdmins | controllers/notificationController.js:95-102 | exactly the non-deleted admins other than the caller |
| NotificationController.CategoryAudience | controllers/notificationController.js:136-141 | exactly the owners of non-deleted habits in the category, each once |
| NotificationController.SendToAll | controllers/notificationController.js:52-85 | 403 for a non-admin and 400 for a missing field before anything is stored; otherwise a record for every regular user, emitted until the first failure |
| NotificationController.SendToAdmin | controllers/notificationController.js:90-121 | no role gate; 400 for a missing field; otherwise a record for the other admins, emitted until the first failure |
| NotificationController.SendToCategory | controllers/notificationController.js:126-161 | 403 for a non-admin, 400 for a missing field; otherwise a record carrying the category for the de-duplicated habit owners |
| NotificationController.SendSystem | controllers/notificationController.js:166-200 | 403 for a non-admin, 400 when no regular user exists; fields are checked only by the schema |
| NotificationController.UncaughtEmitStopsFanOut | controllers/notificationController.js:76-79 | with one failing room in the middle, the controller loop emits only up to it while the service loop still reaches the rooms after it |
| NotificationController.GetNotifications | controllers/notificationController.js:203-216 | the caller's inbox: at most 50 visible records; by InboxNewestFirst they are the newest 50, newest first |
| NotificationController.GetUnreadCount | controllers/notificationController.js:219-231 | the number of visible records the caller has not read; zero exactly when there is none |
| NotificationController.MarkAsRead | controllers/notificationController.js:234-252 | 404 with no change unless the caller receives the record; otherwise the caller is added to `readBy` once and receivers stay |
| NotificationController.MarkAsUnread | controllers/notificationController.js:255-276 | 404 with no change unless the caller receives it; otherwise every occurrence of the caller leaves `readBy` |
| NotificationController.MarkAllAsRead | controllers/notificationController.js:279-295 | every received record, hidden ones included, is read by the caller, and their unread count becomes 0 |
| NotificationController.DeleteNotification | controllers/notificationController.js:298-318 | bare 404 unless the caller receives it; otherwise the caller hides it once and it leaves their inbox |
| NotificationController.SendHabitReminder | controllers/notificationController.js:321-360 | 400 without habit name or message; otherwise a reminder record to and from the caller with `relatedHabitId` = habitId, saved before an unguarded emit whose failure answers 500 |
| HabitModel.ParseCategory | models/Habit.js:17-29 | a string is accepted exactly when it spells one of the seven categories |
| HabitModel.ParseFrequency | models/Habit.js:35-39 | accepted exactly for daily, weekly and monthly |
| HabitModel.ParsePreferredTime | models/Habit.js:30-34 | accepted exactly for allDay, morning, afternoon and evening |
| HabitModel.SpellingsRoundTrip | models/Habit.js:17-39 | each enum value's spelling parses back to it |
| HabitModel.NewCompletion | models/Habit.js:52-63 | a completion has its date, and `completed` defaults to false |
| HabitModel.CompletedOn | controllers/analyticsController.js:17-21 | a completed entry on a day is an entry on that day |
| HabitModel.CompleteOn | controllers/habitController.js:116-125 | afterwards the habit has an entry on that day, the longest streak has not decreased, and owner and id are kept |
| HabitModel.NewHabit | models/Habit.js:3-94 | a habit is created iff the name is non-empty and the enum fields are admitted; defaults: category other, frequency daily, time allDay, 7 target days, streaks 0, active, not deleted; owner as given |
| HabitModel.ApplyPatch | controllers/habitController.js:78-80 | supplied fields replace the stored ones, the rest stay, `updatedAt` is the clock; rejected when the name becomes empty or an enum value is not admitted |
| HabitModel.CompleteOnSpec | controllers/habitController.js:116-125 | without an entry on that day: one completed entry appended, streak + 1, longest streak = max(old longest, new streak); with an entry, even an uncompleted one, no change; the longest streak never decreases |
| HabitModel.CompleteOnIdempotent | controllers/habitController.js:116-119 | completing twice on the same day is completing once |
| HabitModel.ClearDay | controllers/habitController.js:148-150 | exactly the entries not on that day remain |
| HabitModel.ClearDayAppend | controllers/habitController.js:148-150 | the filter acts piecewise on a concatenation, so the kept entries stay in order |
| HabitModel.ClearDayAbsent | controllers/habitController.js:148-150 | a log without an entry on that day is left as it is |
| HabitModel.IncompleteOn | controllers/habitController.js:148-152 | no entry on that day remains, other days keep their completions, streak 0, longest streak unchanged |
| HabitModel.OwnedBy | controllers/habitController.js:44 | exactly the caller's habits |
| HabitModel.NotOwnedBy | controllers/adminController.js:49 | exactly the habits of other owners |
| HabitModel.FindOwned | controllers/habitController.js:54-57 | found exactly when a habit has that id and the caller owns it |
| HabitModel.OwnersInCategory | controllers/notificationController.js:136-139 | exactly the owners of non-deleted habits in the category |
| HabitModel.NotOwnedByDistinct | controllers/adminController.js:49 | deleting one owner's habits keeps the ids unique |
| HabitModel.HabitCollection.Create | controllers/habitController.js:22-34 | a valid habit is appended with a fresh id; an invalid one stores nothing |
| HabitModel.HabitCollection.Put | controllers/habitController.js:78-80 | a save replaces one habit |
| HabitModel.HabitCollection.CompleteAt | controllers/habitController.js:116-128 | the push, the increment and the conditional update, step by step, amount to the completion law |
| HabitModel.HabitCollection.IncompleteAt | controllers/habitController.js:148-153 | the filter and the reset amount to the incompletion law |
| HabitModel.HabitCollection.DeleteAt | controllers/habitController.js:92-95 | removes exactly that habit |
| HabitModel.HabitCollection.DeleteOwnedBy | controllers/adminController.js:49 | removes exactly one owner's habits |
| HabitController.CreateHabit | controllers/habitController.js:6-39 | validator errors first; a created habit is owned by the caller and answered with 201 |
| HabitController.GetHabits | controllers/habitController.js:42-49 | exactly the caller's habits |
| HabitController.GetHabitById | controllers/habitController.js:52-64 | 404 exactly when the caller owns no habit with that id |
| HabitController.UpdateHabit | controllers/habitController.js:67-87 | validator errors, then 404 with no change for a habit the caller does not own; otherwise the patch and the caller's refreshed list |
| HabitController.DeleteHabit | controllers/habitController.js:90-102 | 404 with no change unless owned; otherwise exactly that habit is removed |
| HabitController.CompleteHabit | controllers/habitController.js:105-134 | 404 with no change unless owned; otherwise the completion law on the given day, or on today when no date is given |
| HabitController.IncompleteHabit | controllers/habitController.js:137-160 | 404 with no change unless owned; otherwise the incompletion law on that day |
| HabitController.CompletedHabitListed | controllers/habitController.js:128-130 | the completed habit appears, updated, in the returned list |
| Analytics.CountActive | controllers/analyticsController.js:9 | at most the number of habits; zero exactly when none is active |
| Analytics.CountCompletedOn | controllers/analyticsController.js:14-23 | at most the number of habits |
| Analytics.CountCompletedOnZero | controllers/analyticsController.js:14-23 | the count is zero exactly when no habit has a completed entry that day |
| Analytics.TallyCompleted | controllers/analyticsController.js:14-23 | the counting loop computes the completed-today count |
| Analytics.MaxOrZero | controllers/analyticsController.js:25-26 | `Math.max(..., 0)`: at least 0 and every value, and either 0 or one of the values |
| Analytics.LongestStreaks | controllers/analyticsController.js:25 | one longest streak per habit, in order |
| Analytics.Streaks | controllers/analyticsController.js:26 | one current streak per habit, in order |
| Analytics.GetSummary | controllers/analyticsController.js:4-40 | total = the caller's habit count; active ≤ total; completedToday counted by the loop and ≤ total; best and current streak the maxima, 0 without habits |
| Analytics.MakeStat | controllers/analyticsController.js:74-79 | the rate is 0 exactly when nothing is scheduled |
| Analytics.CountScheduled | controllers/analyticsController.js:57-63 | at most the number of habits |
| Analytics.CountScheduledZero | controllers/analyticsController.js:57-63 | the scheduled count is zero exactly when no habit is scheduled that day |
| Analytics.CountScheduledDone | controllers/analyticsController.js:65-70 | never more than the scheduled count |
| Analytics.StatFor | controllers/analyticsController.js:54-79 | for one day: completed ≤ scheduled ≤ habits, rate 0 when nothing is scheduled |
| Analytics.TallyDay | controllers/analyticsController.js:57-72 | the counting loop computes the day's entry |
| Analytics.GetWeekly | controllers/analyticsController.js:42-86 | exactly 7 entries, oldest first, the last for today; daily habits always, weekly on Sundays, monthly on the first are scheduled |
| Analytics.GetMonthly | controllers/analyticsController.js:88-132 | one entry per day of the month, only daily habits scheduled |
| Analytics.MonthViewCountsDailyOnly | controllers/analyticsController.js:58-61 | a day's month-view count never exceeds its week-view count |
| Analytics.CountCompleted | controllers/analyticsController.js:146 | at most the number of entries; zero exactly when none is completed |
| Analytics.GetHabitAnalytics | controllers/analyticsController.js:134-154 | 404 exactly when the caller owns no such habit; otherwise totalCompletions counts the completed entries |
| UserController.GetProfile | controllers/userController.js:6-15 | 404 exactly for an unknown user; otherwise that user's document |
| UserController.AssignProfile | controllers/userController.js:28-32 | non-empty first name, last name and picture replace the stored ones, a supplied bio always does, `updatedAt` is the clock and no other field changes |
| UserController.UpdateProfile | controllers/userController.js:18-40 | validator errors, then 404 with no change; empty first name, last name and picture are ignored, a supplied bio is stored even when empty, nothing else changes |
| UserController.PatchPreferences | controllers/userController.js:50-54 | theme only when non-empty; the two flags whenever supplied, false included |
| UserController.FirstAssigned | controllers/userController.js:50-54 | some assignment happens exactly when some field is supplied |
| UserController.UpdatePreferences | controllers/userController.js:43-63 | 404 with no change for an unknown user; the patched preferences otherwise; a document without a preferences object fails with a TypeError when a field is supplied |
| UserController.SwitchingOffClosesChannel | controllers/userController.js:51-54 | switching `notifications` off closes the in-app channel, `emailReminders` off the email one; an absent flag keeps that decision |
| UserController.ChangePassword | controllers/userController.js:66-87 | validator errors, 404 for an unknown user, 401 with the password unchanged for a wrong current password; otherwise only the password changes |
| AdminController.Public | controllers/adminController.js:7 | the projection keeps each of the thirteen fields other than the password equal to the stored one |
| AdminController.PublicHidesPassword | controllers/adminController.js:7 | two users differing only in their password project to the same value |
| AdminController.PublicKeepsTheRest | controllers/adminController.js:7 | two users with the same projection differ at most in their password |
| AdminController.GetAllUsers | controllers/adminController.js:5-12 | one password-free entry per stored user, soft-deleted ones included |
| AdminController.GetUserById | controllers/adminController.js:14-23 | 404 exactly for an unknown id; otherwise the password-free projection |
| AdminController.UpdateUserRole | controllers/adminController.js:25-42 | 400 for a role other than user or admin before any lookup; 404 for an unknown id; otherwise only `role` changes |
| AdminController.DeleteUser | controllers/adminController.js:44-55 | 404 with no change for an unknown id; otherwise that user is removed, with all and only their habits |
| AdminController.CascadeRemovesExactlyTheirs | controllers/adminController.js:46-49 | afterwards the deleted user owns no habit, and every other user's habits are exactly as before, in order |
| AdminController.OthersKeepTheirHabits | controllers/adminController.js:49 | the habits of a user other than the deleted one come through the cascade unchanged, in order and with multiplicity |
| AdminController.CountRole | controllers/adminController.js:61-62 | at most the number of users; zero exactly when no user has that role |
| AdminController.CountSince | controllers/adminController.js:64-70 | at most the number of users; zero exactly when no user was created at or after the cut-off |
| AdminController.CountSinceAntitone | controllers/adminController.js:64-70 | a later cut-off never counts more users |
| AdminController.RolesPartition | controllers/adminController.js:61-62 | two different roles together count at most all users |
| AdminController.GetStats | controllers/adminController.js:57-85 | the counts, with week ≤ month ≤ total users and admins + regular users ≤ total users |
| NotificationSettings.Defaults | models/NotificationSettings.js:4-19 | a fresh document has all four flags true |
| NotificationSettings.ApplyPatch | controllers/notificationSettingsController.js:39-46 | supplied flags replace the stored ones, the rest stay |
| NotificationSettings.ApplyPatchLaws | controllers/notificationSettingsController.js:39-46 | an empty patch only touches `updatedAt`; the same patch twice is the patch once |
| NotificationSettings.AssignSupplied | controllers/notificationSettingsController.js:39-46 | the four conditional assignments compute the patch |
| NotificationSettings.GetSettings | controllers/notificationSettingsController.js:4-22 | with no document, one all-true document is created and returned; otherwise the first is returned and nothing changes; the new store and the reply are what SettingsOnRead gives |
| NotificationSettings.UpdateSettings | controllers/notificationSettingsController.js:24-55 | the patch over the first document, or over a fresh all-true one that is then stored |
| NotificationSettings.SettingsOnRead | controllers/notificationSettingsController.js:6-16 | what one read leaves and returns: the store is never empty afterwards, the reply is its first document, existing documents are kept and an empty store gets the single default one |
| NotificationSettings.GetSettingsTwiceIsOnce | controllers/notificationSettingsController.js:6-16 | a second read, at any later time, leaves the store as the first left it and returns the same document |
| NotificationSettings.GetSettingsTwice | controllers/notificationSettingsController.js:4-22 | two `getSettings` requests in a row give equal replies, and the store is as the first request left it |

## Left out

- The commented-out handlers after line 361 of controllers/notificationController.js: they are not live code.
- The AI coach, authentication, routing, the server set-up and the error middleware: they are wiring or calls into foreign services.
- The SMTP transport itself: only its outcome, accepted or failed, is modelled.
- models/Analytics.js: no modelled code reads or writes it.
- models/User.js is not part of this model. The document's `toJSON` transform and the password hashing on save are therefore not modelled. `getProfile` returns the document itself.
- The completion and day rates: the floating-point percentages and their rounding are not modelled. A rate is the pair (completed, scheduled), or zero when nothing is scheduled.
- Real clocks and time zones: days are day numbers. Weekday, day of month and month length are inputs. Timestamps are parameters.
- Equal creation timestamps: the model's creation order is strict, so ties between records created in the same millisecond are not modelled.
- Concurrency and database atomicity: requests are modelled one after another.
- Database errors: only `filterUsersByPreferences` and `getUserNotificationPreferences` model a failed lookup (`lookupFails`). Everywhere else a query is assumed to succeed. The service calls the preference lookup without the failure case.
- Flags holding non-boolean values: flags are `Option<bool>`, so values such as the string "true" are not modelled.
- Fields outside the typed patches: `Object.assign` in `updateHabit` copies any body field. Only the editable habit fields are modelled, not `userId`, `completions` or the streak counters.
- Schema details beyond validation: the field-by-field text of validation messages, and the casting of strings to ids.
- Ids given as strings and compared after `toString()` are naturals here.
- Pagination.Paginate: requires page ≥ 1 and limit ≥ 1. The source does not check these; a lower page gives a negative skip that the database rejects, and a zero limit gives a non-finite page count.
- NotificationService.SendNotificationWithPreferences: when the socket handle is null, the contract says nothing about emits, because none happen.
- UserController.UpdatePreferences: the behaviour without a preferences object assumes a plain missing object. What the User schema really provides there is not part of this model.
