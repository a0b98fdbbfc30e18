/** The live notification handlers (controllers/notificationController.js,
    lines 1-360). The send handlers apply no preference filter; each stores
    one shared record and then emits "new-notification" to every receiver's
    room with no per-emit catch, so a failing emit ends the request with a 500
    although the record is already stored. `caller` and `callerRole` are
    `req.userId` and `req.userRole`; an empty string is a missing body field. */
module NotificationController {
  import opened Wrappers
  import opened Seqs
  import opened Users
  import opened Response
  import opened HabitModel
  import opened NotificationModel
  import opened Realtime

  /** The `data` of a notification reply. */
  datatype NotificationBody = Record(record: Notification) | Records(records: seq<Notification>) | Unread(unreadCount: nat)

  const NewNotification := "new-notification"

  // ---------------------------------------------------------------------------
  // The shared create-then-emit tail of every send handler

  /** The outcome of creating one record for `receivers` and emitting it to each
      of them in turn: a failed validation answers 500 with nothing stored or
      emitted; otherwise the record is stored, emits run up to the first one
      that throws, and the reply is that error or the success message. */
  twostate predicate Published(store: NotificationCollection, io: Socket?, receivers: seq<UserId>, sender: UserId,
                               ntype: string, title: string, message: string, category: Option<string>,
                               okMessage: string, new r: Reply<NotificationBody>)
    reads store, io
  {
    var created := NewRecord(|old(store.records)|, receivers, Some(sender), ntype, title, message, category);
    && (created.Err? ==>
          && r == ErrorReply(created.msg) && store.records == old(store.records)
          && (io != null ==> io.attempts == old(io.attempts) && io.delivered == old(io.delivered)))
    && (created.Ok? ==>
          && store.records == old(store.records) + [created.value]
          && FannedOutUntilFailure(io, receivers, NewNotification, RecordPayload(created.value))
          && r == match FanOutError(io, receivers)
                  case Some(e) => ErrorReply(e)
                  case None => SuccessReply(okMessage, Some(Record(created.value))))
  }

  /** Nothing stored and nothing emitted. */
  twostate predicate Untouched(store: NotificationCollection, io: Socket?)
    reads store, io
  {
    store.records == old(store.records) && (io != null ==> io.attempts == old(io.attempts) && io.delivered == old(io.delivered))
  }

  method Publish(store: NotificationCollection, io: Socket?, receivers: seq<UserId>, sender: UserId,
                 ntype: string, title: string, message: string, category: Option<string>, okMessage: string)
    returns (r: Reply<NotificationBody>)
    requires store.Valid()
    modifies store, io
    ensures store.Valid()
    ensures Published(store, io, receivers, sender, ntype, title, message, category, okMessage, r)
  {
    var created := store.Create(receivers, Some(sender), ntype, title, message, category);
    if created.Err? {
      return ErrorReply(created.msg);
    }
    var thrown := EmitUntilFailure(io, receivers, NewNotification, RecordPayload(created.value));
    if thrown.Some? {
      return ErrorReply(thrown.value);
    }
    return SuccessReply(okMessage, Some(Record(created.value)));
  }

  // ---------------------------------------------------------------------------
  // Send handlers

  /** `findOne({ _id: id, isDeleted: { $ne: true } })` found an admin. */
  predicate IsActiveAdmin(directory: seq<User>, id: UserId) {
    var u := FindById(directory, id);
    u.Some? && !u.value.isDeleted && u.value.role == "admin"
  }

  /** `sendToUser`: its three checks, in order, before anything is stored. */
  method SendToUser(store: NotificationCollection, directory: seq<User>, io: Socket?, caller: UserId, callerRole: string,
                    receiverId: Option<UserId>, title: string, message: string, ntype: string)
    returns (r: Reply<NotificationBody>)
    requires store.Valid()
    modifies store, io
    ensures store.Valid()
    ensures receiverId.None? || title == "" || message == "" || ntype == "" ==>
              r == ErrorReply("All fields are required", 400) && Untouched(store, io)
    ensures receiverId.Some? && title != "" && message != "" && ntype != "" ==>
              var to := receiverId.value;
              && (callerRole == "user" && !IsActiveAdmin(directory, to) ==>
                    r == ErrorReply("Users can send only to admins", 403) && Untouched(store, io))
              && ((callerRole != "user" || IsActiveAdmin(directory, to)) && caller == to ==>
                    r == ErrorReply("Cannot send notification to yourself", 400) && Untouched(store, io))
              && ((callerRole != "user" || IsActiveAdmin(directory, to)) && caller != to ==>
                    Published(store, io, [to], caller, ntype, title, message, None, "Notification sent to user", r))
  {
    if receiverId.None? || title == "" || message == "" || ntype == "" {
      return ErrorReply("All fields are required", 400);
    }
    var to := receiverId.value;
    if callerRole == "user" && !IsActiveAdmin(directory, to) {
      return ErrorReply("Users can send only to admins", 403);
    }
    if caller == to {
      return ErrorReply("Cannot send notification to yourself", 400);
    }
    r := Publish(store, io, [to], caller, ntype, title, message, None, "Notification sent to user");
  }

  /** The receivers of a broadcast: every non-deleted account with role "user". */
  function RegularUsers(directory: seq<User>): (r: seq<UserId>)
    ensures forall x :: x in r <==> exists u :: u in directory && u.id == x && u.role == "user" && !u.isDeleted
  {
    var users := ActiveWithRole(directory, "user");
    assert forall x :: x in Ids(users) <==> exists u :: u in users && u.id == x by {
      forall x { IdsMembership(users, x); }
    }
    Ids(users)
  }

  /** The receivers of `sendToAdmin`: every non-deleted admin except the caller. */
  function OtherAdmins(directory: seq<User>, caller: UserId): (r: seq<UserId>)
    ensures caller !in r
    ensures forall x :: x in r <==> x != caller && exists u :: u in directory && u.id == x && u.role == "admin" && !u.isDeleted
  {
    var admins := ActiveWithRole(directory, "admin");
    assert forall x :: x in Ids(admins) <==> exists u :: u in admins && u.id == x by {
      forall x { IdsMembership(admins, x); }
    }
    RemoveAll(Ids(admins), caller)
  }

  /** The receivers of `sendToCategory`: the owners of non-deleted habits in
      the category, each once, in order of first appearance. */
  function CategoryAudience(habits: seq<Habit>, category: string): (r: seq<UserId>)
    ensures NoDup(r)
    ensures forall x :: x in r <==>
              exists h :: h in habits && !h.isDeleted && CategoryName(h.category) == category && h.userId == x
  {
    DedupSpec(OwnersInCategory(habits, category));
    Dedup(OwnersInCategory(habits, category))
  }

  /** `sendToAll`: admins only. */
  method SendToAll(store: NotificationCollection, directory: seq<User>, io: Socket?, caller: UserId, callerRole: string,
                   title: string, message: string, ntype: string)
    returns (r: Reply<NotificationBody>)
    requires store.Valid()
    modifies store, io
    ensures store.Valid()
    ensures callerRole != "admin" ==>
              r == ErrorReply("Only admins can send broadcast notifications", 403) && Untouched(store, io)
    ensures callerRole == "admin" && (title == "" || message == "" || ntype == "") ==>
              r == ErrorReply("Missing fields", 400) && Untouched(store, io)
    ensures callerRole == "admin" && title != "" && message != "" && ntype != "" ==>
              Published(store, io, RegularUsers(directory), caller, ntype, title, message, None, "Broadcast sent to all users", r)
  {
    if callerRole != "admin" {
      return ErrorReply("Only admins can send broadcast notifications", 403);
    }
    if title == "" || message == "" || ntype == "" {
      return ErrorReply("Missing fields", 400);
    }
    r := Publish(store, io, RegularUsers(directory), caller, ntype, title, message, None, "Broadcast sent to all users");
  }

  /** `sendToAdmin`: no role gate; the caller never receives their own message. */
  method SendToAdmin(store: NotificationCollection, directory: seq<User>, io: Socket?, caller: UserId,
                     title: string, message: string, ntype: string)
    returns (r: Reply<NotificationBody>)
    requires store.Valid()
    modifies store, io
    ensures store.Valid()
    ensures title == "" || message == "" || ntype == "" ==>
              r == ErrorReply("Missing fields", 400) && Untouched(store, io)
    ensures title != "" && message != "" && ntype != "" ==>
              Published(store, io, OtherAdmins(directory, caller), caller, ntype, title, message, None, "Sent to admins", r)
  {
    if title == "" || message == "" || ntype == "" {
      return ErrorReply("Missing fields", 400);
    }
    r := Publish(store, io, OtherAdmins(directory, caller), caller, ntype, title, message, None, "Sent to admins");
  }

  /** `sendToCategory`: admins only; the record carries the category. */
  method SendToCategory(store: NotificationCollection, habits: seq<Habit>, io: Socket?, caller: UserId, callerRole: string,
                        category: string, title: string, message: string, ntype: string)
    returns (r: Reply<NotificationBody>)
    requires store.Valid()
    modifies store, io
    ensures store.Valid()
    ensures callerRole != "admin" ==>
              r == ErrorReply("Only admins can send category notifications", 403) && Untouched(store, io)
    ensures callerRole == "admin" && (category == "" || title == "" || message == "" || ntype == "") ==>
              r == ErrorReply("Missing fields", 400) && Untouched(store, io)
    ensures callerRole == "admin" && category != "" && title != "" && message != "" && ntype != "" ==>
              Published(store, io, CategoryAudience(habits, category), caller, ntype, title, message, Some(category),
                        "Category notification sent", r)
  {
    if callerRole != "admin" {
      return ErrorReply("Only admins can send category notifications", 403);
    }
    if category == "" || title == "" || message == "" || ntype == "" {
      return ErrorReply("Missing fields", 400);
    }
    r := Publish(store, io, CategoryAudience(habits, category), caller, ntype, title, message, Some(category),
                 "Category notification sent");
  }

  /** `sendSystem`: admins only, and at least one regular user; the body's
      fields are not checked here, so a missing one fails schema validation. */
  method SendSystem(store: NotificationCollection, directory: seq<User>, io: Socket?, caller: UserId, callerRole: string,
                    title: string, message: string, ntype: string)
    returns (r: Reply<NotificationBody>)
    requires store.Valid()
    modifies store, io
    ensures store.Valid()
    ensures callerRole != "admin" ==>
              r == ErrorReply("Only admins can send system notifications", 403) && Untouched(store, io)
    ensures callerRole == "admin" && RegularUsers(directory) == [] ==>
              r == ErrorReply("No receivers provided", 400) && Untouched(store, io)
    ensures callerRole == "admin" && RegularUsers(directory) != [] ==>
              Published(store, io, RegularUsers(directory), caller, ntype, title, message, None, "System notification sent", r)
  {
    if callerRole != "admin" {
      return ErrorReply("Only admins can send system notifications", 403);
    }
    var receivers := RegularUsers(directory);
    if receivers == [] {
      return ErrorReply("No receivers provided", 400);
    }
    r := Publish(store, io, receivers, caller, ntype, title, message, None, "System notification sent");
  }

  /** The controller path versus the service path on the same receivers: with
      the second of three rooms unreachable, the controller's loop stops after
      it and reports an error although the record is stored, while a catching
      loop still reaches the third room. */
  lemma UncaughtEmitStopsFanOut(a: UserId, b: UserId, c: UserId, n: Notification)
    requires a != b && b != c && a != c
    ensures FirstUnreachable([a, b, c], {b}) == 1
    ensures Emissions([a, b, c][..1], NewNotification, RecordPayload(n)) == [Emission(a, NewNotification, RecordPayload(n))]
    ensures Emission(c, NewNotification, RecordPayload(n)) in Emissions(Reachable([a, b, c], {b}), NewNotification, RecordPayload(n))
  {
    SecondRoomFailing(a, b, c, NewNotification, RecordPayload(n));
  }

  // ---------------------------------------------------------------------------
  // Inbox queries and per-user state

  /** `getNotifications`. */
  function GetNotifications(records: seq<Notification>, caller: UserId): (r: Reply<NotificationBody>)
    ensures r.Success? && r.status == 200 && r.data.Some? && r.data.value.Records?
    ensures r.data.value.records == Inbox(records, caller)
  {
    SuccessReply("Notifications fetched successfully", Some(Records(Inbox(records, caller))))
  }

  /** `getUnreadCount`. */
  function GetUnreadCount(records: seq<Notification>, caller: UserId): (r: Reply<NotificationBody>)
    ensures r.Success? && r.status == 200 && r.data.Some? && r.data.value.Unread?
    ensures r.data.value.unreadCount == 0 <==> forall n :: n in records ==> !UnreadBy(n, caller)
    ensures r.data.value.unreadCount == UnreadCount(records, caller)
  {
    SuccessReply("Unread count fetched successfully", Some(Unread(UnreadCount(records, caller))))
  }

  const NotificationNotFound := "Notification not found"

  /** `markAsRead`; the lookup does not exclude records the caller has hidden. */
  method MarkAsRead(store: NotificationCollection, caller: UserId, id: nat) returns (r: Reply<NotificationBody>)
    requires store.Valid()
    modifies store
    ensures store.Valid()
    ensures FindForReceiver(old(store.records), id, caller).None? ==>
              r == ErrorReply(NotificationNotFound, 404) && store.records == old(store.records)
    ensures FindForReceiver(old(store.records), id, caller).Some? ==>
              var n := WithReader(old(store.records)[id], caller);
              && store.records == old(store.records)[id := n]
              && r == SuccessReply("Notification marked as read", Some(Record(n)))
              && n.receivers == old(store.records)[id].receivers
  {
    var found := FindForReceiver(store.records, id, caller);
    if found.None? {
      return ErrorReply(NotificationNotFound, 404);
    }
    store.MarkReadAt(id, caller);
    return SuccessReply("Notification marked as read", Some(Record(store.records[id])));
  }

  /** `markAsUnread`. */
  method MarkAsUnread(store: NotificationCollection, caller: UserId, id: nat) returns (r: Reply<NotificationBody>)
    requires store.Valid()
    modifies store
    ensures store.Valid()
    ensures FindForReceiver(old(store.records), id, caller).None? ==>
              r == ErrorReply(NotificationNotFound, 404) && store.records == old(store.records)
    ensures FindForReceiver(old(store.records), id, caller).Some? ==>
              var n := WithoutReader(old(store.records)[id], caller);
              && store.records == old(store.records)[id := n]
              && r == SuccessReply("Notification marked as unread", Some(Record(n)))
              && n.receivers == old(store.records)[id].receivers
  {
    var found := FindForReceiver(store.records, id, caller);
    if found.None? {
      return ErrorReply(NotificationNotFound, 404);
    }
    store.MarkUnreadAt(id, caller);
    return SuccessReply("Notification marked as unread", Some(Record(store.records[id])));
  }

  /** `markAllAsRead`. */
  method MarkAllAsRead(store: NotificationCollection, caller: UserId) returns (r: Reply<NotificationBody>)
    requires store.Valid()
    modifies store
    ensures store.Valid()
    ensures store.records == MarkAllRead(old(store.records), caller)
    ensures UnreadCount(store.records, caller) == 0
    ensures r == SuccessReply("All notifications marked as read")
  {
    MarkAllReadClearsUnread(store.records, caller);
    store.MarkAllReadFor(caller);
    return SuccessReply("All notifications marked as read");
  }

  /** `deleteNotification`: the hide is per user and answers with bare bodies. */
  method DeleteNotification(store: NotificationCollection, caller: UserId, id: nat) returns (r: Reply<NotificationBody>)
    requires store.Valid()
    modifies store
    ensures store.Valid()
    ensures FindForReceiver(old(store.records), id, caller).None? ==>
              r == Bare(404, NotificationNotFound, None) && store.records == old(store.records)
    ensures FindForReceiver(old(store.records), id, caller).Some? ==>
              && store.records == old(store.records)[id := HiddenFor(old(store.records)[id], caller)]
              && r == Bare(200, "Notification deleted for this user", None)
              && store.records[id] !in Inbox(store.records, caller)
  {
    var found := FindForReceiver(store.records, id, caller);
    if found.None? {
      return Bare(404, NotificationNotFound, None);
    }
    HideRemovesFromInbox(store.records, id, caller, caller);
    store.HideAt(id, caller);
    return Bare(200, "Notification deleted for this user", None);
  }

  /** `sendHabitReminder`: a reminder to the caller only, with no preference
      check. The record is saved before the emit, so an emit that throws
      (including on the unset handle) ends in a 500 with the record kept. */
  method SendHabitReminder(store: NotificationCollection, io: Socket?, caller: UserId,
                           habitId: Option<nat>, habitName: string, preferredTime: string, message: string)
    returns (r: Reply<NotificationBody>)
    requires store.Valid()
    modifies store, io
    ensures store.Valid()
    ensures habitName == "" || message == "" ==> r == Bare(400, "Missing required fields", None) && Untouched(store, io)
    ensures habitName != "" && message != "" ==>
              var n := NewRecord(|old(store.records)|, [caller], Some(caller), "habit_reminder", "Habit Reminder",
                                 message, None, habitId).value;
              var payload := ReminderPayload(n.id, habitName, preferredTime, message, n.createdAt);
              && n.receivers == [caller] && n.sender == Some(caller) && n.relatedHabitId == habitId
              && store.records == old(store.records) + [n]
              && FannedOutUntilFailure(io, [caller], "habit-reminder", payload)
              && r == (if FanOutError(io, [caller]).Some? then Bare(500, "Failed to send habit reminder", None)
                       else Bare(201, "Habit reminder sent", Some(Record(n))))
  {
    if habitName == "" || message == "" {
      return Bare(400, "Missing required fields", None);
    }
    var created := store.Create([caller], Some(caller), "habit_reminder", "Habit Reminder", message, None, habitId);
    assert created.Ok?;
    var n := created.value;
    var thrown := EmitUntilFailure(io, [caller], "habit-reminder",
                                   ReminderPayload(n.id, habitName, preferredTime, message, n.createdAt));
    if thrown.Some? {
      return Bare(500, "Failed to send habit reminder", None);
    }
    return Bare(201, "Habit reminder sent", Some(Record(n)));
  }
}
