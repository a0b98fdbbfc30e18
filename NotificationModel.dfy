/** The notification record (models/Notification.js) and the collection of
    such records: one shared record per send, with per-receiver read and hide
    state kept in its `readBy` and `deletedBy` lists. */
module NotificationModel {
  import opened Wrappers
  import opened Users
  import opened Seqs

  /** The values the schema admits for `type`. */
  const NotificationTypes: seq<string> :=
    ["habit_reminder", "streak_milestone", "achievement", "system",
     "user", "admin_broadcast", "category_alert", "user_message"]

  predicate IsNotificationType(t: string) {
    t in NotificationTypes
  }

  /** What a failed schema validation reports; the field-by-field detail that
      follows it in the real message is not modelled. */
  const ValidationError := "Notification validation failed"

  /** A stored notification. `createdAt` is the creation sequence number (see
      `NotificationCollection`). */
  datatype Notification = Notification(
    id: nat,
    receivers: seq<UserId>,
    sender: Option<UserId>,
    ntype: string,
    title: string,
    message: string,
    readBy: seq<UserId>,
    relatedHabitId: Option<nat>,
    category: Option<string>,
    actionUrl: Option<string>,
    deletedBy: seq<UserId>,
    isDeleted: bool,
    deletedAt: Option<int>,
    createdAt: nat)

  /** The invariant the per-user operations keep: whoever has read or hidden a
      record is one of its receivers, and is listed once. */
  ghost predicate WellFormed(n: Notification) {
    && Within(n.readBy, n.receivers)
    && Within(n.deletedBy, n.receivers)
    && NoDup(n.readBy)
    && NoDup(n.deletedBy)
  }

  /** `Notification.create({...})`: schema validation, then the defaults. `type`
      must be one of the listed values and `title` and `message` must be
      non-empty (a required string rejects ""); `receivers` is taken as given,
      duplicates and all. */
  function NewRecord(id: nat, receivers: seq<UserId>, sender: Option<UserId>, ntype: string,
                     title: string, message: string,
                     category: Option<string> := None, relatedHabitId: Option<nat> := None): (r: Result<Notification>)
    ensures r.Ok? <==> IsNotificationType(ntype) && title != "" && message != ""
    ensures r.Err? ==> r.msg == ValidationError
    ensures r.Ok? ==> var n := r.value;
              && n.id == id && n.createdAt == id
              && n.receivers == receivers && n.sender == sender && n.ntype == ntype
              && n.title == title && n.message == message
              && n.category == category && n.relatedHabitId == relatedHabitId
              && n.readBy == [] && n.deletedBy == []
              && n.actionUrl.None? && !n.isDeleted && n.deletedAt.None?
              && WellFormed(n)
  {
    if !IsNotificationType(ntype) || title == "" || message == "" then Err(ValidationError)
    else Ok(Notification(id, receivers, sender, ntype, title, message, [], relatedHabitId,
                         category, None, [], false, None, id))
  }

  // ---------------------------------------------------------------------------
  // Per-(record, user) state

  predicate IsReceiver(n: Notification, u: UserId) {
    u in n.receivers
  }

  /** Listed for `u`: `u` receives it and has not hidden it. */
  predicate VisibleTo(n: Notification, u: UserId) {
    u in n.receivers && u !in n.deletedBy
  }

  /** Counted as unread for `u`. */
  predicate UnreadBy(n: Notification, u: UserId) {
    VisibleTo(n, u) && u !in n.readBy
  }

  /** `markAsRead` on one record: add `u` to `readBy` unless it is there. */
  function WithReader(n: Notification, u: UserId): (r: Notification)
    requires IsReceiver(n, u) && WellFormed(n)
    ensures WellFormed(r)
    ensures u in r.readBy
    ensures forall v :: v in r.readBy <==> v in n.readBy || v == u
    ensures r.readBy == n.readBy || r.readBy == n.readBy + [u]
    ensures r == n.(readBy := r.readBy)
  {
    if u in n.readBy then n
    else
      var r := n.(readBy := n.readBy + [u]);
      assert NoDup(r.readBy) by {
        forall i, j | 0 <= i < j < |r.readBy| ensures r.readBy[i] != r.readBy[j] {
          if j == |n.readBy| { assert r.readBy[i] == n.readBy[i]; assert n.readBy[i] in n.readBy; }
        }
      }
      r
  }

  /** `markAsUnread` on one record: remove every occurrence of `u` from `readBy`. */
  function WithoutReader(n: Notification, u: UserId): (r: Notification)
    requires WellFormed(n)
    ensures WellFormed(r)
    ensures u !in r.readBy
    ensures forall v :: v in r.readBy <==> v in n.readBy && v != u
    ensures r == n.(readBy := r.readBy)
  {
    RemoveAllNoDup(n.readBy, u);
    if u in n.readBy then n.(readBy := RemoveAll(n.readBy, u)) else n
  }

  /** `deleteNotification` on one record: add `u` to `deletedBy` unless it is there. */
  function HiddenFor(n: Notification, u: UserId): (r: Notification)
    requires IsReceiver(n, u) && WellFormed(n)
    ensures WellFormed(r)
    ensures u in r.deletedBy && !VisibleTo(r, u) && !UnreadBy(r, u)
    ensures forall v :: v in r.deletedBy <==> v in n.deletedBy || v == u
    ensures r == n.(deletedBy := r.deletedBy)
  {
    if u in n.deletedBy then n
    else
      var r := n.(deletedBy := n.deletedBy + [u]);
      assert NoDup(r.deletedBy) by {
        forall i, j | 0 <= i < j < |r.deletedBy| ensures r.deletedBy[i] != r.deletedBy[j] {
          if j == |n.deletedBy| { assert r.deletedBy[i] == n.deletedBy[i]; assert n.deletedBy[i] in n.deletedBy; }
        }
      }
      r
  }

  /** The record with `u` marked read when `markAllAsRead` selects it: `u` is a
      receiver and has not read it. Hidden records are selected too. */
  function ReadByAll(n: Notification, u: UserId): (r: Notification)
    requires WellFormed(n)
    ensures WellFormed(r)
    ensures IsReceiver(n, u) ==> r == WithReader(n, u)
    ensures !IsReceiver(n, u) ==> r == n
  {
    if IsReceiver(n, u) && u !in n.readBy then WithReader(n, u) else n
  }

  /** Marking read twice is marking read once, and so is hiding. */
  lemma PerUserOperationsIdempotent(n: Notification, u: UserId)
    requires IsReceiver(n, u) && WellFormed(n)
    ensures WithReader(WithReader(n, u), u) == WithReader(n, u)
    ensures HiddenFor(HiddenFor(n, u), u) == HiddenFor(n, u)
    ensures WithoutReader(WithoutReader(n, u), u) == WithoutReader(n, u)
  {
  }

  /** Read then unread restores a record `u` had not read; unread never un-hides. */
  lemma ReadUnreadRoundTrip(n: Notification, u: UserId)
    requires IsReceiver(n, u) && WellFormed(n) && u !in n.readBy
    ensures WithoutReader(WithReader(n, u), u) == n
    ensures VisibleTo(WithoutReader(HiddenFor(n, u), u), u) == false
  {
    assert WithReader(n, u).readBy == n.readBy + [u];
    RemoveAllAbsent(n.readBy, u);
    RemoveAllAppend(n.readBy, u);
  }

  lemma {:induction false} RemoveAllAppend(s: seq<UserId>, u: UserId)
    ensures RemoveAll(s + [u], u) == RemoveAll(s, u)
  {
    if s == [] {
      assert [u][1..] == [];
    } else {
      assert (s + [u])[1..] == s[1..] + [u];
      RemoveAllAppend(s[1..], u);
    }
  }

  // ---------------------------------------------------------------------------
  // Queries over the whole collection

  /** The page size of `getNotifications`. */
  const InboxLimit := 50

  /** The records visible to `u`, newest first. Records are stored in creation
      order, so newest first is the reverse of the stored order. */
  function VisibleNewestFirst(records: seq<Notification>, u: UserId): (r: seq<Notification>)
    ensures forall n :: n in r <==> n in records && VisibleTo(n, u)
    ensures |r| <= |records|
    decreases |records|
  {
    if records == [] then []
    else
      var last := records[|records| - 1];
      var rest := records[..|records| - 1];
      assert records == rest + [last];
      (if VisibleTo(last, u) then [last] else []) + VisibleNewestFirst(rest, u)
  }

  /** `getNotifications`: at most 50 records, each visible to `u`. */
  function Inbox(records: seq<Notification>, u: UserId): (r: seq<Notification>)
    ensures |r| <= InboxLimit
    ensures forall n :: n in r ==> n in records && VisibleTo(n, u)
    ensures |VisibleNewestFirst(records, u)| <= InboxLimit ==>
              forall n :: n in records && VisibleTo(n, u) ==> n in r
  {
    var all := VisibleNewestFirst(records, u);
    if |all| <= InboxLimit then all else all[..InboxLimit]
  }

  /** Strictly decreasing ids. */
  ghost predicate IdsDescending(s: seq<Notification>) {
    forall i, j :: 0 <= i < j < |s| ==> s[i].id > s[j].id
  }

  /** A record with a larger id than every record of a descending list can
      head it. */
  lemma DescendingCons(head: seq<Notification>, tail: seq<Notification>, bound: nat)
    requires |head| <= 1 && IdsDescending(tail)
    requires forall n :: n in head ==> n.id == bound
    requires forall n :: n in tail ==> n.id < bound
    ensures IdsDescending(head + tail)
  {
    var r := head + tail;
    forall i, j | 0 <= i < j < |r| ensures r[i].id > r[j].id {
      assert r[j] == tail[j - |head|] && r[j] in tail;
      if i < |head| {
        assert r[i] in head;
      } else {
        assert r[i] == tail[i - |head|];
      }
    }
  }

  /** The ids in `VisibleNewestFirst` strictly decrease when each record's id
      is its position, so the inbox is newest first. */
  lemma {:induction false} VisibleNewestFirstOrdered(records: seq<Notification>, u: UserId)
    requires forall i :: 0 <= i < |records| ==> records[i].id == i
    ensures IdsDescending(VisibleNewestFirst(records, u))
    ensures forall n :: n in VisibleNewestFirst(records, u) ==> n.id < |records|
    decreases |records|
  {
    if records != [] {
      var last := records[|records| - 1];
      var rest := records[..|records| - 1];
      assert forall i :: 0 <= i < |rest| ==> rest[i].id == i by {
        forall i | 0 <= i < |rest| ensures rest[i].id == i { assert rest[i] == records[i]; }
      }
      VisibleNewestFirstOrdered(rest, u);
      var tail := VisibleNewestFirst(rest, u);
      var head: seq<Notification> := if VisibleTo(last, u) then [last] else [];
      assert VisibleNewestFirst(records, u) == head + tail;
      DescendingCons(head, tail, |records| - 1);
    }
  }

  /** A prefix of a descending list is descending, and whatever the prefix
      leaves out is older than everything it keeps. */
  lemma DescendingPrefix(all: seq<Notification>, k: nat)
    requires IdsDescending(all) && k <= |all|
    ensures IdsDescending(all[..k])
    ensures forall n, m :: n in all[..k] && m in all && m !in all[..k] ==> m.id < n.id
  {
    var prefix := all[..k];
    forall n, m | n in prefix && m in all && m !in prefix ensures m.id < n.id {
      var i :| 0 <= i < |prefix| && prefix[i] == n;
      var j :| 0 <= j < |all| && all[j] == m;
      assert forall t :: 0 <= t < k ==> prefix[t] == all[t];
      assert j >= k;
      assert all[i] == n;
    }
  }

  /** With each record's id its position, the inbox is newest first, and a
      visible record left out of it is older than every record in it: the 50
      returned are the newest 50. */
  lemma InboxNewestFirst(records: seq<Notification>, u: UserId)
    requires forall i :: 0 <= i < |records| ==> records[i].id == i
    ensures IdsDescending(Inbox(records, u))
    ensures forall n, m :: n in Inbox(records, u) && m in records && VisibleTo(m, u) && m !in Inbox(records, u) ==>
              m.id < n.id
  {
    VisibleNewestFirstOrdered(records, u);
    var all := VisibleNewestFirst(records, u);
    if |all| > InboxLimit {
      DescendingPrefix(all, InboxLimit);
    } else {
      assert all[..|all|] == all;
      DescendingPrefix(all, |all|);
    }
  }

  /** `getUnreadCount`: the number of records unread by `u`. */
  function UnreadCount(records: seq<Notification>, u: UserId): (c: nat)
    ensures c <= |records|
    ensures c == 0 <==> forall n :: n in records ==> !UnreadBy(n, u)
  {
    if records == [] then 0
    else (if UnreadBy(records[0], u) then 1 else 0) + UnreadCount(records[1..], u)
  }

  /** `markAllAsRead`: the `updateMany` applied to every record. */
  function MarkAllRead(records: seq<Notification>, u: UserId): (r: seq<Notification>)
    requires forall n :: n in records ==> WellFormed(n)
    ensures |r| == |records|
    ensures forall i :: 0 <= i < |records| ==> r[i] == ReadByAll(records[i], u)
  {
    if records == [] then [] else [ReadByAll(records[0], u)] + MarkAllRead(records[1..], u)
  }

  /** After marking all read nothing is unread for `u`, and marking all read
      again changes nothing. */
  lemma MarkAllReadClearsUnread(records: seq<Notification>, u: UserId)
    requires forall n :: n in records ==> WellFormed(n)
    ensures UnreadCount(MarkAllRead(records, u), u) == 0
    ensures MarkAllRead(MarkAllRead(records, u), u) == MarkAllRead(records, u)
  {
    var once := MarkAllRead(records, u);
    forall n | n in once ensures !UnreadBy(n, u) {
      var i :| 0 <= i < |once| && once[i] == n;
    }
  }

  /** Marking all read only touches `readBy`, and only `u`'s entries in it, so
      no other user's unread count moves. */
  lemma {:induction false} MarkAllReadKeepsOthers(records: seq<Notification>, u: UserId, v: UserId)
    requires forall n :: n in records ==> WellFormed(n)
    requires v != u
    ensures UnreadCount(MarkAllRead(records, u), v) == UnreadCount(records, v)
  {
    if records != [] {
      assert MarkAllRead(records, u)[1..] == MarkAllRead(records[1..], u);
      MarkAllReadKeepsOthers(records[1..], u, v);
    }
  }

  /** A record just created is the first entry of each receiver's inbox, with
      the title, message and type it was created with. */
  lemma CreatedRecordHeadsInbox(records: seq<Notification>, receivers: seq<UserId>, sender: Option<UserId>,
                                ntype: string, title: string, message: string, u: UserId)
    requires NewRecord(|records|, receivers, sender, ntype, title, message).Ok?
    requires u in receivers
    ensures var n := NewRecord(|records|, receivers, sender, ntype, title, message).value;
            var box := Inbox(records + [n], u);
            |box| > 0 && box[0] == n && box[0].title == title && box[0].message == message && box[0].ntype == ntype
  {
    var n := NewRecord(|records|, receivers, sender, ntype, title, message).value;
    var rs := records + [n];
    assert rs[..|rs| - 1] == records;
  }

  /** Replacing one record changes the unread count by that record's contribution alone. */
  lemma {:induction false} UnreadCountReplace(records: seq<Notification>, i: nat, m: Notification, u: UserId)
    requires i < |records|
    ensures UnreadCount(records[i := m], u) + (if UnreadBy(records[i], u) then 1 else 0)
            == UnreadCount(records, u) + (if UnreadBy(m, u) then 1 else 0)
  {
    if i > 0 {
      assert records[i := m][1..] == records[1..][i - 1 := m];
      UnreadCountReplace(records[1..], i - 1, m, u);
    } else {
      assert records[i := m][1..] == records[1..];
    }
  }

  /** Hiding a record for `u` takes it out of `u`'s inbox and, if it was
      unread, lowers `u`'s unread count by one; other users are unaffected. */
  lemma HideRemovesFromInbox(records: seq<Notification>, i: nat, u: UserId, v: UserId)
    requires forall k :: 0 <= k < |records| ==> records[k].id == k && WellFormed(records[k])
    requires i < |records| && IsReceiver(records[i], u)
    ensures var after := records[i := HiddenFor(records[i], u)];
            && HiddenFor(records[i], u) !in Inbox(after, u)
            && UnreadCount(after, u) == UnreadCount(records, u) - (if UnreadBy(records[i], u) then 1 else 0)
            && (v != u ==> UnreadCount(after, v) == UnreadCount(records, v))
  {
    var m := HiddenFor(records[i], u);
    UnreadCountReplace(records, i, m, u);
    UnreadCountReplace(records, i, m, v);
    assert !UnreadBy(m, u);
    assert v != u ==> (UnreadBy(m, v) <==> UnreadBy(records[i], v));
  }

  // ---------------------------------------------------------------------------
  // The collection

  /** The stored notifications in creation order. A record's id is its
      position, and `createdAt` is that same sequence number, which stands in
      for the creation timestamp. */
  class NotificationCollection {
    var records: seq<Notification>

    ghost predicate Valid()
      reads this
    {
      forall i :: 0 <= i < |records| ==> records[i].id == i && WellFormed(records[i])
    }

    constructor ()
      ensures Valid() && records == []
    {
      records := [];
    }

    /** `Notification.create`; a validation failure stores nothing. */
    method Create(receivers: seq<UserId>, sender: Option<UserId>, ntype: string, title: string, message: string,
                  category: Option<string> := None, relatedHabitId: Option<nat> := None)
      returns (r: Result<Notification>)
      requires Valid()
      modifies this
      ensures Valid()
      ensures r == NewRecord(|old(records)|, receivers, sender, ntype, title, message, category, relatedHabitId)
      ensures r.Ok? ==> records == old(records) + [r.value]
      ensures r.Err? ==> records == old(records)
    {
      r := NewRecord(|records|, receivers, sender, ntype, title, message, category, relatedHabitId);
      if r.Ok? {
        records := records + [r.value];
      }
    }

    /** `readBy.push(u)` and `save()` on the record at position `i`, unless `u` is already a reader. */
    method MarkReadAt(i: nat, u: UserId)
      requires Valid() && i < |records| && IsReceiver(records[i], u)
      modifies this
      ensures Valid() && records == old(records)[i := WithReader(old(records)[i], u)]
    {
      if u !in records[i].readBy {
        records := records[i := WithReader(records[i], u)];
      }
    }

    /** `readBy = readBy.filter(id => id !== u)` and `save()`, when `u` is a reader. */
    method MarkUnreadAt(i: nat, u: UserId)
      requires Valid() && i < |records|
      modifies this
      ensures Valid() && records == old(records)[i := WithoutReader(old(records)[i], u)]
    {
      if u in records[i].readBy {
        records := records[i := WithoutReader(records[i], u)];
      }
    }

    /** `deletedBy.push(u)` and `save()`, unless `u` has already hidden the record. */
    method HideAt(i: nat, u: UserId)
      requires Valid() && i < |records| && IsReceiver(records[i], u)
      modifies this
      ensures Valid() && records == old(records)[i := HiddenFor(old(records)[i], u)]
    {
      if u !in records[i].deletedBy {
        records := records[i := HiddenFor(records[i], u)];
      }
    }

    /** `updateMany({ receivers: u, readBy: { $ne: u } }, { $push: { readBy: u } })`. */
    method MarkAllReadFor(u: UserId)
      requires Valid()
      modifies this
      ensures Valid() && records == MarkAllRead(old(records), u)
    {
      records := MarkAllRead(records, u);
    }
  }

  /** `findOne({ _id: id, receivers: u })`: the record, when `u` receives it. */
  function FindForReceiver(records: seq<Notification>, id: nat, u: UserId): (r: Option<Notification>)
    ensures r.Some? <==> id < |records| && IsReceiver(records[id], u)
    ensures r.Some? ==> r.value == records[id]
  {
    if id < |records| && IsReceiver(records[id], u) then Some(records[id]) else None
  }
}
