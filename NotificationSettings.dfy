/** The global notification settings (controllers/notificationSettingsController.js
    over models/NotificationSettings.js): a lazily created singleton of four
    flags. `findOne()` reads the first stored document. */
module NotificationSettings {
  import opened Wrappers
  import opened Response

  datatype Settings = Settings(
    habitReminderNotify: bool,
    streakMilestoneNotify: bool,
    weeklySummaryNotify: bool,
    monthlySummaryNotify: bool,
    createdAt: int,
    updatedAt: int)

  /** A fresh document: every flag takes the schema default, true. */
  function Defaults(now: int): (s: Settings)
    ensures s.habitReminderNotify && s.streakMilestoneNotify && s.weeklySummaryNotify && s.monthlySummaryNotify
    ensures s.createdAt == now && s.updatedAt == now
  {
    Settings(true, true, true, true, now, now)
  }

  /** The body of `updateSettings`; `None` is a flag the body does not carry. */
  datatype SettingsPatch = SettingsPatch(
    habitReminderNotify: Option<bool>,
    streakMilestoneNotify: Option<bool>,
    weeklySummaryNotify: Option<bool>,
    monthlySummaryNotify: Option<bool>)

  /** The supplied flags replace the stored ones and the rest stay. */
  function ApplyPatch(s: Settings, p: SettingsPatch, now: int): (t: Settings)
    ensures t.habitReminderNotify == p.habitReminderNotify.GetOr(s.habitReminderNotify)
    ensures t.streakMilestoneNotify == p.streakMilestoneNotify.GetOr(s.streakMilestoneNotify)
    ensures t.weeklySummaryNotify == p.weeklySummaryNotify.GetOr(s.weeklySummaryNotify)
    ensures t.monthlySummaryNotify == p.monthlySummaryNotify.GetOr(s.monthlySummaryNotify)
    ensures t.createdAt == s.createdAt && t.updatedAt == now
  {
    Settings(p.habitReminderNotify.GetOr(s.habitReminderNotify), p.streakMilestoneNotify.GetOr(s.streakMilestoneNotify),
             p.weeklySummaryNotify.GetOr(s.weeklySummaryNotify), p.monthlySummaryNotify.GetOr(s.monthlySummaryNotify),
             s.createdAt, now)
  }

  /** An empty patch only touches `updatedAt`, and applying the same patch twice
      is applying it once. */
  lemma ApplyPatchLaws(s: Settings, p: SettingsPatch, now: int)
    ensures ApplyPatch(s, SettingsPatch(None, None, None, None), now) == s.(updatedAt := now)
    ensures ApplyPatch(ApplyPatch(s, p, now), p, now) == ApplyPatch(s, p, now)
  {
  }

  /** The stored settings documents. */
  class SettingsCollection {
    var docs: seq<Settings>

    constructor ()
      ensures docs == []
    {
      docs := [];
    }
  }

  /** What one `getSettings` call leaves in the store and returns: the stored
      documents and their first one, or a single default document. */
  function SettingsOnRead(docs: seq<Settings>, now: int): (r: (seq<Settings>, Settings))
    ensures r.0 != [] && r.1 == r.0[0]
    ensures docs != [] ==> r.0 == docs
    ensures docs == [] ==> r.0 == [Defaults(now)]
  {
    if docs == [] then ([Defaults(now)], Defaults(now)) else (docs, docs[0])
  }

  /** `getSettings`: creates the all-true document when there is none, and
      otherwise returns the first one untouched. */
  method GetSettings(store: SettingsCollection, now: int) returns (r: Reply<Settings>)
    modifies store
    ensures old(store.docs) == [] ==> store.docs == [Defaults(now)]
    ensures old(store.docs) != [] ==> store.docs == old(store.docs)
    ensures store.docs != [] && r == SuccessReply("Notification settings fetched successfully", Some(store.docs[0]))
    ensures (store.docs, store.docs[0]) == SettingsOnRead(old(store.docs), now)
  {
    if store.docs == [] {
      store.docs := [Defaults(now)];
    }
    return SuccessReply("Notification settings fetched successfully", Some(store.docs[0]));
  }

  /** The four `if (flag !== undefined) settings.flag = flag` steps. */
  method AssignSupplied(s: Settings, patch: SettingsPatch) returns (t: Settings)
    ensures t.habitReminderNotify == patch.habitReminderNotify.GetOr(s.habitReminderNotify)
    ensures t.streakMilestoneNotify == patch.streakMilestoneNotify.GetOr(s.streakMilestoneNotify)
    ensures t.weeklySummaryNotify == patch.weeklySummaryNotify.GetOr(s.weeklySummaryNotify)
    ensures t.monthlySummaryNotify == patch.monthlySummaryNotify.GetOr(s.monthlySummaryNotify)
    ensures t.createdAt == s.createdAt && t.updatedAt == s.updatedAt
  {
    t := s;
    if patch.habitReminderNotify.Some? { t := t.(habitReminderNotify := patch.habitReminderNotify.value); }
    if patch.streakMilestoneNotify.Some? { t := t.(streakMilestoneNotify := patch.streakMilestoneNotify.value); }
    if patch.weeklySummaryNotify.Some? { t := t.(weeklySummaryNotify := patch.weeklySummaryNotify.value); }
    if patch.monthlySummaryNotify.Some? { t := t.(monthlySummaryNotify := patch.monthlySummaryNotify.value); }
  }

  /** `updateSettings`: the patch over the first document, or over a fresh
      default one, which is then stored. */
  method UpdateSettings(store: SettingsCollection, patch: SettingsPatch, now: int) returns (r: Reply<Settings>)
    modifies store
    ensures old(store.docs) == [] ==> store.docs == [ApplyPatch(Defaults(now), patch, now)]
    ensures old(store.docs) != [] ==> store.docs == old(store.docs)[0 := ApplyPatch(old(store.docs)[0], patch, now)]
    ensures store.docs != [] && r == SuccessReply("Notification settings updated successfully", Some(store.docs[0]))
  {
    var settings := if store.docs == [] then Defaults(now) else store.docs[0];
    settings := AssignSupplied(settings, patch);
    settings := settings.(updatedAt := now);
    if store.docs == [] {
      store.docs := [settings];
    } else {
      store.docs := store.docs[0 := settings];
    }
    return SuccessReply("Notification settings updated successfully", Some(settings));
  }

  /** A second read, at any later time, leaves and returns what the first did. */
  lemma GetSettingsTwiceIsOnce(docs: seq<Settings>, now: int, later: int)
    ensures var first := SettingsOnRead(docs, now);
            SettingsOnRead(first.0, later) == first
  {
  }

  /** Two `getSettings` requests in a row: both replies carry the same
      document, and the second request changes nothing. */
  method GetSettingsTwice(store: SettingsCollection, now: int, later: int) returns (first: Reply<Settings>, second: Reply<Settings>)
    modifies store
    ensures first == second
    ensures store.docs != [] && (store.docs, store.docs[0]) == SettingsOnRead(old(store.docs), now)
    ensures second == SuccessReply("Notification settings fetched successfully", Some(store.docs[0]))
  {
    first := GetSettings(store, now);
    ghost var afterFirst := store.docs;
    second := GetSettings(store, later);
    GetSettingsTwiceIsOnce(old(store.docs), now, later);
    assert store.docs == afterFirst;
  }
}
