/** The habit record (models/Habit.js), its completion log and streak
    counters, and the habit collection. Dates are whole day numbers. */
module HabitModel {
  import opened Wrappers
  import opened Users

  /** A calendar day; two dates are the same day (`toDateString` equal) iff
      their day numbers are equal. */
  type Day = int

  datatype Category = Health | Fitness | Learning | Productivity | Mindfulness | Social | Other
  datatype Frequency = Daily | Weekly | Monthly
  datatype PreferredTime = AllDay | Morning | Afternoon | Evening

  /** The stored spelling of each enum value. */
  function CategoryName(c: Category): string {
    match c
    case Health => "health"
    case Fitness => "fitness"
    case Learning => "learning"
    case Productivity => "productivity"
    case Mindfulness => "mindfulness"
    case Social => "social"
    case Other => "other"
  }

  function FrequencyName(f: Frequency): string {
    match f
    case Daily => "daily"
    case Weekly => "weekly"
    case Monthly => "monthly"
  }

  function PreferredTimeName(p: PreferredTime): string {
    match p
    case AllDay => "allDay"
    case Morning => "morning"
    case Afternoon => "afternoon"
    case Evening => "evening"
  }

  /** Enum validation of `category`: the value whose spelling it is, if any. */
  function ParseCategory(s: string): (r: Option<Category>)
    ensures r.Some? ==> CategoryName(r.value) == s
    ensures r.None? ==> forall c: Category :: CategoryName(c) != s
  {
    if s == "health" then Some(Health)
    else if s == "fitness" then Some(Fitness)
    else if s == "learning" then Some(Learning)
    else if s == "productivity" then Some(Productivity)
    else if s == "mindfulness" then Some(Mindfulness)
    else if s == "social" then Some(Social)
    else if s == "other" then Some(Other)
    else None
  }

  function ParseFrequency(s: string): (r: Option<Frequency>)
    ensures r.Some? ==> FrequencyName(r.value) == s
    ensures r.None? ==> forall f: Frequency :: FrequencyName(f) != s
  {
    if s == "daily" then Some(Daily)
    else if s == "weekly" then Some(Weekly)
    else if s == "monthly" then Some(Monthly)
    else None
  }

  function ParsePreferredTime(s: string): (r: Option<PreferredTime>)
    ensures r.Some? ==> PreferredTimeName(r.value) == s
    ensures r.None? ==> forall p: PreferredTime :: PreferredTimeName(p) != s
  {
    if s == "allDay" then Some(AllDay)
    else if s == "morning" then Some(Morning)
    else if s == "afternoon" then Some(Afternoon)
    else if s == "evening" then Some(Evening)
    else None
  }

  /** Every stored spelling parses back to its value, so the spellings are distinct. */
  lemma SpellingsRoundTrip(c: Category, f: Frequency, p: PreferredTime)
    ensures ParseCategory(CategoryName(c)) == Some(c)
    ensures ParseFrequency(FrequencyName(f)) == Some(f)
    ensures ParsePreferredTime(PreferredTimeName(p)) == Some(p)
  {
  }

  /** One entry of `completions`. */
  datatype Completion = Completion(date: Day, completed: bool)

  /** A completion subdocument built from a date and an optional flag. */
  function NewCompletion(date: Day, completed: Option<bool> := None): (c: Completion)
    ensures c.date == date
    ensures c.completed <==> completed == Some(true)
  {
    Completion(date, completed.GetOr(false))
  }

  /** A stored habit. Times are milliseconds. */
  datatype Habit = Habit(
    id: nat,
    userId: UserId,
    name: string,
    description: string,
    category: Category,
    preferredTime: PreferredTime,
    frequency: Frequency,
    targetDays: int,
    color: string,
    icon: string,
    completions: seq<Completion>,
    streak: int,
    longestStreak: int,
    active: bool,
    isDeleted: bool,
    deletedBy: Option<UserId>,
    deletedAt: Option<int>,
    createdAt: int,
    updatedAt: int)

  /** What the schema reports when a save fails validation. */
  const HabitValidationError := "Habit validation failed"

  /** The fields `createHabit` takes from the request body; `None` (and "" for
      strings) is an absent field. */
  datatype HabitInput = HabitInput(
    name: string,
    description: Option<string>,
    category: Option<string>,
    frequency: Option<string>,
    targetDays: Option<int>,
    color: Option<string>,
    icon: Option<string>,
    preferredTime: Option<string>)

  /** Whether a given enum field is absent or one of the admitted spellings. */
  predicate EnumFieldOk<E>(field: Option<string>, parse: string -> Option<E>) {
    field.None? || parse(field.value).Some?
  }

  /** `new Habit({...}).save()`: validation (a non-empty name, admitted enum
      spellings) and then the schema defaults for every absent field. */
  function NewHabit(id: nat, owner: UserId, input: HabitInput, now: int): (r: Result<Habit>)
    ensures r.Ok? <==> input.name != "" && EnumFieldOk(input.category, ParseCategory)
                       && EnumFieldOk(input.frequency, ParseFrequency)
                       && EnumFieldOk(input.preferredTime, ParsePreferredTime)
    ensures r.Err? ==> r.msg == HabitValidationError
    ensures r.Ok? ==> var h := r.value;
              && h.id == id && h.userId == owner && h.name == input.name
              && h.description == input.description.GetOr("")
              && (input.category.None? ==> h.category == Other)
              && (input.category.Some? ==> CategoryName(h.category) == input.category.value)
              && (input.frequency.None? ==> h.frequency == Daily)
              && (input.frequency.Some? ==> FrequencyName(h.frequency) == input.frequency.value)
              && (input.preferredTime.None? ==> h.preferredTime == AllDay)
              && (input.preferredTime.Some? ==> PreferredTimeName(h.preferredTime) == input.preferredTime.value)
              && h.targetDays == input.targetDays.GetOr(7)
              && h.color == input.color.GetOr("#3B82F6") && h.icon == input.icon.GetOr("target")
              && h.completions == [] && h.streak == 0 && h.longestStreak == 0
              && h.active && !h.isDeleted && h.deletedBy.None? && h.deletedAt.None?
  {
    var category := if input.category.None? then Some(Other) else ParseCategory(input.category.value);
    var frequency := if input.frequency.None? then Some(Daily) else ParseFrequency(input.frequency.value);
    var time := if input.preferredTime.None? then Some(AllDay) else ParsePreferredTime(input.preferredTime.value);
    if input.name == "" || category.None? || frequency.None? || time.None? then Err(HabitValidationError)
    else Ok(Habit(id, owner, input.name, input.description.GetOr(""), category.value, time.value,
                  frequency.value, input.targetDays.GetOr(7), input.color.GetOr("#3B82F6"),
                  input.icon.GetOr("target"), [], 0, 0, true, false, None, None, now, now))
  }

  /** The fields `updateHabit` copies from the request body with `Object.assign`;
      `None` is a field the body does not carry. */
  datatype HabitPatch = HabitPatch(
    name: Option<string>,
    description: Option<string>,
    category: Option<string>,
    frequency: Option<string>,
    targetDays: Option<int>,
    color: Option<string>,
    icon: Option<string>,
    preferredTime: Option<string>,
    active: Option<bool>)

  /** `Object.assign(habit, body)`, `updatedAt = now` and the validation of `save()`. */
  function ApplyPatch(h: Habit, p: HabitPatch, now: int): (r: Result<Habit>)
    ensures r.Ok? <==> p.name.GetOr(h.name) != "" && EnumFieldOk(p.category, ParseCategory)
                       && EnumFieldOk(p.frequency, ParseFrequency)
                       && EnumFieldOk(p.preferredTime, ParsePreferredTime)
    ensures r.Err? ==> r.msg == HabitValidationError
    ensures r.Ok? ==> var g := r.value;
              // supplied fields take the new value, absent ones keep the old
              && g.name == p.name.GetOr(h.name) && g.description == p.description.GetOr(h.description)
              && (p.category.None? ==> g.category == h.category)
              && (p.category.Some? ==> CategoryName(g.category) == p.category.value)
              && (p.frequency.None? ==> g.frequency == h.frequency)
              && (p.frequency.Some? ==> FrequencyName(g.frequency) == p.frequency.value)
              && (p.preferredTime.None? ==> g.preferredTime == h.preferredTime)
              && (p.preferredTime.Some? ==> PreferredTimeName(g.preferredTime) == p.preferredTime.value)
              && g.targetDays == p.targetDays.GetOr(h.targetDays)
              && g.color == p.color.GetOr(h.color) && g.icon == p.icon.GetOr(h.icon)
              && g.active == p.active.GetOr(h.active)
              && g.updatedAt == now
              // the rest is untouched
              && g == h.(name := g.name, description := g.description, category := g.category,
                         frequency := g.frequency, preferredTime := g.preferredTime,
                         targetDays := g.targetDays, color := g.color, icon := g.icon,
                         active := g.active, updatedAt := now)
  {
    var category := if p.category.None? then Some(h.category) else ParseCategory(p.category.value);
    var frequency := if p.frequency.None? then Some(h.frequency) else ParseFrequency(p.frequency.value);
    var time := if p.preferredTime.None? then Some(h.preferredTime) else ParsePreferredTime(p.preferredTime.value);
    var name := p.name.GetOr(h.name);
    if name == "" || category.None? || frequency.None? || time.None? then Err(HabitValidationError)
    else Ok(h.(name := name, description := p.description.GetOr(h.description), category := category.value,
               frequency := frequency.value, preferredTime := time.value,
               targetDays := p.targetDays.GetOr(h.targetDays), color := p.color.GetOr(h.color),
               icon := p.icon.GetOr(h.icon), active := p.active.GetOr(h.active), updatedAt := now))
  }

  // ---------------------------------------------------------------------------
  // Completion log and streaks

  /** Some entry, completed or not, falls on `day`. */
  predicate HasEntryOn(completions: seq<Completion>, day: Day) {
    exists c :: c in completions && c.date == day
  }

  /** Some completed entry falls on `day`. */
  predicate CompletedOn(completions: seq<Completion>, day: Day): (b: bool)
    ensures b ==> HasEntryOn(completions, day)
  {
    exists c :: c in completions && c.date == day && c.completed
  }

  /** `completeHabit`'s change to a habit: without an entry on `day`, one
      completed entry is appended, the streak grows by one, and the longest
      streak follows it up; with an entry already there nothing changes. */
  function CompleteOn(h: Habit, day: Day): (g: Habit)
    ensures HasEntryOn(g.completions, day)
    ensures g.longestStreak >= h.longestStreak
    ensures g.userId == h.userId && g.id == h.id
  {
    if HasEntryOn(h.completions, day) then h
    else
      var streak := h.streak + 1;
      var entry := Completion(day, true);
      assert entry in h.completions + [entry];
      h.(completions := h.completions + [entry], streak := streak,
         longestStreak := if streak > h.longestStreak then streak else h.longestStreak)
  }

  /** The streak law of `completeHabit`. */
  lemma CompleteOnSpec(h: Habit, day: Day)
    ensures var g := CompleteOn(h, day);
            && (!HasEntryOn(h.completions, day) ==>
                  && g.completions == h.completions + [Completion(day, true)]
                  && g.streak == h.streak + 1
                  && g.longestStreak == (if h.longestStreak > g.streak then h.longestStreak else g.streak)
                  && g == h.(completions := g.completions, streak := g.streak, longestStreak := g.longestStreak))
            && (HasEntryOn(h.completions, day) ==> g == h)
            && g.longestStreak >= h.longestStreak
            && (g != h ==> g.longestStreak >= g.streak)
            && CompletedOn(g.completions, day) == (CompletedOn(h.completions, day) || !HasEntryOn(h.completions, day))
  {
    if !HasEntryOn(h.completions, day) {
      var g := CompleteOn(h, day);
      assert Completion(day, true) in g.completions;
      assert forall c :: c in h.completions ==> c in g.completions;
    }
  }

  /** Completing twice on the same day is completing once. */
  lemma CompleteOnIdempotent(h: Habit, day: Day)
    ensures CompleteOn(CompleteOn(h, day), day) == CompleteOn(h, day)
  {
    var g := CompleteOn(h, day);
    if !HasEntryOn(h.completions, day) {
      assert Completion(day, true) in g.completions;
    }
  }

  /** `completions.filter(c => c.date is not day)`. */
  function ClearDay(completions: seq<Completion>, day: Day): (r: seq<Completion>)
    ensures forall c :: c in r <==> c in completions && c.date != day
    ensures |r| <= |completions|
  {
    if completions == [] then []
    else (if completions[0].date == day then [] else [completions[0]]) + ClearDay(completions[1..], day)
  }

  /** The filter keeps the order: it acts piecewise on a concatenation. */
  lemma {:induction false} ClearDayAppend(a: seq<Completion>, b: seq<Completion>, day: Day)
    ensures ClearDay(a + b, day) == ClearDay(a, day) + ClearDay(b, day)
    decreases |a|
  {
    if a == [] {
      assert a + b == b;
    } else {
      assert (a + b)[0] == a[0] && (a + b)[1..] == a[1..] + b;
      ClearDayAppend(a[1..], b, day);
    }
  }

  /** A log with no entry on that day is left as it is. */
  lemma {:induction false} ClearDayAbsent(a: seq<Completion>, day: Day)
    requires !HasEntryOn(a, day)
    ensures ClearDay(a, day) == a
    decreases |a|
  {
    if a != [] {
      assert a[0] in a;
      assert !HasEntryOn(a[1..], day) by {
        forall c | c in a[1..] ensures c.date != day { assert c in a; }
      }
      ClearDayAbsent(a[1..], day);
      assert a == [a[0]] + a[1..];
    }
  }

  /** `incompleteHabit`'s change to a habit: every entry on `day` goes and the
      current streak drops to zero; nothing else changes. */
  function IncompleteOn(h: Habit, day: Day): (g: Habit)
    ensures !HasEntryOn(g.completions, day) && !CompletedOn(g.completions, day)
    ensures g.streak == 0 && g.longestStreak == h.longestStreak
    ensures forall d :: d != day ==> (CompletedOn(g.completions, d) <==> CompletedOn(h.completions, d))
    ensures g == h.(completions := ClearDay(h.completions, day), streak := 0)
  {
    h.(completions := ClearDay(h.completions, day), streak := 0)
  }

  // ---------------------------------------------------------------------------
  // Queries

  /** `Habit.find({ userId: owner })`, in stored order. */
  function OwnedBy(habits: seq<Habit>, owner: UserId): (r: seq<Habit>)
    ensures forall h :: h in r <==> h in habits && h.userId == owner
    ensures |r| <= |habits|
  {
    if habits == [] then []
    else (if habits[0].userId == owner then [habits[0]] else []) + OwnedBy(habits[1..], owner)
  }

  /** The habits not owned by `owner` (what `Habit.deleteMany({ userId: owner })` leaves). */
  function NotOwnedBy(habits: seq<Habit>, owner: UserId): (r: seq<Habit>)
    ensures forall h :: h in r <==> h in habits && h.userId != owner
    ensures |r| <= |habits|
  {
    if habits == [] then []
    else (if habits[0].userId != owner then [habits[0]] else []) + NotOwnedBy(habits[1..], owner)
  }

  /** `findOne({ _id: id, userId: owner })`: the position of the habit with
      that id, provided the caller owns it. */
  function FindOwned(habits: seq<Habit>, id: nat, owner: UserId): (r: Option<nat>)
    ensures r.Some? ==> r.value < |habits| && habits[r.value].id == id && habits[r.value].userId == owner
    ensures r.None? <==> forall h :: h in habits ==> !(h.id == id && h.userId == owner)
  {
    if habits == [] then None
    else if habits[0].id == id && habits[0].userId == owner then Some(0)
    else match FindOwned(habits[1..], id, owner)
         case None => None
         case Some(k) => Some(k + 1)
  }

  /** `Habit.find({ category, isDeleted: { $ne: true } })`, projected to owners. */
  function OwnersInCategory(habits: seq<Habit>, category: string): (r: seq<UserId>)
    ensures forall x :: x in r <==> exists h :: h in habits && !h.isDeleted && CategoryName(h.category) == category && h.userId == x
  {
    if habits == [] then []
    else
      (if !habits[0].isDeleted && CategoryName(habits[0].category) == category then [habits[0].userId] else [])
      + OwnersInCategory(habits[1..], category)
  }

  /** No two stored habits share an id. */
  ghost predicate DistinctHabitIds(habits: seq<Habit>) {
    forall i, j :: 0 <= i < j < |habits| ==> habits[i].id != habits[j].id
  }

  /** Dropping the first habit keeps the ids distinct. */
  lemma DistinctTail(habits: seq<Habit>)
    requires habits != [] && DistinctHabitIds(habits)
    ensures DistinctHabitIds(habits[1..])
  {
    var rest := habits[1..];
    forall i, j | 0 <= i < j < |rest| ensures rest[i].id != rest[j].id {
      assert rest[i] == habits[i + 1] && rest[j] == habits[j + 1];
    }
  }

  /** A habit whose id no listed habit carries can head a distinct list. */
  lemma DistinctCons(x: Habit, tail: seq<Habit>)
    requires DistinctHabitIds(tail)
    requires forall h :: h in tail ==> h.id != x.id
    ensures DistinctHabitIds([x] + tail)
  {
    var r := [x] + tail;
    forall i, j | 0 <= i < j < |r| ensures r[i].id != r[j].id {
      assert r[j] == tail[j - 1] && r[j] in tail;
      if i > 0 {
        assert r[i] == tail[i - 1];
      }
    }
  }

  /** Deleting every habit of one owner keeps the ids distinct. */
  lemma {:induction false} NotOwnedByDistinct(habits: seq<Habit>, owner: UserId)
    requires DistinctHabitIds(habits)
    ensures DistinctHabitIds(NotOwnedBy(habits, owner))
    decreases |habits|
  {
    if habits != [] {
      var rest := habits[1..];
      DistinctTail(habits);
      NotOwnedByDistinct(rest, owner);
      var tail := NotOwnedBy(rest, owner);
      if habits[0].userId != owner {
        forall h | h in tail ensures h.id != habits[0].id {
          var k :| 0 <= k < |rest| && rest[k] == h;
          assert habits[k + 1] == h;
        }
        DistinctCons(habits[0], tail);
      }
    }
  }

  // ---------------------------------------------------------------------------
  // The collection

  /** The stored habits. Ids are unique and below `nextId`; every stored name is
      non-empty, since a save with an empty name fails validation. */
  class HabitCollection {
    var habits: seq<Habit>
    var nextId: nat

    ghost predicate Valid()
      reads this
    {
      && DistinctHabitIds(habits)
      && (forall i :: 0 <= i < |habits| ==> habits[i].id < nextId && habits[i].name != "")
    }

    constructor ()
      ensures Valid() && habits == []
    {
      habits, nextId := [], 0;
    }

    /** `new Habit({...}).save()`. */
    method Create(owner: UserId, input: HabitInput, now: int) returns (r: Result<Habit>)
      requires Valid()
      modifies this
      ensures Valid()
      ensures r == NewHabit(old(nextId), owner, input, now)
      ensures r.Ok? ==> habits == old(habits) + [r.value]
      ensures r.Err? ==> habits == old(habits)
    {
      r := NewHabit(nextId, owner, input, now);
      if r.Ok? {
        habits, nextId := habits + [r.value], nextId + 1;
      }
    }

    /** `habit.save()` of a changed copy of the record at position `i`. */
    method Put(i: nat, h: Habit)
      requires Valid() && i < |habits| && h.id == habits[i].id && h.name != ""
      modifies this`habits
      ensures Valid() && habits == old(habits)[i := h]
    {
      habits := habits[i := h];
    }

    /** `completeHabit`'s update of the record at position `i`, step by step. */
    method CompleteAt(i: nat, day: Day)
      requires Valid() && i < |habits|
      modifies this`habits
      ensures Valid() && habits == old(habits)[i := CompleteOn(old(habits)[i], day)]
    {
      var h := habits[i];
      if !HasEntryOn(h.completions, day) {
        h := h.(completions := h.completions + [Completion(day, true)]);
        h := h.(streak := h.streak + 1);
        if h.streak > h.longestStreak {
          h := h.(longestStreak := h.streak);
        }
      }
      habits := habits[i := h];
    }

    /** `incompleteHabit`'s update of the record at position `i`. */
    method IncompleteAt(i: nat, day: Day)
      requires Valid() && i < |habits|
      modifies this`habits
      ensures Valid() && habits == old(habits)[i := IncompleteOn(old(habits)[i], day)]
    {
      var h := habits[i];
      h := h.(completions := ClearDay(h.completions, day));
      h := h.(streak := 0);
      habits := habits[i := h];
    }

    /** `findOneAndDelete` of the record at position `i`. */
    method DeleteAt(i: nat)
      requires Valid() && i < |habits|
      modifies this`habits
      ensures Valid() && habits == old(habits)[..i] + old(habits)[i + 1..]
    {
      habits := habits[..i] + habits[i + 1..];
    }

    /** `Habit.deleteMany({ userId: owner })`. */
    method DeleteOwnedBy(owner: UserId)
      requires Valid()
      modifies this`habits
      ensures Valid() && habits == NotOwnedBy(old(habits), owner)
    {
      NotOwnedByDistinct(habits, owner);
      habits := NotOwnedBy(habits, owner);
      assert forall i :: 0 <= i < |habits| ==> habits[i] in old(habits);
    }
  }
}
