/** The habit handlers (controllers/habitController.js). Every single-habit
    handler looks the habit up by id AND owner, so another user's habit is
    "not found". `validationErrors` is what the route's request validators
    report; an empty list lets the handler run. */
module HabitController {
  import opened Wrappers
  import opened Users
  import opened Response
  import opened HabitModel

  const NotFound := "Habit not found"

  /** The `data` of a habit reply: one habit, or the caller's whole list. */
  datatype HabitBody = OneHabit(habit: Habit) | HabitList(habits: seq<Habit>)

  /** `createHabit`: the new habit always belongs to the caller. */
  method CreateHabit(store: HabitCollection, caller: UserId, validationErrors: seq<string>, input: HabitInput, now: int)
    returns (r: Reply<HabitBody>)
    requires store.Valid()
    modifies store
    ensures store.Valid()
    ensures validationErrors != [] ==> r == ValidationFailed(validationErrors) && store.habits == old(store.habits)
    ensures validationErrors == [] ==>
              var created := NewHabit(old(store.nextId), caller, input, now);
              && (created.Ok? ==> r == SuccessReply("Habit created successfully", Some(OneHabit(created.value)), 201)
                                  && store.habits == old(store.habits) + [created.value]
                                  && created.value.userId == caller)
              && (created.Err? ==> r == ErrorReply(HabitValidationError) && store.habits == old(store.habits))
  {
    if validationErrors != [] {
      return ValidationFailed(validationErrors);
    }
    var created := store.Create(caller, input, now);
    if created.Err? {
      return ErrorReply(created.msg);
    }
    return SuccessReply("Habit created successfully", Some(OneHabit(created.value)), 201);
  }

  /** `getHabits`: the caller's habits and no one else's. */
  function GetHabits(habits: seq<Habit>, caller: UserId): (r: Reply<HabitBody>)
    ensures r.status == 200 && r.Success? && r.data.Some? && r.data.value.HabitList?
    ensures forall h :: h in r.data.value.habits <==> h in habits && h.userId == caller
  {
    SuccessReply("Habits fetched successfully", Some(HabitList(OwnedBy(habits, caller))))
  }

  /** `getHabitById`: the habit when the caller owns it, otherwise 404. */
  function GetHabitById(habits: seq<Habit>, caller: UserId, id: nat): (r: Reply<HabitBody>)
    ensures (forall h :: h in habits ==> !(h.id == id && h.userId == caller)) <==> r == ErrorReply(NotFound, 404)
    ensures r.Success? ==> r.status == 200 && r.data.Some? && r.data.value.OneHabit?
                           && r.data.value.habit in habits && r.data.value.habit.id == id
                           && r.data.value.habit.userId == caller
  {
    match FindOwned(habits, id, caller)
    case None => ErrorReply(NotFound, 404)
    case Some(i) => SuccessReply("Habit fetched successfully", Some(OneHabit(habits[i])))
  }

  /** `updateHabit`: the typed patch over an owned habit, then the caller's list. */
  method UpdateHabit(store: HabitCollection, caller: UserId, validationErrors: seq<string>, id: nat,
                     patch: HabitPatch, now: int)
    returns (r: Reply<HabitBody>)
    requires store.Valid()
    modifies store
    ensures store.Valid()
    ensures validationErrors != [] ==> r == ValidationFailed(validationErrors) && store.habits == old(store.habits)
    ensures validationErrors == [] ==>
              var found := FindOwned(old(store.habits), id, caller);
              && (found.None? ==> r == ErrorReply(NotFound, 404) && store.habits == old(store.habits))
              && (found.Some? ==>
                    var updated := ApplyPatch(old(store.habits)[found.value], patch, now);
                    && (updated.Err? ==> r == ErrorReply(HabitValidationError) && store.habits == old(store.habits))
                    && (updated.Ok? ==> store.habits == old(store.habits)[found.value := updated.value]
                                        && r == SuccessReply("Habit updated successfully", Some(HabitList(OwnedBy(store.habits, caller))))))
  {
    if validationErrors != [] {
      return ValidationFailed(validationErrors);
    }
    var found := FindOwned(store.habits, id, caller);
    if found.None? {
      return ErrorReply(NotFound, 404);
    }
    var updated := ApplyPatch(store.habits[found.value], patch, now);
    if updated.Err? {
      return ErrorReply(updated.msg);
    }
    store.Put(found.value, updated.value);
    return SuccessReply("Habit updated successfully", Some(HabitList(OwnedBy(store.habits, caller))));
  }

  /** `deleteHabit`: removes the owned habit and nothing else. */
  method DeleteHabit(store: HabitCollection, caller: UserId, id: nat) returns (r: Reply<HabitBody>)
    requires store.Valid()
    modifies store
    ensures store.Valid()
    ensures var found := FindOwned(old(store.habits), id, caller);
            && (found.None? ==> r == ErrorReply(NotFound, 404) && store.habits == old(store.habits))
            && (found.Some? ==> r == SuccessReply("Habit deleted successfully")
                                && store.habits == old(store.habits)[..found.value] + old(store.habits)[found.value + 1..])
  {
    var found := FindOwned(store.habits, id, caller);
    if found.None? {
      return ErrorReply(NotFound, 404);
    }
    store.DeleteAt(found.value);
    return SuccessReply("Habit deleted successfully");
  }

  /** `completeHabit`: `date` is the body's date, `today` the clock's day. */
  method CompleteHabit(store: HabitCollection, caller: UserId, id: nat, date: Option<Day>, today: Day)
    returns (r: Reply<HabitBody>)
    requires store.Valid()
    modifies store
    ensures store.Valid()
    ensures var found := FindOwned(old(store.habits), id, caller);
            && (found.None? ==> r == ErrorReply(NotFound, 404) && store.habits == old(store.habits))
            && (found.Some? ==>
                  && store.habits == old(store.habits)[found.value := CompleteOn(old(store.habits)[found.value], date.GetOr(today))]
                  && r == SuccessReply("Habit marked as completed", Some(HabitList(OwnedBy(store.habits, caller)))))
  {
    var found := FindOwned(store.habits, id, caller);
    if found.None? {
      return ErrorReply(NotFound, 404);
    }
    store.CompleteAt(found.value, date.GetOr(today));
    return SuccessReply("Habit marked as completed", Some(HabitList(OwnedBy(store.habits, caller))));
  }

  /** `incompleteHabit`. */
  method IncompleteHabit(store: HabitCollection, caller: UserId, id: nat, date: Option<Day>, today: Day)
    returns (r: Reply<HabitBody>)
    requires store.Valid()
    modifies store
    ensures store.Valid()
    ensures var found := FindOwned(old(store.habits), id, caller);
            && (found.None? ==> r == ErrorReply(NotFound, 404) && store.habits == old(store.habits))
            && (found.Some? ==>
                  && store.habits == old(store.habits)[found.value := IncompleteOn(old(store.habits)[found.value], date.GetOr(today))]
                  && r == SuccessReply("Habit marked as incomplete", Some(HabitList(OwnedBy(store.habits, caller)))))
  {
    var found := FindOwned(store.habits, id, caller);
    if found.None? {
      return ErrorReply(NotFound, 404);
    }
    store.IncompleteAt(found.value, date.GetOr(today));
    return SuccessReply("Habit marked as incomplete", Some(HabitList(OwnedBy(store.habits, caller))));
  }

  /** A completed habit shows up, updated, in the list the handler returns. */
  lemma CompletedHabitListed(habits: seq<Habit>, caller: UserId, i: nat, day: Day)
    requires i < |habits| && habits[i].userId == caller
    ensures CompleteOn(habits[i], day) in OwnedBy(habits[i := CompleteOn(habits[i], day)], caller)
  {
    var after := habits[i := CompleteOn(habits[i], day)];
    assert after[i] in after;
  }
}
