/** The two delivery transports the send paths consume, as injected
    capabilities: a room-addressed real-time emitter (the Socket.IO handle)
    and the SMTP mailer (utils/sendMail.js). Which deliveries fail is part of
    each transport's state. */
module Realtime {
  import opened Wrappers
  import opened Users
  import opened NotificationModel

  /** What is pushed: the whole record (event "new-notification") or the
      reminder summary (event "habit-reminder"). */
  datatype Payload =
    | RecordPayload(record: Notification)
    | ReminderPayload(id: nat, habitName: string, preferredTime: string, message: string, createdAt: nat)

  /** One `io.to(room).emit(event, payload)`; a room is a user's id. */
  datatype Emission = Emission(room: UserId, event: string, payload: Payload)

  /** The message an emit to an unreachable room throws with. */
  const EmitFailure := "Socket emit failed"

  /** What calling `io.to` on the unset handle throws with (server.js never
      stores one, so `req.app.get("io")` is undefined). */
  const MissingHandle := "Cannot read properties of undefined (reading 'to')"

  /** The emissions for each room of `rooms`, in order. */
  function Emissions(rooms: seq<UserId>, event: string, payload: Payload): (r: seq<Emission>)
    ensures |r| == |rooms|
  {
    if rooms == [] then [] else [Emission(rooms[0], event, payload)] + Emissions(rooms[1..], event, payload)
  }

  lemma {:induction false} EmissionsAppend(a: seq<UserId>, b: seq<UserId>, event: string, payload: Payload)
    ensures Emissions(a + b, event, payload) == Emissions(a, event, payload) + Emissions(b, event, payload)
  {
    if a != [] {
      assert (a + b)[1..] == a[1..] + b;
      EmissionsAppend(a[1..], b, event, payload);
      AppendAssoc([Emission(a[0], event, payload)], Emissions(a[1..], event, payload), Emissions(b, event, payload));
    } else {
      assert a + b == b;
    }
  }

  /** The rooms of `rooms` an emit reaches, in order. */
  function Reachable(rooms: seq<UserId>, unreachable: set<UserId>): (r: seq<UserId>)
    ensures |r| <= |rooms|
    decreases |rooms|
  {
    if rooms == [] then []
    else Reachable(rooms[..|rooms| - 1], unreachable)
         + (if rooms[|rooms| - 1] in unreachable then [] else [rooms[|rooms| - 1]])
  }

  /** The reached rooms are exactly the listed rooms that are not unreachable. */
  lemma {:induction false} ReachableMembers(rooms: seq<UserId>, unreachable: set<UserId>)
    ensures forall x :: x in Reachable(rooms, unreachable) <==> x in rooms && x !in unreachable
    decreases |rooms|
  {
    if rooms != [] {
      var front := rooms[..|rooms| - 1];
      ReachableMembers(front, unreachable);
      assert rooms == front + [rooms[|rooms| - 1]];
    }
  }

  /** The position of the first unreachable room, `|rooms|` when there is none. */
  function FirstUnreachable(rooms: seq<UserId>, unreachable: set<UserId>): (k: nat)
    ensures k <= |rooms|
    ensures forall j :: 0 <= j < k ==> rooms[j] !in unreachable
    ensures k < |rooms| ==> rooms[k] in unreachable
  {
    if rooms == [] then 0
    else if rooms[0] in unreachable then 0
    else 1 + FirstUnreachable(rooms[1..], unreachable)
  }

  /** The real-time transport. `attempts` logs every emit call, `delivered` the
      ones that did not throw; an emit to a room in `unreachable` throws. */
  class Socket {
    var attempts: seq<Emission>
    var delivered: seq<Emission>
    var unreachable: set<UserId>

    constructor (unreachable: set<UserId>)
      ensures attempts == [] && delivered == [] && this.unreachable == unreachable
    {
      attempts, delivered, this.unreachable := [], [], unreachable;
    }

    /** `io.to(room).emit(event, payload)`; the result is the thrown message, if any. */
    method Emit(room: UserId, event: string, payload: Payload) returns (thrown: Option<string>)
      modifies this`attempts, this`delivered
      ensures attempts == old(attempts) + [Emission(room, event, payload)]
      ensures room in unreachable ==> thrown == Some(EmitFailure) && delivered == old(delivered)
      ensures room !in unreachable ==> thrown.None? && delivered == old(delivered) + [Emission(room, event, payload)]
    {
      attempts := attempts + [Emission(room, event, payload)];
      if room in unreachable {
        thrown := Some(EmitFailure);
      } else {
        thrown := None;
        delivered := delivered + [Emission(room, event, payload)];
      }
    }
  }

  /** The error a controller's unguarded emit loop ends with: the missing handle
      when there is a room to emit to, or the first unreachable room's failure. */
  function FanOutError(io: Socket?, rooms: seq<UserId>): (e: Option<string>)
    reads io
    ensures io == null ==> (e.Some? <==> rooms != [])
    ensures io != null ==> (e.Some? <==> FirstUnreachable(rooms, io.unreachable) < |rooms|)
  {
    if io == null then (if rooms == [] then None else Some(MissingHandle))
    else if FirstUnreachable(rooms, io.unreachable) < |rooms| then Some(EmitFailure)
    else None
  }

  /** The trace a controller's emit loop leaves: emits in order up to and
      including the first one that throws, and nothing after it. */
  twostate predicate FannedOutUntilFailure(io: Socket?, rooms: seq<UserId>, event: string, payload: Payload)
    reads io
  {
    io != null ==>
      var k := FirstUnreachable(rooms, io.unreachable);
      var tried := if k < |rooms| then k + 1 else k;
      && io.unreachable == old(io.unreachable)
      && io.attempts == old(io.attempts) + Emissions(rooms[..tried], event, payload)
      && io.delivered == old(io.delivered) + Emissions(rooms[..k], event, payload)
  }

  /** The trace of an emit loop that catches each failure: one attempt per
      room, and a delivery to every reachable room. */
  twostate predicate FannedOutEach(io: Socket, rooms: seq<UserId>, event: string, payload: Payload)
    reads io
  {
    && io.unreachable == old(io.unreachable)
    && io.attempts == old(io.attempts) + Emissions(rooms, event, payload)
    && io.delivered == old(io.delivered) + Emissions(Reachable(rooms, io.unreachable), event, payload)
  }

  /** Emissions for one more room. */
  lemma EmissionsSnoc(rooms: seq<UserId>, i: nat, event: string, payload: Payload)
    requires i < |rooms|
    ensures Emissions(rooms[..i + 1], event, payload) == Emissions(rooms[..i], event, payload) + [Emission(rooms[i], event, payload)]
  {
    assert rooms[..i + 1] == rooms[..i] + [rooms[i]];
    EmissionsAppend(rooms[..i], [rooms[i]], event, payload);
  }

  /** `rooms.forEach(id => io.to(id).emit(event, payload))` with no catch: the
      first throw ends the loop and is returned. */
  method EmitUntilFailure(io: Socket?, rooms: seq<UserId>, event: string, payload: Payload)
    returns (thrown: Option<string>)
    modifies io
    ensures thrown == FanOutError(io, rooms)
    ensures FannedOutUntilFailure(io, rooms, event, payload)
  {
    if io == null {
      thrown := if rooms == [] then None else Some(MissingHandle);
      return;
    }
    ghost var except, attempts0, delivered0 := io.unreachable, io.attempts, io.delivered;
    var i := 0;
    thrown := None;
    while i < |rooms|
      invariant 0 <= i <= |rooms| && io.unreachable == except && thrown.None?
      invariant forall j :: 0 <= j < i ==> rooms[j] !in except
      invariant io.attempts == attempts0 + Emissions(rooms[..i], event, payload)
      invariant io.delivered == delivered0 + Emissions(rooms[..i], event, payload)
    {
      ghost var before := Emissions(rooms[..i], event, payload);
      ghost var e := Emission(rooms[i], event, payload);
      EmissionsSnoc(rooms, i, event, payload);
      AppendAssoc(attempts0, before, [e]);
      AppendAssoc(delivered0, before, [e]);
      thrown := io.Emit(rooms[i], event, payload);
      if thrown.Some? {
        assert FirstUnreachable(rooms, except) == i;
        return;
      }
      i := i + 1;
    }
    assert FirstUnreachable(rooms, except) == |rooms|;
    assert rooms[..i] == rooms;
  }

  /** The same loop with a catch around each emit: every room is tried once and
      a throw does not stop the rest. */
  method EmitEach(io: Socket, rooms: seq<UserId>, event: string, payload: Payload)
    modifies io
    ensures FannedOutEach(io, rooms, event, payload)
  {
    ghost var except, attempts0, delivered0 := io.unreachable, io.attempts, io.delivered;
    ghost var tried: seq<Emission> := [];
    ghost var reached: seq<UserId> := [];
    var i := 0;
    while i < |rooms|
      invariant 0 <= i <= |rooms| && io.unreachable == except
      invariant tried == Emissions(rooms[..i], event, payload)
      invariant reached == Reachable(rooms[..i], except)
      invariant io.attempts == attempts0 + tried
      invariant io.delivered == delivered0 + Emissions(reached, event, payload)
    {
      ghost var e := Emission(rooms[i], event, payload);
      EmitEachStep(rooms, i, except, reached, event, payload);
      EmissionsSnoc(rooms, i, event, payload);
      AppendAssoc(attempts0, tried, [e]);
      AppendAssoc(delivered0, Emissions(reached, event, payload), [e]);
      var _ := io.Emit(rooms[i], event, payload);
      tried := tried + [e];
      if rooms[i] !in except {
        reached := reached + [rooms[i]];
      }
      i := i + 1;
    }
    assert rooms[..i] == rooms;
  }

  lemma AppendAssoc<T>(a: seq<T>, b: seq<T>, c: seq<T>)
    ensures a + (b + c) == (a + b) + c
  {
  }

  /** One step of `EmitEach` in terms of the specification functions. */
  lemma EmitEachStep(rooms: seq<UserId>, i: nat, except: set<UserId>, reached: seq<UserId>, event: string, payload: Payload)
    requires i < |rooms| && reached == Reachable(rooms[..i], except)
    ensures rooms[i] in except ==> Reachable(rooms[..i + 1], except) == reached
    ensures rooms[i] !in except ==> Reachable(rooms[..i + 1], except) == reached + [rooms[i]]
    ensures Emissions(reached + [rooms[i]], event, payload) == Emissions(reached, event, payload) + [Emission(rooms[i], event, payload)]
  {
    ReachableSnoc(rooms, i, except);
    EmissionsAppend(reached, [rooms[i]], event, payload);
  }

  lemma ReachableSnoc(rooms: seq<UserId>, i: nat, unreachable: set<UserId>)
    requires i < |rooms|
    ensures Reachable(rooms[..i + 1], unreachable)
            == Reachable(rooms[..i], unreachable) + (if rooms[i] in unreachable then [] else [rooms[i]])
  {
    assert rooms[..i + 1][..i] == rooms[..i];
  }

  /** Three rooms where the second is unreachable: the catching loop delivers to
      the first and the third, the non-catching loop to the first only. */
  lemma SecondRoomFailing(a: UserId, b: UserId, c: UserId, event: string, payload: Payload)
    requires a != b && c != b
    ensures Reachable([a, b, c], {b}) == [a, c]
    ensures FirstUnreachable([a, b, c], {b}) == 1
    ensures [a, b, c][..FirstUnreachable([a, b, c], {b})] == [a]
  {
    assert [a, b, c][..2] == [a, b];
    assert [a, b][..1] == [a];
    assert [a][..0] == [];
    assert Reachable([a], {b}) == [a];
    assert Reachable([a, b], {b}) == [a];
  }

  /** For any rooms, the catching loop delivers to a superset of what the
      non-catching loop delivers to; with no unreachable room both deliver to all. */
  lemma {:induction false} CatchingDeliversMore(rooms: seq<UserId>, unreachable: set<UserId>)
    ensures forall x :: x in rooms[..FirstUnreachable(rooms, unreachable)] ==> x in Reachable(rooms, unreachable)
    ensures unreachable == {} ==> Reachable(rooms, unreachable) == rooms
                                  && FirstUnreachable(rooms, unreachable) == |rooms|
    decreases |rooms|
  {
    ReachableMembers(rooms, unreachable);
    if rooms != [] && unreachable == {} {
      CatchingDeliversMore(rooms[..|rooms| - 1], unreachable);
      assert rooms == rooms[..|rooms| - 1] + [rooms[|rooms| - 1]];
    }
  }

  /** The rooms reached over a concatenation are those reached over each part. */
  lemma {:induction false} ReachableAppend(a: seq<UserId>, b: seq<UserId>, unreachable: set<UserId>)
    ensures Reachable(a + b, unreachable) == Reachable(a, unreachable) + Reachable(b, unreachable)
    decreases |b|
  {
    if b == [] {
      assert a + b == a;
    } else {
      var c := a + b;
      var front := b[..|b| - 1];
      assert c[..|c| - 1] == a + front && c[|c| - 1] == b[|b| - 1];
      ReachableAppend(a, front, unreachable);
      var last := if b[|b| - 1] in unreachable then [] else [b[|b| - 1]];
      AppendAssoc(Reachable(a, unreachable), Reachable(front, unreachable), last);
    }
  }

  /** Rooms none of which is unreachable are all reached, in order. */
  lemma {:induction false} AllReachable(a: seq<UserId>, unreachable: set<UserId>)
    requires forall j :: 0 <= j < |a| ==> a[j] !in unreachable
    ensures Reachable(a, unreachable) == a
    decreases |a|
  {
    if a != [] {
      var front := a[..|a| - 1];
      AllReachable(front, unreachable);
      assert a == front + [a[|a| - 1]];
    }
  }

  /** The reached rooms are the rooms before the first failure, then those
      reached from the failing room on. */
  lemma ReachableSplitAtFailure(rooms: seq<UserId>, unreachable: set<UserId>)
    ensures var k := FirstUnreachable(rooms, unreachable);
            Reachable(rooms, unreachable) == rooms[..k] + Reachable(rooms[k..], unreachable)
  {
    var k := FirstUnreachable(rooms, unreachable);
    var front, rest := rooms[..k], rooms[k..];
    assert rooms == front + rest;
    assert forall j :: 0 <= j < |front| ==> front[j] == rooms[j];
    AllReachable(front, unreachable);
    ReachableAppend(front, rest, unreachable);
  }

  /** What is reached from the failing room on is non-empty exactly when a
      later room is reachable. */
  lemma LaterRoomsReached(rooms: seq<UserId>, unreachable: set<UserId>, k: nat, later: seq<UserId>)
    requires k <= |rooms| && (k < |rooms| ==> rooms[k] in unreachable)
    requires forall x :: x in later <==> x in rooms[k..] && x !in unreachable
    ensures later != [] <==> exists j :: k < j < |rooms| && rooms[j] !in unreachable
  {
    var rest := rooms[k..];
    if later != [] {
      var x := later[0];
      assert x in later;
      var t :| 0 <= t < |rest| && rest[t] == x;
      assert rooms[k + t] == x && k < k + t;
    }
    if exists j :: k < j < |rooms| && rooms[j] !in unreachable {
      var j :| k < j < |rooms| && rooms[j] !in unreachable;
      assert rest[j - k] == rooms[j];
      assert rooms[j] in later;
    }
  }

  /** When a room fails, the catching loop delivers to strictly more rooms than
      the non-catching one exactly when some room after the failing one is
      reachable; otherwise both deliver to the same rooms. */
  lemma FailureCostsLaterRooms(rooms: seq<UserId>, unreachable: set<UserId>)
    ensures var k := FirstUnreachable(rooms, unreachable);
            k < |Reachable(rooms, unreachable)| <==> exists j :: k < j < |rooms| && rooms[j] !in unreachable
    ensures var k := FirstUnreachable(rooms, unreachable);
            (forall j :: k < j < |rooms| ==> rooms[j] in unreachable) ==> Reachable(rooms, unreachable) == rooms[..k]
  {
    var k := FirstUnreachable(rooms, unreachable);
    ReachableSplitAtFailure(rooms, unreachable);
    var later := Reachable(rooms[k..], unreachable);
    ReachableMembers(rooms[k..], unreachable);
    LaterRoomsReached(rooms, unreachable, k, later);
    assert later == [] ==> rooms[..k] + later == rooms[..k];
  }

  /** An email: recipient address, subject and HTML body. */
  datatype Mail = Mail(to: string, subject: string, html: string)

  /** What `sendResetEmail` throws with whenever the SMTP transport fails. */
  const MailFailure := "Failed to send reset email"

  /** The email transport: `sent` logs accepted mails; mail to an address in
      `rejected` fails. */
  class Mailer {
    var sent: seq<Mail>
    var rejected: set<string>

    constructor (rejected: set<string>)
      ensures sent == [] && this.rejected == rejected
    {
      sent, this.rejected := [], rejected;
    }

    /** `sendResetEmail(to, subject, html)`; the result is the thrown message, if any. */
    method Send(to: string, subject: string, html: string) returns (thrown: Option<string>)
      modifies this`sent
      ensures to in rejected ==> thrown == Some(MailFailure) && sent == old(sent)
      ensures to !in rejected ==> thrown.None? && sent == old(sent) + [Mail(to, subject, html)]
    {
      if to in rejected {
        thrown := Some(MailFailure);
      } else {
        thrown := None;
        sent := sent + [Mail(to, subject, html)];
      }
    }
  }
}
