/**
 The alert drill: a phase machine that is persisted after every step, cut off anywhere, and driven
 by whatever its endpoints answer.
 */
module Drill {
  import opened Wrappers

  datatype Phase = Pending | Firing | Delivery | Recovery | Pass | Fail

  datatype Marker = PendingSeen | FiringSeen | Delivered | Disabled | Recovered

  datatype Reason = Deadline | StepBound | PendingNotObserved

  datatype State = State(
    started: real, phase: Phase, steps: int, errors: int, markers: map<Marker, real>, reason: Option<Reason>)

  const DEADLINE_SECONDS := 240.0
  const MAX_STEPS := 64

  predicate Terminal(s: State) { s.phase.Pass? || s.phase.Fail? }

  /** The value checks of `load`. */
  predicate Loads(s: State) {
    && s.started > 0.0 && 1 <= s.steps <= MAX_STEPS && 0 <= s.errors <= MAX_STEPS
    && forall m :: m in s.markers ==> s.markers[m] > 0.0
  }

  // ---------------------------------------------------------------- endpoint answers

  /** An alert row: whether its labels are the drill's, and its state. */
  datatype Row = Row(own: bool, state: string)

  ghost predicate Readable(rows: seq<Row>) {
    && |rows| <= 64
    && (forall i :: 0 <= i < |rows| && rows[i].own ==> rows[i].state == "pending" || rows[i].state == "firing")
    && (forall i, k :: 0 <= i < k < |rows| ==> !rows[i].own || !rows[k].own)
  }

  ghost predicate Shows(rows: seq<Row>, state: string) {
    exists i :: 0 <= i < |rows| && rows[i].own && rows[i].state == state
  }

  /** The state of the drill's own alert; an unknown state or a second own row is an error. */
  method ActiveState(rows: seq<Row>) returns (r: Result<Option<string>, ()>)
    ensures r.Ok? <==> Readable(rows)
    ensures r.Ok? ==>
            (r.value == Some("pending") <==> Shows(rows, "pending"))
            && (r.value == Some("firing") <==> Shows(rows, "firing"))
    ensures r == Ok(None) <==> Readable(rows) && forall i :: 0 <= i < |rows| ==> !rows[i].own
    ensures r.Ok? && r.value.Some? ==> r.value.value == "pending" || r.value.value == "firing"
  {
    if |rows| > 64 {
      return Err(());
    }
    var selected: seq<nat> := [];
    for i := 0 to |rows|
      invariant forall a :: 0 <= a < |selected| ==> selected[a] < i && rows[selected[a]].own
      invariant forall k :: 0 <= k < i && rows[k].own ==> k in selected
      invariant forall a, b :: 0 <= a < b < |selected| ==> selected[a] < selected[b]
      invariant forall k :: 0 <= k < i && rows[k].own ==> rows[k].state == "pending" || rows[k].state == "firing"
    {
      if rows[i].own {
        if rows[i].state != "pending" && rows[i].state != "firing" {
          return Err(());
        }
        selected := selected + [i];
      }
    }
    if |selected| > 1 {
      assert rows[selected[0]].own && rows[selected[1]].own;
      return Err(());
    }
    if selected == [] {
      return Ok(None);
    }
    assert rows[selected[0]].own;
    return Ok(Some(rows[selected[0]].state));
  }

  /** A delivery receipt: whether it is the drill's, its status and its finite positive time, if any. */
  datatype Note = Note(own: bool, status: string, timestamp: Option<real>)

  predicate Matches(n: Note, status: string, since: real) {
    n.own && n.status == status && n.timestamp.Some? && n.timestamp.value >= since
  }

  ghost predicate Reports(notes: seq<Note>, status: string, since: real) {
    exists i :: 0 <= i < |notes| && Matches(notes[i], status, since)
  }

  /** Whether a receipt of that status was delivered since the given time. */
  method WasDelivered(notes: seq<Note>, status: string, since: real) returns (r: Result<bool, ()>)
    ensures r.Err? <==> |notes| > 32
    ensures r.Ok? ==> (r.value <==> Reports(notes, status, since))
  {
    if |notes| > 32 {
      return Err(());
    }
    for i := 0 to |notes|
      invariant forall k :: 0 <= k < i ==> !Matches(notes[k], status, since)
    {
      if Matches(notes[i], status, since) {
        return Ok(true);
      }
    }
    return Ok(false);
  }

  /** What the endpoints answer during a step; `None` is a failed request, and a toggle may stay unconfirmed. */
  datatype Answers = Answers(active: Option<seq<Row>>, notes: Option<seq<Note>>, toggled: Option<bool>)

  ghost predicate SeesAlerts(a: Answers) { a.active.Some? && Readable(a.active.value) }

  ghost predicate SeesNotes(a: Answers) { a.notes.Some? && |a.notes.value| <= 32 }

  /** No own alert is active, and its resolution was delivered after the switch-off. */
  ghost predicate IsOver(s: State, a: Answers)
    requires SeesAlerts(a) && SeesNotes(a) && Disabled in s.markers
  {
    && (forall i :: 0 <= i < |a.active.value| ==> !a.active.value[i].own)
    && Reports(a.notes.value, "resolved", s.markers[Disabled])
  }

  // ---------------------------------------------------------------- what every persisted state satisfies

  predicate Before(s: State, a: Marker, b: Marker) {
    a in s.markers && b in s.markers ==> s.markers[a] <= s.markers[b]
  }

  /** The markers and the reason that a phase presupposes. */
  predicate PhaseMarkers(s: State) {
    && (s.phase.Pending? ==> s.markers == map[])
    && (s.phase.Firing? ==> s.markers.Keys == {PendingSeen})
    && (s.phase.Delivery? ==> FiringSeen in s.markers && s.markers.Keys <= {PendingSeen, FiringSeen, Delivered})
    && (s.phase.Recovery? ==> {FiringSeen, Delivered, Disabled} <= s.markers.Keys && Recovered !in s.markers)
    && (s.phase.Pass? ==> s.markers.Keys == {PendingSeen, FiringSeen, Delivered, Disabled, Recovered})
    && (s.phase.Fail? <==> s.reason.Some?)
    && (s.reason == Some(PendingNotObserved) ==> PendingSeen !in s.markers && Recovered in s.markers)
  }

  predicate Ordered(s: State, latest: real) {
    && Before(s, PendingSeen, FiringSeen) && Before(s, FiringSeen, Delivered)
    && Before(s, Delivered, Disabled) && Before(s, Disabled, Recovered)
    && forall m :: m in s.markers ==> s.markers[m] <= latest
  }

  // ---------------------------------------------------------------- what a step makes of a state

  function CountError(s: State): State {
    s.(errors := if s.errors + 1 < MAX_STEPS then s.errors + 1 else MAX_STEPS)
  }

  function Mark(s: State, m: Marker, now: real): State { s.(markers := s.markers[m := now]) }

  /** The state a step starts from: a new one, or the persisted one with one more step. */
  function Begun(disk: Option<State>, now: real): State {
    match disk
    case None => State(now, Pending, 1, 0, map[], None)
    case Some(s) => s.(steps := if s.steps + 1 < MAX_STEPS then s.steps + 1 else MAX_STEPS)
  }

  predicate Expired(s: State, now: real) { now - s.started >= DEADLINE_SECONDS || s.steps >= MAX_STEPS }

  ghost function Watched(s: State, now: real, a: Answers): State {
    if !SeesAlerts(a) then CountError(s)
    else if Shows(a.active.value, "pending")
      then (if PendingSeen in s.markers then s else Mark(s, PendingSeen, now)).(phase := Firing)
    else if Shows(a.active.value, "firing") then Mark(s, FiringSeen, now).(phase := Delivery)
    else s
  }

  ghost function AfterNotification(s: State, now: real, a: Answers): State {
    if !SeesNotes(a) then CountError(s)
    else if !Reports(a.notes.value, "firing", s.started) then s
    else if a.toggled == Some(true) then Mark(Mark(s, Delivered, now), Disabled, now).(phase := Recovery)
    else CountError(Mark(s, Delivered, now))
  }

  ghost function AfterAlert(s: State, now: real, a: Answers): State
    requires Disabled in s.markers
  {
    if !SeesAlerts(a) || !SeesNotes(a) then CountError(s)
    else if !IsOver(s, a) then s
    else if PendingSeen in s.markers then Mark(s, Recovered, now).(phase := Pass)
    else Mark(s, Recovered, now).(phase := Fail, reason := Some(PendingNotObserved))
  }

  /** A completed step, from the state it starts from. */
  ghost function Stepped(s: State, initial: bool, now: real, a: Answers): State
    requires PhaseMarkers(s)
  {
    if Expired(s, now) then
      (if a.toggled.Some? then s else CountError(s))
      .(phase := Fail, reason := Some(if now - s.started >= DEADLINE_SECONDS then Deadline else StepBound))
    else if initial then if a.toggled == Some(true) then s else CountError(s)
    else match s.phase {
      case Pending => Watched(s, now, a)
      case Firing => Watched(s, now, a)
      case Delivery => AfterNotification(s, now, a)
      case Recovery => AfterAlert(s, now, a)
      case _ => s
    }
  }

  /** The alert was first seen when it was firing already. */
  predicate Missed(s: State) { !s.phase.Pending? && PendingSeen !in s.markers }

  class Machine {
    var disk: Option<State>
    /** Enable requests sent, steps completed, the latest clock reading, and whether the clock ever went back. */
    ghost var enables: nat
    ghost var completed: nat
    ghost var latest: real
    ghost var monotone: bool

    ghost predicate Ok()
      reads this
    {
      && (disk.None? ==> enables == 0 && completed == 0)
      && enables <= 1
      && (disk.Some? ==>
            && Loads(disk.value) && PhaseMarkers(disk.value)
            && (!Terminal(disk.value) ==> completed <= disk.value.steps < MAX_STEPS)
            && (monotone ==> Ordered(disk.value, latest)))
    }

    constructor ()
      ensures Ok() && disk == None && enables == 0 && completed == 0 && monotone
    {
      disk, enables, completed, latest, monotone := None, 0, 0, 0.0, true;
    }

    ghost method ReadClock(now: real)
      requires Ok()
      modifies this`latest, this`monotone
      ensures Ok() && monotone == (old(monotone) && now >= old(latest)) && latest == now
    {
      monotone := monotone && now >= latest;
      latest := now;
    }

    /** One start of the program; it may be cut off before any of its effects. */
    method Step(now: real, answers: Answers)
      requires Ok() && now > 0.0
      modifies this
      ensures Ok()
      ensures old(disk).Some? && Terminal(old(disk).value) ==> disk == old(disk) && completed == old(completed)
      ensures completed == old(completed) || completed == old(completed) + 1
      ensures completed > old(completed) ==> disk == Some(Stepped(Begun(old(disk), now), old(disk).None?, now, answers))
      ensures completed == old(completed) ==> disk == old(disk) || (old(disk).None? && disk == Some(Begun(None, now)))
      ensures enables == old(enables) || (old(disk).None? && enables == 1)
      ensures completed > old(completed) && old(disk).None? ==> enables == 1
    {
      ghost var was := latest;
      ReadClock(now);
      if disk.Some? && Terminal(disk.value) {
        return;
      }
      var dies: bool := *;
      if dies {
        return;
      }
      var initial := disk.None?;
      var s := Begun(disk, now);
      if initial {
        disk := Some(s);
      }
      dies := *;
      if dies {
        return;
      }
      if initial && !Expired(s, now) {
        enables := enables + 1;
      }
      s := Respond(s, initial, was, now, answers);
      dies := *;
      if dies {
        return;
      }
      disk, completed := Some(s), completed + 1;
    }

    /** Any number of starts at any times. */
    method Run(times: seq<real>, answers: seq<Answers>)
      requires Ok() && |answers| == |times| && forall i :: 0 <= i < |times| ==> times[i] > 0.0
      modifies this
      ensures Ok()
      ensures old(disk).Some? && Terminal(old(disk).value) ==> disk == old(disk)
      ensures completed >= MAX_STEPS ==> disk.Some? && Terminal(disk.value)
      ensures old(disk).Some? && Missed(old(disk).value) ==> disk.Some? && !disk.value.phase.Pass?
    {
      for i := 0 to |times|
        invariant Ok()
        invariant old(disk).Some? && Terminal(old(disk).value) ==> disk == old(disk)
        invariant old(disk).Some? && Missed(old(disk).value) ==> disk.Some? && Missed(disk.value)
      {
        Step(times[i], answers[i]);
      }
    }
  }

  /** What a step inside one phase keeps. */
  ghost predicate Carries(s: State, t: State, was: real, now: real) {
    && t.started == s.started && t.steps == s.steps && Loads(t) && PhaseMarkers(t)
    && (Ordered(s, was) && was <= now ==> Ordered(t, now))
  }

  /** Pending and firing: wait for the alert to be seen. */
  method Watch(s: State, ghost was: real, now: real, answers: Answers) returns (t: State)
    requires Loads(s) && PhaseMarkers(s) && (s.phase.Pending? || s.phase.Firing?) && now > 0.0
    ensures Carries(s, t, was, now)
    ensures t == Watched(s, now, answers)
  {
    if answers.active.None? {
      return CountError(s);
    }
    var observed := ActiveState(answers.active.value);
    if observed.Err? {
      return CountError(s);
    }
    t := s;
    if observed.value == Some("pending") {
      if PendingSeen !in t.markers {
        t := Mark(t, PendingSeen, now);
      }
      t := t.(phase := Firing);
    } else if observed.value == Some("firing") {
      t := Mark(t, FiringSeen, now).(phase := Delivery);
    }
  }

  /** Delivery: wait for the notification, then switch the alert off. */
  method AwaitDelivery(s: State, ghost was: real, now: real, answers: Answers) returns (t: State)
    requires Loads(s) && PhaseMarkers(s) && s.phase.Delivery? && now > 0.0
    ensures Carries(s, t, was, now)
    ensures t == AfterNotification(s, now, answers)
  {
    if answers.notes.None? {
      return CountError(s);
    }
    var seen := WasDelivered(answers.notes.value, "firing", s.started);
    if seen.Err? {
      return CountError(s);
    }
    t := s;
    if seen.value {
      t := Mark(t, Delivered, now);
      if answers.toggled != Some(true) {
        return CountError(t);
      }
      t := Mark(t, Disabled, now).(phase := Recovery);
    }
  }

  /** Recovery: wait until the alert is gone and its resolution was delivered. */
  method AwaitRecovery(s: State, ghost was: real, now: real, answers: Answers) returns (t: State)
    requires Loads(s) && PhaseMarkers(s) && s.phase.Recovery? && now > 0.0
    ensures Carries(s, t, was, now)
    ensures t == AfterAlert(s, now, answers)
  {
    if answers.active.None? {
      return CountError(s);
    }
    var active := ActiveState(answers.active.value);
    if active.Err? || answers.notes.None? {
      return CountError(s);
    }
    var recovered := WasDelivered(answers.notes.value, "resolved", s.markers[Disabled]);
    if recovered.Err? {
      return CountError(s);
    }
    t := s;
    if active.value.None? && recovered.value {
      t := Mark(t, Recovered, now);
      if PendingSeen in t.markers {
        AllMarkers(t.markers.Keys);
        t := t.(phase := Pass);
      } else {
        t := t.(phase := Fail, reason := Some(PendingNotObserved));
      }
    }
  }

  /** Fail at the deadline or the step bound, switching the alert off; otherwise act by phase. */
  method Respond(s: State, initial: bool, ghost was: real, now: real, answers: Answers) returns (t: State)
    requires Loads(s) && PhaseMarkers(s) && !Terminal(s) && (initial ==> s.phase.Pending?) && now > 0.0
    ensures Carries(s, t, was, now)
    ensures t == Stepped(s, initial, now, answers)
    ensures Terminal(t) || s.steps < MAX_STEPS
  {
    if Expired(s, now) {
      t := s.(phase := Fail, reason := Some(if now - s.started >= DEADLINE_SECONDS then Deadline else StepBound));
      if answers.toggled.None? {
        t := CountError(t);
      }
    } else if initial {
      t := if answers.toggled == Some(true) then s else CountError(s);
    } else if s.phase.Pending? || s.phase.Firing? {
      t := Watch(s, was, now, answers);
    } else if s.phase.Delivery? {
      t := AwaitDelivery(s, was, now, answers);
    } else {
      t := AwaitRecovery(s, was, now, answers);
    }
  }

  lemma AllMarkers(seen: set<Marker>)
    requires {PendingSeen, FiringSeen, Delivered, Disabled, Recovered} <= seen
    ensures seen == {PendingSeen, FiringSeen, Delivered, Disabled, Recovered}
  {
    forall m | m in seen
      ensures m in {PendingSeen, FiringSeen, Delivered, Disabled, Recovered}
    {
      assert m.PendingSeen? || m.FiringSeen? || m.Delivered? || m.Disabled? || m.Recovered?;
    }
  }

  /** A passed drill saw everything, in order. */
  lemma PassSawEverything(s: State, latest: real)
    requires PhaseMarkers(s) && Ordered(s, latest) && s.phase.Pass?
    ensures s.markers.Keys == {PendingSeen, FiringSeen, Delivered, Disabled, Recovered}
    ensures s.markers[PendingSeen] <= s.markers[FiringSeen] <= s.markers[Delivered] <= s.markers[Disabled]
            <= s.markers[Recovered]
  {
    assert Before(s, PendingSeen, FiringSeen);
  }
}
