/**
 * The elevator's button panel: a door / motion state machine with a
 * single-slot "move once the doors have closed" action and a timed
 * vibration that ends every trip.
 *
 * The class ButtonPanel mirrors the script field by field; its ghost
 * function Model() gives the abstract value, a Panel, and every method
 * states its effect as a Panel transition.  The properties of the panel
 * are lemmas about those transitions.
 */
module Elevator {
  import opened Engine
  import opened Wrappers

  datatype State = Idle | Opening | Closing | GoingUp | GoingDown
  datatype DoorState = Open | Closed
  datatype Direction = Up | Down

  /** The motion state a move in direction d switches to. */
  function Going(d: Direction): (s: State) {
    match d
    case Up => GoingUp
    case Down => GoingDown
  }

  /** One engine frame: the time step and the vibration offset computed for it. */
  datatype Frame = Frame(dt: real, offset: Vec3)

  /**
   * The abstract state of the panel.  `position` is the elevator actor's
   * local position; `pending` stands for the stored callback (the only
   * callbacks ever stored are "move up" and "move down").
   */
  datatype Panel = Panel(
    duration: real,
    state: State,
    door: DoorState,
    position: Vec3,
    original: Vec3,
    vibrationTime: real,
    vibrating: bool,
    pendingTimer: real,
    pending: Option<Direction>)
  {
    function SwitchState(s: State): (r: Panel) {
      this.(state := s)
    }

    function SwitchToIdle(): (r: Panel) {
      SwitchState(Idle)
    }

    function StartVibration(): (r: Panel) {
      this.(original := position, vibrationTime := 0.0, vibrating := true)
    }

    function StopVibration(): (r: Panel) {
      this.(position := original, vibrating := false)
    }

    /** The body of the move callback (and of the direct move). */
    function StartMove(d: Direction): (r: Panel) {
      SwitchState(Going(d)).StartVibration()
    }

    function CloseDoors(): (r: Panel) {
      SwitchState(Closing).(door := Closed)
    }

    function CloseDoorsThen(d: Direction): (r: Panel) {
      CloseDoors().(pending := Some(d), pendingTimer := duration)
    }

    function OpenPressed(): (r: Panel) {
      if state != Idle || door == Open then this
      else SwitchState(Opening).(door := Open)
    }

    function ClosePressed(): (r: Panel) {
      if state != Idle || door == Closed then this
      else CloseDoors()
    }

    function MovePressed(d: Direction): (r: Panel) {
      if state != Idle then this
      else if door == Open then CloseDoorsThen(d)
      else StartMove(d)
    }

    /** First half of an update: count the pending timer down and fire the stored move. */
    function PendingStep(dt: real): (r: Panel) {
      if pendingTimer < 0.0 then this
      else if pendingTimer - dt > 0.0 then this.(pendingTimer := pendingTimer - dt)
      else
        var q := this.(pendingTimer := -1.0);
        var fired := if pending.Some? then q.StartMove(pending.value) else q;
        fired.(pending := None)
    }

    /** Second half of an update: advance the vibration, and end the trip once it has lasted long enough. */
    function VibrationStep(f: Frame): (r: Panel) {
      if !vibrating then this
      else
        var q := this.(vibrationTime := vibrationTime + f.dt, position := Add(original, f.offset));
        if q.vibrationTime >= duration then q.StopVibration().SwitchToIdle().OpenPressed()
        else q
    }

    function Update(f: Frame): (r: Panel) {
      PendingStep(f.dt).VibrationStep(f)
    }
  }

  /** The panel after a sequence of frames. */
  function Run(p: Panel, fs: seq<Frame>): (r: Panel)
    decreases |fs|
  {
    if fs == [] then p else Run(p.Update(fs[0]), fs[1..])
  }

  /** The total time the frames cover. */
  function Elapsed(fs: seq<Frame>): (t: real)
    decreases |fs|
  {
    if fs == [] then 0.0 else fs[0].dt + Elapsed(fs[1..])
  }

  ghost predicate Forward(fs: seq<Frame>) {
    forall i :: 0 <= i < |fs| ==> fs[i].dt >= 0.0
  }

  class ButtonPanel {
    const transitionDuration: real
    const elevatorActor: Actor

    var state: State
    var doorState: DoorState
    var originalPosition: Vec3
    var vibrationTime: real
    var isVibrating: bool
    var pendingActionTimer: real
    var pendingActionAfterDoorClose: Option<Direction>

    ghost function Model(): (m: Panel)
      reads this, elevatorActor
    {
      Panel(transitionDuration, state, doorState, elevatorActor.localPosition, originalPosition,
            vibrationTime, isVibrating, pendingActionTimer, pendingActionAfterDoorClose)
    }

    /** The field initialisers: idle with closed doors, no vibration, nothing pending. */
    constructor (elevator: Actor, duration: real)
      ensures elevatorActor == elevator
      ensures Model() == Panel(duration, Idle, Closed, elevator.localPosition, Zero, 0.0, false, -1.0, None)
    {
      transitionDuration := duration;
      elevatorActor := elevator;
      state := Idle;
      doorState := Closed;
      originalPosition := Zero;
      vibrationTime := 0.0;
      isVibrating := false;
      pendingActionTimer := -1.0;
      pendingActionAfterDoorClose := None;
    }

    method OnUpdate(dt: real, offset: Vec3)
      modifies this, elevatorActor`localPosition
      ensures Model() == old(Model()).Update(Frame(dt, offset))
    {
      if pendingActionTimer >= 0.0 {
        pendingActionTimer := pendingActionTimer - dt;
        if pendingActionTimer <= 0.0 {
          pendingActionTimer := -1.0;
          if pendingActionAfterDoorClose.Some? {
            StartMove(pendingActionAfterDoorClose.value);
          }
          pendingActionAfterDoorClose := None;
        }
      }

      if isVibrating {
        vibrationTime := vibrationTime + dt;
        elevatorActor.localPosition := Add(originalPosition, offset);
        if vibrationTime >= transitionDuration {
          StopElevatorVibration();
          SwitchToIdle();
          OnOpenButtonInteracted();
        }
      }
    }

    method OnGoUpButtonInteracted()
      modifies this
      ensures Model() == old(Model()).MovePressed(Up)
    {
      if state != Idle {
        return;
      }
      if doorState == Open {
        CloseDoorsThen(Up);
      } else {
        StartMove(Up);
      }
    }

    method OnGoDownButtonInteracted()
      modifies this
      ensures Model() == old(Model()).MovePressed(Down)
    {
      if state != Idle {
        return;
      }
      if doorState == Open {
        CloseDoorsThen(Down);
      } else {
        StartMove(Down);
      }
    }

    /** The callback both move buttons schedule or run: switch to the moving state and start vibrating. */
    method StartMove(d: Direction)
      modifies this
      ensures Model() == old(Model()).StartMove(d)
    {
      SwitchState(Going(d));
      StartElevatorVibration();
    }

    method CloseDoorsThen(d: Direction)
      modifies this
      ensures Model() == old(Model()).CloseDoorsThen(d)
    {
      CloseDoors();
      pendingActionAfterDoorClose := Some(d);
      pendingActionTimer := transitionDuration;
    }

    method StartElevatorVibration()
      modifies this
      ensures Model() == old(Model()).StartVibration()
    {
      originalPosition := elevatorActor.localPosition;
      vibrationTime := 0.0;
      isVibrating := true;
    }

    method StopElevatorVibration()
      modifies this, elevatorActor`localPosition
      ensures Model() == old(Model()).StopVibration()
    {
      elevatorActor.localPosition := originalPosition;
      isVibrating := false;
    }

    method OnCloseButtonInteracted()
      modifies this
      ensures Model() == old(Model()).ClosePressed()
    {
      if state != Idle || doorState == Closed {
        return;
      }
      CloseDoors();
    }

    method CloseDoors()
      modifies this
      ensures Model() == old(Model()).CloseDoors()
    {
      SwitchState(Closing);
      doorState := Closed;
    }

    method OnOpenButtonInteracted()
      modifies this
      ensures Model() == old(Model()).OpenPressed()
    {
      if state != Idle || doorState == Open {
        return;
      }
      SwitchState(Opening);
      doorState := Open;
    }

    method SwitchState(newState: State)
      modifies this
      ensures Model() == old(Model()).SwitchState(newState)
    {
      if state != newState {
        state := newState;
      }
    }

    method SwitchToIdle()
      modifies this
      ensures Model() == old(Model()).SwitchToIdle()
    {
      SwitchState(Idle);
    }
  }

  // ---------------------------------------------------------------------
  // Single-step properties of the panel's transitions.
  // ---------------------------------------------------------------------

  /** No button does anything unless the panel is idle. */
  lemma BusyPanelIgnoresButtons(p: Panel, d: Direction)
    requires p.state != Idle
    ensures p.OpenPressed() == p && p.ClosePressed() == p && p.MovePressed(d) == p
  {
  }

  /** Asking for the door state the doors are already in changes nothing. */
  lemma DoorRequestsMatchingDoorAreNoOps(p: Panel)
    ensures p.door == Open ==> p.OpenPressed() == p
    ensures p.door == Closed ==> p.ClosePressed() == p
  {
  }

  /** On an idle panel, Open and Close start the door transition and set the door at once. */
  lemma DoorButtonsOnIdlePanel(p: Panel)
    requires p.state == Idle
    ensures p.door == Closed ==> p.OpenPressed() == p.(state := Opening, door := Open)
    ensures p.door == Open ==> p.ClosePressed() == p.(state := Closing, door := Closed)
  {
  }

  /** A move with the doors shut starts at once: moving state, vibration from time zero, position captured. */
  lemma MoveWithDoorsClosed(p: Panel, d: Direction)
    requires p.state == Idle && p.door == Closed
    ensures p.MovePressed(d) == p.(state := Going(d), vibrating := true, vibrationTime := 0.0, original := p.position)
  {
  }

  /** A move with the doors open only closes them and stores the move, due one transition later. */
  lemma MoveWithDoorsOpen(p: Panel, d: Direction)
    requires p.state == Idle && p.door == Open
    ensures p.MovePressed(d) == p.(state := Closing, door := Closed, pending := Some(d), pendingTimer := p.duration)
  {
  }

  /**
   * When the pending timer runs out the stored move runs once and the slot is
   * emptied; the vibration step of the same frame runs afterwards.
   */
  lemma PendingMoveFires(p: Panel, f: Frame, d: Direction)
    requires p.pendingTimer >= 0.0 && p.pendingTimer - f.dt <= 0.0 && p.pending == Some(d)
    ensures p.PendingStep(f.dt) == p.StartMove(d).(pendingTimer := -1.0, pending := None)
    ensures p.Update(f) == p.StartMove(d).(pendingTimer := -1.0, pending := None).VibrationStep(f)
  {
  }

  /** Once the slot is empty (timer negative) the pending half of an update does nothing. */
  lemma EmptySlotStaysQuiet(p: Panel, dt: real)
    requires p.pendingTimer < 0.0
    ensures p.PendingStep(dt) == p
  {
  }

  /**
   * The frame the vibration reaches the transition duration: vibration stops,
   * the captured position is restored exactly, and the automatic Open leaves the
   * panel Opening with the door open (or idle, if the door was already open).
   */
  lemma VibrationEnds(p: Panel, f: Frame)
    requires p.vibrating && p.vibrationTime + f.dt >= p.duration
    ensures var q := p.VibrationStep(f);
      !q.vibrating && q.position == p.original && q.door == Open &&
      q.state == (if p.door == Closed then Opening else Idle) &&
      q.pending == p.pending && q.pendingTimer == p.pendingTimer
  {
  }

  /** SwitchState only assigns the state: applying it twice is applying it once. */
  lemma SwitchStateIdempotent(p: Panel, s: State)
    ensures p.SwitchState(s).SwitchState(s) == p.SwitchState(s)
    ensures p.SwitchToIdle().SwitchToIdle() == p.SwitchToIdle()
    ensures p.SwitchState(s) == p.(state := s)
  {
  }

  // ---------------------------------------------------------------------
  // Properties over many frames.
  // ---------------------------------------------------------------------

  lemma {:induction false} ElapsedNonNegative(fs: seq<Frame>)
    requires Forward(fs)
    ensures Elapsed(fs) >= 0.0
    decreases |fs|
  {
    if fs != [] {
      ForwardTail(fs);
      ElapsedNonNegative(fs[1..]);
    }
  }

  lemma ForwardTail(fs: seq<Frame>)
    requires fs != [] && Forward(fs)
    ensures fs[0].dt >= 0.0 && Forward(fs[1..])
  {
  }

  /** Running a sequence and then one more frame is running the longer sequence. */
  lemma {:induction false} RunSnoc(p: Panel, fs: seq<Frame>, f: Frame)
    ensures Run(p, fs + [f]) == Run(p, fs).Update(f)
    decreases |fs|
  {
    if fs == [] {
      assert [] + [f] == [f];
      assert Run(p, [f]) == Run(p.Update(f), []);
    } else {
      assert (fs + [f])[0] == fs[0];
      assert (fs + [f])[1..] == fs[1..] + [f];
      RunSnoc(p.Update(fs[0]), fs[1..], f);
    }
  }

  /**
   * While the doors close, frames that together last less than the pending
   * timer only count it down: no move starts and nothing else changes.
   */
  lemma {:induction false} ClosingPhase(p: Panel, fs: seq<Frame>)
    requires !p.vibrating && Forward(fs) && Elapsed(fs) < p.pendingTimer
    ensures Run(p, fs) == p.(pendingTimer := p.pendingTimer - Elapsed(fs))
    decreases |fs|
  {
    if fs != [] {
      ForwardTail(fs);
      ElapsedNonNegative(fs[1..]);
      var q := p.Update(fs[0]);
      assert q == p.(pendingTimer := p.pendingTimer - fs[0].dt);
      ClosingPhase(q, fs[1..]);
    }
  }

  /**
   * While the elevator moves with an empty slot, frames that together keep the
   * vibration time below the duration only advance it; the position is the
   * captured one plus the latest offset.
   */
  lemma {:induction false} MovingPhase(p: Panel, fs: seq<Frame>)
    requires p.vibrating && p.pendingTimer < 0.0 && fs != []
    requires Forward(fs) && p.vibrationTime + Elapsed(fs) < p.duration
    ensures Run(p, fs) == p.(vibrationTime := p.vibrationTime + Elapsed(fs),
                              position := Add(p.original, fs[|fs| - 1].offset))
    decreases |fs|
  {
    ForwardTail(fs);
    ElapsedNonNegative(fs[1..]);
    var q := p.Update(fs[0]);
    assert q == p.(vibrationTime := p.vibrationTime + fs[0].dt, position := Add(p.original, fs[0].offset));
    if fs[1..] != [] {
      MovingPhase(q, fs[1..]);
      assert fs[1..][|fs[1..]| - 1] == fs[|fs| - 1];
    }
  }

  /**
   * A move requested with the doors open: the doors close first and stay
   * closed while the timer runs; in the frame the timer reaches zero the
   * requested motion starts, from the position the elevator stood at.
   */
  lemma CloseThenMove(p: Panel, d: Direction, fs: seq<Frame>, f: Frame)
    requires p.state == Idle && p.door == Open && !p.vibrating
    requires Forward(fs) && Elapsed(fs) < p.duration <= Elapsed(fs) + f.dt
    requires 0.0 <= f.dt < p.duration
    ensures var q := Run(p.MovePressed(d), fs);
      q.state == Closing && q.door == Closed && !q.vibrating && q.pending == Some(d) &&
      q.position == p.position
    ensures var r := Run(p.MovePressed(d), fs + [f]);
      r.state == Going(d) && r.door == Closed && r.vibrating && r.vibrationTime == f.dt &&
      r.original == p.position && r.pending == None && r.pendingTimer == -1.0 && r.duration == p.duration
  {
    var start := p.MovePressed(d);
    ClosingPhase(start, fs);
    RunSnoc(start, fs, f);
  }

  /**
   * A trip under way ends in the frame the vibration time reaches the
   * duration: the elevator is back exactly at the captured position and the
   * doors open automatically.
   */
  lemma MoveCompletes(p: Panel, d: Direction, fs: seq<Frame>, f: Frame)
    requires p.state == Going(d) && p.door == Closed && p.vibrating && p.pendingTimer < 0.0
    requires Forward(fs) && p.vibrationTime + Elapsed(fs) < p.duration <= p.vibrationTime + Elapsed(fs) + f.dt
    ensures var q := Run(p, fs);
      q.state == Going(d) && q.vibrating
    ensures var r := Run(p, fs + [f]);
      r.state == Opening && r.door == Open && !r.vibrating && r.position == p.original &&
      r.pending == p.pending
  {
    RunSnoc(p, fs, f);
    if fs != [] {
      MovingPhase(p, fs);
    }
  }

  /**
   * A whole trip from an idle panel with open doors: close, move, and arrive
   * with the doors opening and the elevator exactly where it started.
   */
  lemma RoundTrip(p: Panel, d: Direction, closing: seq<Frame>, fire: Frame, moving: seq<Frame>, arrive: Frame)
    requires p.state == Idle && p.door == Open && !p.vibrating
    requires Forward(closing) && Elapsed(closing) < p.duration <= Elapsed(closing) + fire.dt
    requires 0.0 <= fire.dt < p.duration
    requires Forward(moving) && fire.dt + Elapsed(moving) < p.duration <= fire.dt + Elapsed(moving) + arrive.dt
    ensures var r := Run(p.MovePressed(d), closing + [fire] + moving + [arrive]);
      r.state == Opening && r.door == Open && !r.vibrating && r.position == p.position &&
      r.pending == None
  {
    var start := p.MovePressed(d);
    CloseThenMove(p, d, closing, fire);
    var mid := Run(start, closing + [fire]);
    MoveCompletes(mid, d, moving, arrive);
    RunConcat(start, closing + [fire], moving + [arrive]);
    assert closing + [fire] + moving + [arrive] == (closing + [fire]) + (moving + [arrive]);
  }

  lemma {:induction false} RunConcat(p: Panel, xs: seq<Frame>, ys: seq<Frame>)
    ensures Run(p, xs + ys) == Run(Run(p, xs), ys)
    decreases |xs|
  {
    if xs == [] {
      assert [] + ys == ys;
    } else {
      assert (xs + ys)[0] == xs[0];
      assert (xs + ys)[1..] == xs[1..] + ys;
      RunConcat(p.Update(xs[0]), xs[1..], ys);
    }
  }
}
