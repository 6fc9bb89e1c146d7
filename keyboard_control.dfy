/** Keyboard control of a WAVE ROVER: key events go in, direct motor speed
    commands come out. The only state is the current speed mode, which
    scales every movement command issued after it is selected. */
module KeyboardControl {

  import opened Wrappers

  // ---------------------------------------------------------------------
  // Speed policy
  // ---------------------------------------------------------------------

  /** The speed mode selected with the keys 1, 2 and 3. */
  datatype Mode = Slow | Medium | Fast

  /** The mode the controller starts in. */
  const InitialMode: Mode := Slow

  /** Multipliers for straight motion (forward, backward, stop). */
  const ForwardBackwardSpeedRates: map<Mode, real> := map[Fast := 1.0, Medium := 0.6, Slow := 0.45]

  /** Multipliers for turning on the spot (left, right). */
  const TurningSpeedRates: map<Mode, real> := map[Fast := 1.0, Medium := 0.8, Slow := 0.6]

  /** Both tables have an entry for every mode, so no lookup can fail,
      and every multiplier is a fraction of full speed. */
  lemma RateTablesTotal(m: Mode)
    ensures m in ForwardBackwardSpeedRates && m in TurningSpeedRates
    ensures 0.0 < ForwardBackwardSpeedRates[m] <= 1.0
    ensures 0.0 < TurningSpeedRates[m] <= 1.0
  {
    match m
    case Slow =>
    case Medium =>
    case Fast =>
  }

  /** The multiplier applied to a command: the turning table for a turn,
      the straight table otherwise. */
  function Rate(m: Mode, turning: bool): (r: real)
    ensures 0.0 < r <= 1.0
    ensures m == Fast ==> r == 1.0
    ensures turning ==> r >= ForwardBackwardSpeedRates[m]
  {
    RateTablesTotal(m);
    if turning then TurningSpeedRates[m] else ForwardBackwardSpeedRates[m]
  }

  // ---------------------------------------------------------------------
  // Motor commands
  // ---------------------------------------------------------------------

  /** The message type of a direct motor speed command. */
  const DirectMotorSpeed: int := 1

  /** A command to the rover: message type T, left speed L, right speed R
      (each in -0.5 .. 0.5, 0.5 being full PWM on that side). */
  datatype Command = Command(messageType: int, left: real, right: real)

  ghost predicate InSpeedRange(x: real)
  {
    -0.5 <= x <= 0.5
  }

  /** A command the rover accepts: direct motor speed, both speeds in range. */
  ghost predicate WellFormed(c: Command)
  {
    c.messageType == DirectMotorSpeed && InSpeedRange(c.left) && InSpeedRange(c.right)
  }

  /** The command built by `movement_string` from two base speeds in the
      given mode: both sides are scaled by one and the same positive rate. */
  function MovementCommand(m: Mode, speedL: real, speedR: real, turning: bool): (c: Command)
    ensures c.messageType == DirectMotorSpeed
    ensures InSpeedRange(speedL) ==> InSpeedRange(c.left)
    ensures InSpeedRange(speedR) ==> InSpeedRange(c.right)
    ensures (c.left > 0.0 <==> speedL > 0.0) && (c.left < 0.0 <==> speedL < 0.0)
    ensures (c.right > 0.0 <==> speedR > 0.0) && (c.right < 0.0 <==> speedR < 0.0)
    ensures c.left * speedR == c.right * speedL
    ensures (c.left == c.right <==> speedL == speedR) && (c.left == -c.right <==> speedL == -speedR)
    ensures m == Fast ==> c.left == speedL && c.right == speedR
  {
    var rate := Rate(m, turning);
    Command(DirectMotorSpeed, speedL * rate, speedR * rate)
  }

  /** The five fixed manoeuvres of `move_forward`, `move_backward`,
      `move_left`, `move_right` and `stop`. */
  datatype Action = Forward | Backward | Left | Right | Stop

  /** Left and right turn on the spot; the others are straight motion. */
  predicate IsTurning(a: Action)
  {
    a == Left || a == Right
  }

  /** The unscaled (left, right) speed pair of a manoeuvre. */
  function BaseSpeeds(a: Action): (p: (real, real))
    ensures InSpeedRange(p.0) && InSpeedRange(p.1)
    ensures IsTurning(a) ==> p.0 == -p.1 != 0.0
    ensures !IsTurning(a) ==> p.0 == p.1
    ensures a == Stop <==> p == (0.0, 0.0)
  {
    match a
    case Forward => (0.5, 0.5)
    case Backward => (-0.5, -0.5)
    case Right => (0.5, -0.5)
    case Left => (-0.5, 0.5)
    case Stop => (0.0, 0.0)
  }

  /** The command a manoeuvre sends in mode `m`. */
  function ActionCommand(m: Mode, a: Action): (c: Command)
    ensures WellFormed(c)
    ensures IsTurning(a) ==> c.left == -c.right
    ensures !IsTurning(a) ==> c.left == c.right
    ensures a == Forward ==> c.left > 0.0 && c.right > 0.0
    ensures a == Backward ==> c.left < 0.0 && c.right < 0.0
    ensures a == Left ==> c.left < 0.0 < c.right
    ensures a == Right ==> c.right < 0.0 < c.left
    ensures a == Stop <==> c.left == 0.0 && c.right == 0.0
    ensures m == Fast ==> (c.left, c.right) == BaseSpeeds(a)
  {
    var base := BaseSpeeds(a);
    MovementCommand(m, base.0, base.1, IsTurning(a))
  }

  /** The stop command does not depend on the mode. */
  const StopCommand: Command := Command(DirectMotorSpeed, 0.0, 0.0)

  lemma StopIsModeIndependent(m: Mode)
    ensures ActionCommand(m, Stop) == StopCommand
  {
  }

  /** In a given mode, distinct manoeuvres send distinct commands. */
  lemma ActionCommandInjective(m: Mode, a: Action, b: Action)
    ensures ActionCommand(m, a) == ActionCommand(m, b) ==> a == b
  {
  }

  // ---------------------------------------------------------------------
  // Keys
  // ---------------------------------------------------------------------

  /** A key event's key: one with a character, or one without
      (shift, function keys, escape, ...). */
  datatype Key = Char(c: char) | NonChar

  /** The manoeuvre a character key starts, if any. */
  function KeyAction(c: char): (r: Option<Action>)
    ensures r.Some? ==> r.value != Stop
  {
    if c == 'w' then Some(Forward)
    else if c == 's' then Some(Backward)
    else if c == 'a' then Some(Left)
    else if c == 'd' then Some(Right)
    else None
  }

  /** The mode a character key selects, if any. */
  function KeyMode(c: char): (r: Option<Mode>)
    ensures r.Some? ==> KeyAction(c).None?
  {
    if c == '1' then Some(Slow)
    else if c == '2' then Some(Medium)
    else if c == '3' then Some(Fast)
    else None
  }

  /** The key that starts a manoeuvre; Stop has none. */
  function ActionKey(a: Action): (c: char)
    requires a != Stop
    ensures KeyAction(c) == Some(a)
  {
    match a
    case Forward => 'w'
    case Backward => 's'
    case Left => 'a'
    case Right => 'd'
  }

  /** The key that selects a mode. */
  function ModeKey(m: Mode): (c: char)
    ensures KeyMode(c) == Some(m)
  {
    match m
    case Slow => '1'
    case Medium => '2'
    case Fast => '3'
  }

  /** The two key tables invert each other's key functions. */
  lemma KeyTablesRoundTrip(c: char)
    ensures KeyAction(c).Some? ==> ActionKey(KeyAction(c).value) == c
    ensures KeyMode(c).Some? ==> ModeKey(KeyMode(c).value) == c
  {
  }

  // ---------------------------------------------------------------------
  // Transitions
  // ---------------------------------------------------------------------

  /** An event delivered by the keyboard listener. */
  datatype Event = Press(key: Key) | Release(key: Key)

  /** The mode after one event and the command it emits, if any. */
  datatype Transition = Transition(mode: Mode, emitted: Option<Command>)

  /** The transition of one event from mode `m`. */
  function Step(m: Mode, e: Event): (t: Transition)
    ensures t.emitted.Some? ==> t.mode == m && WellFormed(t.emitted.value)
    ensures t.mode != m ==> e.Press? && e.key.Char? && KeyMode(e.key.c) == Some(t.mode)
    ensures e.Release? ==> t == Transition(m, Some(StopCommand))
  {
    match e
    case Release(_) => Transition(m, Some(ActionCommand(m, Stop)))
    case Press(NonChar) => Transition(m, None)
    case Press(Char(c)) =>
      if KeyAction(c).Some? then Transition(m, Some(ActionCommand(m, KeyAction(c).value)))
      else if KeyMode(c).Some? then Transition(KeyMode(c).value, None)
      else Transition(m, None)
  }

  /** The key-press transition is exactly one of: a movement key (mode kept,
      its manoeuvre's command emitted), a mode key (mode set, nothing
      emitted), or any other key, with or without a character (nothing at all). */
  lemma PressCases(m: Mode, c: char)
    ensures forall a :: a != Stop ==>
      Step(m, Press(Char(ActionKey(a)))) == Transition(m, Some(ActionCommand(m, a)))
    ensures forall n :: Step(m, Press(Char(ModeKey(n)))) == Transition(n, None)
    ensures (forall b :: b != Stop ==> c != ActionKey(b)) && (forall k :: c != ModeKey(k)) ==>
      Step(m, Press(Char(c))) == Transition(m, None)
    ensures Step(m, Press(NonChar)) == Transition(m, None)
  {
    if (forall b :: b != Stop ==> c != ActionKey(b)) && (forall k :: c != ModeKey(k)) {
      KeyTablesRoundTrip(c);
    }
  }

  // ---------------------------------------------------------------------
  // Event streams
  // ---------------------------------------------------------------------

  /** A run of the listener: the final mode and one output per event. */
  datatype Trace = Trace(mode: Mode, outputs: seq<Option<Command>>)

  /** Events handled one after another, as the listener's callbacks never overlap. */
  function Run(m: Mode, es: seq<Event>): (r: Trace)
    ensures |r.outputs| == |es|
    decreases |es|
  {
    if es == [] then Trace(m, [])
    else
      var t := Step(m, es[0]);
      var rest := Run(t.mode, es[1..]);
      Trace(rest.mode, [t.emitted] + rest.outputs)
  }

  /** Reference definition of the final mode: the mode of the last
      mode-select key pressed, or the starting mode if there was none. */
  function LastSelected(m: Mode, es: seq<Event>): Mode
    decreases |es|
  {
    if es == [] then m
    else
      var e := es[|es| - 1];
      if e.Press? && e.key.Char? && KeyMode(e.key.c).Some? then KeyMode(e.key.c).value
      else LastSelected(m, es[..|es| - 1])
  }

  /** Handling one more event extends the run by that event's step. */
  lemma {:induction false} RunSnoc(m: Mode, es: seq<Event>, e: Event)
    ensures Run(m, es + [e]).mode == Step(Run(m, es).mode, e).mode
    ensures Run(m, es + [e]).outputs == Run(m, es).outputs + [Step(Run(m, es).mode, e).emitted]
    decreases |es|
  {
    if es == [] {
      assert es + [e] == [e];
    } else {
      var t := Step(m, es[0]);
      assert (es + [e])[1..] == es[1..] + [e];
      RunSnoc(t.mode, es[1..], e);
    }
  }

  /** The final mode is the one last selected. */
  lemma {:induction false} RunModeIsLastSelected(m: Mode, es: seq<Event>)
    ensures Run(m, es).mode == LastSelected(m, es)
    decreases |es|
  {
    if es != [] {
      var init, e := es[..|es| - 1], es[|es| - 1];
      assert es == init + [e];
      RunModeIsLastSelected(m, init);
      RunSnoc(m, init, e);
    }
  }

  /** The output of event i is that event's step from the mode in force
      after the events before it: a mode change is visible to the very
      next movement command. */
  lemma {:induction false} RunOutputAt(m: Mode, es: seq<Event>, i: nat)
    requires i < |es|
    ensures Run(m, es).outputs[i] == Step(LastSelected(m, es[..i]), es[i]).emitted
    decreases |es|
  {
    var init, e := es[..|es| - 1], es[|es| - 1];
    assert es == init + [e];
    RunSnoc(m, init, e);
    if i == |es| - 1 {
      assert es[..i] == init;
      RunModeIsLastSelected(m, init);
    } else {
      assert init[..i] == es[..i];
      RunOutputAt(m, init, i);
    }
  }

  /** Every command a run emits is well formed, every release emits the
      stop command, and a press emits at most a manoeuvre's command. */
  lemma {:induction false} RunOutputsWellFormed(m: Mode, es: seq<Event>, i: nat)
    requires i < |es|
    ensures Run(m, es).outputs[i].Some? ==> WellFormed(Run(m, es).outputs[i].value)
    ensures es[i].Release? ==> Run(m, es).outputs[i] == Some(StopCommand)
    ensures Run(m, es).outputs[i].Some? && es[i].Press? ==>
      exists a :: a != Stop && Run(m, es).outputs[i] == Some(ActionCommand(LastSelected(m, es[..i]), a))
  {
    RunOutputAt(m, es, i);
    var mode := LastSelected(m, es[..i]);
    if es[i].Press? && es[i].key.Char? && KeyAction(es[i].key.c).Some? {
      var a := KeyAction(es[i].key.c).value;
      assert Run(m, es).outputs[i] == Some(ActionCommand(mode, a));
    }
  }

  /** Releases of any keys do not change the mode, and each emits the
      same stop command. */
  lemma {:induction false} ReleasesIdempotent(m: Mode, es: seq<Event>)
    requires forall i :: 0 <= i < |es| ==> es[i].Release?
    ensures Run(m, es) == Trace(m, seq(|es|, _ => Some(StopCommand)))
    decreases |es|
  {
    if es != [] {
      ReleasesIdempotent(m, es[1..]);
    }
  }

  /** The starting mode survives any run without a mode-select key. */
  lemma {:induction false} NoModeKeyKeepsMode(m: Mode, es: seq<Event>)
    requires forall i :: 0 <= i < |es| ==> !(es[i].Press? && es[i].key.Char? && KeyMode(es[i].key.c).Some?)
    ensures Run(m, es).mode == m
    decreases |es|
  {
    if es != [] {
      NoModeKeyKeepsMode(Step(m, es[0]).mode, es[1..]);
    }
  }

  // ---------------------------------------------------------------------
  // Worked examples
  // ---------------------------------------------------------------------

  /** In the default slow mode, w drives both wheels at 0.5 * 0.45. */
  lemma SlowForwardExample()
    ensures Step(InitialMode, Press(Char('w'))) == Transition(Slow, Some(Command(1, 0.225, 0.225)))
  {
  }

  /** After 3 selects fast, a turns left at full base speed. */
  lemma FastLeftExample()
    ensures Run(InitialMode, [Press(Char('3')), Press(Char('a'))]).outputs
      == [None, Some(Command(1, -0.5, 0.5))]
  {
  }

  // ---------------------------------------------------------------------
  // The controller
  // ---------------------------------------------------------------------

  /** The keyboard handler: holds the current speed mode, which `OnPress`
      updates in place. */
  class Controller {
    var mode: Mode

    constructor ()
      ensures mode == InitialMode
    {
      mode := InitialMode;
    }

    /** `on_press`: a movement key emits its manoeuvre's command, a mode key
        changes the mode, any other key does nothing. */
    method OnPress(key: Key) returns (cmd: Option<Command>)
      modifies this
      ensures Transition(mode, cmd) == Step(old(mode), Press(key))
    {
      cmd := None;
      if key.NonChar? {
        return;
      }
      var c := key.c;
      if c == 'w' {
        cmd := Some(MovementCommand(mode, 0.5, 0.5, false));
      } else if c == 's' {
        cmd := Some(MovementCommand(mode, -0.5, -0.5, false));
      } else if c == 'a' {
        cmd := Some(MovementCommand(mode, -0.5, 0.5, true));
      } else if c == 'd' {
        cmd := Some(MovementCommand(mode, 0.5, -0.5, true));
      } else if c == '1' {
        mode := Slow;
      } else if c == '2' {
        mode := Medium;
      } else if c == '3' {
        mode := Fast;
      }
    }

    /** `on_release`: releasing any key stops the rover; the mode is read,
        never written. */
    method OnRelease(key: Key) returns (cmd: Command)
      ensures cmd == StopCommand
      ensures Transition(mode, Some(cmd)) == Step(mode, Release(key))
    {
      cmd := MovementCommand(mode, 0.0, 0.0, false);
    }
  }

  /** A caller's view: the class contracts alone fix what a short key
      sequence sends. */
  method ControllerScenario()
  {
    var ctl := new Controller();
    var c1 := ctl.OnPress(Char('w'));
    assert c1 == Some(Command(1, 0.225, 0.225));
    var c2 := ctl.OnPress(Char('3'));
    assert c2 == None && ctl.mode == Fast;
    var c3 := ctl.OnPress(Char('a'));
    assert c3 == Some(Command(1, -0.5, 0.5));
  }
}
