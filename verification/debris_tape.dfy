/** The current tape-transport controller (tangods_debristape/DebrisTape.py).
    Two stepper motors, one per spool, are driven through remote axis
    devices; the controller keeps an estimate of the loops left on the spool
    being wound onto and watches the two limit switches. Every command and
    every poll is one pure transition from a device record to a new record
    and the list of motor and persistence commands it issues, in order. */
module DebrisTape {
  import opened Wrappers
  import opened Tango
  import opened TapeLoops

  /** Travel direction of the tape; the Tango enum values are 0 and 1. */
  datatype Direction = LeftToRight | RightToLeft

  function DirectionValue(d: Direction): int
  {
    match d
    case LeftToRight => 0
    case RightToLeft => 1
  }

  /** `Direction(value)`: anything but 0 or 1 raises ValueError. */
  function DirectionFromValue(v: int): (r: Option<Direction>)
    ensures r.Some? <==> (v == 0 || v == 1)
    ensures r.Some? ==> DirectionValue(r.value) == v
  {
    if v == 0 then Some(LeftToRight)
    else if v == 1 then Some(RightToLeft)
    else None
  }

  lemma DirectionValueRoundTrip(d: Direction)
    ensures DirectionFromValue(DirectionValue(d)) == Some(d)
  {
  }

  function Opposite(d: Direction): Direction
  {
    match d
    case LeftToRight => RightToLeft
    case RightToLeft => LeftToRight
  }

  datatype Motor = LeftMotor | RightMotor

  function OtherMotor(m: Motor): Motor
  {
    match m
    case LeftMotor => RightMotor
    case RightMotor => LeftMotor
  }

  /** What the controller asks of the outside world. */
  datatype Command =
    | Stop(motor: Motor)
    | JogPlus(motor: Motor)
    | JogMinus(motor: Motor)
    | SetPosition(motor: Motor, degrees: real)
    | PersistLoopsLeft(loops: real)   // the `LoopsLeft` device property write

  /** Fixed after initialisation: the size of a full roll and, per motor,
      whether it pulls tape with a plus jog (mounting orientation). */
  datatype Config = Config(fullTapeLoops: real, leftJogPlus: bool, rightJogPlus: bool)

  /** The jog-polarity property defaults. */
  const DefaultLeftJogPlus := true
  const DefaultRightJogPlus := false

  /** The mutable device state. The direction is unset until first written;
      the previous positions (degrees) are unset until the first poll after
      initialisation or after a new tape. */
  datatype Device = Device(
    state: DevState,
    direction: Option<Direction>,
    loopsLeft: real,
    previousLeft: Option<real>,
    previousRight: Option<real>,
    limitL: bool,
    limitR: bool)

  /** The record after a transition, and the commands it issued in order. */
  datatype Step = Step(dev: Device, cmds: seq<Command>)

  /** One reading of both motor positions, in degrees. */
  datatype Sample = Sample(left: real, right: real)

  /** The bound the loops estimate keeps. */
  ghost predicate Valid(c: Config, d: Device)
  {
    0.0 <= d.loopsLeft <= c.fullTapeLoops
  }

  /** The motor that pulls tape in a direction: tape moving right to left is
      wound onto the left spool. */
  function Puller(dir: Direction): Motor
  {
    match dir
    case RightToLeft => LeftMotor
    case LeftToRight => RightMotor
  }

  function JogsPlus(c: Config, m: Motor): bool
  {
    match m
    case LeftMotor => c.leftJogPlus
    case RightMotor => c.rightJogPlus
  }

  function LimitOf(d: Device, m: Motor): bool
  {
    match m
    case LeftMotor => d.limitL
    case RightMotor => d.limitR
  }

  /** The spool being wound onto reports full. */
  predicate AtAdvancingLimit(d: Device)
  {
    d.direction.Some? && LimitOf(d, Puller(d.direction.value))
  }

  /** The latest value written to the `LoopsLeft` property by a command list. */
  function LastPersisted(cmds: seq<Command>): Option<real>
  {
    if |cmds| == 0 then None
    else if cmds[|cmds| - 1].PersistLoopsLeft? then Some(cmds[|cmds| - 1].loops)
    else LastPersisted(cmds[..|cmds| - 1])
  }

  lemma {:induction false} LastPersistedAppend(a: seq<Command>, b: seq<Command>)
    ensures LastPersisted(a + b) == if LastPersisted(b).Some? then LastPersisted(b) else LastPersisted(a)
    decreases |b|
  {
    if |b| == 0 {
      assert a + b == a;
    } else {
      assert (a + b)[..|a + b| - 1] == a + b[..|b| - 1];
      LastPersistedAppend(a, b[..|b| - 1]);
    }
  }

  // ---------------------------------------------------------------------
  // Initialisation
  // ---------------------------------------------------------------------

  /** What `init_device` produces: the fixed configuration and the first step. */
  datatype Boot = Boot(config: Config, step: Step)

  /** Forgets both previous motor positions. */
  function ResetPreviousMotorPositions(d: Device): (r: Device)
    ensures r.previousLeft.None? && r.previousRight.None?
    ensures r.(previousLeft := d.previousLeft, previousRight := d.previousRight) == d
  {
    d.(previousLeft := None, previousRight := None)
  }

  /** `init_device`: computes the full roll, stops both motors, restores the
      persisted loops left through the clamp and leaves the direction unset.
      Motor connections are assumed to succeed. */
  function InitDevice(p: RollProperties, leftJogPlus: bool, rightJogPlus: bool, persisted: Option<real>): (r: Result<Boot, InitError>)
    ensures p.thicknessUm == 0 ==> r == Err(ZeroThickness)
    ensures p.thicknessUm != 0 && persisted.None? ==> r == Err(MissingLoopsLeft)
    ensures r.Ok? <==> p.thicknessUm != 0 && persisted.Some?
    ensures r.Ok? ==>
      var full := r.value.config.fullTapeLoops;
      var d := r.value.step.dev;
      && FullTapeLoops(p) == Ok(full)
      && r.value.config.leftJogPlus == leftJogPlus
      && r.value.config.rightJogPlus == rightJogPlus
      && d.state == On
      && d.direction.None?
      && d.previousLeft.None? && d.previousRight.None?
      && !d.limitL && !d.limitR
      && (full >= 0.0 ==> Valid(r.value.config, d))
      && (0.0 <= persisted.value <= full ==> d.loopsLeft == persisted.value)
      && d.loopsLeft == Clamp(persisted.value, full)
      && r.value.step.cmds == [Stop(LeftMotor), Stop(RightMotor), PersistLoopsLeft(d.loopsLeft)]
  {
    match FullTapeLoops(p)
    case Err(e) => Err(e)
    case Ok(full) =>
      var c := Config(full, leftJogPlus, rightJogPlus);
      var d0 := Device(Off, None, 0.0, None, None, false, false);
      var s1 := StopAll(d0);
      if persisted.None? then Err(MissingLoopsLeft)
      else
        var s2 := WriteLoopsLeft(c, s1.dev, persisted.value);
        var d := ResetPreviousMotorPositions(s2.dev).(direction := None);
        Ok(Boot(c, Step(d, s1.cmds + s2.cmds)))
  }

  /** Booting with the default properties and a persisted full roll: 900
      loops left, and once right to left is written and the tape started,
      the left motor pulls with a plus jog while the right one is stopped. */
  lemma DefaultBoot()
    ensures
      var r := InitDevice(DefaultRoll, DefaultLeftJogPlus, DefaultRightJogPlus, Some(900.0));
      && r.Ok?
      && r.value.config.fullTapeLoops == 900.0
      && r.value.step.dev.loopsLeft == 900.0
      && var c := r.value.config;
         var d := WriteDirection(c, r.value.step.dev, RightToLeft).dev;
         StartAll(c, d).cmds == [Stop(RightMotor), JogPlus(LeftMotor)]
  {
  }

  // ---------------------------------------------------------------------
  // Commands and attribute writes
  // ---------------------------------------------------------------------

  /** `start_all`: always MOVING; the motor on the far side is stopped and
      the pulling motor jogs with its configured polarity. With no direction
      yet, no motor is commanded. */
  function StartAll(c: Config, d: Device): (r: Step)
    ensures r.dev == d.(state := Moving)
    ensures d.direction.None? ==> r.cmds == []
    ensures d.direction.Some? ==>
      var puller := Puller(d.direction.value);
      && |r.cmds| == 2
      && r.cmds[0] == Stop(OtherMotor(puller))
      && (r.cmds[1] == JogPlus(puller) || r.cmds[1] == JogMinus(puller))
      && (r.cmds[1].JogPlus? <==> JogsPlus(c, puller))
  {
    var cmds :=
      match d.direction
      case Some(RightToLeft) =>
        [Stop(RightMotor), if c.leftJogPlus then JogPlus(LeftMotor) else JogMinus(LeftMotor)]
      case Some(LeftToRight) =>
        [Stop(LeftMotor), if c.rightJogPlus then JogPlus(RightMotor) else JogMinus(RightMotor)]
      case None => [];
    Step(d.(state := Moving), cmds)
  }

  /** `stop_all`: ON, both motors stopped. */
  function StopAll(d: Device): (r: Step)
    ensures r.dev.state == On
    ensures r.dev.(state := d.state) == d
    ensures r.cmds == [Stop(LeftMotor), Stop(RightMotor)]
  {
    Step(d.(state := On), [Stop(LeftMotor), Stop(RightMotor)])
  }

  /** Stopping a stopped device yields the same record and the same commands. */
  lemma StopAllIdempotent(d: Device)
    ensures StopAll(StopAll(d).dev) == StopAll(d)
  {
  }

  /** Starting and then stopping leaves what stopping alone would leave. */
  lemma StopAfterStart(c: Config, d: Device)
    ensures StopAll(StartAll(c, d).dev).dev == StopAll(d).dev
  {
  }

  /** The motor that `start_all` jogs is the one whose limit switch ends the
      move in `monitor_switches`. */
  lemma JoggingMotorOwnsAdvancingLimit(c: Config, d: Device)
    requires d.direction.Some?
    ensures StartAll(c, d).cmds[1].motor == Puller(d.direction.value)
    ensures AtAdvancingLimit(d) <==> LimitOf(d, StartAll(c, d).cmds[1].motor)
  {
  }

  /** `write_loops_left`: store the clamped value and persist it. */
  function WriteLoopsLeft(c: Config, d: Device, value: real): (r: Step)
    ensures c.fullTapeLoops >= 0.0 ==> Valid(c, r.dev)
    ensures 0.0 <= value <= c.fullTapeLoops ==> r.dev.loopsLeft == value
    ensures value < 0.0 <= c.fullTapeLoops ==> r.dev.loopsLeft == 0.0
    ensures value > c.fullTapeLoops ==> r.dev.loopsLeft == c.fullTapeLoops
    ensures r.dev.(loopsLeft := d.loopsLeft) == d
    ensures r.cmds == [PersistLoopsLeft(r.dev.loopsLeft)]
  {
    var stored := Clamp(value, c.fullTapeLoops);
    Step(d.(loopsLeft := stored), [PersistLoopsLeft(stored)])
  }

  /** Writing the same value twice stores what writing it once stores. */
  lemma WriteLoopsLeftIdempotent(c: Config, d: Device, value: real)
    ensures WriteLoopsLeft(c, WriteLoopsLeft(c, d, value).dev, value) == WriteLoopsLeft(c, d, value)
  {
  }

  /** `write_direction`: the first write only records the direction, and so
      does writing the current one; a change stops both motors, inverts the
      loops left and restarts only if the device was moving. */
  function WriteDirection(c: Config, d: Device, dir: Direction): (r: Step)
    ensures d.direction.None? ==> r == Step(d.(direction := Some(dir)), [])
    ensures d.direction == Some(dir) ==> r == Step(d, [])
    ensures d.direction == Some(Opposite(dir)) ==>
      && r.dev.direction == Some(dir)
      && r.dev.loopsLeft == Invert(d.loopsLeft, c.fullTapeLoops)
      && (r.dev.state == Moving <==> d.state == Moving)
      && (d.state != Moving ==> r.dev.state == On)
      && r.dev.(state := d.state, direction := d.direction, loopsLeft := d.loopsLeft) == d
      && |r.cmds| >= 3
      && r.cmds[..3] == [Stop(LeftMotor), Stop(RightMotor), PersistLoopsLeft(r.dev.loopsLeft)]
      && (d.state == Moving ==> r.cmds[3..] == StartAll(c, r.dev).cmds)
      && (d.state != Moving ==> |r.cmds| == 3)
    ensures c.fullTapeLoops >= 0.0 && Valid(c, d) ==> Valid(c, r.dev)
  {
    var d1 := if d.direction.None? then d.(direction := Some(dir)) else d;
    if dir == d1.direction.value then Step(d1, [])
    else
      var wasMoving := d1.state == Moving;
      var s1 := StopAll(d1);
      var s2 := WriteLoopsLeft(c, s1.dev.(direction := Some(dir)), c.fullTapeLoops - s1.dev.loopsLeft);
      if wasMoving then
        var s3 := StartAll(c, s2.dev);
        Step(s3.dev, s1.cmds + s2.cmds + s3.cmds)
      else Step(s2.dev, s1.cmds + s2.cmds)
  }

  /** Two successive direction changes restore the loops left and the direction. */
  lemma DirectionFlipTwiceRestoresLoops(c: Config, d: Device)
    requires Valid(c, d) && d.direction.Some?
    ensures
      var dir := d.direction.value;
      var back := WriteDirection(c, WriteDirection(c, d, Opposite(dir)).dev, dir).dev;
      && back.loopsLeft == d.loopsLeft
      && back.direction == d.direction
      && (back.state == Moving <==> d.state == Moving)
  {
  }

  /** The attribute write as the framework delivers it: an integer that must
      name a direction, `None` standing for the ValueError. */
  function WriteDirectionValue(c: Config, d: Device, value: int): (r: Option<Step>)
    ensures r.None? <==> (value != 0 && value != 1)
    ensures r.Some? ==> r.value.dev.direction == Some(DirectionFromValue(value).value)
    ensures r.Some? ==> r.value == WriteDirection(c, d, DirectionFromValue(value).value)
  {
    match DirectionFromValue(value)
    case None => None
    case Some(dir) => Some(WriteDirection(c, d, dir))
  }

  /** `read_tape_progress`: the percentage of the roll already used. */
  function ReadTapeProgress(c: Config, d: Device): (r: Option<real>)
    ensures r.None? <==> c.fullTapeLoops == 0.0
    ensures r.Some? && Valid(c, d) ==> 0.0 <= r.value <= 100.0
    ensures r.Some? ==> (r.value == 100.0 <==> d.loopsLeft == 0.0)
    ensures r.Some? ==> LoopsAtProgress(r.value, c.fullTapeLoops) == d.loopsLeft
  {
    var r := Progress(d.loopsLeft, c.fullTapeLoops);
    if r.None? then r
    else ProgressRoundTrip(d.loopsLeft, c.fullTapeLoops); r
  }

  // ---------------------------------------------------------------------
  // Polled commands
  // ---------------------------------------------------------------------

  /** Degrees a motor turned since its previous reading; an unset previous
      reading is first seeded with the current one, so it counts nothing. */
  function Turned(previous: Option<real>, now: real): (r: real)
    ensures r >= 0.0
    ensures previous.None? ==> r == 0.0
    ensures previous.Some? ==> (r == previous.value - now || r == now - previous.value)
  {
    var from := if previous.None? then now else previous.value;
    Abs(from - now)
  }

  /** `update_tape_progress`, run only while MOVING. The loops left drop by
      the larger of the two motors' turns in loops. `reread` is the second
      position read that becomes the stored previous position. */
  function UpdateTapeProgress(c: Config, d: Device, sample: Sample, reread: Sample): (r: Step)
    ensures d.state != Moving ==> r == Step(d, [])
    ensures d.state == Moving ==>
      && r.dev.previousLeft == Some(reread.left)
      && r.dev.previousRight == Some(reread.right)
      && r.dev.(loopsLeft := d.loopsLeft, previousLeft := d.previousLeft, previousRight := d.previousRight) == d
      && r.cmds == [PersistLoopsLeft(r.dev.loopsLeft)]
    ensures d.state == Moving && Valid(c, d) ==>
      && Valid(c, r.dev)
      && r.dev.loopsLeft <= d.loopsLeft
      && r.dev.loopsLeft == Max(0.0, d.loopsLeft - Max(Turned(d.previousLeft, sample.left), Turned(d.previousRight, sample.right)) / 360.0)
    ensures d.state == Moving && Valid(c, d) && d.previousLeft.None? && d.previousRight.None? ==>
      r.dev.loopsLeft == d.loopsLeft
  {
    if d.state != Moving then Step(d, [])
    else
      var previousRight := if d.previousRight.None? then sample.right else d.previousRight.value;
      var previousLeft := if d.previousLeft.None? then sample.left else d.previousLeft.value;
      var leftDiff := Abs(previousLeft - sample.left);
      var rightDiff := Abs(previousRight - sample.right);
      var d1 := d.(previousLeft := Some(reread.left), previousRight := Some(reread.right));
      var degreeDiff := Max(leftDiff, rightDiff);
      var loopsDiff := degreeDiff / 360.0;
      WriteLoopsLeft(c, d1, d1.loopsLeft - loopsDiff)
  }

  /** `monitor_switches`: records both switches. Both active is a FAULT from
      any state; otherwise a moving tape whose advancing spool is full stops
      in ALARM; otherwise the state is kept. */
  function MonitorSwitches(d: Device, limitL: bool, limitR: bool): (r: Step)
    ensures r.dev.limitL == limitL && r.dev.limitR == limitR
    ensures r.dev.direction == d.direction && r.dev.loopsLeft == d.loopsLeft
    ensures r.dev.previousLeft == d.previousLeft && r.dev.previousRight == d.previousRight
    ensures limitL && limitR ==> r.dev.state == Fault && r.cmds == [Stop(LeftMotor), Stop(RightMotor)]
    ensures !(limitL && limitR) && d.state == Moving && AtAdvancingLimit(r.dev) ==>
      r.dev.state == Alarm && r.cmds == [Stop(LeftMotor), Stop(RightMotor)]
    ensures !(limitL && limitR) && !(d.state == Moving && AtAdvancingLimit(r.dev)) ==>
      r.dev.state == d.state && r.cmds == []
    // a tape left moving never has its advancing spool full
    ensures r.dev.state == Moving ==> !AtAdvancingLimit(r.dev) && !(limitL && limitR)
    ensures d.state == Fault ==> r.dev.state == Fault
  {
    var d1 := d.(limitL := limitL, limitR := limitR);
    if limitL && limitR then
      var s := StopAll(d1);
      Step(s.dev.(state := Fault), s.cmds)
    else if d1.state == Moving
            && ((d1.direction == Some(RightToLeft) && limitL) || (d1.direction == Some(LeftToRight) && limitR)) then
      var s := StopAll(d1);
      Step(s.dev.(state := Alarm), s.cmds)
    else Step(d1, [])
  }

  /** `clear_state`: ON from any state. */
  function ClearState(d: Device): (r: Step)
    ensures r.dev.state == On && r.dev.(state := d.state) == d
    ensures r.cmds == []
  {
    Step(d.(state := On), [])
  }

  /** Clearing a FAULT while both switches still read active only lasts until
      the next switch poll. */
  lemma ClearedFaultReturns(d: Device)
    ensures MonitorSwitches(ClearState(d).dev, true, true).dev.state == Fault
  {
  }

  /** `new_tape_inserted`: the spool whose switch reports full (left first)
      becomes the unwinding one: both positions are zeroed, the previous
      positions are forgotten and the direction is written. With neither
      switch active the tape is too short and the device goes to ALARM. */
  function NewTapeInserted(c: Config, d: Device): (r: Step)
    ensures !d.limitL && !d.limitR ==> r == Step(d.(state := Alarm), [])
    ensures d.limitL ==> r.dev.direction == Some(LeftToRight)
    ensures !d.limitL && d.limitR ==> r.dev.direction == Some(RightToLeft)
    ensures d.limitL || d.limitR ==>
      var dir := r.dev.direction.value;
      && LimitOf(d, OtherMotor(Puller(dir)))
      && r.dev.previousLeft.None? && r.dev.previousRight.None?
      && |r.cmds| >= 2
      && r.cmds[0].SetPosition? && r.cmds[0].degrees == 0.0
      && r.cmds[1].SetPosition? && r.cmds[1].degrees == 0.0
      && r.cmds[0].motor != r.cmds[1].motor
      && (d.direction == Some(Opposite(dir)) ==> r.dev.loopsLeft == Invert(d.loopsLeft, c.fullTapeLoops))
      && (d.direction != Some(Opposite(dir)) ==> r.dev.loopsLeft == d.loopsLeft && r.dev.state == d.state)
      && r.dev == WriteDirection(c, ResetPreviousMotorPositions(d), dir).dev
      && r.cmds[2..] == WriteDirection(c, ResetPreviousMotorPositions(d), dir).cmds
    ensures d.limitL ==> r.cmds[..2] == [SetPosition(RightMotor, 0.0), SetPosition(LeftMotor, 0.0)]
    ensures !d.limitL && d.limitR ==> r.cmds[..2] == [SetPosition(LeftMotor, 0.0), SetPosition(RightMotor, 0.0)]
    ensures c.fullTapeLoops >= 0.0 && Valid(c, d) ==> Valid(c, r.dev)
  {
    if d.limitL then
      var s := WriteDirection(c, ResetPreviousMotorPositions(d), LeftToRight);
      Step(s.dev, [SetPosition(RightMotor, 0.0), SetPosition(LeftMotor, 0.0)] + s.cmds)
    else if d.limitR then
      var s := WriteDirection(c, ResetPreviousMotorPositions(d), RightToLeft);
      Step(s.dev, [SetPosition(LeftMotor, 0.0), SetPosition(RightMotor, 0.0)] + s.cmds)
    else Step(d.(state := Alarm), [])
  }

  /** After a new tape, the first poll while moving only seeds the previous
      positions: the loops left stay where they were. */
  lemma NewTapeFirstPollSeeds(c: Config, d: Device, sample: Sample)
    requires Valid(c, d) && (d.limitL || d.limitR)
    requires NewTapeInserted(c, d).dev.state == Moving
    ensures
      var inserted := NewTapeInserted(c, d).dev;
      UpdateTapeProgress(c, inserted, sample, sample).dev.loopsLeft == inserted.loopsLeft
  {
  }

  // ---------------------------------------------------------------------
  // Runs of events
  // ---------------------------------------------------------------------

  /** Everything that can happen to the device after initialisation, one at a time. */
  datatype Event =
    | StartEvent
    | StopEvent
    | WriteLoopsEvent(value: real)
    | WriteDirectionEvent(dir: Direction)
    | PollEvent(sample: Sample, reread: Sample)
    | SwitchesEvent(limitL: bool, limitR: bool)
    | ClearEvent
    | NewTapeEvent

  function Apply(c: Config, d: Device, e: Event): Step
  {
    match e
    case StartEvent => StartAll(c, d)
    case StopEvent => StopAll(d)
    case WriteLoopsEvent(v) => WriteLoopsLeft(c, d, v)
    case WriteDirectionEvent(dir) => WriteDirection(c, d, dir)
    case PollEvent(s, s2) => UpdateTapeProgress(c, d, s, s2)
    case SwitchesEvent(l, r) => MonitorSwitches(d, l, r)
    case ClearEvent => ClearState(d)
    case NewTapeEvent => NewTapeInserted(c, d)
  }

  function Run(c: Config, d: Device, events: seq<Event>): Step
    decreases |events|
  {
    if |events| == 0 then Step(d, [])
    else
      var s := Apply(c, d, events[0]);
      var t := Run(c, s.dev, events[1..]);
      Step(t.dev, s.cmds + t.cmds)
  }

  /** Every event keeps the loops left in `[0, full]`. */
  lemma ApplyKeepsValid(c: Config, d: Device, e: Event)
    requires Valid(c, d)
    ensures Valid(c, Apply(c, d, e).dev)
  {
  }

  /** Whatever happens, the loops left stay within the roll. */
  lemma {:induction false} RunKeepsValid(c: Config, d: Device, events: seq<Event>)
    requires Valid(c, d)
    ensures Valid(c, Run(c, d, events).dev)
    decreases |events|
  {
    if |events| > 0 {
      ApplyKeepsValid(c, d, events[0]);
      RunKeepsValid(c, Apply(c, d, events[0]).dev, events[1..]);
    }
  }

  /** One event either leaves the loops left alone or ends by persisting the
      new value. */
  lemma ApplyPersistsLoops(c: Config, d: Device, e: Event)
    ensures
      var s := Apply(c, d, e);
      match LastPersisted(s.cmds)
      case None => s.dev.loopsLeft == d.loopsLeft
      case Some(v) => v == s.dev.loopsLeft
  {
    match e
    case StartEvent =>
      NoPersistWithoutWrite(StartAll(c, d).cmds);
    case StopEvent =>
      NoPersistWithoutWrite(StopAll(d).cmds);
    case WriteLoopsEvent(v) =>
    case WriteDirectionEvent(dir) =>
      WriteDirectionPersistsLoops(c, d, dir);
    case PollEvent(s1, s2) =>
    case SwitchesEvent(l, r) =>
      NoPersistWithoutWrite(MonitorSwitches(d, l, r).cmds);
    case ClearEvent =>
    case NewTapeEvent =>
      NewTapePersistsLoops(c, d);
  }

  lemma NewTapePersistsLoops(c: Config, d: Device)
    ensures
      var s := NewTapeInserted(c, d);
      match LastPersisted(s.cmds)
      case None => s.dev.loopsLeft == d.loopsLeft
      case Some(v) => v == s.dev.loopsLeft
  {
    var s := NewTapeInserted(c, d);
    if d.limitL || d.limitR {
      var dir := if d.limitL then LeftToRight else RightToLeft;
      var w := WriteDirection(c, ResetPreviousMotorPositions(d), dir);
      assert s.cmds == s.cmds[..2] + w.cmds && s.dev == w.dev;
      NoPersistWithoutWrite(s.cmds[..2]);
      LastPersistedAppend(s.cmds[..2], w.cmds);
      WriteDirectionPersistsLoops(c, ResetPreviousMotorPositions(d), dir);
    }
  }

  lemma WriteDirectionPersistsLoops(c: Config, d: Device, dir: Direction)
    ensures
      var s := WriteDirection(c, d, dir);
      match LastPersisted(s.cmds)
      case None => s.dev.loopsLeft == d.loopsLeft
      case Some(v) => v == s.dev.loopsLeft
  {
    if d.direction.Some? && d.direction.value != dir {
      var r := WriteDirection(c, d, dir);
      assert r.cmds == r.cmds[..3] + r.cmds[3..];
      assert LastPersisted(r.cmds[3..]) == None by {
        if d.state == Moving {
          assert forall i :: 0 <= i < |r.cmds[3..]| ==> !r.cmds[3..][i].PersistLoopsLeft?;
          NoPersistWithoutWrite(r.cmds[3..]);
        }
      }
      LastPersistedAppend(r.cmds[..3], r.cmds[3..]);
    }
  }

  lemma {:induction false} NoPersistWithoutWrite(cmds: seq<Command>)
    requires forall i :: 0 <= i < |cmds| ==> !cmds[i].PersistLoopsLeft?
    ensures LastPersisted(cmds) == None
    decreases |cmds|
  {
    if |cmds| > 0 {
      NoPersistWithoutWrite(cmds[..|cmds| - 1]);
    }
  }

  /** The persisted `LoopsLeft` never lags behind the device: after any run,
      the last value written is the current loops left, and a run that writes
      nothing has not changed it. */
  lemma {:induction false} RunPersistsLoops(c: Config, d: Device, events: seq<Event>)
    ensures
      var s := Run(c, d, events);
      match LastPersisted(s.cmds)
      case None => s.dev.loopsLeft == d.loopsLeft
      case Some(v) => v == s.dev.loopsLeft
    decreases |events|
  {
    if |events| > 0 {
      var s := Apply(c, d, events[0]);
      var t := Run(c, s.dev, events[1..]);
      ApplyPersistsLoops(c, d, events[0]);
      RunPersistsLoops(c, s.dev, events[1..]);
      LastPersistedAppend(s.cmds, t.cmds);
    }
  }

  // ---------------------------------------------------------------------
  // The estimator over many polls
  // ---------------------------------------------------------------------

  /** Successive polls in which the re-read equals the first read. */
  function PollAll(c: Config, d: Device, samples: seq<Sample>): Device
    decreases |samples|
  {
    if |samples| == 0 then d
    else PollAll(c, UpdateTapeProgress(c, d, samples[0], samples[0]).dev, samples[1..])
  }

  /** The reference measure: degrees of tape moved over the samples, each
      poll counting the larger of the two motors' turns. */
  function TotalTurned(previousLeft: Option<real>, previousRight: Option<real>, samples: seq<Sample>): (r: real)
    ensures r >= 0.0
    decreases |samples|
  {
    if |samples| == 0 then 0.0
    else
      Max(Turned(previousLeft, samples[0].left), Turned(previousRight, samples[0].right))
      + TotalTurned(Some(samples[0].left), Some(samples[0].right), samples[1..])
  }

  /** Over any number of polls while moving, the loops left drop by the
      total turned, in loops, stopping at zero. */
  lemma {:induction false} PollAllTracksTotalTurned(c: Config, d: Device, samples: seq<Sample>)
    requires Valid(c, d) && d.state == Moving
    ensures PollAll(c, d, samples).loopsLeft
      == Max(0.0, d.loopsLeft - TotalTurned(d.previousLeft, d.previousRight, samples) / 360.0)
    decreases |samples|
  {
    if |samples| > 0 {
      var s := samples[0];
      var next := UpdateTapeProgress(c, d, s, s).dev;
      var first := Max(Turned(d.previousLeft, s.left), Turned(d.previousRight, s.right));
      var rest := TotalTurned(Some(s.left), Some(s.right), samples[1..]);
      PollAllTracksTotalTurned(c, next, samples[1..]);
      assert next.loopsLeft == Max(0.0, d.loopsLeft - first / 360.0);
      assert first / 360.0 + rest / 360.0 == (first + rest) / 360.0;
    }
  }

  /** Left positions that never decrease while the right motor stands still. */
  predicate LeftAdvancing(left: real, right: real, samples: seq<Sample>)
    decreases |samples|
  {
    |samples| == 0
    || (samples[0].left >= left && samples[0].right == right
        && LeftAdvancing(samples[0].left, right, samples[1..]))
  }

  function LastLeft(left: real, samples: seq<Sample>): real
  {
    if |samples| == 0 then left else samples[|samples| - 1].left
  }

  lemma {:induction false} AdvancingTotal(left: real, right: real, samples: seq<Sample>)
    requires LeftAdvancing(left, right, samples)
    ensures TotalTurned(Some(left), Some(right), samples) == LastLeft(left, samples) - left
    decreases |samples|
  {
    if |samples| > 0 {
      AdvancingTotal(samples[0].left, right, samples[1..]);
      assert LastLeft(samples[0].left, samples[1..]) == LastLeft(left, samples);
    }
  }

  /** Scenario: only the left motor turns, forward, by D degrees in all; the
      loops left drop by D/360, stopping at zero. */
  lemma LeftMotorTravel(c: Config, d: Device, samples: seq<Sample>)
    requires Valid(c, d) && d.state == Moving
    requires d.previousLeft.Some? && d.previousRight.Some?
    requires LeftAdvancing(d.previousLeft.value, d.previousRight.value, samples)
    ensures PollAll(c, d, samples).loopsLeft
      == Max(0.0, d.loopsLeft - (LastLeft(d.previousLeft.value, samples) - d.previousLeft.value) / 360.0)
  {
    PollAllTracksTotalTurned(c, d, samples);
    AdvancingTotal(d.previousLeft.value, d.previousRight.value, samples);
  }

  /** Motion between the two position reads of one poll is never counted:
      with the left motor going p, x, y (second read), z, two polls subtract
      (x - p) + (z - y) degrees rather than z - p. */
  lemma RereadDropsMotion(c: Config, d: Device, x: real, y: real, z: real)
    requires Valid(c, d) && d.state == Moving && d.loopsLeft == c.fullTapeLoops
    requires d.previousLeft.Some? && d.previousRight == Some(0.0)
    requires d.previousLeft.value <= x <= y <= z
    requires z - d.previousLeft.value <= 360.0 * d.loopsLeft
    ensures
      var p := d.previousLeft.value;
      var once := UpdateTapeProgress(c, d, Sample(x, 0.0), Sample(y, 0.0)).dev;
      var twice := UpdateTapeProgress(c, once, Sample(z, 0.0), Sample(z, 0.0)).dev;
      d.loopsLeft - twice.loopsLeft == ((x - p) + (z - y)) / 360.0
  {
  }
}
