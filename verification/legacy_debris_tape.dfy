/** The earlier tape-transport controller (DebrisTape.py at the repository
    root). Three DC motors on one driver board: a brake/tension motor under
    each spool and a driver motor between them, each set by a throttle. Two
    limit switches mark a full spool; every time the advancing spool fills,
    a loop counter goes up and the tape either reverses by itself or stops
    in ALARM. */
module LegacyDebrisTape {
  import opened Tango

  /** `motorL`, `motorD` and `motorR` on the driver board. */
  datatype Motor = LeftMotor | DriverMotor | RightMotor

  /** A throttle setting; for the spool motors a positive value dispenses
      tape and a negative one collects it. */
  datatype Command = Throttle(motor: Motor, value: real)

  /** The three speeds `start_all` uses. */
  datatype Velocities = Velocities(pull: real, brake: real, tension: real)

  /** The speeds `init_device` sets. */
  const DefaultVelocities := Velocities(1.0, 0.0, 1.0)

  /** The device record. `rightToLeft` is the boolean direction attribute
      (false: left to right, true: right to left). */
  datatype Device = Device(
    state: DevState,
    rightToLeft: bool,
    autoReverse: bool,
    loops: int,
    limitL: bool,
    limitR: bool,
    velocities: Velocities)

  datatype Step = Step(dev: Device, cmds: seq<Command>)

  /** The throttle a command list sets last for a motor, 0 if none. */
  function ThrottleOf(cmds: seq<Command>, m: Motor): real
  {
    if |cmds| == 0 then 0.0
    else if cmds[|cmds| - 1].motor == m then cmds[|cmds| - 1].value
    else ThrottleOf(cmds[..|cmds| - 1], m)
  }

  /** The throttles of a full left, driver, right setting. */
  lemma ThrottlesOfSetting(left: real, driver: real, right: real)
    ensures
      var cmds := [Throttle(LeftMotor, left), Throttle(DriverMotor, driver), Throttle(RightMotor, right)];
      && ThrottleOf(cmds, LeftMotor) == left
      && ThrottleOf(cmds, DriverMotor) == driver
      && ThrottleOf(cmds, RightMotor) == right
  {
    var cmds := [Throttle(LeftMotor, left), Throttle(DriverMotor, driver), Throttle(RightMotor, right)];
    var two := [Throttle(LeftMotor, left), Throttle(DriverMotor, driver)];
    assert cmds[..2] == two;
    assert two[..1] == [Throttle(LeftMotor, left)];
    assert ThrottleOf(two, LeftMotor) == left;
  }

  /** The spool being wound onto reports full. */
  predicate AtAdvancingLimit(d: Device)
  {
    if d.rightToLeft then d.limitL else d.limitR
  }

  /** `stop_all`: ON and every throttle zero. */
  function StopAll(d: Device): (r: Step)
    ensures r.dev.state == On && r.dev.(state := d.state) == d
    ensures |r.cmds| == 3
    ensures r.cmds[0].motor == LeftMotor && r.cmds[1].motor == DriverMotor && r.cmds[2].motor == RightMotor
    ensures forall i :: 0 <= i < |r.cmds| ==> r.cmds[i].value == 0.0
    ensures ThrottleOf(r.cmds, LeftMotor) == 0.0 && ThrottleOf(r.cmds, DriverMotor) == 0.0
    ensures ThrottleOf(r.cmds, RightMotor) == 0.0
  {
    ThrottlesOfSetting(0.0, 0.0, 0.0);
    Step(d.(state := On), [Throttle(LeftMotor, 0.0), Throttle(DriverMotor, 0.0), Throttle(RightMotor, 0.0)])
  }

  lemma StopAllIdempotent(d: Device)
    ensures StopAll(StopAll(d).dev) == StopAll(d)
  {
  }

  /** The record before `init_device` first runs: direction and auto-reverse
      start as class-level defaults, the other fields are not yet set. */
  const Constructed := Device(Off, false, true, 0, false, false, DefaultVelocities)

  /** `init_device`: stops every motor, sets the three speeds and zeroes the
      loop counter. Direction, auto-reverse and the switch readings survive a
      repeated initialisation. */
  function InitDevice(d: Device): (r: Step)
    ensures r.dev.state == On
    ensures r.dev.loops == 0 && r.dev.velocities == DefaultVelocities
    ensures r.dev.rightToLeft == d.rightToLeft && r.dev.autoReverse == d.autoReverse
    ensures r.dev.limitL == d.limitL && r.dev.limitR == d.limitR
    ensures r.cmds == StopAll(d).cmds
  {
    var s := StopAll(d.(state := On));
    Step(s.dev.(velocities := DefaultVelocities, loops := 0), s.cmds)
  }

  /** A freshly started device: left to right, auto-reverse on, no loops,
      speeds pull 1, brake 0, tension 1. */
  lemma BootDefaults()
    ensures
      var d := InitDevice(Constructed).dev;
      && d.state == On && !d.rightToLeft && d.autoReverse && d.loops == 0
      && d.velocities == Velocities(1.0, 0.0, 1.0)
  {
  }

  /** `start_all`: MOVING; the driver pulls toward the winding spool, the
      winding spool motor holds tension and the unwinding one brakes. */
  function StartAll(d: Device): (r: Step)
    ensures r.dev == d.(state := Moving)
    ensures |r.cmds| == 3
    ensures r.cmds[0].motor == LeftMotor && r.cmds[1].motor == DriverMotor && r.cmds[2].motor == RightMotor
    ensures d.rightToLeft ==>
      ThrottleOf(r.cmds, DriverMotor) == d.velocities.pull
      && ThrottleOf(r.cmds, LeftMotor) == -d.velocities.tension
      && ThrottleOf(r.cmds, RightMotor) == -d.velocities.brake
    ensures !d.rightToLeft ==>
      ThrottleOf(r.cmds, DriverMotor) == -d.velocities.pull
      && ThrottleOf(r.cmds, LeftMotor) == d.velocities.brake
      && ThrottleOf(r.cmds, RightMotor) == d.velocities.tension
  {
    var v := d.velocities;
    var cmds :=
      if d.rightToLeft then
        [Throttle(LeftMotor, -v.tension), Throttle(DriverMotor, v.pull), Throttle(RightMotor, -v.brake)]
      else
        [Throttle(LeftMotor, v.brake), Throttle(DriverMotor, -v.pull), Throttle(RightMotor, v.tension)];
    ThrottlesOfSetting(-v.tension, v.pull, -v.brake);
    ThrottlesOfSetting(v.brake, -v.pull, v.tension);
    Step(d.(state := Moving), cmds)
  }

  /** The two directions are mirror images: swap the spool motors and negate
      every throttle. */
  lemma StartAllMirror(d: Device)
    ensures
      var there := StartAll(d.(rightToLeft := true)).cmds;
      var back := StartAll(d.(rightToLeft := false)).cmds;
      && ThrottleOf(back, LeftMotor) == -ThrottleOf(there, RightMotor)
      && ThrottleOf(back, RightMotor) == -ThrottleOf(there, LeftMotor)
      && ThrottleOf(back, DriverMotor) == -ThrottleOf(there, DriverMotor)
  {
  }

  /** `reset_loops`. */
  function ResetLoops(d: Device): (r: Device)
    ensures r.loops == 0 && r.(loops := d.loops) == d
  {
    d.(loops := 0)
  }

  /** `write_direction`: a moving tape is restarted at once in the written
      direction; otherwise only the attribute changes. */
  function WriteDirection(d: Device, rightToLeft: bool): (r: Step)
    ensures r.dev.rightToLeft == rightToLeft
    ensures d.state == Moving ==> r == StartAll(d.(rightToLeft := rightToLeft))
    ensures d.state != Moving ==> r == Step(d.(rightToLeft := rightToLeft), [])
    ensures r.dev.state == d.state && r.dev.loops == d.loops
  {
    if d.state == Moving then StartAll(d.(rightToLeft := rightToLeft))
    else Step(d.(rightToLeft := rightToLeft), [])
  }

  /** `write_autoReverse`. */
  function WriteAutoReverse(d: Device, autoReverse: bool): (r: Device)
    ensures r.autoReverse == autoReverse && r.(autoReverse := d.autoReverse) == d
  {
    d.(autoReverse := autoReverse)
  }

  /** `monitor_switches`: both switches active is a FAULT; a moving tape whose
      advancing spool fills counts one loop and then reverses (auto-reverse)
      or stops in ALARM; anything else only records the switches. */
  function MonitorSwitches(d: Device, limitL: bool, limitR: bool): (r: Step)
    ensures r.dev.limitL == limitL && r.dev.limitR == limitR
    ensures r.dev.autoReverse == d.autoReverse && r.dev.velocities == d.velocities
    ensures limitL && limitR ==>
      && r.dev.state == Fault
      && r.dev.loops == d.loops && r.dev.rightToLeft == d.rightToLeft
      && r.cmds == StopAll(d).cmds
    ensures !(limitL && limitR) && d.state == Moving && AtAdvancingLimit(d.(limitL := limitL, limitR := limitR)) ==>
      && r.dev.loops == d.loops + 1
      && (d.autoReverse ==>
            r.dev.rightToLeft == !d.rightToLeft && r.dev.state == Moving
            && r.cmds == StartAll(r.dev).cmds)
      && (!d.autoReverse ==>
            r.dev.rightToLeft == d.rightToLeft && r.dev.state == Alarm
            && r.cmds == StopAll(d).cmds)
    ensures !(limitL && limitR) && !(d.state == Moving && AtAdvancingLimit(d.(limitL := limitL, limitR := limitR))) ==>
      r == Step(d.(limitL := limitL, limitR := limitR), [])
    ensures d.loops <= r.dev.loops <= d.loops + 1
  {
    var d1 := d.(limitL := limitL, limitR := limitR);
    if limitL && limitR then
      var s := StopAll(d1);
      Step(s.dev.(state := Fault), s.cmds)
    else if d1.state == Moving then
      if (d1.rightToLeft && limitL) || (!d1.rightToLeft && limitR) then
        var d2 := d1.(loops := d1.loops + 1);
        if d2.autoReverse then StartAll(d2.(rightToLeft := !d2.rightToLeft))
        else
          var s := StopAll(d2);
          Step(s.dev.(state := Alarm), s.cmds)
      else Step(d1, [])
    else Step(d1, [])
  }

  /** After an automatic reversal the same switch reading does not count
      again: the switch that fired now belongs to the unwinding spool. */
  lemma ReversalCountsOnce(d: Device, limitL: bool, limitR: bool)
    requires d.autoReverse && d.state == Moving
    requires !(limitL && limitR)
    requires MonitorSwitches(d, limitL, limitR).dev.loops == d.loops + 1
    ensures
      var once := MonitorSwitches(d, limitL, limitR).dev;
      MonitorSwitches(once, limitL, limitR) == Step(once, [])
  {
  }

  /** Everything that can happen to the device after initialisation. */
  datatype Event =
    | StartEvent
    | StopEvent
    | ResetLoopsEvent
    | WriteDirectionEvent(rightToLeft: bool)
    | WriteAutoReverseEvent(autoReverse: bool)
    | SwitchesEvent(limitL: bool, limitR: bool)
    | InitEvent

  function Apply(d: Device, e: Event): Step
  {
    match e
    case StartEvent => StartAll(d)
    case StopEvent => StopAll(d)
    case ResetLoopsEvent => Step(ResetLoops(d), [])
    case WriteDirectionEvent(v) => WriteDirection(d, v)
    case WriteAutoReverseEvent(v) => Step(WriteAutoReverse(d, v), [])
    case SwitchesEvent(l, r) => MonitorSwitches(d, l, r)
    case InitEvent => InitDevice(d)
  }

  function Run(d: Device, events: seq<Event>): Step
    decreases |events|
  {
    if |events| == 0 then Step(d, [])
    else
      var s := Apply(d, events[0]);
      var t := Run(s.dev, events[1..]);
      Step(t.dev, s.cmds + t.cmds)
  }

  /** Only `reset_loops` and `init_device` lower the loop counter. */
  predicate Resets(e: Event)
  {
    e.ResetLoopsEvent? || e.InitEvent?
  }

  /** A switch poll that finds the advancing spool full while the tape is
      moving, with not both switches active. */
  predicate IsLimitHit(d: Device, e: Event)
  {
    && e.SwitchesEvent?
    && d.state == Moving
    && !(e.limitL && e.limitR)
    && AtAdvancingLimit(d.(limitL := e.limitL, limitR := e.limitR))
  }

  /** The number of limit hits in a run. */
  function LimitHits(d: Device, events: seq<Event>): nat
    decreases |events|
  {
    if |events| == 0 then 0
    else (if IsLimitHit(d, events[0]) then 1 else 0) + LimitHits(Apply(d, events[0]).dev, events[1..])
  }

  lemma ApplyCounter(d: Device, e: Event)
    requires !Resets(e)
    ensures Apply(d, e).dev.loops == d.loops + (if IsLimitHit(d, e) then 1 else 0)
  {
  }

  /** Without a reset, the counter grows by exactly the limit hits of the
      run, so it never goes down. */
  lemma {:induction false} RunCountsHits(d: Device, events: seq<Event>)
    requires forall i :: 0 <= i < |events| ==> !Resets(events[i])
    ensures Run(d, events).dev.loops == d.loops + LimitHits(d, events)
    ensures Run(d, events).dev.loops >= d.loops
    decreases |events|
  {
    if |events| > 0 {
      ApplyCounter(d, events[0]);
      RunCountsHits(Apply(d, events[0]).dev, events[1..]);
    }
  }

  lemma {:induction false} RunAppend(d: Device, a: seq<Event>, b: seq<Event>)
    ensures Run(d, a + b).dev == Run(Run(d, a).dev, b).dev
    decreases |a|
  {
    if |a| > 0 {
      assert (a + b)[0] == a[0];
      assert (a + b)[1..] == a[1..] + b;
      RunAppend(Apply(d, a[0]).dev, a[1..], b);
    } else {
      assert a + b == b;
    }
  }

  /** The counter is "loops since reset / restart": after the last
      `reset_loops` or `init_device`, it equals the limit hits since then. */
  lemma LoopsSinceLastReset(d: Device, upToReset: seq<Event>, after: seq<Event>)
    requires |upToReset| > 0 && Resets(upToReset[|upToReset| - 1])
    requires forall i :: 0 <= i < |after| ==> !Resets(after[i])
    ensures Run(d, upToReset).dev.loops == 0
    ensures Run(d, upToReset + after).dev.loops == LimitHits(Run(d, upToReset).dev, after)
  {
    var n := |upToReset|;
    var reset := upToReset[n - 1];
    assert upToReset == upToReset[..n - 1] + [reset];
    RunAppend(d, upToReset[..n - 1], [reset]);
    assert Run(d, upToReset).dev == Apply(Run(d, upToReset[..n - 1]).dev, reset).dev;
    RunAppend(d, upToReset, after);
    RunCountsHits(Run(d, upToReset).dev, after);
  }
}
