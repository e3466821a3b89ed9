/** The dimmer's hardware state and the three pieces of logic that change it:
    the GPIO edge handler, the timer-group-0 interrupt handler and one
    iteration of the control loop. Each is a transition function on an
    abstract `HwState` record; class `Controller` holds the same state in
    mutable fields and its methods are proved to perform those transitions. */
module Dimmer {
  import opened PresetScan

  /** `GPIO_INPUT_IO_0`: the only pin whose edge the handler reacts to. */
  const EdgePin: int := 4
  /** `f`: the logical timer frequency the divider is computed from. */
  const TimerFrequency: int := 1600
  /** `TIMER_INTR_T0`: bit 0 of the timer group's interrupt status. */
  const IntrT0: bv32 := 1

  /** What the code reads and writes: the level driven on the pulse output
      pin (`GPIO_OUTPUT_IO_0`, GPIO 2), timer 0's run/pause state, alarm enable, alarm value, counter and
      divider, the group's interrupt status word, and the global `speed`. */
  datatype HwState = HwState(
    outputLevel: int,
    timerRunning: bool,
    alarmEnabled: bool,
    alarmValue: int,
    counter: int,
    divider: int,
    intrStatus: bv32,
    speed: int)

  predicate T0Pending(s: HwState)
  {
    s.intrStatus & IntrT0 != 0
  }

  /** The state after start-up: `speed = 320`, the timer configured paused
      with the alarm disabled, counter 0, alarm value `speed`, divider
      `TIMER_BASE_CLK / f`. The output level and the interrupt status are
      not written by the start-up code; they are taken to be 0. */
  function Initial(baseClock: nat): HwState
  {
    HwState(
      outputLevel := 0,
      timerRunning := false,
      alarmEnabled := false,
      alarmValue := BaseSpeed,
      counter := 0,
      divider := baseClock / TimerFrequency,
      intrStatus := 0,
      speed := BaseSpeed)
  }

  /** `gpio_isr_handler`: on an edge of pin 4, output high, timer started,
      alarm enabled; any other source leaves everything as it was. */
  function OnEdge(s: HwState, gpioNum: int): HwState
  {
    if gpioNum == EdgePin then
      s.(outputLevel := 1, timerRunning := true, alarmEnabled := true)
    else
      s
  }

  /** `timer_group0_isr`: when T0 is pending, output low, T0 cleared, timer
      paused; otherwise nothing changes. */
  function OnTimerIsr(s: HwState): HwState
  {
    if T0Pending(s) then
      s.(outputLevel := 0, intrStatus := s.intrStatus & !IntrT0, timerRunning := false)
    else
      s
  }

  /** One iteration of the `while(1)` body: the preset scan, then the alarm
      value set to the new speed. */
  function OnLoopIteration(s: HwState, levels: PinLevels): HwState
  {
    var speed := Scan(levels, s.speed);
    s.(speed := speed, alarmValue := speed)
  }

  /** Everything that can happen to the state: the two interrupts, a loop
      iteration with some pin readings, and the timer peripheral latching
      interrupt status bits (which is what makes `OnTimerIsr` react). */
  datatype Event =
    | Edge(gpioNum: int)
    | TimerIsr
    | LoopIteration(levels: PinLevels)
    | StatusRaised(bits: bv32)

  /** The timer peripheral latching status `bits`. When the T0 alarm fires
      the ESP32 also clears the timer's alarm enable, which is why the edge
      handler re-enables the alarm on every pulse. */
  function OnStatusRaised(s: HwState, bits: bv32): HwState
  {
    var s' := s.(intrStatus := s.intrStatus | bits);
    if bits & IntrT0 != 0 then s'.(alarmEnabled := false) else s'
  }

  function Step(s: HwState, e: Event): HwState
  {
    match e
    case Edge(n) => OnEdge(s, n)
    case TimerIsr => OnTimerIsr(s)
    case LoopIteration(levels) => OnLoopIteration(s, levels)
    case StatusRaised(bits) => OnStatusRaised(s, bits)
  }

  function Run(s: HwState, events: seq<Event>): HwState
    decreases |events|
  {
    if events == [] then s else Run(Step(s, events[0]), events[1..])
  }

  /** What holds in every reachable state: `speed` is a valid preset and the
      alarm value equals it; the output is a logic level, and it is high
      exactly while the timer runs; a running timer has its alarm enabled
      unless its alarm has fired and the timer interrupt is still pending. */
  predicate Inv(s: HwState)
  {
    ValidSpeed(s.speed) &&
    s.alarmValue == s.speed &&
    (s.outputLevel == 0 || s.outputLevel == 1) &&
    (s.outputLevel == 1 <==> s.timerRunning) &&
    (s.timerRunning ==> s.alarmEnabled || T0Pending(s))
  }

  /** Start-up configuration: paused, alarm off, counter 0, alarm value 320. */
  lemma InitialState(baseClock: nat)
    ensures !Initial(baseClock).timerRunning && !Initial(baseClock).alarmEnabled
    ensures Initial(baseClock).counter == 0
    ensures Initial(baseClock).alarmValue == Initial(baseClock).speed == 320
    ensures Inv(Initial(baseClock))
  {
  }

  /** An edge on pin 4 leaves the output high, the timer running and the
      alarm enabled, and changes nothing else. */
  lemma EdgeOnWatchedPin(s: HwState)
    ensures OnEdge(s, EdgePin).outputLevel == 1
    ensures OnEdge(s, EdgePin).timerRunning && OnEdge(s, EdgePin).alarmEnabled
    ensures OnEdge(s, EdgePin).(outputLevel := s.outputLevel, timerRunning := s.timerRunning,
                                alarmEnabled := s.alarmEnabled) == s
  {
  }

  lemma EdgeOnOtherPin(s: HwState, gpioNum: int)
    requires gpioNum != EdgePin
    ensures OnEdge(s, gpioNum) == s
  {
  }

  lemma EdgeIdempotent(s: HwState, gpioNum: int)
    ensures OnEdge(OnEdge(s, gpioNum), gpioNum) == OnEdge(s, gpioNum)
  {
  }

  /** With T0 pending: output low, T0 cleared, timer paused; the alarm value,
      alarm enable, the other status bits and `speed` are untouched. */
  lemma TimerIsrWhenPending(s: HwState)
    requires T0Pending(s)
    ensures OnTimerIsr(s).outputLevel == 0
    ensures !T0Pending(OnTimerIsr(s)) && !OnTimerIsr(s).timerRunning
    ensures OnTimerIsr(s).intrStatus == s.intrStatus - IntrT0
    ensures OnTimerIsr(s).alarmValue == s.alarmValue && OnTimerIsr(s).alarmEnabled == s.alarmEnabled
    ensures OnTimerIsr(s).speed == s.speed && OnTimerIsr(s).counter == s.counter
  {
  }

  lemma TimerIsrWhenIdle(s: HwState)
    requires !T0Pending(s)
    ensures OnTimerIsr(s) == s
  {
  }

  /** A second timer interrupt right after the first is a no-op. */
  lemma TimerIsrIdempotent(s: HwState)
    ensures OnTimerIsr(OnTimerIsr(s)) == OnTimerIsr(s)
  {
    if T0Pending(s) {
      TimerIsrWhenPending(s);
    }
  }

  /** A full pulse: edge on pin 4, the alarm latching T0, the timer
      interrupt. From any state it ends with the output low, the timer
      stopped, T0 cleared and the alarm disabled by the hardware, with the
      alarm value unchanged. */
  lemma PulseEndsLow(s: HwState)
    ensures Run(s, [Edge(EdgePin), StatusRaised(IntrT0), TimerIsr]).outputLevel == 0
    ensures !Run(s, [Edge(EdgePin), StatusRaised(IntrT0), TimerIsr]).timerRunning
    ensures !T0Pending(Run(s, [Edge(EdgePin), StatusRaised(IntrT0), TimerIsr]))
    ensures !Run(s, [Edge(EdgePin), StatusRaised(IntrT0), TimerIsr]).alarmEnabled
    ensures Run(s, [Edge(EdgePin), StatusRaised(IntrT0), TimerIsr]).alarmValue == s.alarmValue
  {
    var s1 := OnEdge(s, EdgePin);
    var s2 := OnStatusRaised(s1, IntrT0);
    assert T0Pending(s2);
    var pulse := [Edge(EdgePin), StatusRaised(IntrT0), TimerIsr];
    assert pulse[1..] == [StatusRaised(IntrT0), TimerIsr];
    assert pulse[1..][1..] == [TimerIsr];
    assert Run(s2, [TimerIsr]) == OnTimerIsr(s2) by {
      assert [TimerIsr][1..] == [];
    }
  }

  /** After a loop iteration the alarm value is the new speed, which the scan
      chose; the handlers' part of the state is untouched. */
  lemma LoopIterationSetsAlarm(s: HwState, levels: PinLevels)
    ensures OnLoopIteration(s, levels).alarmValue == OnLoopIteration(s, levels).speed
    ensures OnLoopIteration(s, levels).speed == Scan(levels, s.speed)
    ensures OnLoopIteration(s, levels).(speed := s.speed, alarmValue := s.alarmValue) == s
  {
  }

  lemma StepPreservesInv(s: HwState, e: Event)
    requires Inv(s)
    ensures Inv(Step(s, e))
  {
    match e
    case LoopIteration(levels) =>
      ScanValid(levels, s.speed);
    case _ =>
  }

  lemma {:induction false} RunPreservesInv(s: HwState, events: seq<Event>)
    requires Inv(s)
    ensures Inv(Run(s, events))
    decreases |events|
  {
    if events != [] {
      StepPreservesInv(s, events[0]);
      RunPreservesInv(Step(s, events[0]), events[1..]);
    }
  }

  /** From start-up, after any sequence of events, `speed` is a multiple of
      320 in [0, 1280], so the printed index stays in [0, 4], the alarm value
      equals `speed`, and the output is high exactly while the timer runs. */
  lemma Reachable(baseClock: nat, events: seq<Event>)
    ensures Inv(Run(Initial(baseClock), events))
    ensures 0 <= PrintedIndex(Run(Initial(baseClock), events).speed) <= 4
  {
    InitialState(baseClock);
    RunPreservesInv(Initial(baseClock), events);
    ValidSpeedIndex(Run(Initial(baseClock), events).speed);
  }

  /** No handler, loop iteration or status latch writes the counter or the
      divider (the counter's own advance and reload are hardware timing,
      which the model does not include). */
  lemma {:induction false} RunKeepsConfiguration(s: HwState, events: seq<Event>)
    ensures Run(s, events).counter == s.counter
    ensures Run(s, events).divider == s.divider
    decreases |events|
  {
    if events != [] {
      RunKeepsConfiguration(Step(s, events[0]), events[1..]);
    }
  }

  /** The hardware state as fields that the handlers and the loop update in
      place. */
  class Controller {
    var outputLevel: int
    var timerRunning: bool
    var alarmEnabled: bool
    var alarmValue: int
    var counter: int
    var divider: int
    var intrStatus: bv32
    var speed: int

    ghost function State(): HwState
      reads this
    {
      HwState(outputLevel, timerRunning, alarmEnabled, alarmValue, counter, divider, intrStatus, speed)
    }

    /** Start-up: the global initialiser and the timer configuration. */
    constructor (baseClock: nat)
      ensures State() == Initial(baseClock)
      ensures Inv(State())
    {
      speed := BaseSpeed;
      divider := baseClock / TimerFrequency;
      timerRunning := false;
      alarmEnabled := false;
      counter := 0;
      alarmValue := speed;
      outputLevel := 0;
      intrStatus := 0;
    }

    /** `gpio_isr_handler`, with `gpioNum` the pin number passed as `arg`. */
    method GpioIsrHandler(gpioNum: int)
      modifies this
      ensures State() == OnEdge(old(State()), gpioNum)
      ensures old(Inv(State())) ==> Inv(State())
    {
      if gpioNum == EdgePin {
        outputLevel := 1;
        timerRunning := true;
        alarmEnabled := true;
        return;
      }
    }

    /** `timer_group0_isr`. */
    method TimerGroup0Isr()
      modifies this
      ensures State() == OnTimerIsr(old(State()))
      ensures old(Inv(State())) ==> Inv(State())
    {
      var timerIntr := intrStatus;
      if timerIntr & IntrT0 != 0 {
        outputLevel := 0;
        intrStatus := intrStatus & !IntrT0;
        timerRunning := false;
      }
    }

    /** The `for` loop over `pin[]`; `levels[i]` is the level read from
        `pin[i]`. */
    method ScanPresets(levels: PinLevels)
      modifies this`speed
      ensures speed == Scan(levels, old(speed))
    {
      var pin := new int[] [15, 16, 17, 18, 19];
      for i := 0 to 5
        invariant pin[..] == SelectorPins
        invariant speed == ScanPrefix(levels, i, old(speed))
      {
        var level := levels[i];
        if level == 0 {
          speed := BaseSpeed * (pin[i] - 15);
        }
      }
    }

    /** One iteration of the `while(1)` body. Returns the index `printf`
        shows. */
    method ControlLoopIteration(levels: PinLevels) returns (printed: int)
      modifies this`speed, this`alarmValue
      ensures State() == OnLoopIteration(old(State()), levels)
      ensures printed == PrintedIndex(speed)
      ensures old(Inv(State())) ==> Inv(State()) && 0 <= printed <= 4
    {
      ScanPresets(levels);
      printed := PrintedIndex(speed);
      alarmValue := speed;
      if old(Inv(State())) {
        ScanValid(levels, old(speed));
      }
    }
  }
}
