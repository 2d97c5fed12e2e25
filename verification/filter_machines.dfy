/** The four boolean filters of the filters add-on as Mealy machines: what a
    device holds, how an input change or a timer fire moves it, and what it
    announces about its output on the way. The device classes in
    FiltersAddon carry out these transitions step by step. */
module FilterMachines {
  import opened Timers
  import opened Notifications

  /** The device class `addDeviceFromConfig` chose. */
  datatype Kind = Countdown | LeadingEdge | FlipFlop | SquareWave

  /** What a filter device holds: the values of its `time`, `input` and
      `output` properties, its timer handle, the last input level the
      flip-flop saw (`lastSeen`; the other devices never touch it), and the
      number of armed timers whose handle was overwritten by a new one
      (`stray`: such a timer would still fire and could no longer be
      cleared). */
  datatype FilterState = FilterState(time: int, input: bool, output: bool, timer: Timer, lastSeen: bool, stray: nat)

  // Step, Announced and the property writes below mirror the filters add-on's own
  // copy of the gateway property class; each add-on ships its own.

  /** The outcome of one transition: the new state and the output values
      announced to the gateway on the way, in order. */
  datatype Step = Step(state: FilterState, sent: seq<bool>)

  /** What the gateway learns from `r` about the output of `s`: only changes,
      ending with the new output. */
  predicate Announced(s: FilterState, r: Step)
  {
    ChangesOnly(s.output, r.sent) && Final(s.output, r.sent) == r.state.output
  }

  /** The gateway-visible inputs of a device, `time` and `input`, are the same. */
  predicate SameInputs(s: FilterState, t: FilterState)
  {
    s.time == t.time && s.input == t.input
  }

  /** `setProperty('output', value)`, through the property's change rule:
      only the output changes, and a notification is sent only when it
      takes a new value. */
  function OutputWrite(s: FilterState, value: bool): (r: Step)
    ensures r.state == s.(output := value)
    ensures (r.sent == [] <==> s.output == value) && |r.sent| <= 1
    ensures Announced(s, r)
  {
    Step(s.(output := value), Announce(s.output, value))
  }

  /** `setProperty('time', seconds)`: an armed timer keeps the period it was
      started with; the filters do not react to `time`. */
  function TimeWrite(s: FilterState, seconds: int): (r: Step)
    ensures r.state == s.(time := seconds) && r.sent == []
  {
    Step(s.(time := seconds), [])
  }

  /** The handle `startTimer` arms: `setInterval` for the square wave (its
      override), `setTimeout` for every other device. */
  function Armed(kind: Kind, seconds: int): Timer
  {
    if kind == SquareWave then Interval(seconds) else Timeout(seconds)
  }

  /** `stopTimer`: clear the handle if there is one. */
  function Stopped(s: FilterState): (t: FilterState)
    ensures t.timer == NoTimer && t == s.(timer := NoTimer)
  {
    if s.timer != NoTimer then s.(timer := NoTimer) else s
  }

  /** Storing a freshly armed handle in the slot: a handle still there is
      overwritten, and its timer counts as stray. */
  function Arm(s: FilterState, handle: Timer): (t: FilterState)
    ensures t.timer == handle
    ensures t.stray == if s.timer == NoTimer then s.stray else s.stray + 1
    ensures t.(timer := s.timer, stray := s.stray) == s
  {
    s.(timer := handle, stray := s.stray + if s.timer == NoTimer then 0 else 1)
  }

  /** `startTimer`: cancel any pending timer, then arm one with the current
      `time`. Because the slot is empty when the new handle is stored, no
      timer is lost: a device never has two running. */
  function Started(kind: Kind, s: FilterState): (t: FilterState)
    ensures t == s.(timer := Armed(kind, s.time))
    ensures t.stray == s.stray
  {
    Arm(Stopped(s), Armed(kind, s.time))
  }

  /** Countdown (off-delay) reaction to a new `input` level in `s.input`. */
  function CountdownInput(s: FilterState): (r: Step)
    ensures s.input ==> r.state.timer == NoTimer && r.state.output
    ensures !s.input ==> r.state.timer == Timeout(s.time) && r.state.output == s.output && r.sent == []
    ensures SameInputs(s, r.state) && r.state.lastSeen == s.lastSeen && Announced(s, r)
  {
    if s.input then OutputWrite(Stopped(s), true) else Step(Started(Countdown, s), [])
  }

  /** Leading-edge detector reaction: a high input raises the output and
      starts a pulse timer only when none is pending; a low input does nothing. */
  function LeadingEdgeInput(s: FilterState): (r: Step)
    ensures s.input ==> r.state.output && r.state.timer == (if s.timer == NoTimer then Timeout(s.time) else s.timer)
    ensures !s.input ==> r.state == s && r.sent == []
    ensures SameInputs(s, r.state) && r.state.lastSeen == s.lastSeen && Announced(s, r)
  {
    if s.input then
      OutputWrite(if s.timer == NoTimer then Started(LeadingEdge, s) else s, true)
    else
      Step(s, [])
  }

  /** Flip-flop reaction: toggle the output on a high input that follows a
      low one, and remember the level in every case. */
  function FlipFlopInput(s: FilterState): (r: Step)
    ensures r.state.output == (s.output != (s.input && !s.lastSeen))
    ensures r.state.lastSeen == s.input && r.state.timer == s.timer
    ensures SameInputs(s, r.state) && Announced(s, r)
  {
    var toggled := if s.input && !s.lastSeen then OutputWrite(s, !s.output) else Step(s, []);
    Step(toggled.state.(lastSeen := s.input), toggled.sent)
  }

  /** Square-wave reaction: a high input raises the output and starts the
      oscillation; a low input lowers it and stops the oscillation. */
  function SquareWaveInput(s: FilterState): (r: Step)
    ensures r.state.output == s.input
    ensures r.state.timer == if s.input then Interval(s.time) else NoTimer
    ensures SameInputs(s, r.state) && r.state.lastSeen == s.lastSeen && Announced(s, r)
  {
    var w := OutputWrite(s, s.input);
    Step(if s.input then Started(SquareWave, w.state) else Stopped(w.state), w.sent)
  }

  /** `notifyPropertyChanged` for the `input` property, dispatched on the
      device class; `s.input` already holds the new level. */
  function InputChanged(kind: Kind, s: FilterState): (r: Step)
    ensures SameInputs(s, r.state) && r.state.stray == s.stray && Announced(s, r)
  {
    match kind
    case Countdown => CountdownInput(s)
    case LeadingEdge => LeadingEdgeInput(s)
    case FlipFlop => FlipFlopInput(s)
    case SquareWave => SquareWaveInput(s)
  }

  /** The gateway sets `input` to `level`: the property's change rule lets the
      device react only when the level differs from the stored one. */
  function InputWrite(kind: Kind, s: FilterState, level: bool): (r: Step)
    ensures level == s.input ==> r == Step(s, [])
    ensures level != s.input ==> r == InputChanged(kind, s.(input := level))
    ensures r.state.input == level && r.state.time == s.time && Announced(s, r)
  {
    if s.input == level then Step(s, []) else InputChanged(kind, s.(input := level))
  }

  /** `timeoutHandler` when the armed timer fires: the square wave toggles its
      output and keeps its interval; every other device drops its output and
      forgets the spent timeout. */
  function TimerFired(kind: Kind, s: FilterState): (r: Step)
    requires s.timer != NoTimer
    ensures kind == SquareWave ==> r.state.output == !s.output && r.state.timer == s.timer
    ensures kind != SquareWave ==> !r.state.output && r.state.timer == NoTimer
    ensures SameInputs(s, r.state) && r.state.lastSeen == s.lastSeen && r.state.stray == s.stray
    ensures Announced(s, r)
  {
    if kind == SquareWave then
      OutputWrite(s, !s.output)
    else
      var w := OutputWrite(s, false);
      Step(w.state.(timer := NoTimer), w.sent)
  }

  /** The state a device is in once its constructor returns: the `time`,
      `output` and `input` properties are created in that order, and the
      input's creation announces `false` to the device, which reacts to it. */
  function Initial(kind: Kind, seconds: int): (s: FilterState)
    ensures s.time == seconds && !s.input && !s.output && !s.lastSeen && s.stray == 0
    ensures s.timer == if kind == Countdown then Timeout(seconds) else NoTimer
    ensures Inv(kind, s)
  {
    InputChanged(kind, FilterState(seconds, false, false, NoTimer, false, 0)).state
  }

  /** What every reachable state of a device of class `kind` satisfies: no
      timer ever lost its handle, and the class's own conditions. */
  predicate Inv(kind: Kind, s: FilterState)
  {
    s.stray == 0 &&
    match kind
    case Countdown => !s.lastSeen && !s.timer.Interval? && (s.input ==> s.timer == NoTimer)
    case LeadingEdge => !s.lastSeen && !s.timer.Interval?
    case FlipFlop => s.lastSeen == s.input && s.timer == NoTimer
    case SquareWave => !s.lastSeen && !s.timer.Timeout? && (s.timer != NoTimer ==> s.input)
  }

  /** Something that can happen to a device: the gateway writes one of its
      three properties, or its timer fires. */
  datatype Event = TimeSet(seconds: int) | InputSet(level: bool) | OutputSet(level: bool) | Fired

  /** One event. A fire with no armed timer delivers nothing: a cleared
      timeout or interval never calls back. */
  function Apply(kind: Kind, s: FilterState, e: Event): (r: Step)
    ensures Announced(s, r) && |r.sent| <= 1
  {
    match e
    case TimeSet(seconds) => TimeWrite(s, seconds)
    case InputSet(level) => InputWrite(kind, s, level)
    case OutputSet(level) => OutputWrite(s, level)
    case Fired => if s.timer == NoTimer then Step(s, []) else TimerFired(kind, s)
  }

  /** A sequence of events, one after the other; the announcements of all of
      them still report only changes of the output. */
  function Run(kind: Kind, s: FilterState, events: seq<Event>): (r: Step)
    ensures Announced(s, r)
    decreases |events|
  {
    if events == [] then Step(s, [])
    else
      var first := Apply(kind, s, events[0]);
      var rest := Run(kind, first.state, events[1..]);
      ChangesOnlyConcat(s.output, first.sent, rest.sent);
      Step(rest.state, first.sent + rest.sent)
  }

  /** Running two event sequences back to back is running their concatenation. */
  lemma {:induction false} RunConcat(kind: Kind, s: FilterState, a: seq<Event>, b: seq<Event>)
    ensures Run(kind, s, a + b).state == Run(kind, Run(kind, s, a).state, b).state
    ensures Run(kind, s, a + b).sent == Run(kind, s, a).sent + Run(kind, Run(kind, s, a).state, b).sent
    decreases |a|
  {
    if a != [] {
      assert (a + b)[0] == a[0] && (a + b)[1..] == a[1..] + b;
      RunConcat(kind, Apply(kind, s, a[0]).state, a[1..], b);
    } else {
      assert a + b == b;
    }
  }

  /** Every event keeps the device invariant. */
  lemma ApplyKeepsInv(kind: Kind, s: FilterState, e: Event)
    requires Inv(kind, s)
    ensures Inv(kind, Apply(kind, s, e).state)
  {
  }

  /** Stopping the timer keeps the device invariant. */
  lemma StoppedKeepsInv(kind: Kind, s: FilterState)
    requires Inv(kind, s)
    ensures Inv(kind, Stopped(s))
  {
  }

  /** Every run of events keeps the device invariant. */
  lemma {:induction false} RunKeepsInv(kind: Kind, s: FilterState, events: seq<Event>)
    requires Inv(kind, s)
    ensures Inv(kind, Run(kind, s, events).state)
    decreases |events|
  {
    if events != [] {
      ApplyKeepsInv(kind, s, events[0]);
      RunKeepsInv(kind, Apply(kind, s, events[0]).state, events[1..]);
    }
  }

  /** The gateway writing `input` once per level, in order. */
  function Inputs(levels: seq<bool>): (events: seq<Event>)
    ensures |events| == |levels|
  {
    if levels == [] then [] else [InputSet(levels[0])] + Inputs(levels[1..])
  }

  /** `n` fires of the timer. */
  function Ticks(n: nat): (events: seq<Event>)
    ensures |events| == n
  {
    if n == 0 then [] else [Fired] + Ticks(n - 1)
  }

  /** The number of rising edges in `levels` for a signal that was at `prev`. */
  function RisingEdges(prev: bool, levels: seq<bool>): nat
    decreases |levels|
  {
    if levels == [] then 0
    else (if levels[0] && !prev then 1 else 0) + RisingEdges(levels[0], levels[1..])
  }

  /** Flip-flop: after any sequence of input writes the output is the initial
      output toggled once per rising edge, and the timer is never touched. */
  lemma {:induction false} FlipFlopCountsRisingEdges(s: FilterState, levels: seq<bool>)
    requires Inv(FlipFlop, s)
    ensures Run(FlipFlop, s, Inputs(levels)).state.output == (s.output != (RisingEdges(s.input, levels) % 2 == 1))
    ensures Run(FlipFlop, s, Inputs(levels)).state.timer == s.timer
    decreases |levels|
  {
    if levels != [] {
      var next := InputWrite(FlipFlop, s, levels[0]).state;
      assert Inputs(levels)[0] == InputSet(levels[0]) && Inputs(levels)[1..] == Inputs(levels[1..]);
      assert next.output == (s.output != (levels[0] && !s.input));
      FlipFlopCountsRisingEdges(next, levels[1..]);
    }
  }

  /** Leading edge: while a pulse is pending, no input write restarts or
      cancels it. */
  lemma {:induction false} LeadingEdgePulseNotRestarted(s: FilterState, levels: seq<bool>)
    requires s.timer != NoTimer
    ensures Run(LeadingEdge, s, Inputs(levels)).state.timer == s.timer
    decreases |levels|
  {
    if levels != [] {
      assert Inputs(levels)[0] == InputSet(levels[0]) && Inputs(levels)[1..] == Inputs(levels[1..]);
      LeadingEdgePulseNotRestarted(InputWrite(LeadingEdge, s, levels[0]).state, levels[1..]);
    }
  }

  /** Leading edge: a rising edge raises the output and starts a pulse of the
      configured length; further input writes leave that pulse alone, and its
      fire lowers the output whatever the input is by then. */
  lemma LeadingEdgePulse(s: FilterState, levels: seq<bool>)
    requires Inv(LeadingEdge, s) && !s.input && s.timer == NoTimer
    ensures Run(LeadingEdge, s, [InputSet(true)]).state.output
    ensures Run(LeadingEdge, s, [InputSet(true)] + Inputs(levels)).state.timer == Timeout(s.time)
    ensures !Run(LeadingEdge, s, [InputSet(true)] + Inputs(levels) + [Fired]).state.output
  {
    var raised := Run(LeadingEdge, s, [InputSet(true)]).state;
    assert raised.timer == Timeout(s.time);
    LeadingEdgePulseNotRestarted(raised, levels);
    RunConcat(LeadingEdge, s, [InputSet(true)], Inputs(levels));
    RunConcat(LeadingEdge, s, [InputSet(true)] + Inputs(levels), [Fired]);
  }

  /** Square wave: with the interval running, each fire toggles the output
      and leaves the interval armed. */
  lemma {:induction false} SquareWaveToggles(s: FilterState, n: nat)
    requires s.timer.Interval?
    ensures Run(SquareWave, s, Ticks(n)).state == s.(output := s.output != (n % 2 == 1))
    decreases n
  {
    if n > 0 {
      assert Ticks(n)[0] == Fired && Ticks(n)[1..] == Ticks(n - 1);
      SquareWaveToggles(TimerFired(SquareWave, s).state, n - 1);
    }
  }

  /** Square wave: a rising input starts the oscillation at `true`, so after
      `n` periods the output is `true` exactly when `n` is even. */
  lemma SquareWaveOscillates(s: FilterState, n: nat)
    requires Inv(SquareWave, s) && !s.input
    ensures Run(SquareWave, s, [InputSet(true)] + Ticks(n)).state.output == (n % 2 == 0)
    ensures Run(SquareWave, s, [InputSet(true)] + Ticks(n)).state.timer == Interval(s.time)
  {
    RunConcat(SquareWave, s, [InputSet(true)], Ticks(n));
    SquareWaveToggles(Run(SquareWave, s, [InputSet(true)]).state, n);
  }

  /** Square wave: a falling input lowers the output at once and no later
      tick changes anything until the input rises again. */
  lemma SquareWaveStops(s: FilterState, n: nat)
    requires Inv(SquareWave, s) && s.input
    ensures Run(SquareWave, s, [InputSet(false)] + Ticks(n)).state
      == s.(input := false, output := false, timer := NoTimer)
  {
    RunConcat(SquareWave, s, [InputSet(false)], Ticks(n));
    StoppedTicksAreSilent(SquareWave, Run(SquareWave, s, [InputSet(false)]).state, n);
  }

  /** With no timer armed, ticks deliver nothing. */
  lemma {:induction false} StoppedTicksAreSilent(kind: Kind, s: FilterState, n: nat)
    requires s.timer == NoTimer
    ensures Run(kind, s, Ticks(n)) == Step(s, [])
    decreases n
  {
    if n > 0 {
      assert Ticks(n)[0] == Fired && Ticks(n)[1..] == Ticks(n - 1);
      StoppedTicksAreSilent(kind, s, n - 1);
    }
  }

  /** Countdown (off-delay): while the input is high the output is high and
      no timer runs; when it drops, the output stays high until the timeout
      fires and then drops; a rise before the fire cancels the drop. */
  lemma CountdownOffDelay(s: FilterState)
    requires Inv(Countdown, s) && s.input
    ensures Run(Countdown, s, [InputSet(false)]).state == s.(input := false, timer := Timeout(s.time))
    ensures Run(Countdown, s, [InputSet(false), Fired]).state == s.(input := false, output := false, timer := NoTimer)
    ensures Run(Countdown, s, [InputSet(false), InputSet(true)]).state == s.(output := true)
  {
    RunConcat(Countdown, s, [InputSet(false)], [Fired]);
    RunConcat(Countdown, s, [InputSet(false)], [InputSet(true)]);
  }
}
