/** The stand-alone countdown-timer add-on: one off-delay device class whose
    properties are created from a description, the device's reactions, and
    the adapter's device table. Unlike the filters add-on it arms its timeout
    without clearing the handle it holds, so its state also counts the
    timeouts that lost their handle that way (`stray`); the invariant proves
    there are none. */
module CountdownAddon {
  import opened Timers
  import opened Notifications
  import opened Registry
  import opened CountdownIds
  import FilterMachines

  /** One entry of the add-on's configuration. */
  datatype Config = Config(name: string, time: int)

  /** What `addDevice` is given: the device's name and the initial values of
      its `time`, `output` and `input` properties, which the constructor
      creates in that order. */
  datatype Description = Description(name: string, time: int, output: bool, input: bool)

  /** The description `addDeviceFromConfig` builds from a configuration entry. */
  function Describe(conf: Config): Description
  {
    Description(conf.name, conf.time, false, false)
  }

  /** What a countdown device holds: its three property values, its timer
      handle, and the number of armed timeouts whose handle was overwritten
      (they would still fire, and nothing could clear them). */
  datatype CountdownState = CountdownState(time: int, input: bool, output: bool, timer: Timer, stray: nat)

  // Step, Announced and the property writes below mirror the countdown-timer add-on's own
  // copy of the gateway property class; each add-on ships its own.

  /** The outcome of one transition: the new state and the output values
      announced to the gateway on the way, in order. */
  datatype Step = Step(state: CountdownState, sent: seq<bool>)

  /** What the gateway learns from `r` about the output of `s`: only changes,
      ending with the new output. */
  predicate Announced(s: CountdownState, r: Step)
  {
    ChangesOnly(s.output, r.sent) && Final(s.output, r.sent) == r.state.output
  }

  /** `setProperty('output', value)`, through the property's change rule:
      only the output changes, and a notification is sent only when it
      takes a new value. */
  function OutputWrite(s: CountdownState, value: bool): (r: Step)
    ensures r.state == s.(output := value)
    ensures (r.sent == [] <==> s.output == value) && |r.sent| <= 1
    ensures Announced(s, r)
  {
    Step(s.(output := value), Announce(s.output, value))
  }

  /** The gateway sets `time`: the device does not react, and a pending
      timeout keeps the delay it was armed with. */
  function TimeWrite(s: CountdownState, seconds: int): (r: Step)
    ensures r.state == s.(time := seconds) && r.sent == []
  {
    Step(s.(time := seconds), [])
  }

  /** `notifyPropertyChanged` for the input, whose new level is in `s.input`:
      a high input clears the pending timeout and raises the output; a low
      input arms a timeout of `time` seconds in the handle slot, overwriting
      whatever handle was there. */
  function InputChanged(s: CountdownState): (r: Step)
    ensures s.input ==> r.state.timer == NoTimer && r.state.output && r.state.stray == s.stray
    ensures !s.input ==> r.state.timer == Timeout(s.time) && r.state.output == s.output && r.sent == []
    ensures !s.input ==> r.state.stray == if s.timer == NoTimer then s.stray else s.stray + 1
    ensures r.state.time == s.time && r.state.input == s.input && Announced(s, r)
  {
    if s.input then
      OutputWrite(s.(timer := NoTimer), true)
    else
      Step(s.(timer := Timeout(s.time), stray := s.stray + if s.timer == NoTimer then 0 else 1), [])
  }

  /** The gateway sets `input` to `level`: the device reacts only when the
      level differs from the stored one. */
  function InputWrite(s: CountdownState, level: bool): (r: Step)
    ensures level == s.input ==> r == Step(s, [])
    ensures level != s.input ==> r == InputChanged(s.(input := level))
    ensures r.state.input == level && r.state.time == s.time && Announced(s, r)
  {
    if s.input == level then Step(s, []) else InputChanged(s.(input := level))
  }

  /** `timeoutHandler`: lower the output and forget the spent handle. */
  function TimerFired(s: CountdownState): (r: Step)
    requires s.timer != NoTimer
    ensures !r.state.output && r.state.timer == NoTimer && r.state.stray == s.stray
    ensures r.state.time == s.time && r.state.input == s.input && Announced(s, r)
  {
    var w := OutputWrite(s, false);
    Step(w.state.(timer := NoTimer), w.sent)
  }

  /** What every reachable device satisfies: at most one timeout, never one
      while the input is high, and no timeout ever lost its handle. */
  predicate Inv(s: CountdownState)
  {
    !s.timer.Interval? && (s.input ==> s.timer == NoTimer) && s.stray == 0
  }

  /** The device as its constructor leaves it, with everything it announced
      about its output: the output's creation announces its initial value,
      and the input's creation runs the device's reaction to it. */
  function Created(d: Description): (r: Step)
    ensures r.state.time == d.time && r.state.input == d.input && r.state.output == (d.output || d.input)
    ensures r.state.timer == if d.input then NoTimer else Timeout(d.time)
    ensures Inv(r.state) && Reports(r.sent, r.state.output) && r.sent[0] == d.output
  {
    var reaction := InputChanged(CountdownState(d.time, d.input, d.output, NoTimer, 0));
    assert ([d.output] + reaction.sent)[1..] == reaction.sent;
    Step(reaction.state, [d.output] + reaction.sent)
  }

  /** One event; the event vocabulary is the filters add-on's. A fire with
      no armed timeout delivers nothing. */
  function Apply(s: CountdownState, e: FilterMachines.Event): (r: Step)
    ensures Announced(s, r) && |r.sent| <= 1
  {
    match e
    case TimeSet(seconds) => TimeWrite(s, seconds)
    case InputSet(level) => InputWrite(s, level)
    case OutputSet(level) => OutputWrite(s, level)
    case Fired => if s.timer == NoTimer then Step(s, []) else TimerFired(s)
  }

  /** A sequence of events, one after the other. */
  function Run(s: CountdownState, events: seq<FilterMachines.Event>): (r: Step)
    ensures Announced(s, r)
    decreases |events|
  {
    if events == [] then Step(s, [])
    else
      var first := Apply(s, events[0]);
      var rest := Run(first.state, events[1..]);
      ChangesOnlyConcat(s.output, first.sent, rest.sent);
      Step(rest.state, first.sent + rest.sent)
  }

  /** Every event keeps the invariant. */
  lemma ApplyKeepsInv(s: CountdownState, e: FilterMachines.Event)
    requires Inv(s)
    ensures Inv(Apply(s, e).state)
  {
  }

  /** Every run keeps the invariant: in particular the overwrite in
      `InputChanged` never finds an armed timeout, so no timeout is ever
      left running without a handle. */
  lemma {:induction false} RunKeepsInv(s: CountdownState, events: seq<FilterMachines.Event>)
    requires Inv(s)
    ensures Inv(Run(s, events).state) && Run(s, events).state.stray == 0
    decreases |events|
  {
    if events != [] {
      ApplyKeepsInv(s, events[0]);
      RunKeepsInv(Apply(s, events[0]).state, events[1..]);
    }
  }

  /** The countdown device's state as the filters add-on's countdown keeps it. */
  function Project(s: CountdownState): FilterMachines.FilterState
  {
    FilterMachines.FilterState(s.time, s.input, s.output, s.timer, false, s.stray)
  }

  /** One event moves a reachable device exactly as it moves the filters
      add-on's countdown device, with the same announcements. */
  lemma ApplyMatchesFilterCountdown(s: CountdownState, e: FilterMachines.Event)
    requires Inv(s)
    ensures Project(Apply(s, e).state) == FilterMachines.Apply(FilterMachines.Countdown, Project(s), e).state
    ensures Apply(s, e).sent == FilterMachines.Apply(FilterMachines.Countdown, Project(s), e).sent
  {
  }

  /** From any reachable state, the two add-ons' countdown devices cannot be
      told apart: every run of events ends in the same state and announces
      the same output values. */
  lemma {:induction false} RunMatchesFilterCountdown(s: CountdownState, events: seq<FilterMachines.Event>)
    requires Inv(s)
    ensures Project(Run(s, events).state) == FilterMachines.Run(FilterMachines.Countdown, Project(s), events).state
    ensures Run(s, events).sent == FilterMachines.Run(FilterMachines.Countdown, Project(s), events).sent
    decreases |events|
  {
    if events != [] {
      ApplyMatchesFilterCountdown(s, events[0]);
      ApplyKeepsInv(s, events[0]);
      RunMatchesFilterCountdown(Apply(s, events[0]).state, events[1..]);
    }
  }

  /** A device created from a configuration entry starts where the filters
      add-on's countdown device starts, having announced the same `false`. */
  lemma CreatedMatchesFilterCountdown(conf: Config)
    ensures Project(Created(Describe(conf)).state) == FilterMachines.Initial(FilterMachines.Countdown, conf.time)
    ensures Created(Describe(conf)).sent == [false]
  {
  }

  class CountdownTimerDevice {
    const id: string
    const name: string
    var time: int
    var input: bool
    var output: bool
    var timer: Timer
    /** Armed timeouts whose handle was overwritten. */
    ghost var stray: nat
    /** The output values announced to the gateway, oldest first. */
    ghost var outputLog: seq<bool>

    /** The device's state, with its ghost count of lost handles. */
    ghost function State(): CountdownState
      reads this
    {
      CountdownState(time, input, output, timer, stray)
    }

    ghost predicate Valid()
      reads this
    {
      Inv(State()) && Reports(outputLog, output)
    }

    /** Creates `time`, `output` and `input` in that order; each property's
        creation notifies the device, which announces the output and reacts
        to the input. */
    constructor (id: string, d: Description)
      ensures this.id == id && name == d.name
      ensures State() == Created(d).state && outputLog == Created(d).sent
      ensures Valid()
    {
      this.id := id;
      name := d.name;
      timer := NoTimer;
      stray := 0;
      time := d.time;
      output := d.output;
      outputLog := [d.output];
      input := d.input;
      new;
      NotifyInputChanged();
    }

    /** The output property's `setValue`: store the value and announce it
        when it changed. */
    method SetOutput(value: bool)
      modifies this
      ensures State() == old(State()).(output := value)
      ensures outputLog == old(outputLog) + Announce(old(output), value)
      ensures old(Valid()) ==> Valid()
    {
      var changed := output != value;
      output := value;
      if changed {
        outputLog := outputLog + [value];
      }
      if old(Valid()) {
        ReportsExtend(old(outputLog), old(output), Announce(old(output), value));
      }
    }

    /** The time property's `setValue`. */
    method SetTime(seconds: int)
      requires Valid()
      modifies this
      ensures Valid()
      ensures State() == TimeWrite(old(State()), seconds).state && outputLog == old(outputLog)
    {
      time := seconds;
    }

    /** The input property's `setValue`: store the level, and let the device
        react when it changed. */
    method SetInput(level: bool)
      requires Valid()
      modifies this
      ensures Valid()
      ensures State() == InputWrite(old(State()), level).state
      ensures outputLog == old(outputLog) + InputWrite(old(State()), level).sent
    {
      var changed := input != level;
      input := level;
      if changed {
        NotifyInputChanged();
      }
      ApplyKeepsInv(old(State()), FilterMachines.InputSet(level));
      ReportsExtend(old(outputLog), old(output), InputWrite(old(State()), level).sent);
    }

    /** `notifyPropertyChanged` for the input property. */
    method NotifyInputChanged()
      modifies this
      ensures State() == InputChanged(old(State())).state
      ensures outputLog == old(outputLog) + InputChanged(old(State())).sent
    {
      if input {
        if timer != NoTimer {
          timer := NoTimer;
        }
        SetOutput(true);
      } else {
        stray := stray + if timer == NoTimer then 0 else 1;
        timer := Timeout(time);
      }
    }

    /** `timeoutHandler`, run when the armed timeout fires. */
    method TimeoutHandler()
      requires Valid() && timer != NoTimer
      modifies this
      ensures Valid()
      ensures State() == TimerFired(old(State())).state
      ensures outputLog == old(outputLog) + TimerFired(old(State())).sent
    {
      SetOutput(false);
      timer := NoTimer;
    }
  }

  class CountdownTimerAdapter {
    /** The adapter's device table, keyed by device id. */
    var devices: map<string, CountdownTimerDevice>
    /** What the gateway was told about devices being added and removed. */
    ghost var events: seq<DeviceEvent>

    ghost predicate Valid()
      reads this, devices.Values
    {
      forall id :: id in devices ==> devices[id].id == id && devices[id].Valid()
    }

    constructor ()
      ensures Valid() && devices == map[] && events == []
    {
      devices := map[];
      events := [];
    }

    /** `addDevice`: refuse an id already in the table; otherwise build the
        device from the description and hand it to the gateway. */
    method AddDevice(deviceId: string, d: Description) returns (r: Outcome)
      requires Valid()
      modifies this
      ensures Valid()
      ensures deviceId in old(devices) ==> r == Err(AlreadyExists(deviceId)) && devices == old(devices) && events == old(events)
      ensures deviceId !in old(devices) ==>
        && r == Ok
        && deviceId in devices
        && devices == old(devices)[deviceId := devices[deviceId]]
        && events == old(events) + [Added(deviceId)]
        && fresh(devices[deviceId])
        && devices[deviceId].name == d.name
        && devices[deviceId].State() == Created(d).state
        && devices[deviceId].outputLog == Created(d).sent
    {
      if deviceId in devices {
        r := Err(AlreadyExists(deviceId));
      } else {
        var device := new CountdownTimerDevice(deviceId, d);
        devices := devices[deviceId := device];
        events := events + [Added(deviceId)];
        r := Ok;
      }
    }

    /** `addDeviceFromConfig`: derive the id from the name and add a device
        with the configured time and both switches off. */
    method AddDeviceFromConfig(conf: Config) returns (r: Outcome)
      requires Valid()
      modifies this
      ensures Valid()
      ensures DeviceId(conf.name) in old(devices) ==>
        r == Err(AlreadyExists(DeviceId(conf.name))) && devices == old(devices) && events == old(events)
      ensures DeviceId(conf.name) !in old(devices) ==>
        && r == Ok
        && DeviceId(conf.name) in devices
        && devices == old(devices)[DeviceId(conf.name) := devices[DeviceId(conf.name)]]
        && events == old(events) + [Added(DeviceId(conf.name))]
        && fresh(devices[DeviceId(conf.name)])
        && devices[DeviceId(conf.name)].name == conf.name
        && devices[DeviceId(conf.name)].State() == CountdownState(conf.time, false, false, Timeout(conf.time), 0)
        && devices[DeviceId(conf.name)].outputLog == [false]
    {
      r := AddDevice(DeviceId(conf.name), Describe(conf));
    }

    /** `removeDevice`: refuse an unknown id; otherwise take the device out of
        the table. Its pending timeout is left as it is. */
    method RemoveDevice(deviceId: string) returns (r: Outcome)
      requires Valid()
      modifies this
      ensures Valid()
      ensures deviceId !in old(devices) ==> r == Err(NotFound(deviceId)) && devices == old(devices) && events == old(events)
      ensures deviceId in old(devices) ==>
        r == Ok && devices == old(devices) - {deviceId} && events == old(events) + [Removed(deviceId)]
    {
      if deviceId in devices {
        devices := devices - {deviceId};
        events := events + [Removed(deviceId)];
        r := Ok;
      } else {
        r := Err(NotFound(deviceId));
      }
    }
  }
}
