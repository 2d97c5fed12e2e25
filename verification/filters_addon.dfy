/** The filters add-on: one device object per configured filter, updated in
    place by property writes and timer fires, and the adapter's device table.
    The four device classes of the add-on are one class here whose constant
    `kind` selects the overridden behaviour. */
module FiltersAddon {
  import opened Timers
  import opened Notifications
  import opened Registry
  import opened FilterMachines

  /** One entry of the add-on's configuration. */
  datatype Config = Config(name: string, typeName: string, time: int)

  datatype Option<T> = None | Some(value: T)

  const IdPrefix: string := "filters-device-"

  /** The device id derived from a configured name. */
  function DeviceId(name: string): (id: string)
    ensures |id| == |IdPrefix| + |name|
    ensures id[..|IdPrefix|] == IdPrefix && id[|IdPrefix|..] == name
  {
    IdPrefix + name
  }

  /** Two configured names give the same id exactly when they are equal. */
  lemma DeviceIdInjective(a: string, b: string)
    ensures DeviceId(a) == DeviceId(b) <==> a == b
  {
    if DeviceId(a) == DeviceId(b) {
      assert a == DeviceId(a)[|IdPrefix|..];
    }
  }

  /** The configuration `type` string of each device class. */
  function TypeName(kind: Kind): string
  {
    match kind
    case Countdown => "countdown"
    case LeadingEdge => "edge detector"
    case FlipFlop => "flip-flop"
    case SquareWave => "square wave"
  }

  /** The `switch` on the configured `type`: one of four exact strings, anything
      else is not a device. */
  function KindOf(typeName: string): (k: Option<Kind>)
    ensures k.Some? ==> TypeName(k.value) == typeName
    ensures k.None? ==> forall kind: Kind :: TypeName(kind) != typeName
  {
    match typeName
    case "countdown" => Some(Countdown)
    case "edge detector" => Some(LeadingEdge)
    case "flip-flop" => Some(FlipFlop)
    case "square wave" => Some(SquareWave)
    case _ => None
  }

  /** Reading the type name of a device class back gives that class. */
  lemma KindOfTypeName(kind: Kind)
    ensures KindOf(TypeName(kind)) == Some(kind)
  {
  }

  class FilterDevice {
    const id: string
    const name: string
    const kind: Kind
    var time: int
    var input: bool
    var output: bool
    var timer: Timer
    var lastSeen: bool
    /** Armed timers whose handle was overwritten. */
    ghost var stray: nat
    /** The output values announced to the gateway, oldest first. */
    ghost var outputLog: seq<bool>

    /** The device's state, with its ghost count of lost handles. */
    ghost function State(): FilterState
      reads this
    {
      FilterState(time, input, output, timer, lastSeen, stray)
    }

    ghost predicate Valid()
      reads this
    {
      Inv(kind, State()) && Reports(outputLog, output)
    }

    /** Creates the three properties; the output announces its initial value
        and the input's announcement of `false` is the device's first reaction
        (the countdown arms its timer, the square wave stops it). */
    constructor (id: string, kind: Kind, conf: Config)
      ensures this.id == id && name == conf.name && this.kind == kind
      ensures State() == Initial(kind, conf.time) && outputLog == [false]
      ensures Valid()
    {
      this.id := id;
      name := conf.name;
      this.kind := kind;
      time := conf.time;
      output := false;
      input := false;
      timer := NoTimer;
      lastSeen := false;
      stray := 0;
      outputLog := [false];
      new;
      NotifyInputChanged();
    }

    /** The output property's `setValue`: store the value and announce it
        when it changed. */
    method SetOutput(value: bool)
      modifies this
      ensures State() == old(State()).(output := value)
      ensures outputLog == old(outputLog) + Announce(old(output), value)
      ensures old(Valid()) ==> Valid()
    {
      var changed := output != value;
      output := value;
      if changed {
        outputLog := outputLog + [value];
      }
      if old(Valid()) {
        ReportsExtend(old(outputLog), old(output), Announce(old(output), value));
      }
    }

    /** The time property's `setValue`: a pending timer keeps its period. */
    method SetTime(seconds: int)
      requires Valid()
      modifies this
      ensures Valid()
      ensures State() == TimeWrite(old(State()), seconds).state && outputLog == old(outputLog)
    {
      time := seconds;
    }

    /** The input property's `setValue`: store the level, and let the device
        react when it changed. */
    method SetInput(level: bool)
      requires Valid()
      modifies this
      ensures Valid()
      ensures State() == InputWrite(kind, old(State()), level).state
      ensures outputLog == old(outputLog) + InputWrite(kind, old(State()), level).sent
    {
      var changed := input != level;
      input := level;
      if changed {
        NotifyInputChanged();
      }
      ApplyKeepsInv(kind, old(State()), InputSet(level));
      ReportsExtend(old(outputLog), old(output), InputWrite(kind, old(State()), level).sent);
    }

    /** `startTimer`: stop the pending timer, then arm a new one. */
    method StartTimer()
      modifies this
      ensures State() == Started(kind, old(State())) && outputLog == old(outputLog)
    {
      StopTimer();
      stray := stray + if timer == NoTimer then 0 else 1;
      timer := Armed(kind, time);
    }

    /** `stopTimer`: clear the handle if one is set; a no-op otherwise. */
    method StopTimer()
      modifies this
      ensures State() == Stopped(old(State())) && outputLog == old(outputLog)
    {
      if timer != NoTimer {
        timer := NoTimer;
      }
    }

    /** `notifyPropertyChanged` for the input property: each device class's
        reaction to the level now in `input`. */
    method NotifyInputChanged()
      modifies this
      ensures State() == InputChanged(kind, old(State())).state
      ensures outputLog == old(outputLog) + InputChanged(kind, old(State())).sent
    {
      match kind
      case Countdown =>
        if input {
          StopTimer();
          SetOutput(true);
        } else {
          StartTimer();
        }
      case LeadingEdge =>
        if input {
          if timer == NoTimer {
            StartTimer();
          }
          SetOutput(true);
        }
      case FlipFlop =>
        if input && !lastSeen {
          SetOutput(!output);
        }
        lastSeen := input;
      case SquareWave =>
        if input {
          SetOutput(true);
          StartTimer();
        } else {
          SetOutput(false);
          StopTimer();
        }
    }

    /** `timeoutHandler`, run when the armed timer fires. */
    method TimeoutHandler()
      requires Valid() && timer != NoTimer
      modifies this
      ensures Valid()
      ensures State() == TimerFired(kind, old(State())).state
      ensures outputLog == old(outputLog) + TimerFired(kind, old(State())).sent
    {
      if kind == SquareWave {
        SetOutput(!output);
      } else {
        SetOutput(false);
        timer := NoTimer;
      }
      ApplyKeepsInv(kind, old(State()), Fired);
    }

    /** `unload`: stop the timer; nothing else changes. */
    method Unload()
      modifies this
      ensures State() == old(State()).(timer := NoTimer) && outputLog == old(outputLog)
      ensures old(Valid()) ==> Valid()
    {
      StopTimer();
      if old(Valid()) {
        StoppedKeepsInv(kind, old(State()));
      }
    }
  }

  class FiltersAdapter {
    /** The adapter's device table, keyed by device id. */
    var devices: map<string, FilterDevice>
    /** What the gateway was told about devices being added and removed. */
    ghost var events: seq<DeviceEvent>

    ghost predicate Valid()
      reads this, devices.Values
    {
      forall id :: id in devices ==> devices[id].id == id && devices[id].Valid()
    }

    constructor ()
      ensures Valid() && devices == map[] && events == []
    {
      devices := map[];
      events := [];
    }

    /** `addDevice`: refuse an id already in the table; otherwise hand the
        device to the gateway, which files it under its own id. */
    method AddDevice(deviceId: string, device: FilterDevice) returns (r: Outcome)
      requires Valid() && device.Valid()
      modifies this
      ensures Valid()
      ensures deviceId in old(devices) ==> r == Err(AlreadyExists(deviceId)) && devices == old(devices) && events == old(events)
      ensures deviceId !in old(devices) ==>
        r == Ok && devices == old(devices)[device.id := device] && events == old(events) + [Added(device.id)]
    {
      if deviceId in devices {
        r := Err(AlreadyExists(deviceId));
      } else {
        devices := devices[device.id := device];
        events := events + [Added(device.id)];
        r := Ok;
      }
    }

    /** `addDeviceFromConfig`: derive the id, build the device class the
        `type` names, and add it; an unknown type adds nothing. */
    method AddDeviceFromConfig(conf: Config) returns (r: Outcome)
      requires Valid()
      modifies this
      ensures Valid()
      ensures KindOf(conf.typeName).None? ==>
        r == Err(UnknownType(conf.typeName)) && devices == old(devices) && events == old(events)
      ensures KindOf(conf.typeName).Some? && DeviceId(conf.name) in old(devices) ==>
        r == Err(AlreadyExists(DeviceId(conf.name))) && devices == old(devices) && events == old(events)
      ensures KindOf(conf.typeName).Some? && DeviceId(conf.name) !in old(devices) ==>
        && r == Ok
        && DeviceId(conf.name) in devices
        && devices == old(devices)[DeviceId(conf.name) := devices[DeviceId(conf.name)]]
        && events == old(events) + [Added(DeviceId(conf.name))]
        && fresh(devices[DeviceId(conf.name)])
        && devices[DeviceId(conf.name)].kind == KindOf(conf.typeName).value
        && devices[DeviceId(conf.name)].name == conf.name
        && devices[DeviceId(conf.name)].State() == Initial(KindOf(conf.typeName).value, conf.time)
        && devices[DeviceId(conf.name)].outputLog == [false]
    {
      var deviceId := DeviceId(conf.name);
      match KindOf(conf.typeName)
      case None =>
        r := Err(UnknownType(conf.typeName));
      case Some(kind) =>
        var device := new FilterDevice(deviceId, kind, conf);
        r := AddDevice(deviceId, device);
    }

    /** `removeDevice`: refuse an unknown id; otherwise take the device out of
        the table. Its timer is left as it is. */
    method RemoveDevice(deviceId: string) returns (r: Outcome)
      requires Valid()
      modifies this
      ensures Valid()
      ensures deviceId !in old(devices) ==> r == Err(NotFound(deviceId)) && devices == old(devices) && events == old(events)
      ensures deviceId in old(devices) ==>
        r == Ok && devices == old(devices) - {deviceId} && events == old(events) + [Removed(deviceId)]
    {
      if deviceId in devices {
        var device := devices[deviceId];
        devices := devices - {device.id};
        events := events + [Removed(device.id)];
        r := Ok;
      } else {
        r := Err(NotFound(deviceId));
      }
    }

    /** `unload`: stop the timer of every device in the table; nothing else
        about the devices changes. */
    method Unload()
      requires Valid()
      modifies devices.Values
      ensures Valid()
      ensures forall id :: id in devices ==>
        devices[id].State() == old(devices[id].State()).(timer := NoTimer) && devices[id].outputLog == old(devices[id].outputLog)
    {
      UnloadEach();
      forall id | id in devices
        ensures devices[id].State() == old(devices[id].State()).(timer := NoTimer)
        ensures devices[id].Valid()
      {
        var device := devices[id];
        assert old(device.Valid());
        StoppedKeepsInv(device.kind, old(device.State()));
      }
    }

    /** The loop of `unload`: each device's own `unload`, one id at a time. */
    method UnloadEach()
      requires forall id :: id in devices ==> devices[id].id == id
      modifies devices.Values
      ensures forall id :: id in devices ==>
        && devices[id].time == old(devices[id].time) && devices[id].input == old(devices[id].input)
        && devices[id].output == old(devices[id].output) && devices[id].lastSeen == old(devices[id].lastSeen)
        && devices[id].outputLog == old(devices[id].outputLog) && devices[id].stray == old(devices[id].stray)
        && devices[id].timer == NoTimer
    {
      var pending := devices.Keys;
      while pending != {}
        invariant pending <= devices.Keys
        invariant forall id :: id in devices ==>
          && devices[id].time == old(devices[id].time) && devices[id].input == old(devices[id].input)
          && devices[id].output == old(devices[id].output) && devices[id].lastSeen == old(devices[id].lastSeen)
          && devices[id].outputLog == old(devices[id].outputLog) && devices[id].stray == old(devices[id].stray)
        invariant forall id :: id in pending ==> devices[id].timer == old(devices[id].timer)
        invariant forall id :: id in devices && id !in pending ==> devices[id].timer == NoTimer
        decreases pending
      {
        var id :| id in pending;
        devices[id].Unload();
        pending := pending - {id};
      }
    }
  }
}
