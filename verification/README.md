# Boolean signal filters for the gateway, in Dafny

This project models the two add-ons of the filters repository:

- **filters-adapter.js** builds virtual devices that filter a boolean signal. Each device has three properties: `time` (seconds), `input` and `output`. There are four device classes:
  - countdown (off-delay);
  - leading-edge pulse;
  - flip-flop;
  - square-wave generator.

  Each class reacts to changes of `input` and to the firing of its single timer. The adapter keeps a table of devices:
  - it derives a device id from the configured name;
  - it picks the device class from the configured type;
  - it refuses duplicate ids on add and unknown ids on remove;
  - it stops every timer on unload.
- **countdown-timer-adapter.js** is the older stand-alone countdown device. It has its own id sanitiser, `name.replace(/\s+|%/g, '-')`, and the same add and remove rules.

The model has two layers:

- **The pure layer.** Each device is a Mealy machine (module `FilterMachines`, and the first half of `CountdownAddon`). A transition function takes a state and an event to a new state. It also returns the sequence of output values announced to the gateway on the way.
- **The object layer.** The device and adapter objects are classes (`FiltersAddon`, and the second half of `CountdownAddon`). Their methods update fields in place, in the order the JavaScript does. Each method's postcondition ties the new state, and the ghost log of output notifications, to the pure transition.

The properties are proved about the pure layer:

- Announcements report only changes.
- Each device class keeps its invariants.
- The flip-flop counts rising edges modulo 2.
- The square wave toggles on every fire.
- A pending leading-edge pulse is never restarted.
- The two countdown implementations agree on every run of events.

The files are:

- `common.dfy`:
  - module `Timers`: the timer handle;
  - module `Notifications`: the change rule of the property wrapper;
  - module `Registry`: outcomes and device events.
- `filter_machines.dfy`: module `FilterMachines`.
- `filters_addon.dfy`: module `FiltersAddon`.
- `countdown_ids.dfy`: module `CountdownIds`.
- `countdown_addon.dfy`: module `CountdownAddon`.

A timer handle is `NoTimer` (the JavaScript `null`), `Timeout(seconds)` (from `setTimeout`) or `Interval(seconds)` (from `setInterval`). The firing of a timer is an explicit event, and no clock is modelled. The gateway-visible history of the output is a ghost `outputLog`:

- it starts with the value the output property announces when it is created;
- it grows by one entry exactly when a write changes the output.

`Reports(outputLog, output)` says that every entry differs from the one before it and that the last entry is the current output. It is part of every device's `Valid()`.

## Model

| member | source | states |
|---|---|---|
| Notifications.Announce | filters-adapter.js:34-46 | A property write announces nothing exactly when the value is unchanged. Otherwise it announces the new value exactly once, so the listener ends up knowing it. |
| FilterMachines.OutputWrite | filters-adapter.js:34-46 | `setProperty('output', v)` sets the output to `v` and changes nothing else. It announces nothing exactly when the output already was `v`, and otherwise announces `v` once. |
| FilterMachines.TimeWrite | filters-adapter.js:34-46 | Writing `time` sets it, changes nothing else and announces nothing about the output. An armed timer keeps its period. |
| FilterMachines.Stopped | filters-adapter.js:99-104 | `stopTimer` leaves no timer and changes nothing else. On a device with no timer it changes nothing, so it is idempotent. |
| FilterMachines.Arm | filters-adapter.js:93 | Storing a new timer handle sets it and changes nothing else, except that a handle still armed at that moment is counted as lost. |
| FilterMachines.Started | filters-adapter.js:89-94 | `startTimer` stops any pending timer before arming one with the current `time`, so no handle is lost and the device holds at most one timer. It arms a one-shot timeout, or an interval for the square wave (line 193-198). |
| FilterMachines.CountdownInput | filters-adapter.js:126-137 | A high input leaves no timer and the output high. A low input arms a timeout of `time` seconds, leaves the output as it was and announces nothing. |
| FilterMachines.LeadingEdgeInput | filters-adapter.js:150-158 | A high input raises the output and arms a timeout only when none is pending, so a pending one is kept. A low input changes nothing and announces nothing. |
| FilterMachines.FlipFlopInput | filters-adapter.js:172-180 | The output toggles iff the new input is high and `lastSeen` was low. `lastSeen` becomes the input, and the timer is untouched. |
| FilterMachines.SquareWaveInput | filters-adapter.js:204-216 | The output follows the input. A high input arms an interval of `time` seconds, and a low input stops the timer. |
| FilterMachines.InputChanged | filters-adapter.js:116-216 | The reaction of each device class to its input keeps `time` and `input`, and announces only output changes. |
| FilterMachines.InputWrite | filters-adapter.js:34-46 | Writing the stored level changes nothing and announces nothing. Any other level is stored and the device's class reacts to it: the result is exactly `InputChanged` on the state with the new level. |
| FilterMachines.TimerFired | filters-adapter.js:110-113 | When the timer fires, the countdown and the leading edge drop their output and forget the timer. The square wave's override (line 222-224) toggles the output and keeps its interval. |
| FilterMachines.Initial | filters-adapter.js:51-79 | After the constructor, `time` is the configured value and input, output and `lastSeen` are low. Only the countdown has a timer: the input's creation announced `false` to it, and it armed its timeout. No handle has been lost, and the state satisfies the device invariant. |
| FilterMachines.Apply | filters-adapter.js:34-46 | Every single event announces at most one value, only an output change, ending at the new output. |
| FilterMachines.Run | filters-adapter.js:34-46 | Any run of events announces only output changes, ending at the final output. |
| FilterMachines.ApplyKeepsInv | filters-adapter.js:89-113 | Every event keeps the invariant of each device class. Countdown: no timer while the input is high, and never an interval. Leading edge: never an interval. Flip-flop: `lastSeen` equals the input and there is never a timer. Square wave: never a timeout, and an armed interval only while the input is high. For every class, no armed handle is ever lost. |
| FilterMachines.RunKeepsInv | filters-adapter.js:89-113 | Every run of events keeps the device invariant, so the lost-handle count stays zero. |
| FilterMachines.StoppedKeepsInv | filters-adapter.js:81-83 | Stopping the timer on unload keeps the device invariant. |
| FilterMachines.FlipFlopCountsRisingEdges | filters-adapter.js:172-180 | After any sequence of input writes, the flip-flop's output is its initial output toggled once per rising edge, that is, XOR with whether the number of edges is odd. The timer is never touched. |
| FilterMachines.LeadingEdgePulseNotRestarted | filters-adapter.js:150-158 | While a pulse is pending, no sequence of input writes restarts or cancels it. |
| FilterMachines.LeadingEdgePulse | filters-adapter.js:150-158 | A rising edge raises the output and arms a pulse of `time` seconds. Later input writes leave the pulse alone, and its fire lowers the output. |
| FilterMachines.SquareWaveToggles | filters-adapter.js:222-224 | With the interval armed, `n` fires toggle the output `n` times and leave the interval armed. |
| FilterMachines.SquareWaveOscillates | filters-adapter.js:193-216 | After a rising input and `n` fires, the output is high exactly when `n` is even, and the interval is still armed with the current `time`. |
| FilterMachines.SquareWaveStops | filters-adapter.js:204-216 | A falling input lowers the output and stops the interval, and no later fire changes anything. |
| FilterMachines.StoppedTicksAreSilent | filters-adapter.js:99-104 | Once the timer is stopped, fires deliver nothing: the state stays as it is and nothing is announced. |
| FilterMachines.CountdownOffDelay | filters-adapter.js:126-137 | Off-delay: when the input drops, the output keeps its value and a timeout is armed. Its fire lowers the output and clears the timer. A rise before the fire cancels the timeout and keeps the output high. |
| FiltersAddon.DeviceId | filters-adapter.js:256 | The id is `filters-device-` followed by the configured name, unchanged. |
| FiltersAddon.DeviceIdInjective | filters-adapter.js:256 | Two names give the same id iff they are equal. |
| FiltersAddon.KindOf | filters-adapter.js:257-273 | A type string selects a device class exactly when it is that class's own type string. Any other string selects none. |
| FiltersAddon.KindOfTypeName | filters-adapter.js:257-269 | Each class's type string selects that class. |
| FiltersAddon.FilterDevice.constructor | filters-adapter.js:51-79 | The constructor creates the three properties. The device ends in the initial state of its class, having announced only the output's initial `false`, and it is valid. |
| FiltersAddon.FilterDevice.SetOutput | filters-adapter.js:34-46 | Stores the output. It appends the new value to the notification log exactly when the value changed, and keeps the log valid. |
| FiltersAddon.FilterDevice.SetTime | filters-adapter.js:34-46 | Stores `time` and keeps the device valid. |
| FiltersAddon.FilterDevice.SetInput | filters-adapter.js:34-46 | Stores the input and reacts only if it changed. The new state and the announcements are those of the pure input write, and the device stays valid. |
| FiltersAddon.FilterDevice.StartTimer | filters-adapter.js:89-94 | Stops the pending timer, then arms the class's kind of timer with the current `time`. |
| FiltersAddon.FilterDevice.StopTimer | filters-adapter.js:99-104 | Clears the handle if one is set, and otherwise changes nothing. |
| FiltersAddon.FilterDevice.NotifyInputChanged | filters-adapter.js:116-216 | Runs the class's reaction to the new input level step by step. The result matches the pure reaction, in state and in announcements. |
| FiltersAddon.FilterDevice.TimeoutHandler | filters-adapter.js:110-113 | On a valid device with an armed timer, runs the fire (with the square wave's override, line 222-224). The device stays valid. |
| FiltersAddon.FilterDevice.Unload | filters-adapter.js:81-83 | Stops the timer. Nothing else changes, and validity is kept. |
| FiltersAddon.FiltersAdapter.constructor | filters-adapter.js:228-240 | Starts with an empty device table and no events. |
| FiltersAddon.FiltersAdapter.AddDevice | filters-adapter.js:286-295 | An id already in the table is refused, and nothing changes. Otherwise exactly that device is added under its id, and the gateway is told. |
| FiltersAddon.FiltersAdapter.AddDeviceFromConfig | filters-adapter.js:254-275 | An unknown type adds nothing and fails. A duplicate id fails with the table and the event log unchanged. Otherwise a fresh device of the chosen class, in its initial state, is added under `filters-device-` + name. |
| FiltersAddon.FiltersAdapter.RemoveDevice | filters-adapter.js:305-315 | An unknown id is refused, and nothing changes. Otherwise exactly that id leaves the table, and the gateway is told. |
| FiltersAddon.FiltersAdapter.Unload | filters-adapter.js:246-252 | Afterwards every device in the table has no timer. Nothing else about the devices changes, and all stay valid. |
| FiltersAddon.FiltersAdapter.UnloadEach | filters-adapter.js:248-250 | The loop calls each device's `unload` once. At the end every timer is cleared and every other field is unchanged. |
| CountdownIds.Sanitize | countdown-timer-adapter.js:113 | The sanitised name is never longer than the name. It contains no whitespace (JavaScript's `\s`) and no `%`. |
| CountdownIds.SanitizeKeepsClean | countdown-timer-adapter.js:113 | A name with no whitespace and no `%` is left unchanged. |
| CountdownIds.SanitizeIdempotent | countdown-timer-adapter.js:113 | Sanitising twice equals sanitising once. |
| CountdownIds.SanitizeRun | countdown-timer-adapter.js:113 | A whole run of whitespace becomes a single `-`. |
| CountdownIds.SanitizeConcat | countdown-timer-adapter.js:113 | Sanitising a concatenation is the concatenation of the sanitised parts, whenever the boundary does not split a run of whitespace. |
| CountdownIds.SanitizeKeepsOthers | countdown-timer-adapter.js:113 | Every character other than whitespace, `%` and `-` survives, in order. |
| CountdownIds.DeviceId | countdown-timer-adapter.js:113 | The id is `countdown-timer-device-` followed by a part no longer than the name, with no whitespace and no `%`. |
| CountdownIds.SeparatorCollapses | countdown-timer-adapter.js:113 | Between any two characters that are neither whitespace nor `%`, a single `%` and a whole run of whitespace both become one `-`. |
| CountdownIds.DistinctNamesCollide | countdown-timer-adapter.js:113 | `a b`, `a%b` and `a \t b` all get the id `countdown-timer-device-a-b`, so the second one added is refused. |
| CountdownAddon.OutputWrite | countdown-timer-adapter.js:34-46 | Writing the output stores it and changes nothing else. It announces nothing exactly when the output already had that value, and otherwise announces it once. |
| CountdownAddon.TimeWrite | countdown-timer-adapter.js:34-46 | Writing `time` stores it, changes nothing else and announces nothing about the output. An armed timeout is left as it is. |
| CountdownAddon.InputChanged | countdown-timer-adapter.js:69-85 | A high input clears the pending timeout and raises the output. A low input arms a timeout of `time` seconds without clearing the old handle: if one was armed it is counted as lost. The output is unchanged and nothing is announced. |
| CountdownAddon.InputWrite | countdown-timer-adapter.js:34-46 | Writing the stored level does nothing. Any other level is stored and the device reacts: the result is exactly `InputChanged` on the state with the new level. |
| CountdownAddon.TimerFired | countdown-timer-adapter.js:90-93 | The fire lowers the output and clears the handle. |
| CountdownAddon.Created | countdown-timer-adapter.js:50-63 | After construction, `time` and `input` are as described. The output is high if either the described output or the input is. A timeout is armed exactly when the input is low. The first announcement is the described output, the log reports only changes, and the invariant holds. |
| CountdownAddon.Apply | countdown-timer-adapter.js:34-46 | Every single event announces at most one value, and only an output change. |
| CountdownAddon.Run | countdown-timer-adapter.js:34-46 | Every run of events announces only output changes. |
| CountdownAddon.ApplyKeepsInv | countdown-timer-adapter.js:69-93 | Every event keeps the invariant: at most one timeout, none while the input is high, no lost handle. |
| CountdownAddon.RunKeepsInv | countdown-timer-adapter.js:79-83 | Every run keeps the invariant. So the overwrite of the handle on a low input never loses an armed timeout. |
| CountdownAddon.ApplyMatchesFilterCountdown | countdown-timer-adapter.js:69-93 | From a reachable state, an event moves this device as it moves the filters add-on's countdown device, with the same announcements. |
| CountdownAddon.RunMatchesFilterCountdown | countdown-timer-adapter.js:69-93 | From a reachable state, every run of events leaves both countdown devices in the same state, having announced the same values. |
| CountdownAddon.CreatedMatchesFilterCountdown | countdown-timer-adapter.js:111-143 | A device added from a configuration starts in the filters countdown's initial state and has announced only `false`. |
| CountdownAddon.CountdownTimerDevice.constructor | countdown-timer-adapter.js:50-63 | Creates `time`, `output` and `input` in order, and reacts to the input's creation. The state and the log are those of `Created`, and the device is valid. |
| CountdownAddon.CountdownTimerDevice.SetOutput | countdown-timer-adapter.js:34-46 | Stores the output. It appends to the log exactly when the value changed, and keeps the log valid. |
| CountdownAddon.CountdownTimerDevice.SetTime | countdown-timer-adapter.js:34-46 | Stores `time` and keeps the device valid. |
| CountdownAddon.CountdownTimerDevice.SetInput | countdown-timer-adapter.js:34-46 | Stores the input and reacts only if it changed. The result matches `InputWrite`, and the device stays valid. |
| CountdownAddon.CountdownTimerDevice.NotifyInputChanged | countdown-timer-adapter.js:69-85 | Runs the reaction step by step. The result matches `InputChanged`, including the lost-handle count. |
| CountdownAddon.CountdownTimerDevice.TimeoutHandler | countdown-timer-adapter.js:90-93 | On a valid device with an armed timeout, lowers the output and clears the handle. The device stays valid. |
| CountdownAddon.CountdownTimerAdapter.constructor | countdown-timer-adapter.js:97-109 | Starts with an empty device table. |
| CountdownAddon.CountdownTimerAdapter.AddDevice | countdown-timer-adapter.js:154-164 | An id already in the table is refused, and nothing changes. Otherwise a fresh device built from the description is added under that id, and the gateway is told. |
| CountdownAddon.CountdownTimerAdapter.AddDeviceFromConfig | countdown-timer-adapter.js:111-143 | A duplicate sanitised id fails with nothing changed. Otherwise a device is added under that id with the configured `time`, both switches low and a timeout armed, having announced only `false`. |
| CountdownAddon.CountdownTimerAdapter.RemoveDevice | countdown-timer-adapter.js:174-184 | An unknown id is refused, and nothing changes. Otherwise exactly that id leaves the table, and the gateway is told. |

## Left out

- The `gateway-addon` base classes (`Adapter`, `Device`, `Property`, `Database`) are not part of this model. The base `Property.setValue` is taken to store the value synchronously and to send no notification of its own. `handleDeviceAdded` and `handleDeviceRemoved` are a map update plus an entry in a ghost event log.
- Configuration loading from the database and the `Promise.all` chain are left out because they are I/O. `addDeviceFromConfig` is modelled for one configuration entry at a time.
- Promises are left out: `setValue`, `setProperty`, `addDevice` and `removeDevice` are synchronous calls with an `Ok` or `Err` outcome, and a notification happens at once rather than in a later microtask.
- Real time is left out: no clock, no `setTimeout`/`setInterval` scheduling, and no conversion of seconds to milliseconds. A fire is an explicit event, and a fire with no armed timer delivers nothing.
- The square wave has no zero-period guard, because the source has none. A `time` of zero is modelled like any other period.
- FiltersAddon.FiltersAdapter.AddDeviceFromConfig: the device is built before `addDevice` checks the id, so a refused duplicate still runs the constructor. In the source that constructor reports the new properties to the gateway under the id already taken, and a countdown arms a timeout that nothing will clear, because the device never enters the table `unload` walks. The model builds the device and discards it, but does not state these side effects. The stand-alone add-on checks the id before it builds the device.
- FiltersAddon.FiltersAdapter.AddDeviceFromConfig: an unknown `type` is an `UnknownType` error outcome with no device added. The source's `return new Promise()` without an executor throws, and the exact JavaScript failure is not modelled.
- The model follows the code, including where it lacks safeguards a reader might expect:
  - `removeDevice` does not dispose of the device. Its timer keeps running after removal, and the model does not stop it either.
  - A square wave with a zero or negative period is not rejected at construction.
  - The stand-alone add-on's ids can collide for different names (`CountdownIds.DistinctNamesCollide`). The collision surfaces only as the `AlreadyExists` refusal of the second device.
- Logging and `removeThing` are left out because they only log.
- Device metadata (`@type`, `label`, `unit`, `description`, `type`) is left out. So are the gateway notifications about `time` and `input`; only the output's notifications are logged.
- CountdownAddon.CountdownTimerDevice.constructor: the constructor's loop over an arbitrary property table is modelled as the one table `addDeviceFromConfig` builds: `time`, `output` and `input`, in that order, with given initial values (`Description`). A table without `time`, or in another order, is not modelled.
- Whitespace is the fixed list of code points JavaScript's `\s` matches, on `char` values. UTF-16 surrogate pairs are not modelled, and none of them is whitespace.
- The four JavaScript device subclasses are one Dafny class, whose constant `kind` selects the overridden `notifyPropertyChanged`, `startTimer` and `timeoutHandler`.
