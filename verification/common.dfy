/** The single timer slot each device keeps. */
module Timers {

  /** A device's timer handle: `NoTimer` is the `null` a device starts with and
      returns to after `stopTimer` or a one-shot fire; an armed handle records
      the period (seconds, read from the `time` property when it was armed) and
      whether it came from `setTimeout` or `setInterval`. */
  datatype Timer = NoTimer | Timeout(seconds: int) | Interval(seconds: int)
}

/** The change rule of the add-ons' property wrapper (`setValue`) and what it
    means for the stream of notifications the gateway receives. */
module Notifications {

  /** Notifications a boolean property holding `current` sends when it is set
      to `value`: one carrying the new value when it differs, none otherwise. */
  function Announce(current: bool, value: bool): (sent: seq<bool>)
    ensures sent == [] <==> current == value
    ensures |sent| <= 1
    ensures ChangesOnly(current, sent) && Final(current, sent) == value
  {
    if current == value then [] else [value]
  }

  /** Every entry of `sent` differs from the one before it, the first from `start`:
      a listener that knew `start` is told only of real changes. */
  predicate ChangesOnly(start: bool, sent: seq<bool>)
  {
    && (sent != [] ==> sent[0] != start)
    && forall i :: 0 < i < |sent| ==> sent[i] != sent[i - 1]
  }

  /** The value a listener that knew `start` believes in after `sent`. */
  function Final(start: bool, sent: seq<bool>): bool
  {
    if sent == [] then start else sent[|sent| - 1]
  }

  /** A whole log of announcements (the first one is the initial value the
      property announces when it is created) that reports only changes and
      ends with the property's current value. */
  ghost predicate Reports(log: seq<bool>, value: bool)
  {
    log != [] && ChangesOnly(log[0], log[1..]) && Final(log[0], log[1..]) == value
  }

  /** Announcements made back to back report only changes as a whole. */
  lemma {:induction false} ChangesOnlyConcat(start: bool, a: seq<bool>, b: seq<bool>)
    requires ChangesOnly(start, a) && ChangesOnly(Final(start, a), b)
    ensures ChangesOnly(start, a + b) && Final(start, a + b) == Final(Final(start, a), b)
  {
    if a != [] && b != [] {
      assert (a + b)[|a|] == b[0] && (a + b)[|a| - 1] == a[|a| - 1];
    }
    forall i | 0 < i < |a + b|
      ensures (a + b)[i] != (a + b)[i - 1]
    {
      if i < |a| {
        assert (a + b)[i] == a[i] && (a + b)[i - 1] == a[i - 1];
      } else if i > |a| {
        assert (a + b)[i] == b[i - |a|] && (a + b)[i - 1] == b[i - 1 - |a|];
      }
    }
  }

  /** Appending change-only announcements to a log that reports `value` gives a
      log that reports the last announced value. */
  lemma {:induction false} ReportsExtend(log: seq<bool>, value: bool, sent: seq<bool>)
    requires Reports(log, value) && ChangesOnly(value, sent)
    ensures Reports(log + sent, Final(value, sent))
  {
    assert (log + sent)[1..] == log[1..] + sent;
    ChangesOnlyConcat(log[0], log[1..], sent);
  }
}

/** What the adapters report back and what they tell the gateway. */
module Registry {

  /** Why `addDevice`, `removeDevice` or `addDeviceFromConfig` refused. */
  datatype Failure = AlreadyExists(id: string) | NotFound(id: string) | UnknownType(typeName: string)

  /** A settled promise: resolved, or rejected with its reason. */
  datatype Outcome = Ok | Err(failure: Failure)

  /** `handleDeviceAdded` / `handleDeviceRemoved` as seen by the gateway. */
  datatype DeviceEvent = Added(id: string) | Removed(id: string)
}
