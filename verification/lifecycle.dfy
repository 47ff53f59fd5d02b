/**
 * The per-device stage sequence shared by the three pad-flasher variants
 * (pad-flasher/src/c/main.c, pad-flasher/src/cpp/main.cpp and
 * pad-flasher/src/python/main.py): connect, recovery when the device asks
 * for it, flash, checksum validation when the device asks for it, and close.
 * A run is recorded as the trace of stages it performed.
 */
module Lifecycle {
  import opened Wrappers

  /** The programming interfaces a device can be reached through. */
  datatype Interface = Uart | Jtag | Swd

  /** The interface an `-i` argument names. */
  function InterfaceNamed(name: string): (r: Option<Interface>)
    ensures r.Some? <==> name in {"uart", "jtag", "swd"}
  {
    if name == "uart" then Some(Uart)
    else if name == "jtag" then Some(Jtag)
    else if name == "swd" then Some(Swd)
    else None
  }

  datatype Stage = Init | Recovery | Flash | Validate | Close

  /** Stage `stage` was performed on the device at index `device`. */
  datatype Event = Event(device: nat, stage: Stage)

  /**
   * What one device's run depends on: the results of connecting, flashing
   * and validating, and the device's own recovery and validation flags.
   */
  datatype Attempt = Attempt(initOk: bool, recovery: bool, flashOk: bool, validate: bool, checksumOk: bool)

  /** Position of a stage in the per-device order. */
  function Rank(s: Stage): nat {
    match s
      case Init => 0
      case Recovery => 1
      case Flash => 2
      case Validate => 3
      case Close => 4
  }

  /**
   * The stages the device at index `i` goes through. A failed connection
   * ends the run with nothing to close; otherwise the connection is closed
   * exactly once, after flashing fails, after validation fails, or at the end.
   * Recovery and validation do nothing unless the device's flag is set.
   */
  function DeviceTrace(i: nat, a: Attempt): seq<Event> {
    if !a.initOk then [Event(i, Init)]
    else
      [Event(i, Init)]
      + (if a.recovery then [Event(i, Recovery)] else [])
      + [Event(i, Flash)]
      + (if a.flashOk && a.validate then [Event(i, Validate)] else [])
      + [Event(i, Close)]
  }

  /** The runs of devices `0 .. |attempts|`, one after the other in index order. */
  function BatchTrace(attempts: seq<Attempt>): seq<Event> {
    if attempts == [] then []
    else BatchTrace(attempts[..|attempts| - 1]) + DeviceTrace(|attempts| - 1, attempts[|attempts| - 1])
  }

  /** The number of events in `t` that perform `stage` on device `i`. */
  function Count(t: seq<Event>, i: nat, stage: Stage): nat {
    if t == [] then 0
    else Count(t[..|t| - 1], i, stage) + (if t[|t| - 1] == Event(i, stage) then 1 else 0)
  }

  /** Events are ordered by device index, and by stage within one device. */
  predicate InOrder(t: seq<Event>) {
    forall a, b :: 0 <= a < b < |t| ==>
      t[a].device < t[b].device || (t[a].device == t[b].device && Rank(t[a].stage) < Rank(t[b].stage))
  }

  /** Every event of `t` concerns a device below `n`. */
  predicate DevicesBelow(t: seq<Event>, n: nat) {
    forall k :: 0 <= k < |t| ==> t[k].device < n
  }

  lemma {:induction false} CountAppend(s: seq<Event>, t: seq<Event>, i: nat, stage: Stage)
    ensures Count(s + t, i, stage) == Count(s, i, stage) + Count(t, i, stage)
    decreases |t|
  {
    if t == [] {
      assert s + t == s;
    } else {
      assert (s + t)[..|s + t| - 1] == s + t[..|t| - 1];
      CountAppend(s, t[..|t| - 1], i, stage);
    }
  }

  /** Count of a one-event trace. */
  lemma CountSingle(e: Event, i: nat, stage: Stage)
    ensures Count([e], i, stage) == (if e == Event(i, stage) then 1 else 0)
  {
    assert [e][..0] == [];
  }

  /** One device's run connects once, and closes once exactly when the connection succeeded. */
  lemma DeviceTraceCounts(i: nat, a: Attempt, j: nat)
    ensures Count(DeviceTrace(i, a), j, Init) == (if i == j then 1 else 0)
    ensures Count(DeviceTrace(i, a), j, Close) == (if i == j && a.initOk then 1 else 0)
    ensures Count(DeviceTrace(i, a), j, Flash) == (if i == j && a.initOk then 1 else 0)
  {
    var rec: seq<Event> := if a.recovery then [Event(i, Recovery)] else [];
    var val: seq<Event> := if a.flashOk && a.validate then [Event(i, Validate)] else [];
    forall stage | stage in {Init, Close, Flash}
      ensures Count(DeviceTrace(i, a), j, stage) ==
              (if i == j && (stage == Init || a.initOk) then 1 else 0)
    {
      CountSingle(Event(i, Init), j, stage);
      if a.initOk {
        CountSingle(Event(i, Flash), j, stage);
        CountSingle(Event(i, Close), j, stage);
        CountNone(rec, j, stage);
        CountNone(val, j, stage);
        CountAppend([Event(i, Init)], rec, j, stage);
        CountAppend([Event(i, Init)] + rec, [Event(i, Flash)], j, stage);
        CountAppend([Event(i, Init)] + rec + [Event(i, Flash)], val, j, stage);
        CountAppend([Event(i, Init)] + rec + [Event(i, Flash)] + val, [Event(i, Close)], j, stage);
      }
    }
  }

  /** A trace with no event of `stage` counts zero. */
  lemma CountNone(t: seq<Event>, i: nat, stage: Stage)
    requires |t| <= 1 && (t != [] ==> t[0].stage != stage)
    ensures Count(t, i, stage) == 0
  {
    if t != [] {
      assert t[..0] == [];
    }
  }

  /** A device's run is in stage order, starts with connecting and, after a connection, ends with closing. */
  lemma DeviceTraceShape(i: nat, a: Attempt)
    ensures InOrder(DeviceTrace(i, a)) && DevicesBelow(DeviceTrace(i, a), i + 1)
    ensures DeviceTrace(i, a)[0] == Event(i, Init)
    ensures a.initOk ==> DeviceTrace(i, a)[|DeviceTrace(i, a)| - 1] == Event(i, Close)
    ensures forall k :: 0 <= k < |DeviceTrace(i, a)| ==> DeviceTrace(i, a)[k].device == i
  {
    var t := DeviceTrace(i, a);
    var rec: seq<Event> := if a.recovery then [Event(i, Recovery)] else [];
    var val: seq<Event> := if a.flashOk && a.validate then [Event(i, Validate)] else [];
    if a.initOk {
      assert t == [Event(i, Init)] + rec + [Event(i, Flash)] + val + [Event(i, Close)];
      StagesInOrder(i, [Init] + (if a.recovery then [Recovery] else []) + [Flash]
                       + (if a.flashOk && a.validate then [Validate] else []) + [Close], t);
    }
  }

  /** Events of one device whose stages rise in rank are in order. */
  lemma StagesInOrder(i: nat, stages: seq<Stage>, t: seq<Event>)
    requires |t| == |stages| && forall k :: 0 <= k < |t| ==> t[k] == Event(i, stages[k])
    requires forall k :: 0 <= k < |stages| - 1 ==> Rank(stages[k]) < Rank(stages[k + 1])
    ensures InOrder(t)
  {
    forall a, b | 0 <= a < b < |t| ensures Rank(stages[a]) < Rank(stages[b]) {
      RanksRise(stages, a, b);
    }
  }

  lemma {:induction false} RanksRise(stages: seq<Stage>, a: nat, b: nat)
    requires a < b < |stages|
    requires forall k :: 0 <= k < |stages| - 1 ==> Rank(stages[k]) < Rank(stages[k + 1])
    ensures Rank(stages[a]) < Rank(stages[b])
    decreases b - a
  {
    if a + 1 < b {
      RanksRise(stages, a + 1, b);
    }
  }

  /**
   * The batch visits devices in index order and stages in order within a
   * device; every device is connected once and is closed exactly once if
   * and only if its connection succeeded.
   */
  lemma BatchTraceFacts(attempts: seq<Attempt>, j: nat)
    ensures InOrder(BatchTrace(attempts)) && DevicesBelow(BatchTrace(attempts), |attempts|)
    ensures Count(BatchTrace(attempts), j, Init) == (if j < |attempts| then 1 else 0)
    ensures Count(BatchTrace(attempts), j, Close) == (if j < |attempts| && attempts[j].initOk then 1 else 0)
    ensures Count(BatchTrace(attempts), j, Flash) == (if j < |attempts| && attempts[j].initOk then 1 else 0)
  {
    BatchTraceOrder(attempts);
    BatchTraceCounts(attempts, j);
  }

  /** The batch trace is in order and concerns only the devices of the batch. */
  lemma {:induction false} BatchTraceOrder(attempts: seq<Attempt>)
    ensures InOrder(BatchTrace(attempts)) && DevicesBelow(BatchTrace(attempts), |attempts|)
  {
    if attempts != [] {
      var n := |attempts| - 1;
      var front := attempts[..n];
      BatchTraceOrder(front);
      DeviceTraceShape(n, attempts[n]);
      AppendInOrder(BatchTrace(front), DeviceTrace(n, attempts[n]), n);
    }
  }

  /** Each device of the batch is connected once, and flashed and closed once if it connected. */
  lemma {:induction false} BatchTraceCounts(attempts: seq<Attempt>, j: nat)
    ensures Count(BatchTrace(attempts), j, Init) == (if j < |attempts| then 1 else 0)
    ensures Count(BatchTrace(attempts), j, Close) == (if j < |attempts| && attempts[j].initOk then 1 else 0)
    ensures Count(BatchTrace(attempts), j, Flash) == (if j < |attempts| && attempts[j].initOk then 1 else 0)
  {
    if attempts != [] {
      var n := |attempts| - 1;
      var front := attempts[..n];
      BatchTraceCounts(front, j);
      var s, t := BatchTrace(front), DeviceTrace(n, attempts[n]);
      DeviceTraceCounts(n, attempts[n], j);
      CountAppend(s, t, j, Init);
      CountAppend(s, t, j, Close);
      CountAppend(s, t, j, Flash);
    }
  }

  /** Events of devices below `n` followed by events of device `n` stay in order. */
  lemma AppendInOrder(s: seq<Event>, t: seq<Event>, n: nat)
    requires InOrder(s) && DevicesBelow(s, n) && InOrder(t)
    requires forall k :: 0 <= k < |t| ==> t[k].device == n
    ensures InOrder(s + t) && DevicesBelow(s + t, n + 1)
  {
    var u := s + t;
    forall a, b | 0 <= a < b < |u|
      ensures u[a].device < u[b].device || (u[a].device == u[b].device && Rank(u[a].stage) < Rank(u[b].stage))
    {
      if b < |s| {
        assert u[a] == s[a] && u[b] == s[b];
      } else if a >= |s| {
        assert u[a] == t[a - |s|] && u[b] == t[b - |s|];
      } else {
        assert u[a] == s[a] && u[b] == t[b - |s|];
      }
    }
  }

  /** Appending one more device's run to a recorded trace. */
  lemma ExtendTrace(start: seq<Event>, done: seq<Event>, work: seq<Event>, next: seq<Event>)
    requires next == done + work
    ensures start + done + work == start + next
  {
  }
}
