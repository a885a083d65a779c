/**
 * The trigger worker of Experiment/arduinoHandler.py: it connects to the serial
 * trigger device, reports the connection, then polls.  While it is awaiting a
 * trigger it reads one measurement per pass and latches on code 634 or 635,
 * putting the measurement's timestamp on the return queue; once latched it reads
 * nothing until more than 0.1 s have passed since that timestamp, and then
 * awaits again.  "STOP" on the input queue ends the loop.
 *
 * One pass of the loop sees a `Tick`: the item taken from the input queue (None
 * when the queue is empty), what the device's `read_voltage` would return if it
 * were called, and the clock.  Times are seconds as reals.
 */
module TriggerWorker {
  import opened Options
  import opened SerialPorts

  /** The codes the device sends at the first and the last sample of a trigger. */
  const TriggerCodes: seq<int> := [634, 635]

  /** The lockout after a latched trigger, in seconds. */
  const Lockout: real := 0.1

  /** Constructor defaults of the worker. */
  const HandlerDeviceName: string := "Arduino"
  const HandlerBaudrate: int := 9600

  /** A measurement read from the device: the number read and its timestamp. */
  datatype Measurement = Measurement(number: int, timestamp: Option<real>)

  /** What one pass of the loop sees. */
  datatype Tick = Tick(signal: Option<string>, measurement: Option<Measurement>, now: real)

  /** An item put on the return queue: the connection report, or a trigger time. */
  datatype Reply = ConnectedReply(ok: bool) | TriggerTime(time: real)

  /** The latch: the loop's `get_trigger` flag and the field `trigger_time`. */
  datatype Latch = Latch(getTrigger: bool, triggerTime: Option<real>)

  /** The latch as `run` starts it. */
  const Awaiting: Latch := Latch(true, None)

  /** The flag and the stored time agree: awaiting exactly when no time is held. */
  predicate Consistent(l: Latch)
  {
    l.getTrigger <==> l.triggerTime.None?
  }

  /** Python truthiness of `trigger_time`: None and 0.0 are false. */
  predicate TimeSet(t: Option<real>)
  {
    t.Some? && t.value != 0.0
  }

  /** Whether a measurement is a trigger: a code 634 or 635 with a timestamp. */
  predicate IsTrigger(m: Option<Measurement>)
  {
    m.Some? && m.value.timestamp.Some? && m.value.number in TriggerCodes
  }

  /** The effect of one pass: the new latch, what was put on the return queue,
      whether a measurement was read, whether the loop ends, and whether the
      latch was released. */
  datatype TickEffect = TickEffect(latch: Latch, emitted: seq<Reply>, read: bool, stop: bool, unlocked: bool)

  /** One pass of the loop of `run`. */
  function LatchStep(l: Latch, t: Tick): (e: TickEffect)
    // "STOP" is looked at first and ends the loop before anything is read
    ensures e.stop <==> t.signal == Some("STOP")
    ensures e.stop ==> e.latch == l && e.emitted == [] && !e.read && !e.unlocked
    // a measurement is read exactly on a pass that is awaiting a trigger
    ensures e.read <==> !e.stop && l.getTrigger
    // a trigger is emitted exactly when an awaiting pass reads one; it is the
    // measurement's own timestamp, and the latch then holds it
    ensures e.emitted != [] <==> e.read && IsTrigger(t.measurement)
    ensures e.emitted != [] ==>
              var stamp := t.measurement.value.timestamp.value;
              e.emitted == [TriggerTime(stamp)] && e.latch == Latch(false, Some(stamp))
    // an awaiting pass without a trigger changes nothing
    ensures e.read && !IsTrigger(t.measurement) ==> e.latch == l && e.emitted == []
    // a locked pass unlocks exactly once more than the lockout has passed
    ensures e.unlocked <==> !e.stop && !l.getTrigger && TimeSet(l.triggerTime) && t.now - l.triggerTime.value > Lockout
    ensures e.unlocked ==> e.latch == Awaiting && e.emitted == []
    ensures !e.stop && !l.getTrigger && !e.unlocked ==> e.latch == l && e.emitted == []
    ensures Consistent(l) ==> Consistent(e.latch)
  {
    if t.signal == Some("STOP") then
      TickEffect(l, [], false, true, false)
    else if l.getTrigger then
      if IsTrigger(t.measurement) then
        var stamp := t.measurement.value.timestamp.value;
        TickEffect(Latch(false, Some(stamp)), [TriggerTime(stamp)], true, false, false)
      else
        TickEffect(l, [], true, false, false)
    else if TimeSet(l.triggerTime) && t.now - l.triggerTime.value > Lockout then
      TickEffect(Awaiting, [], false, false, true)
    else
      TickEffect(l, [], false, false, false)
  }

  /** An empty input queue and an item other than "STOP" have the same effect:
      neither blocks the loop nor changes anything. */
  lemma EmptyQueueIsHarmless(l: Latch, t: Tick, item: string)
    requires item != "STOP"
    ensures LatchStep(l, t.(signal := None)) == LatchStep(l, t.(signal := Some(item)))
    ensures !LatchStep(l, t.(signal := None)).stop
  {
  }

  /** The effect of the loop over a sequence of passes, up to "STOP". */
  datatype RunEffect = RunEffect(latch: Latch, emitted: seq<Reply>, readCount: nat, unlocks: nat, stopped: bool, consumed: nat)

  function LatchRun(l: Latch, ticks: seq<Tick>): (r: RunEffect)
    ensures r.consumed <= |ticks|
    ensures !r.stopped ==> r.consumed == |ticks|
    decreases |ticks|
  {
    if ticks == [] then RunEffect(l, [], 0, 0, false, 0)
    else
      var e := LatchStep(l, ticks[0]);
      if e.stop then RunEffect(l, [], 0, 0, true, 1)
      else
        var r := LatchRun(e.latch, ticks[1..]);
        RunEffect(r.latch, e.emitted + r.emitted, (if e.read then 1 else 0) + r.readCount,
                  (if e.unlocked then 1 else 0) + r.unlocks, r.stopped, 1 + r.consumed)
  }

  /** Only "STOP" stops the run, and the first one does: the run stops
      exactly when a pass carries "STOP", on that pass, after every pass
      before it. */
  lemma {:induction false} LatchRunStops(l: Latch, ticks: seq<Tick>)
    ensures var r := LatchRun(l, ticks);
            (r.stopped <==> exists j :: 0 <= j < |ticks| && ticks[j].signal == Some("STOP"))
            && (r.stopped ==>
                  ticks[r.consumed - 1].signal == Some("STOP")
                  && forall j :: 0 <= j < r.consumed - 1 ==> ticks[j].signal != Some("STOP"))
    decreases |ticks|
  {
    if ticks != [] {
      var e := LatchStep(l, ticks[0]);
      if !e.stop {
        LatchRunStops(e.latch, ticks[1..]);
        assert forall j :: 1 <= j < |ticks| ==> ticks[j] == ticks[1..][j - 1];
      }
    }
  }

  /** 1 when the latch is awaiting a trigger. */
  function Open(l: Latch): nat
  {
    if l.getTrigger then 1 else 0
  }

  /** Latches and releases alternate: every emitted trigger closes the latch and
      every release opens it, so the emitted triggers and the releases differ by
      at most one.  In particular, between two emitted trigger times the latch
      is always released once, and a single latch yields a single time. */
  lemma {:induction false} TriggersAlternateWithUnlocks(l: Latch, ticks: seq<Tick>)
    ensures var r := LatchRun(l, ticks); |r.emitted| + Open(r.latch) == r.unlocks + Open(l)
    decreases |ticks|
  {
    if ticks != [] {
      var e := LatchStep(l, ticks[0]);
      if !e.stop {
        TriggersAlternateWithUnlocks(e.latch, ticks[1..]);
      }
    }
  }

  /** `x` is the trigger time of one of the measurements in `ticks`. */
  ghost predicate FromReading(ticks: seq<Tick>, x: Reply)
  {
    exists i :: 0 <= i < |ticks| && IsTrigger(ticks[i].measurement)
                && x == TriggerTime(ticks[i].measurement.value.timestamp.value)
  }

  /** Every item the loop puts on the return queue is the timestamp of a
      trigger measurement that it read, and it never puts more than it reads. */
  lemma {:induction false} EmittedAreReadTimestamps(l: Latch, ticks: seq<Tick>)
    ensures |LatchRun(l, ticks).emitted| <= LatchRun(l, ticks).readCount
    ensures forall x :: x in LatchRun(l, ticks).emitted ==> FromReading(ticks, x)
    decreases |ticks|
  {
    if ticks != [] {
      var e := LatchStep(l, ticks[0]);
      if !e.stop {
        EmittedAreReadTimestamps(e.latch, ticks[1..]);
        var r := LatchRun(e.latch, ticks[1..]);
        forall x | x in e.emitted + r.emitted
          ensures FromReading(ticks, x)
        {
          if x in e.emitted {
            assert IsTrigger(ticks[0].measurement);
            assert x == TriggerTime(ticks[0].measurement.value.timestamp.value);
          } else {
            assert FromReading(ticks[1..], x);
            var i :| 0 <= i < |ticks[1..]| && IsTrigger(ticks[1..][i].measurement)
                     && x == TriggerTime(ticks[1..][i].measurement.value.timestamp.value);
            assert ticks[1..][i] == ticks[i + 1];
          }
        }
      }
    }
  }

  /** A "STOP" ends the loop: nothing after it is processed. */
  lemma {:induction false} StopIsFinal(l: Latch, pre: seq<Tick>, stop: Tick, post: seq<Tick>)
    requires stop.signal == Some("STOP")
    ensures LatchRun(l, pre + [stop] + post) == LatchRun(l, pre + [stop])
    ensures LatchRun(l, pre + [stop]).stopped
    decreases |pre|
  {
    var whole := pre + [stop] + post;
    var cut := pre + [stop];
    if pre == [] {
      assert whole[0] == stop && cut[0] == stop;
    } else {
      assert whole[0] == pre[0] && cut[0] == pre[0];
      assert whole[1..] == pre[1..] + [stop] + post;
      assert cut[1..] == pre[1..] + [stop];
      var e := LatchStep(l, pre[0]);
      if !e.stop {
        StopIsFinal(e.latch, pre[1..], stop, post);
      }
    }
  }

  /** A pass that reads the code `code` stamped `time`, with the clock at `time`. */
  function Sample(code: int, time: real): Tick
  {
    Tick(None, Some(Measurement(code, Some(time))), time)
  }

  /** A code stream 0, 0, 634, 634, 634, 0, 0, 635, 0 sampled every 50 ms:
      the repeated 634s fall inside the lockout (at 100 ms exactly the latch is
      still held) and the stream yields exactly two trigger times, one per run
      of trigger codes. */
  lemma TwoRunsTwoTriggers()
    ensures LatchRun(Awaiting, [Sample(0, 1.0), Sample(0, 1.05), Sample(634, 1.1), Sample(634, 1.15),
                                Sample(634, 1.2), Sample(0, 1.25), Sample(0, 1.3), Sample(635, 1.35),
                                Sample(0, 1.4)]).emitted
            == [TriggerTime(1.1), TriggerTime(1.35)]
  {
    var ticks := [Sample(0, 1.0), Sample(0, 1.05), Sample(634, 1.1), Sample(634, 1.15),
                  Sample(634, 1.2), Sample(0, 1.25), Sample(0, 1.3), Sample(635, 1.35),
                  Sample(0, 1.4)];
    var first, second := Latch(false, Some(1.1)), Latch(false, Some(1.35));
    assert ticks[9..] == [];
    UnrollPass(second, ticks, 8);
    assert LatchStep(second, ticks[8]).latch == second;
    assert LatchRun(second, ticks[8..]).emitted == [];
    UnrollPass(Awaiting, ticks, 7);
    assert LatchStep(Awaiting, ticks[7]).latch == second;
    assert LatchRun(Awaiting, ticks[7..]).emitted == [TriggerTime(1.35)];
    UnrollPass(Awaiting, ticks, 6);
    assert LatchStep(Awaiting, ticks[6]).latch == Awaiting;
    assert LatchRun(Awaiting, ticks[6..]).emitted == [TriggerTime(1.35)];
    UnrollPass(first, ticks, 5);
    assert LatchStep(first, ticks[5]).latch == Awaiting;
    assert LatchRun(first, ticks[5..]).emitted == [TriggerTime(1.35)];
    UnrollPass(first, ticks, 4);
    assert LatchStep(first, ticks[4]).latch == first;
    assert LatchRun(first, ticks[4..]).emitted == [TriggerTime(1.35)];
    UnrollPass(first, ticks, 3);
    assert LatchStep(first, ticks[3]).latch == first;
    assert LatchRun(first, ticks[3..]).emitted == [TriggerTime(1.35)];
    UnrollPass(Awaiting, ticks, 2);
    assert LatchStep(Awaiting, ticks[2]).latch == first;
    assert LatchRun(Awaiting, ticks[2..]).emitted == [TriggerTime(1.1), TriggerTime(1.35)];
    UnrollPass(Awaiting, ticks, 1);
    assert LatchStep(Awaiting, ticks[1]).latch == Awaiting;
    UnrollPass(Awaiting, ticks, 0);
    assert LatchStep(Awaiting, ticks[0]).latch == Awaiting;
    assert ticks[0..] == ticks;
  }

  /** One pass of a run over a suffix of the ticks, unfolded. */
  lemma UnrollPass(l: Latch, ticks: seq<Tick>, k: nat)
    requires k < |ticks| && ticks[k].signal != Some("STOP")
    ensures var e := LatchStep(l, ticks[k]);
            LatchRun(l, ticks[k..]).emitted == e.emitted + LatchRun(e.latch, ticks[k + 1..]).emitted
  {
    assert ticks[k..][0] == ticks[k] && ticks[k..][1..] == ticks[k + 1..];
  }

  /** The worker.  Constructing it connects to the device, reports the
      connection and runs the polling loop. */
  class ArduinoHandler {
    const arduino: ArduinoConnect
    var triggerTime: Option<real>
    var returnQueue: seq<Reply>

    constructor (comports: seq<Port>, ticks: seq<Tick>,
                 deviceName: string := HandlerDeviceName, baudrate: int := HandlerBaudrate)
      ensures fresh(arduino) && arduino.deviceName == deviceName && arduino.baudrate == baudrate
      ensures var connected := Truthy(LastMatch(comports, deviceName, None));
              var r := LatchRun(Awaiting, ticks);
              returnQueue == [ConnectedReply(connected)] + r.emitted
              && triggerTime == r.latch.triggerTime
              && arduino.released == r.stopped
    {
      triggerTime := None;
      returnQueue := [];
      arduino := new ArduinoConnect(deviceName, baudrate);
      new;
      var connected := arduino.Connect(comports);
      if connected.Opened? {
        returnQueue := returnQueue + [ConnectedReply(true)];
      } else {
        returnQueue := returnQueue + [ConnectedReply(false)];
      }
      var stopped, consumed := Run(ticks);
    }

    /** The polling loop: one pass per tick until "STOP" or the end of the
        ticks. */
    method Run(ticks: seq<Tick>) returns (stopped: bool, consumed: nat)
      modifies this, arduino`released
      ensures var r := LatchRun(Latch(true, old(triggerTime)), ticks);
              triggerTime == r.latch.triggerTime && returnQueue == old(returnQueue) + r.emitted
              && stopped == r.stopped && consumed == r.consumed
              && arduino.released == (old(arduino.released) || r.stopped)
    {
      var getTrigger := true;
      ghost var t := LatchRun(Latch(getTrigger, triggerTime), ticks);
      consumed := 0;
      stopped := false;
      while !stopped && consumed < |ticks|
        invariant consumed <= |ticks|
        invariant !stopped ==>
                    var rest := LatchRun(Latch(getTrigger, triggerTime), ticks[consumed..]);
                    returnQueue + rest.emitted == old(returnQueue) + t.emitted
                    && rest.latch == t.latch && rest.stopped == t.stopped
                    && consumed + rest.consumed == t.consumed
                    && arduino.released == old(arduino.released)
        invariant stopped ==>
                    triggerTime == t.latch.triggerTime && returnQueue == old(returnQueue) + t.emitted
                    && t.stopped && consumed == t.consumed && arduino.released
        decreases |ticks| - consumed
      {
        ghost var before := ticks[consumed..];
        assert before[0] == ticks[consumed] && before[1..] == ticks[consumed + 1..];
        var tick := ticks[consumed];
        consumed := consumed + 1;
        if tick.signal == Some("STOP") {
          arduino.Quit();
          stopped := true;
        } else if getTrigger {
          var measurement := tick.measurement;
          if IsTrigger(measurement) {
            triggerTime := measurement.value.timestamp;
            getTrigger := false;
            returnQueue := returnQueue + [TriggerTime(triggerTime.value)];
          }
        } else if TimeSet(triggerTime) && tick.now - triggerTime.value > Lockout {
          getTrigger := true;
          triggerTime := None;
        }
      }
    }
  }
}
