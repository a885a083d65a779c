/**
 * The stimulus worker of Experiment/GVSHandler.py: a process that owns the
 * analog-output device, reads items from its parameter queue one at a time and
 * reports on a status queue.  An ndarray arms a stimulus, `True` sends the armed
 * stimulus once, the string "STOP" closes the device and ends the loop, and
 * anything else is rejected.
 *
 * The queues are sequences: the parameter queue is the sequence of items the
 * loop would receive, the status queue the sequence of single-key messages it
 * has put.  The GVS device class is not part of this model; `Gvs` below stands
 * in for it and answers as its `Hardware` value says.
 */
module GvsWorker {
  import opened Options
  import opened GvsSignal

  /** Output channels and sampling rate the worker connects with. */
  const PhysicalChannelName: seq<string> := ["cDAQ1Mod1/ao0", "cDAQ1Mod1/ao1"]
  const SamplingFreq: real := 1000.0

  /** The keys of the status messages. */
  const ConnectedKey: string := "connected"
  const StimCreatedKey: string := "stim_created"
  const StimSentKey: string := "stim_sent"
  const QuitKey: string := "quit"

  /** A status message: a dictionary with a single key. */
  datatype Status = Status(key: string, value: bool)

  /** How the device answers: whether `connect` and `quit` succeed, and what
      `write_to_channel` reports for a stimulus, None when it raises an
      AttributeError. */
  datatype Hardware = Hardware(connects: bool, quits: bool, report: Rows -> Option<nat>)

  /** The `stimulus` field: `[]` before anything is armed, a stacked array once
      armed, None after a send has returned. */
  datatype Stored = Unset | Armed(rows: Rows) | Cleared

  /** How processing of one item, or of a whole queue, ends: the loop goes on
      waiting for the next item, it left through "STOP", or it died on an
      uncaught exception. */
  datatype Halt = Waiting | Stopped | Crashed

  /** The effect of one item: the new `stimulus`, the status messages put, the
      stimuli the device reported as written, and whether the loop ends. */
  datatype Effect = Effect(stored: Stored, posted: seq<Status>, wrote: seq<Rows>, halt: Halt)

  /** The effect of a run over a queue, with the number of items taken from it. */
  datatype RunEffect = RunEffect(stored: Stored, posted: seq<Status>, wrote: seq<Rows>, halt: Halt, consumed: nat)

  /** `_send_stimulus`: the device is asked to write whatever is stored; only a
      write that returns clears the stimulus, and the verdict is posted either
      way. */
  function SendEffect(st: Stored, hw: Hardware): (e: Effect)
    ensures e.halt == Waiting && |e.posted| == 1 && e.posted[0].key == StimSentKey
    ensures e.posted[0].value <==> st.Armed? && SentOk(st.rows, hw.report(st.rows))
    ensures e.wrote != [] <==> st.Armed? && hw.report(st.rows).Some?
    ensures e.wrote != [] ==> e.wrote == [st.rows] && e.stored == Cleared
    ensures e.wrote == [] ==> e.stored == st
  {
    match st
    case Armed(rows) =>
      (match hw.report(rows)
       case Some(k) => Effect(Cleared, [Status(StimSentKey, SentOk(rows, Some(k)))], [rows], Waiting)
       case None => Effect(st, [Status(StimSentKey, false)], [], Waiting))
    case _ => Effect(st, [Status(StimSentKey, false)], [], Waiting)
  }

  /** One pass of the event loop of `run` on the item `c`: it ends the loop
      exactly on "STOP" and on an empty waveform.  `StepFacts` states the rest. */
  function Step(st: Stored, c: Command, hw: Hardware): (e: Effect)
    ensures e.halt == Stopped <==> c == Text("STOP")
    ensures e.halt == Crashed <==> c == Samples([])
  {
    match Dispatch(c)
    case Quit => Effect(st, [Status(QuitKey, hw.quits)], [], Stopped)
    case Arm(w) =>
      (match Stack(w, BlipVoltage)
       case None => Effect(st, [], [], Crashed)
       case Some(rows) => Effect(Armed(rows), [Status(StimCreatedKey, true)], [], Waiting))
    case Send => SendEffect(st, hw)
    case Reject => Effect(st, [Status(StimCreatedKey, false)], [], Waiting)
  }

  /** What one pass of the event loop does. */
  lemma StepFacts(st: Stored, c: Command, hw: Hardware)
    // the loop ends exactly on "STOP" (closing the device) and on an empty waveform
    ensures var e := Step(st, c, hw);
            (e.halt == Stopped <==> c == Text("STOP"))
            && (e.halt == Stopped ==> e.posted == [Status(QuitKey, hw.quits)] && e.stored == st)
            && (e.halt == Crashed <==> c == Samples([]))
            && (e.halt == Crashed ==> e.posted == [] && e.stored == st)
            && (e.halt != Crashed ==> |e.posted| == 1)
    // the device writes at most once per item, only an armed stimulus, and
    // that stimulus is gone afterwards
    ensures var e := Step(st, c, hw);
            |e.wrote| <= 1
            && (e.wrote != [] ==> c == Flag(true) && st.Armed? && e.wrote == [st.rows] && e.stored == Cleared)
    // the stored stimulus changes only by arming or by a send
    ensures var e := Step(st, c, hw);
            e.stored != st ==> c.Samples? || (c == Flag(true) && e.stored == Cleared)
    // arming replaces whatever was stored
    ensures var e := Step(st, c, hw);
            c.Samples? && c.wave != [] ==>
              e.stored == Armed(Stack(c.wave, BlipVoltage).value) && e.posted == [Status(StimCreatedKey, true)]
    // a rejected item changes nothing and is reported as a failed creation
    ensures var e := Step(st, c, hw);
            Dispatch(c) == Reject ==> e.stored == st && e.posted == [Status(StimCreatedKey, false)] && e.wrote == []
    // a send with nothing armed writes nothing and fails
    ensures var e := Step(st, c, hw);
            c == Flag(true) && !st.Armed? ==> e.wrote == [] && e.posted == [Status(StimSentKey, false)]
  {
  }

  /** The loop of `run` over a finite queue: items are processed until one ends
      the loop or the queue is empty, where the real loop would block. */
  function Trace(st: Stored, cmds: seq<Command>, hw: Hardware): (r: RunEffect)
    decreases |cmds|
    ensures r.consumed <= |cmds|
    ensures r.halt == Waiting ==> r.consumed == |cmds|
    ensures r.halt != Waiting ==> r.consumed > 0
  {
    if cmds == [] then RunEffect(st, [], [], Waiting, 0)
    else
      var e := Step(st, cmds[0], hw);
      if e.halt != Waiting then RunEffect(e.stored, e.posted, e.wrote, e.halt, 1)
      else
        var r := Trace(e.stored, cmds[1..], hw);
        RunEffect(r.stored, e.posted + r.posted, e.wrote + r.wrote, r.halt, 1 + r.consumed)
  }

  /** The items that end the loop: "STOP" and the empty waveform, whose
      IndexError is not caught. */
  predicate Ends(c: Command)
  {
    c == Text("STOP") || c == Samples([])
  }

  /** Only an ending item ends the run, and the first one does: the run ends
      exactly when the queue holds one, on it, after taking every item before
      it; it stops on "STOP" and crashes on the empty waveform. */
  lemma {:induction false} TraceEnds(st: Stored, cmds: seq<Command>, hw: Hardware)
    ensures var r := Trace(st, cmds, hw);
            (r.halt == Waiting <==> forall j :: 0 <= j < |cmds| ==> !Ends(cmds[j]))
            && (r.halt != Waiting ==>
                  Ends(cmds[r.consumed - 1])
                  && (r.halt == Stopped <==> cmds[r.consumed - 1] == Text("STOP"))
                  && forall j :: 0 <= j < r.consumed - 1 ==> !Ends(cmds[j]))
    decreases |cmds|
  {
    if cmds != [] {
      var e := Step(st, cmds[0], hw);
      if e.halt == Waiting {
        TraceEnds(e.stored, cmds[1..], hw);
        assert forall j :: 1 <= j < |cmds| ==> cmds[j] == cmds[1..][j - 1];
      }
    }
  }

  /** `Trace` on a non-empty queue, one pass unfolded. */
  lemma TraceCons(st: Stored, cmds: seq<Command>, hw: Hardware)
    requires cmds != []
    ensures var e := Step(st, cmds[0], hw);
            var r := Trace(st, cmds, hw);
            if e.halt != Waiting then r == RunEffect(e.stored, e.posted, e.wrote, e.halt, 1)
            else var q := Trace(e.stored, cmds[1..], hw);
                 r == RunEffect(q.stored, e.posted + q.posted, e.wrote + q.wrote, q.halt, 1 + q.consumed)
  {
  }

  /** One pass of `Trace` taken out of the remaining queue `cmds[k..]`, with
      what was posted and written so far in front: the rest of the run after
      the pass adds up to the run before it. */
  lemma ResumeTrace(posted: seq<Status>, wrote: seq<Rows>, st: Stored, cmds: seq<Command>, k: nat, hw: Hardware)
    requires k < |cmds|
    ensures var e := Step(st, cmds[k], hw);
            var rest := Trace(st, cmds[k..], hw);
            if e.halt != Waiting then rest == RunEffect(e.stored, e.posted, e.wrote, e.halt, 1)
            else var q := Trace(e.stored, cmds[k + 1..], hw);
                 (posted + e.posted) + q.posted == posted + rest.posted
                 && (wrote + e.wrote) + q.wrote == wrote + rest.wrote
                 && q.stored == rest.stored && q.halt == rest.halt && 1 + q.consumed == rest.consumed
  {
    var before := cmds[k..];
    assert before[0] == cmds[k] && before[1..] == cmds[k + 1..];
    TraceCons(st, before, hw);
    var e := Step(st, cmds[k], hw);
    var q := Trace(e.stored, cmds[k + 1..], hw);
    assert (posted + e.posted) + q.posted == posted + (e.posted + q.posted);
    assert (wrote + e.wrote) + q.wrote == wrote + (e.wrote + q.wrote);
  }

  /** The number of arming items in a queue. */
  function Arms(cmds: seq<Command>): nat
  {
    if cmds == [] then 0 else (if cmds[0].Samples? then 1 else 0) + Arms(cmds[1..])
  }

  /** 1 when a stimulus is armed. */
  function Held(st: Stored): nat
  {
    if st.Armed? then 1 else 0
  }

  /** Single use: every stimulus the device writes was armed by its own item,
      so the writes together with a stimulus still held never outnumber the
      arming items plus a stimulus held at the start. */
  lemma {:induction false} WritesNeedArms(st: Stored, cmds: seq<Command>, hw: Hardware)
    ensures var r := Trace(st, cmds, hw); |r.wrote| + Held(r.stored) <= Arms(cmds) + Held(st)
    decreases |cmds|
  {
    if cmds != [] {
      var e := Step(st, cmds[0], hw);
      if e.halt == Waiting {
        WritesNeedArms(e.stored, cmds[1..], hw);
      }
    }
  }

  /** Without an armed stimulus and without an arming item nothing is ever
      written, however many `True` items arrive. */
  lemma NoArmNoWrite(st: Stored, cmds: seq<Command>, hw: Hardware)
    requires !st.Armed? && Arms(cmds) == 0
    ensures Trace(st, cmds, hw).wrote == []
  {
    WritesNeedArms(st, cmds, hw);
  }

  /** Nothing after "STOP" is processed: whatever follows it in the queue, the
      run is the same as if the queue ended there, and it does not wait on. */
  lemma {:induction false} StopIsFinal(st: Stored, pre: seq<Command>, post: seq<Command>, hw: Hardware)
    ensures Trace(st, pre + [Text("STOP")] + post, hw) == Trace(st, pre + [Text("STOP")], hw)
    ensures Trace(st, pre + [Text("STOP")], hw).halt != Waiting
    decreases |pre|
  {
    var whole := pre + [Text("STOP")] + post;
    var cut := pre + [Text("STOP")];
    if pre == [] {
      assert whole[0] == Text("STOP") && cut[0] == Text("STOP");
    } else {
      assert whole[0] == pre[0] && cut[0] == pre[0];
      assert whole[1..] == pre[1..] + [Text("STOP")] + post;
      assert cut[1..] == pre[1..] + [Text("STOP")];
      var e := Step(st, pre[0], hw);
      if e.halt == Waiting {
        StopIsFinal(e.stored, pre[1..], post, hw);
      }
    }
  }

  /** Every item taken from the queue puts exactly one status message, except
      an empty waveform, which kills the loop before it reports. */
  lemma {:induction false} OneMessagePerItem(st: Stored, cmds: seq<Command>, hw: Hardware)
    ensures var r := Trace(st, cmds, hw);
            |r.posted| == if r.halt == Crashed then r.consumed - 1 else r.consumed
    decreases |cmds|
  {
    if cmds != [] {
      var e := Step(st, cmds[0], hw);
      if e.halt == Waiting {
        OneMessagePerItem(e.stored, cmds[1..], hw);
      }
    }
  }

  /** The loop never reports on the connection: the single "connected" message
      is the one put during construction. */
  lemma {:induction false} LoopNeverReportsConnection(st: Stored, cmds: seq<Command>, hw: Hardware)
    ensures forall m :: m in Trace(st, cmds, hw).posted ==> m.key != ConnectedKey
    decreases |cmds|
  {
    if cmds != [] {
      var e := Step(st, cmds[0], hw);
      if e.halt == Waiting {
        LoopNeverReportsConnection(e.stored, cmds[1..], hw);
      }
    }
  }

  /** The duplicate-send scenario: arming, sending and sending again reports a
      created stimulus, the verdict of the first send and a failure for the
      second; the device writes the stimulus at most once.  (A write that
      raises leaves the stimulus armed, and the second send tries again.) */
  lemma SecondSendIsRefused(st: Stored, w: Wave, hw: Hardware)
    requires w != []
    ensures var rows := Stack(w, BlipVoltage).value;
            var r := Trace(st, [Samples(w), Flag(true), Flag(true)], hw);
            |r.posted| == 3
            && r.wrote == (if hw.report(rows).Some? then [rows] else [])
            && r.posted[0] == Status(StimCreatedKey, true)
            && r.posted[1] == Status(StimSentKey, SentOk(rows, hw.report(rows)))
            && (hw.report(rows).Some? ==> r.posted[2] == Status(StimSentKey, false))
  {
    var rows := Stack(w, BlipVoltage).value;
    var cmds := [Samples(w), Flag(true), Flag(true)];
    assert cmds[1..] == [Flag(true), Flag(true)];
    assert cmds[1..][1..] == [Flag(true)];
    assert cmds[1..][1..][1..] == [];
    var e1 := Step(st, Samples(w), hw);
    assert e1.stored == Armed(rows) && e1.halt == Waiting;
    var e2 := Step(e1.stored, Flag(true), hw);
    var e3 := Step(e2.stored, Flag(true), hw);
    assert Trace(e2.stored, [Flag(true)], hw).posted == e3.posted;
  }

  /** Stand-in for the GVS device class: it records its configuration and every
      stimulus it reports as written. */
  class Gvs {
    const hw: Hardware
    var channels: seq<string>
    var rate: real
    var sampsPerChan: int
    var written: seq<Rows>

    constructor (hw: Hardware)
      ensures this.hw == hw && channels == [] && written == []
    {
      this.hw := hw;
      channels, rate, sampsPerChan := [], 0.0, 0;
      written := [];
    }

    /** Opens the output channels with the given timing; reports success. */
    method Connect(channels: seq<string>, rate: real, sampsPerChan: int) returns (ok: bool)
      modifies this
      ensures ok == hw.connects
      ensures this.channels == channels && this.rate == rate && this.sampsPerChan == sampsPerChan
      ensures written == old(written)
    {
      this.channels, this.rate, this.sampsPerChan := channels, rate, sampsPerChan;
      ok := hw.connects;
    }

    /** Writes a stimulus: the device's report of the samples written for an
        armed stacked array.  For the initial `[]` and for None the device is
        assumed to raise AttributeError (None here), as the handler's except
        clause presumes. */
    method WriteToChannel(stimulus: Stored) returns (count: Option<nat>)
      modifies this`written
      ensures count == if stimulus.Armed? then hw.report(stimulus.rows) else None
      ensures written == if count.Some? then old(written) + [stimulus.rows] else old(written)
    {
      count := None;
      if stimulus.Armed? {
        count := hw.report(stimulus.rows);
        if count.Some? {
          written := written + [stimulus.rows];
        }
      }
    }

    /** Closes the device; reports success. */
    method Quit() returns (ok: bool)
      ensures ok == hw.quits
    {
      ok := hw.quits;
    }
  }

  /** The worker.  Constructing it connects, reports the connection and runs the
      event loop over the parameter queue. */
  class GvsHandler {
    const gvs: Gvs
    const bufferSize: int
    var stimulus: Stored
    var status: seq<Status>

    constructor (gvs: Gvs, bufferSize: int, params: seq<Command>)
      modifies gvs
      ensures this.gvs == gvs && this.bufferSize == bufferSize
      ensures gvs.channels == PhysicalChannelName && gvs.rate == SamplingFreq && gvs.sampsPerChan == bufferSize
      ensures var t := Trace(Unset, params, gvs.hw);
              status == [Status(ConnectedKey, gvs.hw.connects)] + t.posted
              && stimulus == t.stored
              && gvs.written == old(gvs.written) + t.wrote
    {
      this.gvs := gvs;
      this.bufferSize := bufferSize;
      stimulus := Unset;
      status := [];
      new;
      var connected := gvs.Connect(PhysicalChannelName, SamplingFreq, bufferSize);
      if connected {
        status := status + [Status(ConnectedKey, true)];
      } else {
        status := status + [Status(ConnectedKey, false)];
      }
      var halt, consumed := Run(params);
    }

    /** The event loop: takes items from `params` in order until "STOP", an
        uncaught exception, or the end of the queue. */
    method Run(params: seq<Command>) returns (halt: Halt, consumed: nat)
      modifies this, gvs`written
      ensures var t := Trace(old(stimulus), params, gvs.hw);
              stimulus == t.stored && status == old(status) + t.posted
              && gvs.written == old(gvs.written) + t.wrote
              && halt == t.halt && consumed == t.consumed
    {
      ghost var t := Trace(stimulus, params, gvs.hw);
      consumed := 0;
      halt := Waiting;
      while consumed < |params|
        invariant consumed <= |params| && halt == Waiting
        invariant var rest := Trace(stimulus, params[consumed..], gvs.hw);
                  status + rest.posted == old(status) + t.posted
                  && gvs.written + rest.wrote == old(gvs.written) + t.wrote
                  && rest.stored == t.stored && rest.halt == t.halt
                  && consumed + rest.consumed == t.consumed
        decreases |params| - consumed
      {
        ResumeTrace(status, gvs.written, stimulus, params, consumed, gvs.hw);
        halt := Process(params[consumed]);
        consumed := consumed + 1;
        if halt != Waiting {
          return;
        }
      }
    }

    /** One pass of the loop body of `run` on the item `data`. */
    method Process(data: Command) returns (halt: Halt)
      modifies this, gvs`written
      ensures var e := Step(old(stimulus), data, gvs.hw);
              stimulus == e.stored && status == old(status) + e.posted
              && gvs.written == old(gvs.written) + e.wrote && halt == e.halt
    {
      halt := Waiting;
      if data == Text("STOP") {
        var quitGvs := gvs.Quit();
        status := status + [Status(QuitKey, quitGvs)];
        halt := Stopped;
      } else if data.Samples? {
        var wave := new real[|data.wave|](k requires 0 <= k < |data.wave| => data.wave[k]);
        assert wave[..] == data.wave;
        var armed := AnalogFeedbackLoop(wave, BlipVoltage);
        if armed.None? {
          halt := Crashed;
        } else {
          stimulus := Armed(armed.value);
        }
      } else if data == Flag(true) {
        SendStimulus();
      } else {
        status := status + [Status(StimCreatedKey, false)];
      }
    }

    /** `_analog_feedback_loop`: builds the two-row stimulus from a copy of the
        waveform and reports its creation.  An empty waveform raises before
        anything is reported. */
    method AnalogFeedbackLoop(gvsWave: array<real>, blip: real) returns (r: Option<Rows>)
      modifies this`status
      ensures r == Stack(old(gvsWave[..]), blip)
      ensures status == old(status) + if r.Some? then [Status(StimCreatedKey, true)] else []
    {
      var n := gvsWave.Length;
      if n == 0 {
        return None;
      }
      var duplicateWave := new real[n];
      forall k | 0 <= k < n {
        duplicateWave[k] := gvsWave[k];
      }
      duplicateWave[0] := blip;
      duplicateWave[n - 1] := -blip;
      assert duplicateWave[..] == BlipCopy(gvsWave[..], blip);
      assert gvsWave[..] == old(gvsWave[..]);
      var primary := gvsWave[..] + [0.0];
      var marker := duplicateWave[..] + [0.0];
      status := status + [Status(StimCreatedKey, true)];
      r := Some([marker, primary]);
    }

    /** `_analog_feedback_loop` as written: the "copy" is a view of the caller's
        array, so the blips are written into the waveform itself before it is
        stacked as the primary row. */
    method AnalogFeedbackLoopAsWritten(gvsWave: array<real>, blip: real) returns (r: Option<Rows>)
      modifies this`status, gvsWave
      ensures r == StackAsWritten(old(gvsWave[..]), blip)
      ensures gvsWave.Length > 0 ==> gvsWave[..] == BlipCopy(old(gvsWave[..]), blip)
      ensures status == old(status) + if r.Some? then [Status(StimCreatedKey, true)] else []
    {
      var n := gvsWave.Length;
      if n == 0 {
        return None;
      }
      var duplicateWave := gvsWave;
      duplicateWave[0] := blip;
      duplicateWave[n - 1] := -blip;
      assert gvsWave[..] == BlipCopy(old(gvsWave[..]), blip);
      var primary := gvsWave[..] + [0.0];
      var marker := duplicateWave[..] + [0.0];
      status := status + [Status(StimCreatedKey, true)];
      r := Some([marker, primary]);
    }

    /** `_send_stimulus`: writes the stored stimulus, clears it once the write
        has returned, and reports whether every sample per channel was
        written. */
    method SendStimulus()
      modifies this, gvs`written
      ensures var e := SendEffect(old(stimulus), gvs.hw);
              stimulus == e.stored && status == old(status) + e.posted
              && gvs.written == old(gvs.written) + e.wrote
    {
      var nSamples: Option<nat> := None;
      var sampsWritten: nat := 0;
      var count := gvs.WriteToChannel(stimulus);
      if count.Some? {
        sampsWritten := count.value;
        nSamples := Some(Columns(stimulus.rows));
        // the stimulus is deleted after sending, so it can be sent only once
        stimulus := Cleared;
      }
      var sent := nSamples == Some(sampsWritten);
      status := status + [Status(StimSentKey, sent)];
    }
  }
}
