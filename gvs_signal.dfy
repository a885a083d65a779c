/**
 * The pure parts of the stimulus worker (Experiment/GVSHandler.py): how a queued
 * item is dispatched, how a waveform is turned into the two-row stimulus that is
 * armed, and how the result of a hardware write is judged.
 *
 * Each of the three has a second, "as written" definition next to it that models
 * the source line literally; the lemmas beside them exhibit the inputs on which
 * the literal reading departs from what the code evidently intends.  The worker
 * (module GvsWorker) uses the intended definitions.
 */
module GvsSignal {
  import opened Options

  /** A single-channel waveform: one float per sample. */
  type Wave = seq<real>

  /** A stacked multi-channel stimulus: one row per output channel. */
  type Rows = seq<seq<real>>

  /** Default marker voltage of `_analog_feedback_loop` (`start_end_blip_voltage`). */
  const BlipVoltage: real := 2.5

  /** An item taken from the parameter queue, by its Python type. */
  datatype Command =
    | Text(text: string)        // a str, e.g. "STOP"
    | Samples(wave: Wave)       // a one-dimensional float numpy.ndarray
    | Flag(flag: bool)          // a bool
    | Integer(number: int)      // an int that is not a bool
    | Other                     // anything else: a float, None, a dict, a list, ...

  /** What the event loop does with a command. */
  datatype Action = Quit | Arm(wave: Wave) | Send | Reject

  // ---------------------------------------------------------------------------
  // Dispatch (GVSHandler.py:57-77)
  // ---------------------------------------------------------------------------

  /** The intended dispatch of the event loop: the string "STOP" quits, an
      ndarray arms, `True` sends, and everything else is rejected. */
  function Dispatch(c: Command): (a: Action)
    ensures a == Quit <==> c == Text("STOP")
    ensures a.Arm? <==> c.Samples?
    ensures a.Arm? ==> a.wave == c.wave
    ensures a == Send <==> c == Flag(true)
    ensures a == Reject <==> (c.Text? && c.text != "STOP") || c == Flag(false) || c.Integer? || c.Other?
  {
    match c
    case Text(s) => if s == "STOP" then Quit else Reject
    case Samples(w) => Arm(w)
    case Flag(b) => if b then Send else Reject
    case Integer(_) => Reject
    case Other => Reject
  }

  /** The Python values that take part in the STOP test as written. */
  datatype PyValue =
    | PyBool(b: bool)
    | PyInt(i: int)
    | PyStr(s: string)
    | PyFloatArray(a: seq<real>)
    | PyObject

  /** The Python value of a queued command. */
  function ToPy(c: Command): PyValue
  {
    match c
    case Text(s) => PyStr(s)
    case Samples(w) => PyFloatArray(w)
    case Flag(b) => PyBool(b)
    case Integer(i) => PyInt(i)
    case Other => PyObject
  }

  /** Python's `x & y` where `x` is a bool; None stands for the TypeError raised
      when the right operand supports no bitwise and (a str, a float array,
      None, a float, a dict). */
  function BoolAnd(x: bool, y: PyValue): (r: Option<PyValue>)
    ensures r.Some? <==> y.PyBool? || y.PyInt?
    ensures r.Some? ==> !r.value.PyStr?
  {
    match y
    case PyBool(b) => Some(PyBool(x && b))
    case PyInt(i) => Some(PyInt(if x then i % 2 else 0))
    case _ => None
  }

  /** The STOP test at GVSHandler.py:57 as written: `isinstance(data, str) & data
      == "STOP"`, which Python groups as `(isinstance(data, str) & data) ==
      "STOP"`.  None stands for the TypeError raised by `&`. */
  function StopTestAsWritten(c: Command): (r: Option<bool>)
    ensures r != Some(true)
    ensures r.None? <==> c.Text? || c.Samples? || c.Other?
  {
    match BoolAnd(c.Text?, ToPy(c))
    case None => None
    case Some(v) => Some(v == PyStr("STOP"))
  }

  /** The STOP test as written never quits: the string "STOP" itself, and every
      float waveform, make `&` raise a TypeError, and on a bool or an int it is
      False.  The intended dispatch quits exactly on "STOP". */
  lemma StopTestAsWrittenNeverQuits(c: Command)
    ensures StopTestAsWritten(c) != Some(true)
    ensures StopTestAsWritten(c) == None <==> c.Text? || c.Samples? || c.Other?
    ensures StopTestAsWritten(Text("STOP")) == None && Dispatch(Text("STOP")) == Quit
  {
  }

  // ---------------------------------------------------------------------------
  // Arming (GVSHandler.py:79-106)
  // ---------------------------------------------------------------------------

  /** The marker copy of a non-empty waveform: first sample `+blip`, last sample
      `-blip` (for a single sample the second write wins), every sample between
      them unchanged. */
  function BlipCopy(w: Wave, blip: real): (c: Wave)
    requires |w| > 0
    ensures |c| == |w|
    ensures |w| > 1 ==> c[0] == blip
    ensures c[|w| - 1] == -blip
    ensures forall i :: 0 < i < |w| - 1 ==> c[i] == w[i]
  {
    w[0 := blip][|w| - 1 := -blip]
  }

  /** The intended two-row stimulus: row 0 the marker copy, row 1 the waveform
      itself, each followed by one zero sample that resets the output to
      baseline.  An empty waveform has no first sample to mark: None stands for
      the IndexError of line 98. */
  function Stack(w: Wave, blip: real): (r: Option<Rows>)
    ensures r.None? <==> |w| == 0
    ensures r.Some? ==> |r.value| == 2
    ensures r.Some? ==> r.value[1] == w + [0.0]
    ensures r.Some? ==> |r.value[0]| == |w| + 1 && r.value[0][|w|] == 0.0
    ensures r.Some? && |w| > 1 ==> r.value[0][0] == blip
    ensures r.Some? ==> r.value[0][|w| - 1] == -blip
    ensures r.Some? ==> forall i :: 0 < i < |w| - 1 ==> r.value[0][i] == w[i]
  {
    if |w| == 0 then None else Some([BlipCopy(w, blip) + [0.0], w + [0.0]])
  }

  /** The stimulus as the source builds it: `gvs_wave[:]` is a view of the same
      buffer, so the blips written through it land in `gvs_wave` as well and
      both rows carry them. */
  function StackAsWritten(w: Wave, blip: real): (r: Option<Rows>)
    ensures r.None? <==> |w| == 0
    ensures r.Some? ==> |r.value| == 2 && r.value[0] == r.value[1]
    ensures r.Some? ==> r.value[1] == Stack(w, blip).value[0]
  {
    if |w| == 0 then None else Some([BlipCopy(w, blip) + [0.0], BlipCopy(w, blip) + [0.0]])
  }

  /** The aliasing changes the primary row whenever its first or last sample is
      not already the blip value, e.g. for the all-ones waveform of the tests:
      the row sent as the primary signal is no longer the input waveform. */
  lemma AsWrittenBlipsPrimaryRow(w: Wave, blip: real)
    requires |w| > 0 && w[|w| - 1] != -blip
    ensures StackAsWritten(w, blip).value[1] != w + [0.0]
    ensures Stack(w, blip).value[1] == w + [0.0]
  {
    var asWritten := StackAsWritten(w, blip).value[1];
    assert asWritten[|w| - 1] == -blip;
    assert (w + [0.0])[|w| - 1] == w[|w| - 1];
  }

  // ---------------------------------------------------------------------------
  // The verdict of a send (GVSHandler.py:113-130)
  // ---------------------------------------------------------------------------

  /** The number of samples per channel of a stacked stimulus. */
  function Columns(rows: Rows): nat
  {
    if |rows| == 0 then 0 else |rows[0]|
  }

  /** The intended verdict of a send: True exactly when the write returned and
      reported every sample per channel as written.  `written` is None when the
      write raised, which leaves `n_samples` at None. */
  function SentOk(rows: Rows, written: Option<nat>): (ok: bool)
    ensures ok <==> written.Some? && written.value == Columns(rows)
  {
    match written
    case None => false
    case Some(k) => k == Columns(rows)
  }

  /** The verdict as written: `n_samples = len(self.stimulus)` is the number of
      ROWS of the stacked array, always 2. */
  function SentOkAsWritten(rows: Rows, written: Option<nat>): (ok: bool)
    ensures ok <==> written == Some(|rows|)
  {
    match written
    case None => false
    case Some(k) => k == |rows|
  }

  /** For an armed stimulus of at least two samples per channel, a write that
      reports every sample per channel is judged a failure as written and a
      success as intended; as written, success needs a report of exactly 2. */
  lemma AsWrittenSampleCountRejectsFullWrite(w: Wave, blip: real)
    requires |w| >= 2
    ensures Stack(w, blip).Some?
    ensures !SentOkAsWritten(Stack(w, blip).value, Some(|w| + 1))
    ensures SentOk(Stack(w, blip).value, Some(|w| + 1))
    ensures forall k: nat :: SentOkAsWritten(Stack(w, blip).value, Some(k)) <==> k == 2
  {
  }
}
