# WaveGVS experiment core in Dafny

This project models the hardware-facing core of WaveGVS, a psychophysics
experiment that drives galvanic vestibular stimulation (GVS). The model covers:

- **The stimulus worker** (`Experiment/GVSHandler.py`). It owns the
  analog-output device and reads a parameter queue:
  - an ndarray arms a two-row stimulus: a marker copy with ±2.5 V blips, and
    the waveform itself, each followed by a zero sample;
  - `True` sends the armed stimulus once;
  - `"STOP"` closes the device;
  - anything else is rejected.
  Every step is reported on a status queue of single-key messages.
- **The trigger worker** (`Experiment/arduinoHandler.py`). It polls a serial
  device and latches on the trigger codes 634 and 635. It puts the latched
  timestamp on its return queue, then ignores the device until more than
  0.1 s have passed.
- **Serial port discovery** (`Experiment/arduino.py`, `connect`). The last
  listed port whose description contains the device name is opened.
- **The trial list** (`Experiment/RandStim.py`). It holds every combination of
  current, frequency, line offset and line amplitude, built by four nested
  loops and then shuffled.
- **The fade envelope** (`Experiment/GenStim.py`, `fade`). A fader of ones has
  a rising ramp written over its start and the reversed ramp written over its
  end. The stimulus is then multiplied by it.
- **The handler tests** (`Tests/testGVSHandler.py`). These are the clients of
  the stimulus worker, stated as methods.

The modules are:

| file | module | source |
|---|---|---|
| options.dfy | `Options` | the `Option` type |
| gvs_signal.dfy | `GvsSignal` | dispatch, arming transform and send verdict of `GVSHandler`, each with an as-written variant |
| gvs_worker.dfy | `GvsWorker` | the `GVSHandler` class, the device stand-in `Gvs`, the step and run functions of the event loop and their lemmas |
| status_drain.dfy | `StatusDrain` | the status-queue drain loop and the four handler tests |
| serial_ports.dfy | `SerialPorts` | `ArduinoConnect` |
| trigger_worker.dfy | `TriggerWorker` | `ArduinoHandler`, its latch step function and lemmas |
| trial_list.dfy | `TrialList` | `RandStim` |
| fade_envelope.dfy | `FadeEnvelope` | `GenStim.fade` |

The classes keep the form of the source:
- Objects whose methods update fields are Dafny classes with `modifies`
  clauses.
- The event loops are `while` loops. Each is proved against a function that
  gives the effect of one pass (`Step`, `LatchStep`) and of a whole queue
  (`Trace`, `LatchRun`).
- The properties of a whole run are lemmas about those functions.
- Queues are sequences:
  - a worker's input queue is the sequence of items it would receive;
  - its output queue is the sequence of messages it has put.
- A queue that runs dry stands for the blocking `get` that would wait forever.

Behaviour of the code that the model keeps:
- A write that raises leaves the stimulus armed (line 120 of
  `Experiment/GVSHandler.py` is skipped), so a later `True` tries again.
- An empty waveform raises an uncaught IndexError at GVSHandler.py:98 and ends
  the worker.
- The trigger worker puts only the timestamp on its return queue, not the
  code it read.
- `"STOP"` leaves an armed stimulus in place.
- The status-queue drain of the tests drops every message it passes over.

## Model

| member | source | states |
|---|---|---|
| GvsSignal.Dispatch | Experiment/GVSHandler.py:55-77 | the loop quits exactly on the string "STOP", arms exactly on an ndarray (with that waveform), sends exactly on `True`, and rejects every other item (the intended reading of line 57; see Findings) |
| GvsSignal.BoolAnd | Experiment/GVSHandler.py:57 | `bool & y` is defined only when `y` is a bool or an int (otherwise TypeError) and never yields a str |
| GvsSignal.StopTestAsWritten | Experiment/GVSHandler.py:57 | the STOP test as written is never True; it raises (None) exactly for a str, a float array or another object |
| GvsSignal.StopTestAsWrittenNeverQuits | Experiment/GVSHandler.py:57 | the STOP test as written is never True; it raises exactly for a str, a float array or another object, including "STOP" itself, which the intended dispatch quits on |
| GvsSignal.BlipCopy | Experiment/GVSHandler.py:96-99 | the marker copy keeps the length; its first sample is +blip, its last is −blip (the second write wins on a one-sample wave) and every sample between them is unchanged |
| GvsSignal.Stack | Experiment/GVSHandler.py:79-106 | an empty waveform raises (None) and only it; otherwise two rows: row 0 the marker copy, row 1 the waveform itself, each ending in an extra 0 sample, as the doc comment promises |
| GvsSignal.StackAsWritten | Experiment/GVSHandler.py:96-104 | as written, the view `gvs_wave[:]` makes both rows identical, and both are the blipped marker row of the intended `Stack` |
| GvsSignal.AsWrittenBlipsPrimaryRow | Experiment/GVSHandler.py:79-104 | whenever the last sample is not already −blip, the as-written primary row differs from the input waveform plus 0, while the intended one equals it |
| GvsSignal.SentOk | Experiment/GVSHandler.py:113-130 | a send is reported as successful exactly when the write returned and reported every sample per channel |
| GvsSignal.SentOkAsWritten | Experiment/GVSHandler.py:118-130 | as written, success means the write reported as many samples as the stimulus has rows |
| GvsSignal.AsWrittenSampleCountRejectsFullWrite | Experiment/GVSHandler.py:116-130 | for an armed waveform of two or more samples, a complete write is judged a failure as written and a success as intended; as written only a report of exactly 2 succeeds |
| GvsWorker.SendEffect | Experiment/GVSHandler.py:108-130 | one `stim_sent` message, True exactly when a stimulus is armed and fully written; the device writes only an armed stimulus, and a returned write clears it; otherwise the stored stimulus is unchanged |
| GvsWorker.Step | Experiment/GVSHandler.py:56-77 | one loop pass ends the loop exactly on the string "STOP" and on an empty waveform, and otherwise leaves it waiting for the next item (`StepFacts` states the rest) |
| GvsWorker.StepFacts | Experiment/GVSHandler.py:55-77 | one pass: stops exactly on "STOP" after posting the quit result, dies exactly on an empty waveform, otherwise posts exactly one message; at most one write, only of the armed stimulus, which is then gone; arming replaces the stored stimulus and reports `stim_created` True; a rejected item changes nothing and reports `stim_created` False; a send with nothing armed writes nothing and fails |
| GvsWorker.Trace | Experiment/GVSHandler.py:55-77 | the run takes no more items than the queue holds, and the whole queue when it is still waiting at the end (which item ends it is stated by `TraceEnds`) |
| GvsWorker.TraceEnds | Experiment/GVSHandler.py:55-77 | only "STOP" and the empty waveform end the loop: the run ends exactly when the queue holds one of them, on the first one, after every item before it, stopping on "STOP" and crashing on the empty waveform |
| GvsWorker.WritesNeedArms | Experiment/GVSHandler.py:116-120 | single use: the writes plus a stimulus still held never exceed the arming items plus a stimulus held at the start |
| GvsWorker.NoArmNoWrite | Experiment/GVSHandler.py:113-121 | with nothing armed and no arming item, the device never records a write: each `True` still calls it, and the call raises |
| GvsWorker.StopIsFinal | Experiment/GVSHandler.py:57-63 | nothing after "STOP" is processed: the run is the same whatever follows, and it has ended |
| GvsWorker.OneMessagePerItem | Experiment/GVSHandler.py:55-77 | each consumed item posts exactly one status message, except an empty waveform, which ends the loop unreported |
| GvsWorker.LoopNeverReportsConnection | Experiment/GVSHandler.py:32-38 | the loop posts no `connected` message, so construction's message is the only one |
| GvsWorker.SecondSendIsRefused | Experiment/GVSHandler.py:116-130 | arm, send, send: `stim_created` True, the first verdict, and False for the second when the first write returned; the device writes the stimulus at most once |
| GvsWorker.Gvs.constructor | Experiment/GVSHandler.py:29 | the device stand-in starts unconfigured and with nothing written |
| GvsWorker.Gvs.Connect | Experiment/GVSHandler.py:31-32 | records the channels, rate and samples per channel; reports the device's connect result |
| GvsWorker.Gvs.WriteToChannel | Experiment/GVSHandler.py:116-117 | AttributeError unless a stimulus is armed; otherwise the device's report, and a returned write is recorded |
| GvsWorker.Gvs.Quit | Experiment/GVSHandler.py:58 | reports the device's quit result |
| GvsWorker.GvsHandler.constructor | Experiment/GVSHandler.py:9-45 | connects with both channels at 1 kHz and the buffer size, posts exactly one `connected` message first, then runs the loop over the queue |
| GvsWorker.GvsHandler.Run | Experiment/GVSHandler.py:47-77 | the loop leaves stimulus, status queue and device writes as `Trace` gives them |
| GvsWorker.GvsHandler.Process | Experiment/GVSHandler.py:56-77 | one loop pass has the effect `Step` gives |
| GvsWorker.GvsHandler.AnalogFeedbackLoop | Experiment/GVSHandler.py:79-106 | returns the intended stack of the caller's array, which is left unchanged, and reports `stim_created` True unless the array is empty |
| GvsWorker.GvsHandler.AnalogFeedbackLoopAsWritten | Experiment/GVSHandler.py:96-106 | writing through the view leaves the blips in the caller's array and returns the as-written stack |
| GvsWorker.GvsHandler.SendStimulus | Experiment/GVSHandler.py:108-130 | the send has the effect `SendEffect` gives |
| StatusDrain.Await | Tests/testGVSHandler.py:57-63 | takes at most `tries` messages from the front and returns the first one with the key, dropping those before it; None when the tries or the queue run out without one |
| StatusDrain.TestWave | Tests/testGVSHandler.py:39-40 | 2000 samples, all 1 except the last, which is 0 |
| StatusDrain.Connection | Tests/testGVSHandler.py:15-36 | the first status message is `connected`, with the device's result |
| StatusDrain.CreateStim | Tests/testGVSHandler.py:38-44 | arming the test waveform yields `stim_created` True |
| StatusDrain.WrongParamType | Tests/testGVSHandler.py:46-50 | an int yields `stim_created` False |
| StatusDrain.SendDuplicateStim | Tests/testGVSHandler.py:52-84 | with a device that writes all 2001 samples per channel, the first send reports True, the second False, and the device is written once |
| SerialPorts.ContainsIsSubstring | Experiment/arduino.py:28 | `device_name in port[1]` holds exactly when the name occurs at some position of the description |
| SerialPorts.LastMatchIndex | Experiment/arduino.py:26-29 | the index found is a matching port and no later port matches; -1 when none matches |
| SerialPorts.LastMatch | Experiment/arduino.py:26-29 | `cport` after the scan: the device of a port that matches with no later match, and the earlier `cport` when no listed port matches |
| SerialPorts.ArduinoConnect.constructor | Experiment/arduino.py:15-19 | stores device name and baudrate, `"ttyACM0"` and 9600 when not given; no port and no handle yet |
| SerialPorts.ArduinoConnect.Connect | Experiment/arduino.py:21-43 | `cport` becomes the device of the last matching port, or keeps its old value; a falsy `cport` is returned without opening anything; otherwise the port is opened with the baudrate and timeout 2 and the handle is returned |
| SerialPorts.ArduinoConnect.Quit | Experiment/arduinoHandler.py:53 | the device is released |
| TriggerWorker.LatchStep | Experiment/arduinoHandler.py:46-72 | one pass: "STOP" ends it before any read; a measurement is read exactly while awaiting; a time is emitted exactly when an awaiting pass reads a 634/635 with a timestamp, which is that timestamp and then held; awaiting passes without a trigger change nothing; a locked pass unlocks exactly when now − trigger time > 0.1 and the time is truthy; the flag stays consistent with the stored time |
| TriggerWorker.EmptyQueueIsHarmless | Experiment/arduinoHandler.py:50-57 | an empty input queue acts like any non-STOP item: no stop, same effect |
| TriggerWorker.LatchRun | Experiment/arduinoHandler.py:46-72 | the run takes no more passes than given, and all of them when it has not stopped (where it stops is stated by `LatchRunStops`) |
| TriggerWorker.LatchRunStops | Experiment/arduinoHandler.py:46-54 | only "STOP" ends the loop: the run stops exactly when a pass carries "STOP", on the first such pass, after every pass before it |
| TriggerWorker.TriggersAlternateWithUnlocks | Experiment/arduinoHandler.py:59-72 | emitted times and releases alternate: their counts differ only by the latch's state at start and end, so one latch yields one time |
| TriggerWorker.EmittedAreReadTimestamps | Experiment/arduinoHandler.py:59-68 | every emitted time is the timestamp of a trigger measurement among the passes, and no more times are emitted than measurements read |
| TriggerWorker.StopIsFinal | Experiment/arduinoHandler.py:50-54 | nothing after "STOP" is processed |
| TriggerWorker.TwoRunsTwoTriggers | Experiment/arduinoHandler.py:59-72 | codes 0,0,634,634,634,0,0,635,0 every 50 ms emit exactly the two times 1.1 and 1.35 |
| TriggerWorker.ArduinoHandler.constructor | Experiment/arduinoHandler.py:11-41 | connects (device name `"Arduino"` and baudrate 9600 when not given), puts exactly one `connected` reply first, then the loop's trigger times; the device is released exactly when the loop stopped |
| TriggerWorker.ArduinoHandler.Run | Experiment/arduinoHandler.py:43-72 | the loop leaves trigger time and return queue as `LatchRun` gives them and releases the device on "STOP" |
| TrialList.Product | Experiment/RandStim.py:13-18 | the list before the shuffle is empty exactly when one of the four parameter lists is |
| TrialList.ProductLength | Experiment/RandStim.py:13-18 | the list has one trial per combination: the product of the four list lengths |
| TrialList.ProductAt | Experiment/RandStim.py:14-18 | before the shuffle, the trial of current i, frequency j, offset k, amplitude l sits at ((i·F + j)·O + k)·A + l |
| TrialList.ProductCount | Experiment/RandStim.py:14-18 | each trial occurs as many times as the product of its four values' counts in their lists |
| TrialList.ProductMembers | Experiment/RandStim.py:14-18 | a trial is in the list exactly when each of its values is in its own list |
| TrialList.Shuffled | Experiment/RandStim.py:19 | any permutation keeps the length and the members |
| TrialList.RandStim.constructor | Experiment/RandStim.py:7-19 | the shuffled list is a permutation of the nested product, with that length and those members |
| TrialList.RandStim.AppendBlock | Experiment/RandStim.py:16-18 | the two inner loops append the trials of one current and frequency in order |
| TrialList.RandStim.GetStimulus | Experiment/RandStim.py:21-26 | Python indexing: a trial exactly for −n ≤ i < n, counted from the end for a negative index, and always one of the list's trials; IndexError (None) otherwise |
| TrialList.RandStim.GetNTrials | Experiment/RandStim.py:28-32 | the number of trials held, which the constructor's contract makes the product of the list lengths |
| FadeEnvelope.RoundHalfEven | Experiment/GenStim.py:46 | within 1/2 of the input, ties to even, integral inputs unchanged |
| FadeEnvelope.Ramp | Experiment/GenStim.py:48-49 | F samples, starting at the shape's value at 0 |
| FadeEnvelope.FadeFits | Experiment/GenStim.py:47-53 | both slice assignments succeed exactly when the ramp's length (`arange(0, F)`) equals the Python length of the slices `[0:F]` and `[n-F:]`, or is 1 and broadcasts |
| FadeEnvelope.Envelope | Experiment/GenStim.py:47-53 | the fader has n samples |
| FadeEnvelope.Broadcast | Experiment/GenStim.py:55 | elementwise products on equal lengths; a single sample multiplied into every sample of the other array; ValueError (None) exactly on other length pairs |
| FadeEnvelope.EnvelopeAt | Experiment/GenStim.py:50-53 | the last F samples take the reversed ramp, the first F not covered by them the ramp, the rest 1: the fade-out wins on overlap |
| FadeEnvelope.EnvelopeSymmetric | Experiment/GenStim.py:50-53 | with 2F ≤ n the fader is symmetric |
| FadeEnvelope.FadeKeepsMiddle | Experiment/GenStim.py:47-55 | samples in [F, n − F) are unchanged |
| FadeEnvelope.FadeSilencesEnds | Experiment/GenStim.py:49-55 | with a ramp starting at 0, the last sample of a non-empty fade becomes 0, and the first too when F < n |
| FadeEnvelope.FadeZeroIsIdentity | Experiment/GenStim.py:47-55 | a zero-sample fade leaves the stimulus unchanged |
| FadeEnvelope.WriteFades | Experiment/GenStim.py:50-53 | the two slice writes on a fader of ones leave exactly the envelope: the ramp over the start, then the reversed ramp over the end |
| FadeEnvelope.GenStim.constructor | Experiment/GenStim.py:9-19 | sampling frequency stored (1000 Hz when not given), no samples, no fade |
| FadeEnvelope.GenStim.Fade | Experiment/GenStim.py:39-55 | stores the rounded fade length even on error; fails exactly on a slice or shape mismatch, leaving the stimulus as it was; otherwise the stimulus times the envelope |

## Left out

- The `GVS` device class and `Experiment/loggingConfig.py` are not part of
  this model. `Gvs` stands in for the device. Its answers to connect and
  quit, and its answer to a write of an armed stimulus, are a parameter
  (`Hardware`). `reset_to_zero_volts=False` and the voltage clamp of the
  device are not modelled.
- GvsWorker.Gvs.WriteToChannel: `_send_stimulus` passes the stored stimulus
  to the device whatever it is. That is the initial `[]` (`Unset`,
  GVSHandler.py:17) before any arming, and `None` (`Cleared`, line 120) after
  a send. The model assumes that `write_to_channel` raises AttributeError for
  both, as the except clause at lines 121-124 presumes, so both sends post
  `stim_sent` False and record no write. If the device instead reported 0
  for `[]`, line 118 would compare it with `len([]) == 0` and post True. The
  single-use properties rest on this assumption: "the device writes only an
  armed stimulus" of `GvsWorker.SendEffect`, `GvsWorker.NoArmNoWrite` and
  `GvsWorker.WritesNeedArms`.
- Logging, the logging queue and every `print` are left out.
- Multiprocessing, process start and join, and blocking are left out. Each
  queue is a sequence. A blocking `get` on an empty queue is the end of the
  sequence.
- `time.time()` and the serial read are inputs of each loop pass (`Tick`).
- The handshake byte of `connect` (arduino.py:37-42) only chooses a printed
  message, so it is left out.
- `Experiment/main.py`, `Analysis/plotRaw.py` and
  `Experiment/habituationStim.py` are left out: they are user interface,
  offline analysis and a wiring script.
- `GenStim.noise` and `GenStim.sine` are left out because they need random
  numbers and trigonometry. As a consequence, the class never sets `stim` or
  `n_samp` itself. `Fade` is stated for any stimulus it holds.
- FadeEnvelope.Ramp: the sin² shape is a parameter. The lemmas use only its
  value 0 at 0.
- FadeEnvelope.GenStim.Fade: the initial stimulus is a 0×0 array in the
  source and the empty sequence here. Multiplying a 2-D array is not
  modelled.
- Floats are reals: no rounding error, no NaN or infinity.
- The waveform on the parameter queue is one-dimensional, with one float per
  sample. Two-dimensional waveforms and integer arrays are not modelled.
- RandStim's arguments default to `None`, which makes the loops raise. Only
  lists are modelled.
- The shuffle is an arbitrary permutation. Its randomness is not modelled.
- ArduinoConnect's `logger=` keyword and its `read_voltage` and `quit` methods
  are used by arduinoHandler.py but do not exist in arduino.py. `Quit`
  records the release, and a measurement is an input.
- The `tearDown` of the handler tests (a final "STOP") is not part of the
  client methods in `StatusDrain`. The ten-try bound of the drain loop is a
  parameter of `Await`.

## Findings

| source | as written | input that shows it | evidently intended | confidence | as-written member | corrected member |
|---|---|---|---|---|---|---|
| Experiment/GVSHandler.py:57 | `isinstance(data, str) & data == "STOP"` groups as `(isinstance(data, str) & data) == "STOP"`; `bool & str` raises TypeError | the item `"STOP"` raises TypeError instead of quitting; a float ndarray raises too, so nothing is ever armed | quit exactly on the string "STOP" | high, not executed | GvsSignal.StopTestAsWrittenNeverQuits | GvsSignal.Dispatch |
| Experiment/GVSHandler.py:96 | `duplicate_wave = gvs_wave[:]` is a numpy view, so the blips written at lines 98-99 land in `gvs_wave` too | the waveform [1.0, 1.0, 1.0] gives the primary row [2.5, 1.0, −2.5, 0.0] instead of [1.0, 1.0, 1.0, 0.0] | only the marker row carries the blips (doc comment at lines 81-85) | high, not executed | GvsSignal.AsWrittenBlipsPrimaryRow | GvsSignal.Stack |
| Experiment/GVSHandler.py:118 | `n_samples = len(self.stimulus)` is the number of rows (2) of the stacked array | the 2000-sample test waveform with a write that reports 2001 samples is reported as `stim_sent` False (Tests/testGVSHandler.py:52-63 expects True) | compare with the samples per channel | medium (the device's report is not part of this model), not executed | GvsSignal.AsWrittenSampleCountRejectsFullWrite | GvsSignal.SentOk |
