/**
 * The consumer side of the stimulus worker's status queue, as the handler tests
 * in Tests/testGVSHandler.py use it: messages are taken from the front of the
 * queue until one carries the awaited key, and the others are dropped.  The
 * tests themselves are stated as client methods that construct a worker over a
 * parameter queue and drain its status queue.
 */
module StatusDrain {
  import opened Options
  import opened GvsSignal
  import opened GvsWorker

  /** The drain loop: takes at most `tries` messages from the front of `queue`
      and stops at the first one whose key is `key`, returning its value and
      what is left of the queue.  Every message taken before it is dropped.  A
      blocking get on an empty queue never returns; here the loop ends when the
      queue runs out and reports None, as it does when `tries` are used up. */
  method Await(queue: seq<Status>, key: string, tries: nat) returns (value: Option<bool>, rest: seq<Status>)
    ensures |rest| <= |queue| && rest == queue[|queue| - |rest|..]
    ensures var taken := |queue| - |rest|;
            taken <= tries
            && (value.Some? ==> taken > 0 && queue[taken - 1] == Status(key, value.value)
                                && forall j :: 0 <= j < taken - 1 ==> queue[j].key != key)
            && (value.None? ==> (taken == tries || taken == |queue|)
                                && forall j :: 0 <= j < taken ==> queue[j].key != key)
  {
    var count := 0;
    rest := queue;
    while count < tries && rest != []
      invariant count <= tries && count <= |queue| && rest == queue[count..]
      invariant forall j :: 0 <= j < count ==> queue[j].key != key
      decreases tries - count
    {
      var message := rest[0];
      rest := rest[1..];
      count := count + 1;
      if message.key == key {
        return Some(message.value), rest;
      }
    }
    value := None;
  }

  /** The waveform the tests send: 2000 ones with the last sample set to 0. */
  function TestWave(): (w: Wave)
    ensures |w| == 2000 && w[1999] == 0.0 && forall i :: 0 <= i < 1999 ==> w[i] == 1.0
  {
    seq(2000, i => if i == 1999 then 0.0 else 1.0)
  }

  /** test_connection: the first status message reports the connection. */
  method Connection(hw: Hardware) returns (connected: Status)
    ensures connected == Status(ConnectedKey, hw.connects)
  {
    var gvs := new Gvs(hw);
    var handler := new GvsHandler(gvs, 2001, []);
    connected := handler.status[0];
  }

  /** test_create_stim: arming the test waveform reports a created stimulus. */
  method CreateStim(hw: Hardware) returns (created: Option<bool>)
    ensures created == Some(true)
  {
    var gvs := new Gvs(hw);
    var handler := new GvsHandler(gvs, 2001, [Samples(TestWave())]);
    TraceCons(Unset, [Samples(TestWave())], hw);
    assert [Samples(TestWave())][1..] == [];
    var queue := handler.status[1..];
    assert queue == [Status(StimCreatedKey, true)];
    var rest;
    created, rest := Await(queue, StimCreatedKey, |queue|);
    assert queue[0].key == StimCreatedKey;
    assert created.Some?;
    assert queue[0] == Status(StimCreatedKey, created.value);
  }

  /** test_wrong_param_type: an int on the parameter queue reports a failed
      creation. */
  method WrongParamType(hw: Hardware) returns (created: Option<bool>)
    ensures created == Some(false)
  {
    var gvs := new Gvs(hw);
    var handler := new GvsHandler(gvs, 2001, [Integer(5)]);
    TraceCons(Unset, [Integer(5)], hw);
    assert [Integer(5)][1..] == [];
    var queue := handler.status[1..];
    assert queue == [Status(StimCreatedKey, false)];
    var rest;
    created, rest := Await(queue, StimCreatedKey, |queue|);
    assert queue[0].key == StimCreatedKey;
    assert created.Some?;
    assert queue[0] == Status(StimCreatedKey, created.value);
  }

  /** test_send_stim and test_send_duplicate_stim: with a device that reports
      all 2001 samples per channel as written, the first send succeeds, the
      second fails, and the device is written to once. */
  method SendDuplicateStim(hw: Hardware) returns (first: Option<bool>, second: Option<bool>, writes: nat)
    requires hw.report(Stack(TestWave(), BlipVoltage).value) == Some(2001)
    ensures first == Some(true) && second == Some(false) && writes == 1
  {
    var gvs := new Gvs(hw);
    var handler := new GvsHandler(gvs, 2001, [Samples(TestWave()), Flag(true), Flag(true)]);
    SecondSendIsRefused(Unset, TestWave(), hw);
    var queue := handler.status[1..];
    assert queue[1] == Status(StimSentKey, true) && queue[2] == Status(StimSentKey, false);
    assert queue[0].key != StimSentKey;
    var rest;
    first, rest := Await(queue, StimSentKey, 10);
    assert |rest| == 1;
    second, rest := Await(rest, StimSentKey, 10);
    writes := |gvs.written|;
  }
}
