/**
 * Port discovery of Experiment/arduino.py: `ArduinoConnect.connect` scans the
 * listed serial ports and opens the last one whose description contains the
 * device name.  The port listing is an input; opening the port is recorded as
 * the handle's settings.
 */
module SerialPorts {
  import opened Options

  /** Constructor defaults and the read timeout used when opening the port. */
  const DefaultDeviceName: string := "ttyACM0"
  const DefaultBaudrate: int := 9600
  const ReadTimeout: int := 2

  /** A listed port: its device name (`port[0]`) and description (`port[1]`). */
  datatype Port = Port(device: string, description: string)

  /** An open serial handle, by the settings it was opened with. */
  datatype Serial = Serial(port: string, baudrate: int, timeout: int)

  /** What `connect` returns: the (falsy) `cport` when no device was found, or
      the opened handle. */
  datatype Connection = NotFound(cport: Option<string>) | Opened(serial: Serial)

  /** `needle` occurs in `hay` starting at index `i`. */
  predicate OccursAt(hay: string, needle: string, i: int)
  {
    0 <= i && i + |needle| <= |hay| && hay[i..i + |needle|] == needle
  }

  /** Python's `needle in hay` on strings, scanning `hay` from the front. */
  function Contains(hay: string, needle: string): bool
    decreases |hay|
  {
    needle <= hay || (hay != [] && Contains(hay[1..], needle))
  }

  /** `Contains` is substring search: it holds exactly when `needle` occurs
      somewhere in `hay` (the empty string occurs everywhere). */
  lemma {:induction false} ContainsIsSubstring(hay: string, needle: string)
    ensures Contains(hay, needle) <==> exists i :: OccursAt(hay, needle, i)
    decreases |hay|
  {
    if needle <= hay {
      assert OccursAt(hay, needle, 0);
    } else if hay == [] {
      assert forall i :: !OccursAt(hay, needle, i);
    } else {
      ContainsIsSubstring(hay[1..], needle);
      forall i | OccursAt(hay[1..], needle, i)
        ensures OccursAt(hay, needle, i + 1)
      {
        assert hay[1..][i..i + |needle|] == hay[i + 1..i + 1 + |needle|];
      }
      forall i | OccursAt(hay, needle, i)
        ensures OccursAt(hay[1..], needle, i - 1)
      {
        assert i > 0;
        assert hay[1..][i - 1..i - 1 + |needle|] == hay[i..i + |needle|];
      }
    }
  }

  /** Whether the listed port `p` describes the device `name`. */
  predicate Describes(p: Port, name: string)
  {
    Contains(p.description, name)
  }

  /** Python truthiness of `cport`: None and the empty string are false. */
  predicate Truthy(cport: Option<string>)
  {
    cport.Some? && cport.value != ""
  }

  /** The index of the last listed port whose description contains `name`,
      or -1 when there is none. */
  function LastMatchIndex(ports: seq<Port>, name: string): (k: int)
    ensures -1 <= k < |ports|
    ensures k >= 0 ==> Describes(ports[k], name)
    ensures forall j :: k < j < |ports| ==> !Describes(ports[j], name)
    decreases |ports|
  {
    if ports == [] then -1
    else if Describes(ports[|ports| - 1], name) then |ports| - 1
    else
      var k := LastMatchIndex(ports[..|ports| - 1], name);
      assert forall j :: k < j < |ports| - 1 ==> ports[..|ports| - 1][j] == ports[j];
      k
  }

  /** The value of `cport` after the scan: the device of the last listed port
      whose description contains `name`, and the earlier value when no port
      does (the scan never resets it). */
  function LastMatch(ports: seq<Port>, name: string, prev: Option<string>): (r: Option<string>)
    ensures (forall j :: 0 <= j < |ports| ==> !Describes(ports[j], name)) ==> r == prev
    ensures (exists j :: 0 <= j < |ports| && Describes(ports[j], name))
            ==> exists k :: 0 <= k < |ports| && Describes(ports[k], name) && r == Some(ports[k].device)
                            && forall j :: k < j < |ports| ==> !Describes(ports[j], name)
  {
    var k := LastMatchIndex(ports, name);
    if k < 0 then prev else Some(ports[k].device)
  }

  class ArduinoConnect {
    const deviceName: string
    const baudrate: int
    var cport: Option<string>
    var serialIn: Option<Serial>
    /** Set once `quit` has been called on the device. */
    var released: bool

    constructor (deviceName: string := DefaultDeviceName, baudrate: int := DefaultBaudrate)
      ensures this.deviceName == deviceName && this.baudrate == baudrate
      ensures cport == None && serialIn == None && !released
    {
      this.deviceName := deviceName;
      this.baudrate := baudrate;
      cport := None;
      serialIn := None;
      released := false;
    }

    /** `connect`: scans `comports` in order, keeping the device of every port
        whose description contains the device name; without a match it returns
        the falsy `cport` and opens nothing, otherwise it opens that port. */
    method Connect(comports: seq<Port>) returns (r: Connection)
      modifies this`cport, this`serialIn
      ensures cport == LastMatch(comports, deviceName, old(cport))
      ensures !Truthy(cport) ==> r == NotFound(cport) && serialIn == old(serialIn)
      ensures Truthy(cport) ==> serialIn == Some(Serial(cport.value, baudrate, ReadTimeout)) && r == Opened(serialIn.value)
    {
      for k := 0 to |comports|
        invariant cport == LastMatch(comports[..k], deviceName, old(cport))
        invariant serialIn == old(serialIn)
      {
        assert comports[..k + 1][..k] == comports[..k];
        assert comports[..k + 1][k] == comports[k];
        if Contains(comports[k].description, deviceName) {
          cport := Some(comports[k].device);
        }
      }
      assert comports[..|comports|] == comports;
      if !Truthy(cport) {
        return NotFound(cport);
      }
      serialIn := Some(Serial(cport.value, baudrate, ReadTimeout));
      r := Opened(serialIn.value);
    }

    /** `quit`, which the trigger worker calls on its device. */
    method Quit()
      modifies this`released
      ensures released
    {
      released := true;
    }
  }
}
