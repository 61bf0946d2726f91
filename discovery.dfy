/** The pure part of port discovery (src/renderer.js:161-185): keep the ports of the
    expected vendor, in order, and label each one by its friendly name. */
module Discovery {
  import opened Wrappers

  /** Vendor id of the boards the application talks to (src/renderer.js:162). */
  const VENDOR_ID: string := "2341"

  /** Separator that ends the label inside a friendly name (src/renderer.js:176). */
  const LABEL_END: string := " ("

  /** One entry of `SerialPort.list()`; `vendorId` may be undefined. */
  datatype PortInfo = PortInfo(path: string, vendorId: Option<string>, friendlyName: string)

  /** One option of the port selector: its value and its visible text. */
  datatype Entry = Entry(path: string, text: string)

  /** `port.vendorId === "2341"`. */
  predicate IsArduino(p: PortInfo)
  {
    p.vendorId == Some(VENDOR_ID)
  }

  /** `ports.filter((port) => port.vendorId === "2341")`. */
  function ArduinoPorts(ports: seq<PortInfo>): (r: seq<PortInfo>)
    ensures |r| <= |ports|
    ensures forall i :: 0 <= i < |r| ==> IsArduino(r[i]) && r[i] in ports
    ensures forall i :: 0 <= i < |ports| && IsArduino(ports[i]) ==> ports[i] in r
  {
    if ports == [] then []
    else (if IsArduino(ports[0]) then [ports[0]] else []) + ArduinoPorts(ports[1..])
  }

  /** The filter preserves order: filtering a concatenation concatenates the filtered parts. */
  lemma {:induction false} ArduinoPortsAppend(a: seq<PortInfo>, b: seq<PortInfo>)
    ensures ArduinoPorts(a + b) == ArduinoPorts(a) + ArduinoPorts(b)
  {
    if a == [] {
      assert a + b == b;
    } else {
      assert (a + b)[1..] == a[1..] + b;
      ArduinoPortsAppend(a[1..], b);
    }
  }

  /** Every matching port is kept as often as it occurs, every other port is dropped. */
  lemma {:induction false} ArduinoPortsCount(ports: seq<PortInfo>, p: PortInfo)
    ensures multiset(ArduinoPorts(ports))[p] == if IsArduino(p) then multiset(ports)[p] else 0
  {
    if ports != [] {
      ArduinoPortsCount(ports[1..], p);
      assert ports == [ports[0]] + ports[1..];
    }
  }

  /** Filtering twice is filtering once. */
  lemma {:induction false} ArduinoPortsIdempotent(ports: seq<PortInfo>)
    ensures ArduinoPorts(ArduinoPorts(ports)) == ArduinoPorts(ports)
  {
    if ports != [] {
      ArduinoPortsIdempotent(ports[1..]);
      var head := if IsArduino(ports[0]) then [ports[0]] else [];
      ArduinoPortsAppend(head, ArduinoPorts(ports[1..]));
      assert ArduinoPorts(head) == head by {
        if head != [] {
          assert head[1..] == [];
        }
      }
    }
  }

  /** `sep` occurs in `s` starting at index `i`. */
  predicate OccursAt(s: string, sep: string, i: nat)
  {
    i + |sep| <= |s| && s[i..i + |sep|] == sep
  }

  /** `s.split(sep)[0]`: the part of `s` before the first occurrence of `sep`, or all of `s`
      when `sep` does not occur (then the third clause forces `|r| == |s|`). */
  function PrefixBefore(s: string, sep: string): (r: string)
    requires |sep| > 0
    ensures r <= s
    ensures forall i :: 0 <= i < |r| ==> !OccursAt(s, sep, i)
    ensures |r| < |s| ==> OccursAt(s, sep, |r|)
    decreases |s|
  {
    if OccursAt(s, sep, 0) then ""
    else if s == [] then ""
    else
      var r := [s[0]] + PrefixBefore(s[1..], sep);
      assert forall i :: 0 < i < |s| ==> (OccursAt(s, sep, i) <==> OccursAt(s[1..], sep, i - 1)) by {
        forall i | 0 < i < |s|
          ensures OccursAt(s, sep, i) <==> OccursAt(s[1..], sep, i - 1)
        {
          if i + |sep| <= |s| {
            assert s[i..i + |sep|] == s[1..][i - 1..i - 1 + |sep|];
          }
        }
      }
      r
  }

  /** `friendlyName.split(" (")[0]`. */
  function Label(friendlyName: string): string
  {
    PrefixBefore(friendlyName, LABEL_END)
  }

  /** The three properties of `PrefixBefore` pin its result down: any prefix of `s` that
      reaches up to, and not past, the first occurrence of `sep` (or to the end) is it;
      this follows from the contract of `PrefixBefore` alone. */
  lemma PrefixBeforeUnique(s: string, sep: string, r: string)
    requires |sep| > 0
    requires r <= s
    requires forall i :: 0 <= i < |r| ==> !OccursAt(s, sep, i)
    requires |r| < |s| ==> OccursAt(s, sep, |r|)
    ensures r == PrefixBefore(s, sep)
  {
  }

  /** A label followed by ` (` and any suffix labels as itself, when the label has no ` (`
      of its own. */
  lemma LabelOfDecorated(name: string, rest: string)
    requires forall i :: 0 <= i < |name| ==> !OccursAt(name + LABEL_END + rest, LABEL_END, i)
    ensures Label(name + LABEL_END + rest) == name
  {
    var s := name + LABEL_END + rest;
    assert s[|name|..|name| + 2] == LABEL_END;
    PrefixBeforeUnique(s, LABEL_END, name);
  }

  /** The selector options for the kept ports: value `path`, text the label. */
  function Entries(ports: seq<PortInfo>): seq<Entry>
  {
    seq(|ports|, i requires 0 <= i < |ports| => Entry(ports[i].path, Label(ports[i].friendlyName)))
  }
}
