/** The module-level state of the renderer process (src/renderer.js) and the events that
    change it: the 1 s chart tick, a decoded serial line, port errors, the discovery
    callback, the refresh timer and the `c` key. */
module Renderer {
  import opened Wrappers
  import opened RollingWindow
  import opened LineCodec
  import opened Discovery

  /** What the port selector shows: the "No Arduino" placeholder or one option per port. */
  datatype Selector = NoArduino | Choices(entries: seq<Entry>)

  class Dashboard {
    /** `chart.data.datasets[0].data` and `chart.data.datasets[1].data`. */
    var data1: seq<real>
    var data2: seq<real>
    /** Number of ticks taken into the means, up to COUNT. */
    var count: nat
    var avg1: real
    var avg2: real
    /** Latest decoded values of the two channels. */
    var sense1: real
    var sense2: real
    /** Path of the live `SerialPort` object; None for `null`. */
    var port: Option<string>
    /** Whether a `ReadlineParser` is attached. */
    var parser: bool
    var connectedPort: Option<string>
    /** Whether the timer held in `portRefreshTimeout` is pending. */
    var refreshPending: bool
    /** Pending refresh timers whose handle was overwritten without `clearTimeout`. */
    var strayTimers: nat
    var selector: Selector

    /** Each running mean is the mean of the last `count` elements of its display array. */
    predicate MeanConsistent()
      reads this
    {
      MeanOf(data1, count, avg1) && MeanOf(data2, count, avg2)
    }

    /** The port is closed and both samples are at their zero baseline. */
    predicate IsClosed()
      reads this
    {
      sense1 == 0.0 && sense2 == 0.0 && port == None && !parser && connectedPort == None
    }

    /** Both display arrays hold COUNT values and `count` never exceeds COUNT. */
    predicate ChartValid()
      reads this
    {
      |data1| == COUNT && |data2| == COUNT && count <= COUNT
    }

    /** The session invariant: a parser exists exactly when a port does, and
        `connectedPort` is never set to a path. */
    predicate SessionValid()
      reads this
    {
      connectedPort == None && (parser <==> port.Some?)
    }

    predicate Valid()
      reads this
    {
      ChartValid() && SessionValid()
    }

    /** The state once the script has run its top level: the globals of lines 9-11 and
        66-77, the chart over the two zero arrays (line 240), and the synchronous part of
        the first `updatePortSelector()` (line 239), which clears a timer that is not set. */
    constructor ()
      ensures Valid() && MeanConsistent()
      ensures data1 == Zeros(COUNT) && data2 == Zeros(COUNT)
      ensures count == 0 && avg1 == 0.0 && avg2 == 0.0 && sense1 == 0.0 && sense2 == 0.0
      ensures port == None && !parser && connectedPort == None
      ensures !refreshPending && strayTimers == 0 && selector == Choices([])
    {
      data1, data2 := Zeros(COUNT), Zeros(COUNT);
      count, avg1, avg2, sense1, sense2 := 0, 0.0, 0.0, 0.0, 0.0;
      port, parser, connectedPort := None, false, None;
      refreshPending, strayTimers, selector := false, 0, Choices([]);
    }

    /** The backward `for` loop of the filling phase (src/renderer.js:135-140): the sums
        of the last `count` elements of both display arrays. */
    method RecentSums() returns (s1: real, s2: real)
      requires count <= COUNT && |data1| == COUNT && |data2| == COUNT
      ensures s1 == Sum(Last(data1, count)) && s2 == Sum(Last(data2, count))
    {
      s1, s2 := 0.0, 0.0;
      var i: int := COUNT - 1;
      while i >= COUNT - count
        invariant COUNT - count - 1 <= i <= COUNT - 1
        invariant s1 == Sum(data1[i + 1..]) && s2 == Sum(data2[i + 1..])
      {
        assert data1[i..][1..] == data1[i + 1..] && data2[i..][1..] == data2[i + 1..];
        s1 := s1 + data1[i];
        s2 := s2 + data2[i];
        i := i - 1;
      }
      assert data1[COUNT - count..] == Last(data1, count);
      assert data2[COUNT - count..] == Last(data2, count);
    }

    /** The mean update of the tick (src/renderer.js:129-146), returning the new `avg1`,
        `avg2` and `count`: once full, subtract the head of each display array over COUNT
        and add the new sample over COUNT; while filling, add the sample to the sum of the
        last `count` elements and divide by the incremented `count`. */
    method NextMeans() returns (a1: real, a2: real, c: nat)
      requires count <= COUNT && |data1| == COUNT && |data2| == COUNT
      ensures c == TickCount(count)
      ensures a1 == TickMean(data1, count, avg1, sense1) && a2 == TickMean(data2, count, avg2, sense2)
    {
      a1, a2, c := avg1, avg2, count;
      if c >= COUNT {
        a1 := a1 - data1[0] / (COUNT as real);
        a1 := a1 + sense1 / (COUNT as real);
        a2 := a2 - data2[0] / (COUNT as real);
        a2 := a2 + sense2 / (COUNT as real);
      } else {
        a1, a2 := RecentSums();
        a1 := a1 + sense1;
        a2 := a2 + sense2;
        c := c + 1;
        a1 := a1 / (c as real);
        a2 := a2 / (c as real);
      }
    }

    /** The body of the 1 s `setInterval` (src/renderer.js:128-155), without the text
        display and `chart.update()`: update the means, then push each sample onto its
        display array and shift the oldest element out. While filling, the means become
        consistent with the display; once full, a consistent mean stays consistent and an
        inconsistent one keeps its offset. */
    method Tick()
      requires ChartValid()
      modifies this`data1, this`data2, this`count, this`avg1, this`avg2
      ensures ChartValid()
      ensures data1 == (old(data1) + [sense1])[1..] && data2 == (old(data2) + [sense2])[1..]
      ensures count == if old(count) < COUNT then old(count) + 1 else COUNT
      ensures old(count) < COUNT ==> MeanConsistent()
      ensures old(count) == COUNT ==>
        avg1 == old(avg1) - old(data1)[0] / (COUNT as real) + sense1 / (COUNT as real) &&
        avg2 == old(avg2) - old(data2)[0] / (COUNT as real) + sense2 / (COUNT as real)
      ensures old(MeanConsistent()) ==> MeanConsistent()
      ensures old(count) == COUNT ==>
        avg1 - Mean(data1) == old(avg1) - Mean(old(data1)) &&
        avg2 - Mean(data2) == old(avg2) - Mean(old(data2))
    {
      ghost var d1, d2, m1, m2, c0 := data1, data2, avg1, avg2, count;
      var a1, a2, c := NextMeans();
      avg1, avg2, count := a1, a2, c;
      data1, data2 := (data1 + [sense1])[1..], (data2 + [sense2])[1..];
      TickStep(d1, c0, m1, sense1);
      TickStep(d2, c0, m2, sense2);
    }

    /** The `keydown` handler (src/renderer.js:19-26): `c` or `C` replaces both display
        arrays by COUNT zeros; the means and `count` are left as they are, so a nonzero
        mean no longer matches the display (`ResetBreaksMean`). */
    method OnKeyDown(key: string)
      requires ChartValid()
      modifies this`data1, this`data2
      ensures ChartValid()
      ensures key == "c" || key == "C" ==> data1 == Zeros(COUNT) && data2 == Zeros(COUNT)
      ensures !(key == "c" || key == "C") ==> data1 == old(data1) && data2 == old(data2)
    {
      if key == "c" || key == "C" {
        data1 := Zeros(COUNT);
        data2 := Zeros(COUNT);
      }
    }

    /** `clearTimeout(portRefreshTimeout)`. */
    method ClearRefreshTimeout()
      modifies this`refreshPending
      ensures !refreshPending
    {
      refreshPending := false;
    }

    /** `portRefreshTimeout = setTimeout(updatePortSelector, 1000)`: a timer still pending
        under the old handle is no longer reachable. */
    method SetRefreshTimeout()
      modifies this`refreshPending, this`strayTimers
      ensures refreshPending
      ensures strayTimers == old(strayTimers) + if old(refreshPending) then 1 else 0
    {
      if refreshPending {
        strayTimers := strayTimers + 1;
      }
      refreshPending := true;
    }

    /** `closePort` (src/renderer.js:188-198). */
    method ClosePort()
      requires SessionValid()
      modifies this`sense1, this`sense2, this`port, this`parser, this`connectedPort
      ensures SessionValid() && IsClosed()
      ensures old(IsClosed()) ==> unchanged(this)
    {
      sense1 := 0.0;
      sense2 := 0.0;
      if port.Some? {
        connectedPort := None;
        port := None;
        parser := false;
      }
    }

    /** `openPort(path)` (src/renderer.js:200-230). `throws` says whether
        `new SerialPort(...)` throws; the catch branch then closes again and re-arms the
        refresh timer without clearing it. Since `connectedPort` is never set to a path,
        the early return never happens and every call closes and reopens. */
    method OpenPort(path: string, throws: bool)
      requires SessionValid()
      modifies this`sense1, this`sense2, this`port, this`parser, this`connectedPort,
        this`refreshPending, this`strayTimers
      ensures SessionValid()
      ensures sense1 == 0.0 && sense2 == 0.0 && connectedPort == None
      ensures port == (if throws then None else Some(path)) && parser == !throws
      ensures throws ==> (refreshPending &&
        strayTimers == old(strayTimers) + if old(refreshPending) then 1 else 0)
      ensures !throws ==> refreshPending == old(refreshPending) && strayTimers == old(strayTimers)
    {
      if connectedPort == Some(path) {
        return;
      }
      ClosePort();
      if throws {
        ClosePort();
        SetRefreshTimeout();
      } else {
        port := Some(path);
        parser := true;
      }
    }

    /** The port's `error` handler (src/renderer.js:208-212). */
    method OnPortError()
      requires SessionValid()
      modifies this`sense1, this`sense2, this`port, this`parser, this`connectedPort,
        this`refreshPending, this`strayTimers
      ensures SessionValid() && IsClosed()
      ensures refreshPending
      ensures strayTimers == old(strayTimers) + if old(refreshPending) then 1 else 0
    {
      ClosePort();
      SetRefreshTimeout();
    }

    /** The parser's `data` handler (src/renderer.js:214-224): the refresh timer is
        cleared and re-armed for every line, then both samples are taken from a
        two-field line and kept otherwise. */
    method OnData(line: string, number: string -> real)
      modifies this`sense1, this`sense2, this`refreshPending, this`strayTimers
      ensures refreshPending && strayTimers == old(strayTimers)
      ensures Decode(line, number).Some? ==> (sense1, sense2) == Decode(line, number).value
      ensures Decode(line, number).None? ==> sense1 == old(sense1) && sense2 == old(sense2)
    {
      ClearRefreshTimeout();
      SetRefreshTimeout();
      var value := Split(line, SEPARATOR);
      if |value| != 2 {
        return;
      }
      sense1 := number(value[0]);
      sense2 := number(value[1]);
    }

    /** The synchronous start of `updatePortSelector` (src/renderer.js:158-161), run by
        the refresh button and by the refresh timer; the port list arrives later through
        `OnPortList`. */
    method RequestPortList()
      modifies this`refreshPending
      ensures !refreshPending
    {
      ClearRefreshTimeout();
    }

    /** A pending refresh timer fires: the referenced one when `stray` is false, an
        overwritten one otherwise. Either way it runs `updatePortSelector`. */
    method OnRefreshTimer(stray: bool)
      requires stray ==> strayTimers > 0
      requires !stray ==> refreshPending
      modifies this`refreshPending, this`strayTimers
      ensures !refreshPending
      ensures strayTimers == old(strayTimers) - if stray then 1 else 0
    {
      if stray {
        strayTimers := strayTimers - 1;
      } else {
        refreshPending := false;
      }
      RequestPortList();
    }

    /** The `SerialPort.list()` callback (src/renderer.js:161-185). `selected` is the value
        the selector takes after it is repopulated, one of the listed paths; `throws` is
        passed on to `openPort`. */
    method OnPortList(ports: seq<PortInfo>, selected: string, throws: bool)
      requires SessionValid()
      requires ArduinoPorts(ports) != [] ==> exists p :: p in ArduinoPorts(ports) && p.path == selected
      modifies this`selector, this`sense1, this`sense2, this`port, this`parser, this`connectedPort,
        this`refreshPending, this`strayTimers
      ensures SessionValid()
      ensures ArduinoPorts(ports) == [] ==>
        selector == NoArduino && sense1 == 0.0 && sense2 == 0.0 &&
        port == old(port) && parser == old(parser) && refreshPending &&
        strayTimers == old(strayTimers) + (if old(refreshPending) then 1 else 0)
      ensures ArduinoPorts(ports) != [] ==> selector == Choices(Entries(ArduinoPorts(ports)))
      ensures ArduinoPorts(ports) != [] && selected != "" ==>
        sense1 == 0.0 && sense2 == 0.0 &&
        port == (if throws then None else Some(selected)) && parser == !throws &&
        (throws ==> (refreshPending &&
           strayTimers == old(strayTimers) + (if old(refreshPending) then 1 else 0))) &&
        (!throws ==> refreshPending == old(refreshPending) && strayTimers == old(strayTimers))
      ensures ArduinoPorts(ports) != [] && selected == "" ==>
        sense1 == old(sense1) && sense2 == old(sense2) && port == old(port) &&
        parser == old(parser) && refreshPending == old(refreshPending) &&
        strayTimers == old(strayTimers)
    {
      var candidates := ArduinoPorts(ports);
      if |candidates| == 0 {
        sense1 := 0.0;
        sense2 := 0.0;
        selector := NoArduino;
        SetRefreshTimeout();
        return;
      }
      selector := Choices(Entries(candidates));
      if selected != "" {
        OpenPort(selected, throws);
      }
    }
  }
}
