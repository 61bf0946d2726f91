# Algae-Level-Sensor renderer: a Dafny model

The renderer process of the Algae-Level-Sensor desktop application (`src/renderer.js`)
reads a two-channel analog sensor over a USB serial port and charts it. It:

- finds Arduino boards among the serial ports;
- opens one of them;
- decodes each received line `a,b` into the two channel samples `sense1` and `sense2`;
- once a second, pushes both samples onto two 250-element display arrays, keeping a running
  mean per channel.

This project models that core. It has five modules:

- `RollingWindow` (`rolling_window.dfy`): the arithmetic of the rolling window over exact
  reals. It holds the window size `COUNT = 250`, the sum and mean of a window, and the last `k`
  elements of an array. It also defines the mean a tick computes (`TickMean`) and the fill
  counter (`TickCount`), and the effect of repeated push/shift (`Pushes`). Its lemmas connect
  these: a filling tick recomputes the true mean; a full tick keeps a consistent mean
  consistent and keeps an inconsistent mean off by the same amount; after `n` ticks the
  display holds the last samples in order.
- `LineCodec` (`line_codec.dfy`): `split(",")` on a received line, its inverse `Join`, and
  `Decode`, the two-field guard. JavaScript's `Number` is a parameter.
- `Discovery` (`discovery.dfy`): the vendor filter `vendorId === "2341"` and the option
  label `friendlyName.split(" (")[0]`.
- `Renderer` (`renderer.dfy`): class `Dashboard`, whose fields are the module-level variables
  of the script. Each event the script reacts to is a method:
  - the 1 s tick;
  - the `c` key;
  - `closePort`/`openPort`;
  - the port's `error` handler;
  - the parser's `data` handler;
  - the start of `updatePortSelector` and its `SerialPort.list()` callback;
  - a refresh timer firing.

  The display arrays are `seq<real>` fields, and the tick reassigns them by push then shift.
  The backward `for` loop of the filling phase is a `while` loop with its invariants.
- `Wrappers` (`wrappers.dfy`): `Option`, for `null`.

The class keeps two invariants:

- `ChartValid`: both display arrays hold 250 values and `count <= 250`.
- `SessionValid`: a parser exists exactly when a port does, and `connectedPort` is never set
  to a path.

`MeanConsistent` states that `avg1` and `avg2` are the means of the last `count` display
elements. It is not an invariant, because the `c` reset breaks it. It holds at start, every
filling tick restores it, and every tick preserves it.

Where the code and the design description of the application disagree, the model follows
the code:

- **Opening a port.** The design calls opening the already-open port a no-op. In the code,
  `connectedPort` is only ever assigned `null` (lines 11 and 194). So the guard at line 201
  never fires, and every `openPort` closes and reopens. `SessionValid` records this, and
  `OpenPort` states the close-and-reopen outcome.
- **The `c` reset.** The design calls it cosmetic: the aggregator keeps its own window. In the
  code, the aggregator reads the display arrays themselves (lines 130, 132 and 137-140). After
  a reset:
  - a filling tick recomputes the mean from the zeroed arrays;
  - a full tick subtracts a zeroed head, so the mean stays off from the displayed window by
    the same amount forever (`SlideOffset`, the last ensures of `Tick`).
- **Superseded timers.** The design says a superseded timer is cancelled first. The code
  cancels only at lines 160 and 216. At lines 167, 211 and 228 it overwrites
  `portRefreshTimeout` while a timer may still be pending. `strayTimers` counts the timers
  that can then no longer be cancelled.

## Model

| member | source | states |
|---|---|---|
| RollingWindow.SumAppend | src/renderer.js:137-141 | The sum of a concatenation is the sum of the parts, which is what lets the backward loop accumulate element by element. |
| RollingWindow.FillStep | src/renderer.js:134-146 | While filling, after a push/shift the last `k + 1` elements are the old last `k` plus the new sample, and their mean is (old sum + sample) / (k + 1). |
| RollingWindow.SlideStep | src/renderer.js:129-133 | Once full, if `avg` is the mean of the 250 elements, subtracting the head over 250 and adding the sample over 250 gives the mean of the new window. |
| RollingWindow.SlideOffset | src/renderer.js:129-133 | Once full, the slid mean differs from the mean of the new window by exactly what the old mean differed from the old window's mean. |
| RollingWindow.FillTick | src/renderer.js:134-146 | While filling, the tick's mean is the mean of the last `count + 1` elements after the push/shift, whatever the previous mean was. |
| RollingWindow.SlideTick | src/renderer.js:129-133 | Once full, a mean consistent with the window stays consistent after the tick, and any offset is preserved. |
| RollingWindow.TickStep | src/renderer.js:128-155 | One tick on one channel: consistency is restored while filling and kept once full; in the full phase the offset from the true mean is unchanged. |
| RollingWindow.PushesShift | src/renderer.js:150-153 | After pushing the values `xs` one by one (push then shift), the array is `d + xs` without its first `|xs|` elements. |
| RollingWindow.PushesSnoc | src/renderer.js:150-153 | One more tick extends a run of pushes by one push/shift, so each `Tick` is one step of `Pushes`. |
| RollingWindow.PushesForget | src/renderer.js:150-153 | After at least 250 ticks the display array is exactly the last 250 samples, in tick order. |
| RollingWindow.FilledWithSamples | src/renderer.js:71-75 | From the zero-filled arrays, after `n <= 250` ticks the last `n` elements are the `n` samples, and a mean consistent with `count == n` is their mean. |
| RollingWindow.SumZeros | src/renderer.js:71 | A zero-filled array sums to 0. |
| RollingWindow.ResetBreaksMean | src/renderer.js:19-26 | After the reset to zeros, a nonzero running mean is not the mean of any last-`count` window of the display. |
| LineCodec.Split | src/renderer.js:218 | `split(",")` yields at least one field, and no field contains a comma. |
| LineCodec.SplitLength | src/renderer.js:218-219 | The number of fields is the number of commas plus one. |
| LineCodec.JoinSplit | src/renderer.js:218 | Joining the fields with commas restores the line. |
| LineCodec.SplitPrefix | src/renderer.js:218 | A comma-free prefix joins onto the first field of what follows. |
| LineCodec.SplitJoin | src/renderer.js:218 | Splitting a comma-join of comma-free fields returns exactly those fields. |
| LineCodec.DecodeAcceptsOneComma | src/renderer.js:218-219 | A line passes the two-field guard if and only if it has exactly one comma. |
| LineCodec.DecodeRecord | src/renderer.js:218-223 | The line `a,b` decodes to `(Number(a), Number(b))`, first field to channel 1. |
| Discovery.ArduinoPorts | src/renderer.js:162 | The filter keeps only ports with vendor id "2341", drops none of them, and yields no more ports than it was given. |
| Discovery.ArduinoPortsAppend | src/renderer.js:162 | The filter preserves order: filtering a concatenation concatenates the filtered parts. |
| Discovery.ArduinoPortsCount | src/renderer.js:162 | Each matching port is kept as many times as it occurs; each other port occurs zero times. |
| Discovery.ArduinoPortsIdempotent | src/renderer.js:162 | Filtering the filtered list changes nothing. |
| Discovery.PrefixBefore | src/renderer.js:176 | The label is a prefix of the name with no `" ("` starting inside it, and it ends where the first `" ("` starts, or at the end of the name when there is none. |
| Discovery.PrefixBeforeUnique | src/renderer.js:176 | Those three properties determine the label uniquely. |
| Discovery.LabelOfDecorated | src/renderer.js:176 | For `name + " (" + rest`, where `name` contains no `" ("`, the label is `name`. |
| Renderer.Dashboard.constructor | src/renderer.js:66-77 | The initial state: zero-filled arrays, `count` and the means 0 (so the means are consistent), no port, no parser, no pending timer. |
| Renderer.Dashboard.RecentSums | src/renderer.js:135-140 | The backward loop sums exactly the last `count` elements of each display array. |
| Renderer.Dashboard.NextMeans | src/renderer.js:129-146 | The means and counter the tick computes equal `TickMean`/`TickCount` of the current state, whose meaning the `RollingWindow` lemmas give. |
| Renderer.Dashboard.Tick | src/renderer.js:128-155 | Both arrays keep 250 elements, drop index 0 and gain the sample at the end. `count` grows by one until 250 and then stays. A filling tick makes the means consistent. A full tick updates them incrementally, keeps consistent means consistent and keeps any offset. |
| Renderer.Dashboard.OnKeyDown | src/renderer.js:19-26 | `c` or `C` sets both arrays to 250 zeros and leaves means and `count` alone; any other key changes nothing. |
| Renderer.Dashboard.ClearRefreshTimeout | src/renderer.js:160 | No refresh timer is pending under the handle. |
| Renderer.Dashboard.SetRefreshTimeout | src/renderer.js:167 | A timer is pending under the handle; a timer that was already pending becomes unreachable and is counted as stray. |
| Renderer.Dashboard.ClosePort | src/renderer.js:188-198 | Afterwards the port is closed and both samples are 0; a second call changes nothing. |
| Renderer.Dashboard.OpenPort | src/renderer.js:200-230 | It always closes first. Afterwards the samples are 0 and the given path is the only open port, or, if the constructor throws, no port is open and the refresh timer is re-armed. |
| Renderer.Dashboard.OnPortError | src/renderer.js:208-212 | The session is closed, both samples are 0, and a refresh is re-armed. |
| Renderer.Dashboard.OnData | src/renderer.js:214-224 | Every line re-arms the refresh timer. Both samples are set from the two fields when the line decodes; otherwise both keep their values. |
| Renderer.Dashboard.RequestPortList | src/renderer.js:158-161 | The pending refresh timer is cleared before the port list is requested. |
| Renderer.Dashboard.OnRefreshTimer | src/renderer.js:167 | A firing timer, whether referenced or stray, leaves nothing pending under the handle and one fewer stray timer if it was stray. |
| Renderer.Dashboard.OnPortList | src/renderer.js:161-185 | With no Arduino: both samples are zeroed, the placeholder is shown and a retry is scheduled. Otherwise: one option per kept port, labelled, in order, and the selected path, if any, is opened as `OpenPort` states. |

## Left out

- Display work: `innerText`/`toFixed(3)` (lines 148-149, 221, 223), the placeholder and
  option DOM nodes (166, 171-177), `chart.update()`, and the sensor container style toggles
  (28-56). It is presentation with no state of the core. The selector is a value, `Selector`.
- `spinRefreshButton` (232-237) and its 200 ms timer: a cosmetic animation.
- `SerialPort`, `port.pipe(new ReadlineParser(...))` and `port.close()` (193, 204-206):
  library I/O whose code is not part of this model. The port is its path; the parser is a
  flag. Whether `new SerialPort` throws is the parameter `throws` of `OpenPort`.
- JavaScript `Number()` (218): trimming, `""` giving 0, hex, NaN. It is the parameter
  `number`, so a NaN field is accepted like any other number, as in the source.
- IEEE double rounding: means and samples are exact reals, so the drift of the incremental
  update is not modelled.
- Scheduling: `setInterval`, `setTimeout`, `clearTimeout` and the promise of
  `SerialPort.list()` are not modelled. Each callback is a method called in some order. Timers
  are the `refreshPending` flag and the `strayTimers` count.
- The choice `portSelector.value` makes after the options are rebuilt (181). It is the
  parameter `selected`, required to be one of the listed paths when there are any.
- `friendlyName` being `undefined`, where `split` would throw (176): names are strings.
- The `if (chart)` guard of the key handler (21): the chart is created when the script
  starts (240), so the guard is taken as true.
- `console.log` and `console.error` output.
- Renderer.Dashboard.OpenPort: the early return of line 201 is modelled, but `SessionValid`
  keeps `connectedPort` at `None`, so the contract only describes the close-and-reopen path.
- Renderer.Dashboard.OnPortError: the handler is for the port whose `error` event fires; the
  model assumes it is the current one.
