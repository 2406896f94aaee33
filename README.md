# SimpleEQ editor analysis core in Dafny

This project models the display-side analysis pipeline of the SimpleEQ plugin editor
(`Source/PluginEditor.cpp`). It covers four parts:

- **Path producer** (`PathProducer::process`). Each complete audio block read from the
  channel's FIFO is shifted into a fixed-length mono analysis window in place. The window as
  it then stands goes to the FFT data generator with a -48 dB floor. Every FFT data block is
  then turned into a render path, and the path queue is drained so that the newest path is the
  one on display. Files: `sliding_window.dfy` (the window as a value) and `path_producer.dfy`
  (the `PathProducer` class over an `array<real>`, with the queues as `seq` fields).
- **Change coalescer** (`parameterValueChanged`, `timerCallback`, `updateChain`). Every
  parameter notification sets one flag. Every timer tick processes both channels, tests and
  clears the flag, rebuilds the display filter chain only if the flag was set, and always asks
  for a repaint. Files: `change_coalescer.dfy` (the flag as a state machine over event
  sequences) and `response_curve_component.dfy` (the `ResponseCurveComponent` class).
- **Response curve** (`paint`). For each of the `w` columns of the analysis area, the magnitudes
  of the stages that are not bypassed are multiplied together, starting from 1. The stages
  are peak, low cut 0-3 and high cut 0-3. The product is converted to decibels and mapped
  linearly from [-24, 24] dB onto [bottom, top] pixel rows. The curve has one point per column,
  at `x = area.x + i`. File: `response_curve.dfy`.
- **Labels** (`getDisplayString`, the frequency-grid labels in `resized`). File: `labels.dfy`.

Samples, decibels and pixel coordinates are `real`. The numerics the source calls but does not
define are function-typed parameters, and the model does not compute their values: the FFT data
generator, the path generator, filter design, `getMagnitudeForFrequency`,
`Decibels::gainToDecibels`, `mapToLog10` and `juce::String` number formatting. Two properties
take a fact about them as a hypothesis: `ResponseCurve.FlatChainDrawsMidline` assumes that
`gainToDecibels` maps unity gain to 0 dB, and `ResponseCurve.ColumnFrequencyIncreasing` assumes
that `mapToLog10` rises with its proportion. The FFT size passed to the path generator is the
window length.

Three modelling choices follow directly from the code:

- A block longer than the window makes the copy count at line 232 negative, so the model
  requires every block to fit (`BlocksFit`).
- `paint` reads `mags.front()` even when the area has no columns, so the curve methods
  require a positive width.
- In `paint` the nine `if (!bypassed) mag *= ...` statements become a loop over the nine
  stages, in the same order.

## Model

| member | source | states |
|---|---|---|
| SlidingWindow.Ingest | Source/PluginEditor.cpp:229-236 | shifting in a block of size s <= N keeps length N; the first N-s samples are the old samples from s on, the last s are the block; a block of size N replaces the window |
| SlidingWindow.IngestAll | Source/PluginEditor.cpp:225-236 | ingesting a whole FIFO's worth of blocks keeps the window length |
| SlidingWindow.Windows | Source/PluginEditor.cpp:225-238 | one window per ingested block, each of the window's length |
| SlidingWindow.IngestTwice | Source/PluginEditor.cpp:229-236 | ingesting a then b (|a|+|b| <= N) gives the same window as ingesting a ++ b |
| SlidingWindow.WindowsAt | Source/PluginEditor.cpp:225-238 | the window handed to the FFT for the k-th block is the window after the first k+1 blocks |
| SlidingWindow.LastWindow | Source/PluginEditor.cpp:225-238 | the last window handed to the FFT is the final window |
| SlidingWindow.IngestAllKeepsRecent | Source/PluginEditor.cpp:225-236 | the window always equals the last N samples of the old window followed by every sample delivered |
| SlidingWindow.FullHistoryWindow | Source/PluginEditor.cpp:225-236 | once at least N samples have arrived, the window is exactly the last N of them, whatever it held before |
| SlidingWindow.ChunkingIrrelevant | Source/PluginEditor.cpp:225-236 | the same samples cut into blocks differently give the same window |
| PathProducing.AfterProcess | Source/PluginEditor.cpp:221-262 | after process the audio FIFO, the FFT data queue and the path queue are all empty and the window keeps its length |
| PathProducing.ProcessWindowIsRecentHistory | Source/PluginEditor.cpp:225-240 | after process the window is the most recent N samples of old window plus FIFO contents |
| PathProducing.ProcessShowsLatestWindow | Source/PluginEditor.cpp:225-261 | when blocks were read, the displayed path is generated (bin width sampleRate / fftSize, floor -48) from the FFT data of the window after the last block |
| PathProducing.ProcessIdleIsIdentity | Source/PluginEditor.cpp:225-261 | with nothing queued, process leaves window and displayed path unchanged |
| PathProducing.ProcessIdempotent | Source/PluginEditor.cpp:221-262 | a second process with no new audio changes nothing |
| PathProducing.BinWidth | Source/PluginEditor.cpp:246 | the bin width times the FFT size is the sample rate; it is positive for a positive sample rate |
| PathProducing.NewestPath | Source/PluginEditor.cpp:257-261 | the displayed path is the current one or one from the queue, and it is the last queued path whenever the queue is non-empty |
| PathProducing.NewestPathDiscardsOlder | Source/PluginEditor.cpp:257-261 | draining a queue in two parts shows the same path as draining it at once: only the newest path counts |
| PathProducing.PathProducer.ShiftIn | Source/PluginEditor.cpp:229-236 | the in-place copy left by size and the copy of the block into the tail leave the array equal to Ingest of the old contents |
| PathProducing.PathProducer.DrainAudioFifo | Source/PluginEditor.cpp:225-240 | the FIFO ends empty, the window is IngestAll of the old FIFO, and one FFT data block per block was queued, in FIFO order, from the window after that block, floor -48 |
| PathProducing.PathProducer.DrainFFTData | Source/PluginEditor.cpp:243-255 | the FFT data queue ends empty and one path per FFT data block was queued, in order, with fftSize and binWidth |
| PathProducing.PathProducer.DrainPaths | Source/PluginEditor.cpp:257-261 | the path queue ends empty and the displayed path is the last queued path, or unchanged if none |
| PathProducing.PathProducer.Process | Source/PluginEditor.cpp:221-262 | the producer's new state is AfterProcess of its old state |
| ChangeCoalescer.Notify | Source/PluginEditor.cpp:216-219 | a notification sets the flag and leaves the rebuild and repaint counts unchanged |
| ChangeCoalescer.Tick | Source/PluginEditor.cpp:272-280 | a tick leaves the flag clear, adds one rebuild exactly when the flag was set, and one repaint |
| ChangeCoalescer.Run | Source/PluginEditor.cpp:216-280 | over any event sequence the rebuild and repaint counts never decrease, and the flag is clear after a sequence ending in a tick |
| ChangeCoalescer.BurstSetsFlag | Source/PluginEditor.cpp:216-219 | one or more notifications set the flag and change nothing else |
| ChangeCoalescer.BurstCoalesces | Source/PluginEditor.cpp:216-280 | k >= 1 notifications followed by a tick give exactly one chain rebuild and one repaint, and leave the flag false |
| ChangeCoalescer.IdleTicksOnlyRepaint | Source/PluginEditor.cpp:272-280 | ticks with the flag false rebuild nothing and each repaints once |
| ChangeCoalescer.RebuildsBounded | Source/PluginEditor.cpp:216-280 | over any event sequence: repaints equal ticks, rebuilds are at most ticks, and at most notifications (plus an initially set flag) |
| ChangeCoalescer.FlagTracksLatestEvent | Source/PluginEditor.cpp:216-278 | the flag is set exactly when the latest event was a notification |
| Editor.ResponseCurveComponent.constructor | Source/PluginEditor.cpp:184-205 | two distinct producers are built, each with a silent window of the FFT size and empty FIFO, queues and path; the chain is built once; the flag starts false |
| Editor.ResponseCurveComponent.ParameterValueChanged | Source/PluginEditor.cpp:216-219 | a notification only sets the flag |
| Editor.ResponseCurveComponent.UpdateChain | Source/PluginEditor.cpp:283-294 | the display chain is rebuilt from the current settings and the rebuild count goes up by one |
| Editor.ResponseCurveComponent.TimerCallback | Source/PluginEditor.cpp:264-281 | both producers are processed; the flag is tested and cleared; the chain is rebuilt exactly when it was set; a repaint always happens |
| Editor.ResponseCurveComponent.Paint | Source/PluginEditor.cpp:304-361 | the response curve has one point per column at x = area.x + i, on the row of that column's decibel value |
| Editor.NotifyTwiceThenTick | Source/PluginEditor.cpp:184-281 | a new component, two notifications, then a tick: the chain has been built twice and the flag is clear |
| Editor.FiftyNotificationsOneRebuild | Source/PluginEditor.cpp:216-280 | fifty notifications between two ticks give one rebuild |
| ResponseCurve.CascadeIsProductOfActive | Source/PluginEditor.cpp:318-345 | the running product over the nine stages equals the product of the magnitudes of exactly the non-bypassed stages |
| ResponseCurve.Cascade | Source/PluginEditor.cpp:320-343 | with every stage bypassed the running product stays at its initial value 1 |
| ResponseCurve.ColumnFrequency | Source/PluginEditor.cpp:321 | column 0 is evaluated at the log map's start (20 Hz for a 20 Hz to 20 kHz map) |
| ResponseCurve.ColumnFrequencyIncreasing | Source/PluginEditor.cpp:321 | when the log map rises with its proportion, a column further right is evaluated at a strictly higher frequency |
| ResponseCurve.ColumnDb | Source/PluginEditor.cpp:318-344 | a column's value is the decibels of the product of the magnitudes of exactly the non-bypassed stages at that column's frequency |
| ResponseCurve.BypassedCoefficientsIrrelevant | Source/PluginEditor.cpp:323-342 | a bypassed stage's coefficients do not affect the magnitude |
| ResponseCurve.DbToY | Source/PluginEditor.cpp:349-354 | -24 dB maps to the bottom row, +24 dB to the top row, 0 dB to the midpoint |
| ResponseCurve.DbToYRoundTrip | Source/PluginEditor.cpp:349-354 | the dB-to-pixel map is inverted by the pixel-to-dB map |
| ResponseCurve.DbToYMonotone | Source/PluginEditor.cpp:349-354 | with top above bottom, more gain is drawn strictly higher |
| ResponseCurve.GainGridRows | Source/PluginEditor.cpp:419-426 | five gain grid rows: -24 dB at the bottom, +24 dB at the top, 0 dB at the midpoint, in four equal steps |
| ResponseCurve.ResponseMagnitudes | Source/PluginEditor.cpp:314-345 | exactly w values; value i is the decibels of the product of the non-bypassed stage magnitudes at column i's frequency |
| ResponseCurve.CurvePoints | Source/PluginEditor.cpp:347-361 | one point per magnitude, the i-th at x = area.x + i, whose row maps back to that magnitude's dB value |
| ResponseCurve.FlatChainDrawsMidline | Source/PluginEditor.cpp:318-361 | with every stage bypassed (and unity gain as 0 dB) every point lies on the middle row |
| Labels.Scale | Source/PluginEditor.cpp:155-164 | a value is shown in thousands with two decimals exactly when above 999, else with decimals argument 0; number times the k multiplier gives back the value |
| Labels.UnitText | Source/PluginEditor.cpp:171-178 | nothing for an empty suffix; else " " or " k" followed by the suffix |
| Labels.DisplayString | Source/PluginEditor.cpp:147-181 | a choice parameter's text is its current choice name, unchanged |
| Labels.FloatDisplay | Source/PluginEditor.cpp:152-178 | a float's text is fmt(val/1000, 2) iff val > 999 else fmt(val, 0), then " k"/" " + suffix only when the suffix is non-empty |
| Labels.EmptySuffixDropsKilo | Source/PluginEditor.cpp:171-178 | with an empty suffix a value above 999 loses its "k" |
| Labels.FrequencyDisplayUnits | Source/PluginEditor.cpp:155-178 | with suffix "Hz" the text ends in " kHz" exactly when the value exceeds 999, else in " Hz" |
| Labels.FrequencyLabel | Source/PluginEditor.cpp:443-453 | a grid label always ends in "Hz" |
| Labels.GridLabels | Source/PluginEditor.cpp:438-453 | ten labels; the grid lines 20-500 Hz are labelled fmt(f) + "Hz" and 1k-20k fmt(f/1000) + "kHz" |
| Labels.KiloRuleShared | Source/PluginEditor.cpp:443-453 | grid labels and slider text both use "k" for frequencies above 999 |

## Left out

- Drawing and layout: `LookAndFeel::drawRotarySlider`, `RotarySliderWithLabels::paint`, the
  editor's `paint`/`resized`, rendering of the background grid, `getSliderBounds`,
  `getRenderArea`, `getAnalysisArea`, and the text positions and colours. These are graphics
  calls whose geometry is not defined in this file.
- The gain labels of the grid (`+12`, `-12`, the second column at `gDb - 24`, lines 465-490):
  these are drawing text, not part of the analysis pipeline.
- The FFT data generator, the path generator, and the channel FIFO internals
  (`produceFFTDataForRendering`, `getFFTData`, `generatePath`, `getAudioBuffer`) live in
  files that are not part of this model. Their results are given functions. The bounded
  capacity of their queues, and the drop-when-full behaviour, are not modelled: every push is
  accepted.
- A read from a queue never fails when the queue reports data available. The `if` around
  `getAudioBuffer` and `getFFTData` therefore always takes its success branch.
- The right channel's FIFO is a separate sequence. The audio thread that fills it is not modelled.
- Filter design (`getChainSettings`, `makePeakFilter`, `makeLoCutFilter`, `makeHiCutFilter`,
  `updateCutFilter`, `updateCoefficients`) is a given function from settings and sample rate
  to a chain. Which cut stages it bypasses for a slope is therefore not modelled.
- `getMagnitudeForFrequency`, `Decibels::gainToDecibels`, `mapToLog10`, `mapFromLog10` and
  `juce::String` number formatting are given functions. Floating-point rounding of `float`
  and `double` is not modelled: all arithmetic is on exact reals.
- Listener registration and removal (lines 190-194, 209-213), the 60 Hz timer start
  (line 204), and the cross-thread atomicity of `parametersChanged`. The flag is modelled as
  a sequential test-and-clear.
- `PathProducing.PathProducer.ShiftIn`: `FloatVectorOperations::copy` is a library copy whose
  behaviour on overlapping ranges is not part of this model. The model copies front to back,
  which is what the shift needs.
- PathProducer's constructor is declared outside `Source/PluginEditor.cpp` and is not part of
  this model. The model's constructor starts with a silent window and empty queues.
- The FFT size: `process` asks the FFT data generator for its size (line 243). The model takes
  it to be the window length, which holds when the window is sized from the same order as the
  generator; the generator is not part of this model.
- `Editor.ResponseCurveComponent.UpdateChain` replaces the whole display chain with the newly
  designed one, whereas the source updates the existing chain's coefficients and bypass flags
  in place (lines 287, 292-293). Any state of the old chain beyond its coefficients and bypass
  flags is not carried over; `ResponseCurve.BypassedCoefficientsIrrelevant` shows that stale
  coefficients of a bypassed stage cannot change the drawn curve.
