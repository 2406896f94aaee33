/** The response curve component: it owns the left and right path producers and a display
    copy of the filter chain, latches parameter notifications in one flag, and on every timer
    tick processes both channels, rebuilds the chain when the flag was set, and repaints. */
module Editor {
  import opened SlidingWindow
  import opened PathProducing
  import opened ChangeCoalescer
  import opened ResponseCurve

  datatype Slope = Slope12 | Slope24 | Slope36 | Slope48

  /** A snapshot of the filter parameters, read from the parameter store when the chain is rebuilt. */
  datatype ChainSettings = ChainSettings(
    peakFreq: real, peakGainInDecibels: real, peakQuality: real,
    lowCutFreq: real, highCutFreq: real, lowCutSlope: Slope, highCutSlope: Slope)

  class ResponseCurveComponent {
    const leftPathProducer: PathProducer
    const rightPathProducer: PathProducer
    /** Set by every parameter notification, tested and cleared by every timer tick. */
    var parametersChanged: bool
    /** The display copy of the filter chain. */
    var monoChain: MonoChain
    /** How many times updateChain has run. */
    var chainUpdates: nat
    /** How many repaints have been asked for. */
    var repaints: nat

    /** The two producers, and their windows, are distinct objects. */
    ghost predicate Valid()
    {
      leftPathProducer != rightPathProducer &&
      leftPathProducer.monoBuffer != rightPathProducer.monoBuffer &&
      leftPathProducer.monoBuffer.Length > 0 && rightPathProducer.monoBuffer.Length > 0
    }

    /** The component seen as the change coalescer's state. */
    function Coalescer(): CoalescerState
      reads this
    {
      CoalescerState(parametersChanged, chainUpdates, repaints)
    }

    /** Builds both producers, then builds the chain once; the flag starts clear. */
    constructor (fftSize: nat, settings: ChainSettings, sampleRate: real, design: (ChainSettings, real) -> MonoChain)
      requires fftSize > 0
      ensures Valid() && fresh(leftPathProducer) && fresh(rightPathProducer)
      ensures fresh(leftPathProducer.monoBuffer) && fresh(rightPathProducer.monoBuffer)
      ensures leftPathProducer.monoBuffer.Length == fftSize && rightPathProducer.monoBuffer.Length == fftSize
      ensures leftPathProducer.State() == ProducerState(seq(fftSize, _ => 0.0), [], [], [], [])
      ensures rightPathProducer.State() == ProducerState(seq(fftSize, _ => 0.0), [], [], [], [])
      ensures Coalescer() == CoalescerState(false, 1, 0)
      ensures monoChain == design(settings, sampleRate)
    {
      leftPathProducer := new PathProducer(fftSize);
      rightPathProducer := new PathProducer(fftSize);
      parametersChanged := false;
      chainUpdates, repaints := 0, 0;
      monoChain := design(settings, sampleRate);
      new;
      UpdateChain(settings, sampleRate, design);
    }

    /** Any parameter notification only sets the flag. */
    method ParameterValueChanged(parameterIndex: int, newValue: real)
      modifies this`parametersChanged
      ensures Coalescer() == Notify(old(Coalescer()))
    {
      parametersChanged := true;
    }

    /** Rebuilds the display chain from the current settings; the filter design itself is
        outside this model and comes in as design. */
    method UpdateChain(settings: ChainSettings, sampleRate: real, design: (ChainSettings, real) -> MonoChain)
      modifies this`monoChain, this`chainUpdates
      ensures monoChain == design(settings, sampleRate)
      ensures chainUpdates == old(chainUpdates) + 1
    {
      monoChain := design(settings, sampleRate);
      chainUpdates := chainUpdates + 1;
    }

    /** One timer tick: process both channels, then test-and-clear the flag, rebuilding the
        chain only if it was set, and repaint in every case. */
    method TimerCallback(fftBounds: Area, sampleRate: real, settings: ChainSettings,
                         a: Analyzer, design: (ChainSettings, real) -> MonoChain)
      requires Valid()
      requires BlocksFit(leftPathProducer.fifo, leftPathProducer.monoBuffer.Length)
      requires BlocksFit(rightPathProducer.fifo, rightPathProducer.monoBuffer.Length)
      modifies this, leftPathProducer, rightPathProducer, leftPathProducer.monoBuffer, rightPathProducer.monoBuffer
      ensures leftPathProducer.State() == AfterProcess(old(leftPathProducer.State()), fftBounds, sampleRate, a)
      ensures rightPathProducer.State() == AfterProcess(old(rightPathProducer.State()), fftBounds, sampleRate, a)
      ensures Coalescer() == Tick(old(Coalescer()))
      ensures monoChain == if old(parametersChanged) then design(settings, sampleRate) else old(monoChain)
    {
      leftPathProducer.Process(fftBounds, sampleRate, a);
      rightPathProducer.Process(fftBounds, sampleRate, a);
      // compareAndSetBool(false, true): clear the flag if it is set and report whether it was
      var wasSet := parametersChanged;
      if wasSet {
        parametersChanged := false;
        UpdateChain(settings, sampleRate, design);
      }
      repaints := repaints + 1;
    }

    /** The response curve paint strokes for the current chain: one point per column of the
        analysis area, at x = area.x + i, on the row of that column's decibel value. */
    method Paint(area: Area, sampleRate: real, num: Numerics) returns (responseCurve: seq<Point>)
      requires area.width > 0
      ensures |responseCurve| == area.width
      ensures forall i :: 0 <= i < area.width ==>
        responseCurve[i] == Point((area.x + i) as real,
                                  DbToY(ColumnDb(monoChain, i, area.width, sampleRate, num),
                                        (area.y + area.height) as real, area.y as real))
    {
      var mags := ResponseMagnitudes(monoChain, area.width, sampleRate, num);
      responseCurve := CurvePoints(area, mags);
    }
  }

  /** A new component, two parameter notifications, then one timer tick: the chain has been
      built twice (once by the constructor, once by the tick) and the flag is clear again. */
  method NotifyTwiceThenTick(fftSize: nat, fftBounds: Area, sampleRate: real, settings: ChainSettings,
                             a: Analyzer, design: (ChainSettings, real) -> MonoChain)
    returns (rebuilds: nat, pending: bool)
    requires fftSize > 0
    ensures rebuilds == 2 && !pending
  {
    var c := new ResponseCurveComponent(fftSize, settings, sampleRate, design);
    c.ParameterValueChanged(0, 0.5);
    c.ParameterValueChanged(1, 0.25);
    c.TimerCallback(fftBounds, sampleRate, settings, a, design);
    rebuilds, pending := c.chainUpdates, c.parametersChanged;
  }

  /** Fifty notifications between two ticks, as in a dragged slider, rebuild the chain once. */
  lemma FiftyNotificationsOneRebuild(s: CoalescerState)
    ensures Run(s, Burst(50) + [TimerTick]).chainUpdates == s.chainUpdates + 1
  {
    BurstCoalesces(s, 50);
  }
}
