/** One channel's path producer: it drains the audio FIFO into its analysis window, hands
    each new window to the FFT data generator, turns every FFT data block into a render path,
    and keeps only the newest path for display. */
module PathProducing {
  import opened SlidingWindow

  /** Decibel floor handed to both the FFT data generator and the path generator. */
  const NegativeInfinityDb: real := -48.0

  datatype Point = Point(x: real, y: real)

  type RenderPath = seq<Point>

  type FFTData = seq<real>

  /** The analysis area in pixels (a rectangle: left edge, top edge, width, height). */
  datatype Area = Area(x: int, y: int, width: int, height: int)

  /** The FFT data generator and the path generator are DSP code outside this model:
      the model takes what they compute as given functions. */
  datatype Analyzer = Analyzer(
    produceFFTData: (Samples, real) -> FFTData,
    generatePath: (FFTData, Area, nat, real, real) -> RenderPath)

  /** The state of one path producer: its window, the complete audio blocks waiting in its
      FIFO (oldest first), the FFT data generator's queue, the path generator's queue and
      the path on display. */
  datatype ProducerState = ProducerState(
    window: Samples,
    fifo: seq<Samples>,
    fftQueue: seq<FFTData>,
    pathQueue: seq<RenderPath>,
    path: RenderPath)

  /** The window is not empty and no queued block is longer than it. */
  predicate WellFormed(s: ProducerState)
  {
    |s.window| > 0 && BlocksFit(s.fifo, |s.window|)
  }

  /** Width in Hz of one FFT bin. */
  function BinWidth(sampleRate: real, fftSize: nat): (w: real)
    requires fftSize > 0
    ensures w * fftSize as real == sampleRate
    ensures sampleRate > 0.0 ==> w > 0.0
  {
    sampleRate / fftSize as real
  }

  /** The FFT data produced for each window in turn, all with the decibel floor. */
  function FFTDataFor(windows: seq<Samples>, a: Analyzer): seq<FFTData>
  {
    seq(|windows|, k requires 0 <= k < |windows| => a.produceFFTData(windows[k], NegativeInfinityDb))
  }

  /** The path generated for each FFT data block in turn. */
  function PathsFor(blocks: seq<FFTData>, bounds: Area, fftSize: nat, binWidth: real, a: Analyzer): seq<RenderPath>
  {
    seq(|blocks|, k requires 0 <= k < |blocks| => a.generatePath(blocks[k], bounds, fftSize, binWidth, NegativeInfinityDb))
  }

  /** The path on display after draining a path queue: the last one queued, else the current one. */
  function NewestPath(queue: seq<RenderPath>, current: RenderPath): (r: RenderPath)
    ensures r == current || r in queue
    ensures queue != [] ==> r == queue[|queue| - 1]
  {
    if queue == [] then current else queue[|queue| - 1]
  }

  /** Draining in two goes shows the same path as draining once: only the newest counts. */
  lemma NewestPathDiscardsOlder(older: seq<RenderPath>, newer: seq<RenderPath>, current: RenderPath)
    ensures NewestPath(older + newer, current) == NewestPath(newer, NewestPath(older, current))
  {
  }

  /** The state after one call of process: every queued audio block ingested, one FFT data
      block per ingested block, every FFT data block turned into a path, the newest path kept. */
  function AfterProcess(s: ProducerState, bounds: Area, sampleRate: real, a: Analyzer): (r: ProducerState)
    requires WellFormed(s)
    ensures WellFormed(r) && |r.window| == |s.window|
    ensures r.fifo == [] && r.fftQueue == [] && r.pathQueue == []
  {
    var fftSize := |s.window|;
    var fftQueue := s.fftQueue + FFTDataFor(Windows(s.window, s.fifo), a);
    var pathQueue := s.pathQueue + PathsFor(fftQueue, bounds, fftSize, BinWidth(sampleRate, fftSize), a);
    ProducerState(IngestAll(s.window, s.fifo), [], [], [], NewestPath(pathQueue, s.path))
  }

  /** After process the window holds the most recent samples: the old window followed by
      every sample the FIFO delivered, cut to the window length. */
  lemma ProcessWindowIsRecentHistory(s: ProducerState, bounds: Area, sampleRate: real, a: Analyzer)
    requires WellFormed(s)
    ensures AfterProcess(s, bounds, sampleRate, a).window == (s.window + Concat(s.fifo))[|Concat(s.fifo)|..]
  {
    IngestAllKeepsRecent(s.window, s.fifo);
  }

  /** When the FIFO delivered at least one block, the path on display is generated from the
      FFT data of the window after the last block. */
  lemma ProcessShowsLatestWindow(s: ProducerState, bounds: Area, sampleRate: real, a: Analyzer)
    requires WellFormed(s) && s.fifo != []
    ensures AfterProcess(s, bounds, sampleRate, a).path
         == a.generatePath(a.produceFFTData(IngestAll(s.window, s.fifo), NegativeInfinityDb),
                           bounds, |s.window|, BinWidth(sampleRate, |s.window|), NegativeInfinityDb)
  {
    LastWindow(s.window, s.fifo);
  }

  /** With nothing queued anywhere, process changes nothing. */
  lemma ProcessIdleIsIdentity(s: ProducerState, bounds: Area, sampleRate: real, a: Analyzer)
    requires WellFormed(s) && s.fifo == [] && s.fftQueue == [] && s.pathQueue == []
    ensures AfterProcess(s, bounds, sampleRate, a) == s
  {
  }

  /** A second process with no new audio in between changes nothing. */
  lemma ProcessIdempotent(s: ProducerState, bounds: Area, sampleRate: real, a: Analyzer)
    requires WellFormed(s)
    ensures AfterProcess(AfterProcess(s, bounds, sampleRate, a), bounds, sampleRate, a)
         == AfterProcess(s, bounds, sampleRate, a)
  {
  }

  class PathProducer {
    /** The analysis window; sized to the FFT size once and never reallocated. */
    const monoBuffer: array<real>
    /** Complete audio blocks waiting in the channel's FIFO, oldest first. */
    var fifo: seq<Samples>
    /** The FFT data generator's queue of results. */
    var fftQueue: seq<FFTData>
    /** The path generator's queue of paths. */
    var pathQueue: seq<RenderPath>
    /** The path on display. */
    var leftChannelFFTPath: RenderPath

    function State(): ProducerState
      reads this, monoBuffer
    {
      ProducerState(monoBuffer[..], fifo, fftQueue, pathQueue, leftChannelFFTPath)
    }

    /** A producer for FFT size fftSize, with a silent window and empty queues. */
    constructor (fftSize: nat)
      requires fftSize > 0
      ensures fresh(monoBuffer) && monoBuffer.Length == fftSize
      ensures forall k :: 0 <= k < fftSize ==> monoBuffer[k] == 0.0
      ensures fifo == [] && fftQueue == [] && pathQueue == [] && leftChannelFFTPath == []
      ensures State() == ProducerState(seq(fftSize, _ => 0.0), [], [], [], [])
    {
      monoBuffer := new real[fftSize](_ => 0.0);
      fifo, fftQueue, pathQueue, leftChannelFFTPath := [], [], [], [];
    }

    /** Shifts the window left by |block| samples and copies the block into the freed tail. */
    method ShiftIn(block: Samples)
      requires |block| <= monoBuffer.Length
      modifies monoBuffer
      ensures monoBuffer[..] == Ingest(old(monoBuffer[..]), block)
    {
      var n, size := monoBuffer.Length, |block|;
      var j := 0;
      while j < n - size
        invariant 0 <= j <= n - size
        invariant forall k :: 0 <= k < j ==> monoBuffer[k] == old(monoBuffer[k + size])
        invariant forall k :: j <= k < n ==> monoBuffer[k] == old(monoBuffer[k])
      {
        monoBuffer[j] := monoBuffer[j + size];
        j := j + 1;
      }
      j := 0;
      while j < size
        invariant 0 <= j <= size
        invariant forall k :: 0 <= k < n - size ==> monoBuffer[k] == old(monoBuffer[k + size])
        invariant forall k :: 0 <= k < j ==> monoBuffer[n - size + k] == block[k]
      {
        monoBuffer[n - size + j] := block[j];
        j := j + 1;
      }
      assert monoBuffer[..] == old(monoBuffer[..])[size..] + block;
    }

    /** The first loop of process: read every complete block from the FIFO, shift it into
        the window and produce FFT data from the window as it then stands. */
    method DrainAudioFifo(a: Analyzer)
      requires BlocksFit(fifo, monoBuffer.Length)
      modifies this, monoBuffer
      ensures fifo == []
      ensures monoBuffer[..] == IngestAll(old(monoBuffer[..]), old(fifo))
      ensures fftQueue == old(fftQueue) + FFTDataFor(Windows(old(monoBuffer[..]), old(fifo)), a)
      ensures pathQueue == old(pathQueue) && leftChannelFFTPath == old(leftChannelFFTPath)
    {
      ghost var blocks, start := fifo, monoBuffer[..];
      ghost var i := 0;
      while |fifo| > 0
        invariant 0 <= i <= |blocks| && fifo == blocks[i..]
        invariant BlocksFit(blocks[..i], |start|)
        invariant monoBuffer[..] == IngestAll(start, blocks[..i])
        invariant fftQueue == old(fftQueue) + FFTDataFor(Windows(start, blocks[..i]), a)
        invariant pathQueue == old(pathQueue) && leftChannelFFTPath == old(leftChannelFFTPath)
        decreases |fifo|
      {
        var block := fifo[0];
        fifo := fifo[1..];
        assert blocks[..i + 1] == blocks[..i] + [block];
        IngestAllSnoc(start, blocks[..i], block);
        WindowsSnoc(start, blocks[..i], block);
        ShiftIn(block);
        fftQueue := fftQueue + [a.produceFFTData(monoBuffer[..], NegativeInfinityDb)];
        i := i + 1;
      }
      assert blocks[..i] == blocks;
    }

    /** The second loop of process: turn every queued FFT data block into a path. */
    method DrainFFTData(bounds: Area, binWidth: real, a: Analyzer)
      modifies this
      ensures fftQueue == []
      ensures pathQueue == old(pathQueue) + PathsFor(old(fftQueue), bounds, monoBuffer.Length, binWidth, a)
      ensures fifo == old(fifo) && leftChannelFFTPath == old(leftChannelFFTPath)
    {
      ghost var blocks := fftQueue;
      ghost var i := 0;
      while |fftQueue| > 0
        invariant 0 <= i <= |blocks| && fftQueue == blocks[i..]
        invariant pathQueue == old(pathQueue) + PathsFor(blocks[..i], bounds, monoBuffer.Length, binWidth, a)
        invariant fifo == old(fifo) && leftChannelFFTPath == old(leftChannelFFTPath)
        decreases |fftQueue|
      {
        var fftData := fftQueue[0];
        fftQueue := fftQueue[1..];
        pathQueue := pathQueue + [a.generatePath(fftData, bounds, monoBuffer.Length, binWidth, NegativeInfinityDb)];
        i := i + 1;
      }
      assert blocks[..i] == blocks;
    }

    /** The third loop of process: pull every queued path, so the newest one stays on display. */
    method DrainPaths()
      modifies this
      ensures pathQueue == []
      ensures leftChannelFFTPath == NewestPath(old(pathQueue), old(leftChannelFFTPath))
      ensures fifo == old(fifo) && fftQueue == old(fftQueue)
    {
      while |pathQueue| > 0
        invariant NewestPath(pathQueue, leftChannelFFTPath) == NewestPath(old(pathQueue), old(leftChannelFFTPath))
        invariant fifo == old(fifo) && fftQueue == old(fftQueue)
        decreases |pathQueue|
      {
        leftChannelFFTPath := pathQueue[0];
        pathQueue := pathQueue[1..];
      }
    }

    /** One analysis tick for this channel. */
    method Process(fftBounds: Area, sampleRate: real, a: Analyzer)
      requires monoBuffer.Length > 0 && BlocksFit(fifo, monoBuffer.Length)
      modifies this, monoBuffer
      ensures State() == AfterProcess(old(State()), fftBounds, sampleRate, a)
    {
      DrainAudioFifo(a);
      var fftSize := monoBuffer.Length;
      var binWidth := sampleRate / fftSize as real;
      DrainFFTData(fftBounds, binWidth, a);
      DrainPaths();
    }
  }
}
