/** The analysis window of a path producer: a fixed-length run of mono samples that
    every block read from the audio FIFO shifts left, the block filling the freed tail. */
module SlidingWindow {

  type Samples = seq<real>

  /** Every block fits in a window of length n (the source never guards a larger block). */
  predicate BlocksFit(blocks: seq<Samples>, n: nat)
  {
    forall k :: 0 <= k < |blocks| ==> |blocks[k]| <= n
  }

  /** The window after one block is shifted in. */
  function Ingest(window: Samples, block: Samples): (r: Samples)
    requires |block| <= |window|
    ensures |r| == |window|
    ensures r[..|window| - |block|] == window[|block|..]
    ensures r[|window| - |block|..] == block
    ensures |block| == |window| ==> r == block
  {
    window[|block|..] + block
  }

  /** All samples of a sequence of blocks, in arrival order. */
  function Concat(blocks: seq<Samples>): Samples
  {
    if blocks == [] then [] else blocks[0] + Concat(blocks[1..])
  }

  /** The window after a whole sequence of blocks, oldest first. */
  function IngestAll(window: Samples, blocks: seq<Samples>): (r: Samples)
    requires BlocksFit(blocks, |window|)
    ensures |r| == |window|
    decreases |blocks|
  {
    if blocks == [] then window else IngestAll(Ingest(window, blocks[0]), blocks[1..])
  }

  /** The window as it stands after each block of the sequence, one entry per block. */
  function Windows(window: Samples, blocks: seq<Samples>): (ws: seq<Samples>)
    requires BlocksFit(blocks, |window|)
    ensures |ws| == |blocks|
    ensures forall k :: 0 <= k < |ws| ==> |ws[k]| == |window|
    decreases |blocks|
  {
    if blocks == [] then []
    else
      var next := Ingest(window, blocks[0]);
      [next] + Windows(next, blocks[1..])
  }

  /** Two blocks shifted in one after the other give the window their concatenation gives. */
  lemma IngestTwice(window: Samples, a: Samples, b: Samples)
    requires |a| + |b| <= |window|
    ensures Ingest(Ingest(window, a), b) == Ingest(window, a + b)
  {
  }

  /** Shifting in one more block extends IngestAll by one Ingest. */
  lemma {:induction false} IngestAllSnoc(window: Samples, blocks: seq<Samples>, b: Samples)
    requires BlocksFit(blocks, |window|) && |b| <= |window|
    ensures BlocksFit(blocks + [b], |window|)
    ensures IngestAll(window, blocks + [b]) == Ingest(IngestAll(window, blocks), b)
    decreases |blocks|
  {
    assert BlocksFit(blocks + [b], |window|) by {
      forall k | 0 <= k < |blocks + [b]| ensures |(blocks + [b])[k]| <= |window| {
        if k < |blocks| { assert (blocks + [b])[k] == blocks[k]; }
      }
    }
    if blocks != [] {
      assert (blocks + [b])[1..] == blocks[1..] + [b];
      IngestAllSnoc(Ingest(window, blocks[0]), blocks[1..], b);
    }
  }

  /** Shifting in one more block adds one window, the one after that block. */
  lemma {:induction false} WindowsSnoc(window: Samples, blocks: seq<Samples>, b: Samples)
    requires BlocksFit(blocks, |window|) && |b| <= |window|
    ensures BlocksFit(blocks + [b], |window|)
    ensures Windows(window, blocks + [b]) == Windows(window, blocks) + [Ingest(IngestAll(window, blocks), b)]
    decreases |blocks|
  {
    IngestAllSnoc(window, blocks, b);
    if blocks != [] {
      assert (blocks + [b])[1..] == blocks[1..] + [b];
      WindowsSnoc(Ingest(window, blocks[0]), blocks[1..], b);
    }
  }

  /** The k-th window is the window after the first k + 1 blocks. */
  lemma {:induction false} WindowsAt(window: Samples, blocks: seq<Samples>, k: nat)
    requires BlocksFit(blocks, |window|) && k < |blocks|
    ensures BlocksFit(blocks[..k + 1], |window|)
    ensures Windows(window, blocks)[k] == IngestAll(window, blocks[..k + 1])
    decreases k
  {
    if k > 0 {
      WindowsAt(Ingest(window, blocks[0]), blocks[1..], k - 1);
      assert blocks[1..][..k] == blocks[..k + 1][1..];
    }
  }

  /** The last window produced is the final window. */
  lemma LastWindow(window: Samples, blocks: seq<Samples>)
    requires BlocksFit(blocks, |window|) && blocks != []
    ensures Windows(window, blocks)[|blocks| - 1] == IngestAll(window, blocks)
  {
    WindowsAt(window, blocks, |blocks| - 1);
    assert blocks[..|blocks|] == blocks;
  }

  /** The window always holds the most recent |window| samples of everything seen:
      the old window followed by all samples of the blocks, in order. */
  lemma {:induction false} IngestAllKeepsRecent(window: Samples, blocks: seq<Samples>)
    requires BlocksFit(blocks, |window|)
    ensures IngestAll(window, blocks) == (window + Concat(blocks))[|Concat(blocks)|..]
    decreases |blocks|
  {
    if blocks != [] {
      var b, rest := blocks[0], blocks[1..];
      var next := Ingest(window, b);
      IngestAllKeepsRecent(next, rest);
      var c := Concat(rest);
      assert Concat(blocks) == b + c;
      assert next == (window + b)[|b|..];
      assert next + c == (window + b + c)[|b|..];
      assert (window + b + c)[|b|..][|c|..] == (window + b + c)[|b| + |c|..];
      assert window + Concat(blocks) == window + b + c;
    }
  }

  /** Once at least |window| samples have arrived, the window is exactly the last |window|
      of them, whatever the window held before. */
  lemma FullHistoryWindow(window: Samples, blocks: seq<Samples>)
    requires BlocksFit(blocks, |window|) && |Concat(blocks)| >= |window|
    ensures IngestAll(window, blocks) == Concat(blocks)[|Concat(blocks)| - |window|..]
  {
    IngestAllKeepsRecent(window, blocks);
    var c := Concat(blocks);
    assert (window + c)[|c|..] == c[|c| - |window|..];
  }

  /** How the samples were cut into blocks does not matter: the same samples give the same window. */
  lemma ChunkingIrrelevant(window: Samples, xs: seq<Samples>, ys: seq<Samples>)
    requires BlocksFit(xs, |window|) && BlocksFit(ys, |window|)
    requires Concat(xs) == Concat(ys)
    ensures IngestAll(window, xs) == IngestAll(window, ys)
  {
    IngestAllKeepsRecent(window, xs);
    IngestAllKeepsRecent(window, ys);
  }
}
