// `DocumentProcessor._chunk_text` of src/rag_loader/main.py: the text of a
// document is cut into overlapping windows, each ending just after a space or
// a sentence mark when there is one near its end, and every window's stripped
// text that is not empty becomes a chunk.
module Chunker {
  import opened Wrappers
  import opened Strings

  /** The characters a window may end after. */
  predicate IsCut(c: char) {
    c == ' ' || c == '.' || c == '\n' || c == '!' || c == '?'
  }

  /** The last index in `lo..hi` (both included) holding a cut character,
      looking downwards from `hi`. */
  function LastCut(text: string, hi: int, lo: int): (r: Option<int>)
    requires 0 <= lo && hi < |text|
    ensures r.Some? ==> lo <= r.value <= hi && IsCut(text[r.value])
    decreases hi - lo + 1
  {
    if hi < lo then None
    else if IsCut(text[hi]) then Some(hi)
    else LastCut(text, hi - 1, lo)
  }

  /** No index above the one found, and none at all when nothing is found,
      holds a cut character. */
  lemma {:induction false} LastCutIsLast(text: string, hi: int, lo: int)
    requires 0 <= lo && hi < |text|
    ensures LastCut(text, hi, lo).Some? ==> forall k | LastCut(text, hi, lo).value < k <= hi :: !IsCut(text[k])
    ensures LastCut(text, hi, lo).None? ==> forall k | lo <= k <= hi :: !IsCut(text[k])
    decreases hi - lo + 1
  {
    if lo <= hi && !IsCut(text[hi]) {
      LastCutIsLast(text, hi - 1, lo);
    }
  }

  /** Where the window starting at `start` ends (exclusive). The last window
      ends at `start + chunkSize`, possibly past the text. Any other ends just
      after the last cut character among the 100 indices up to
      `start + chunkSize`, or at `start + chunkSize` when there is none. */
  function WindowEnd(text: string, start: int, chunkSize: int): (end: int)
    requires 0 <= start && 99 <= chunkSize
    ensures start + chunkSize - 98 <= end
  {
    var end := start + chunkSize;
    if end >= |text| then end
    else match LastCut(text, end, end - 99)
      case Some(i) => i + 1
      case None => end
  }

  /** No window spans more than `chunkSize + 1` characters, and the last one
      ends exactly `chunkSize` characters after its start. */
  lemma WindowEndRange(text: string, start: int, chunkSize: int)
    requires 0 <= start && 99 <= chunkSize
    ensures WindowEnd(text, start, chunkSize) <= start + chunkSize + 1
    ensures start + chunkSize >= |text| ==> WindowEnd(text, start, chunkSize) == start + chunkSize
  {
  }

  /** A window `text[lo:hi]`; either bound may lie past the end of the
      text, where Python's slice stops. */
  datatype Window = Window(lo: nat, hi: nat)

  /** The windows of the loop from `start` on: each next window starts
      `overlap` characters before the previous one ends, until a start lies
      at or past the end of the text. */
  function Windows(text: string, start: int, chunkSize: int, overlap: int): (ws: seq<Window>)
    requires 0 <= start && 99 <= chunkSize && overlap <= chunkSize - 99
    ensures start >= |text| <==> |ws| == 0
    ensures |ws| > 0 ==> ws[0] == Window(start, WindowEnd(text, start, chunkSize))
    decreases |text| - start
  {
    if start >= |text| then []
    else
      var end := WindowEnd(text, start, chunkSize);
      [Window(start, end)] + Windows(text, end - overlap, chunkSize, overlap)
  }

  /** `text[w.lo:w.hi]`: empty when the window starts at or past its end. */
  function Slice(text: string, w: Window): string
  {
    var hi := if w.hi <= |text| then w.hi else |text|;
    if w.lo < hi then text[w.lo..hi] else []
  }

  /** A slice is no longer than its window. */
  lemma SliceLength(text: string, w: Window)
    ensures |Slice(text, w)| <= if w.hi > w.lo then w.hi - w.lo else 0
  {
  }

  /** The chunk a window gives: its stripped text, unless that is empty. */
  function Piece(text: string, w: Window): (r: seq<string>)
    ensures |r| <= 1
  {
    var c := Strip(Slice(text, w));
    if |c| > 0 then [c] else []
  }

  /** The stripped windows that are not empty, in order. */
  function ChunksOf(text: string, ws: seq<Window>): (r: seq<string>)
    ensures |r| <= |ws|
  {
    if |ws| == 0 then []
    else ChunksOf(text, ws[..|ws| - 1]) + Piece(text, ws[|ws| - 1])
  }

  /** What `_chunk_text` returns: a text no longer than a chunk as it is,
      otherwise the chunks of the windows from 0. */
  function ChunkText(text: string, chunkSize: int, overlap: int): seq<string>
    requires 99 <= chunkSize && overlap <= chunkSize - 99
  {
    if |text| <= chunkSize then [text]
    else ChunksOf(text, Windows(text, 0, chunkSize, overlap))
  }

  /** `_chunk_text`, with its backwards search for a cut point. */
  method ChunkTextLoop(text: string, chunkSize: int, overlap: int) returns (chunks: seq<string>)
    requires 99 <= chunkSize && overlap <= chunkSize - 99
    ensures chunks == ChunkText(text, chunkSize, overlap)
  {
    if |text| <= chunkSize {
      return [text];
    }
    chunks := [];
    var start := 0;
    ghost var ws := Windows(text, 0, chunkSize, overlap);
    ghost var n := 0;
    while start < |text|
      invariant 0 <= n <= |ws|
      invariant n < |ws| <==> start < |text|
      invariant n < |ws| ==> ws[n].lo == start
      invariant chunks == ChunksOf(text, ws[..n])
      decreases |ws| - n
    {
      WindowsAt(text, 0, chunkSize, overlap, n);
      var end := FindEnd(text, start, chunkSize);
      var chunk := Strip(Slice(text, Window(start, end)));
      if |chunk| > 0 {
        chunks := chunks + [chunk];
      }
      ChunksOfPrefix(text, ws, n);
      n := n + 1;
      start := end - overlap;
      if start >= |text| {
        break;
      }
    }
    assert n == |ws|;
    assert ws[..n] == ws;
  }

  /** The end of the window starting at `start`: the backwards search for a
      cut point, done for every window but the last. */
  method FindEnd(text: string, start: int, chunkSize: int) returns (end: int)
    requires 0 <= start && 99 <= chunkSize
    ensures end == WindowEnd(text, start, chunkSize)
  {
    end := start + chunkSize;
    if end < |text| {
      var i := end;
      while i > start + chunkSize - 100
        invariant start + chunkSize - 100 <= i <= end
        invariant LastCut(text, end, end - 99) == LastCut(text, i, end - 99)
        decreases i
      {
        if IsCut(text[i]) {
          end := i + 1;
          break;
        }
        i := i - 1;
      }
    }
  }

  /** Window `k` starts inside the text and ends where `WindowEnd` puts it;
      the next one starts `overlap` characters before that end, and the last
      one is followed by a start at or past the end of the text. */
  lemma {:induction false} WindowsAt(text: string, start: int, chunkSize: int, overlap: int, k: int)
    requires 0 <= start && 99 <= chunkSize && overlap <= chunkSize - 99
    requires 0 <= k < |Windows(text, start, chunkSize, overlap)|
    ensures var ws := Windows(text, start, chunkSize, overlap);
      ws[k].lo < |text| && ws[k].hi == WindowEnd(text, ws[k].lo, chunkSize)
      && (k + 1 < |ws| ==> ws[k + 1].lo == ws[k].hi - overlap < |text|)
      && (k + 1 == |ws| ==> ws[k].hi - overlap >= |text|)
    decreases |text| - start
  {
    var ws := Windows(text, start, chunkSize, overlap);
    var end := WindowEnd(text, start, chunkSize);
    var rest := Windows(text, end - overlap, chunkSize, overlap);
    assert ws[1..] == rest;
    if k > 0 {
      WindowsAt(text, end - overlap, chunkSize, overlap, k - 1);
      assert ws[k] == rest[k - 1];
      if k + 1 < |ws| {
        assert ws[k + 1] == rest[k];
      }
    }
  }

  /** The chunks of the first `n + 1` windows are those of the first `n`
      and the chunk of window `n`. */
  lemma ChunksOfPrefix(text: string, ws: seq<Window>, n: int)
    requires 0 <= n < |ws|
    ensures ChunksOf(text, ws[..n + 1]) == ChunksOf(text, ws[..n]) + Piece(text, ws[n])
  {
    assert ws[..n + 1][..n] == ws[..n];
  }

  // ---- properties ----

  /** A window other than the last ends just after the last cut character
      among the 100 indices up to `start + chunkSize`; with none there, it
      ends at `start + chunkSize`. */
  lemma WindowEndCuts(text: string, start: int, chunkSize: int)
    requires 0 <= start && 99 <= chunkSize && start + chunkSize < |text|
    ensures var end := WindowEnd(text, start, chunkSize);
      (IsCut(text[end - 1]) && start + chunkSize - 99 <= end - 1
       && forall k | end - 1 < k <= start + chunkSize :: !IsCut(text[k]))
      || (end == start + chunkSize && forall k | start + chunkSize - 99 <= k <= start + chunkSize :: !IsCut(text[k]))
  {
    LastCutIsLast(text, start + chunkSize, start + chunkSize - 99);
  }

  /** Each window after the first starts `overlap` characters before the one
      before it ends, and the loop stops at the first window whose next start
      lies at or past the end of the text. */
  lemma {:induction false} WindowsChain(text: string, start: int, chunkSize: int, overlap: int)
    requires 0 <= start && 99 <= chunkSize && overlap <= chunkSize - 99
    ensures var ws := Windows(text, start, chunkSize, overlap);
      (forall k | 0 <= k < |ws| - 1 :: ws[k + 1].lo == ws[k].hi - overlap)
      && (|ws| > 0 ==> ws[|ws| - 1].hi - overlap >= |text|)
    decreases |text| - start
  {
    if start < |text| {
      var end := WindowEnd(text, start, chunkSize);
      var ws := Windows(text, start, chunkSize, overlap);
      var rest := Windows(text, end - overlap, chunkSize, overlap);
      WindowsChain(text, end - overlap, chunkSize, overlap);
      assert ws[1..] == rest;
      forall k | 0 <= k < |ws| - 1
        ensures ws[k + 1].lo == ws[k].hi - overlap
      {
        assert ws[k + 1] == rest[k];
        if k > 0 {
          assert ws[k] == rest[k - 1];
        }
      }
      if |rest| > 0 {
        assert ws[|ws| - 1] == rest[|rest| - 1];
      }
    }
  }

  /** Every window starts inside the text, is not empty, and spans at most
      `chunkSize + 1` characters. */
  lemma {:induction false} WindowsBounds(text: string, start: int, chunkSize: int, overlap: int)
    requires 0 <= start && 99 <= chunkSize && overlap <= chunkSize - 99
    ensures forall k | 0 <= k < |Windows(text, start, chunkSize, overlap)| ::
      var w := Windows(text, start, chunkSize, overlap)[k];
      w.lo < |text| && w.lo < w.hi <= w.lo + chunkSize + 1
    decreases |text| - start
  {
    if start < |text| {
      var end := WindowEnd(text, start, chunkSize);
      var ws := Windows(text, start, chunkSize, overlap);
      var rest := Windows(text, end - overlap, chunkSize, overlap);
      WindowsBounds(text, end - overlap, chunkSize, overlap);
      assert ws[1..] == rest;
      forall k | 1 <= k < |ws|
        ensures ws[k].lo < |text| && ws[k].lo < ws[k].hi <= ws[k].lo + chunkSize + 1
      {
        assert ws[k] == rest[k - 1];
      }
    }
  }

  /** With the default sizes (1000 and 200) each window starts at least 702
      characters after the one before it. */
  lemma DefaultsAdvance(text: string, start: int)
    requires 0 <= start < |text|
    ensures var ws := Windows(text, start, 1000, 200);
      |ws| > 1 ==> ws[1].lo >= start + 702
  {
  }

  /** With an overlap that is not negative the windows cover the text: every
      character from `start` on lies in some window. */
  lemma {:induction false} WindowsCover(text: string, start: int, chunkSize: int, overlap: int, p: int)
    requires 0 <= start && 99 <= chunkSize && 0 <= overlap <= chunkSize - 99
    requires start <= p < |text|
    ensures exists k | 0 <= k < |Windows(text, start, chunkSize, overlap)| ::
      Windows(text, start, chunkSize, overlap)[k].lo <= p < Windows(text, start, chunkSize, overlap)[k].hi
    decreases |text| - start
  {
    var ws := Windows(text, start, chunkSize, overlap);
    var end := WindowEnd(text, start, chunkSize);
    if p < end {
      assert ws[0].lo <= p < ws[0].hi;
    } else {
      var rest := Windows(text, end - overlap, chunkSize, overlap);
      assert ws[1..] == rest;
      WindowsCover(text, end - overlap, chunkSize, overlap, p);
      var k :| 0 <= k < |rest| && rest[k].lo <= p < rest[k].hi;
      assert ws[k + 1] == rest[k];
    }
  }

  /** Each chunk of a list of windows is the stripped text of one of them. */
  lemma {:induction false} ChunksAreStrippedWindows(text: string, ws: seq<Window>)
    ensures forall c | c in ChunksOf(text, ws) :: exists k | 0 <= k < |ws| :: c == Strip(Slice(text, ws[k]))
  {
    if |ws| > 0 {
      var init := ws[..|ws| - 1];
      ChunksAreStrippedWindows(text, init);
      forall c | c in ChunksOf(text, init)
        ensures exists k | 0 <= k < |ws| :: c == Strip(Slice(text, ws[k]))
      {
        var k :| 0 <= k < |init| && c == Strip(Slice(text, init[k]));
        assert init[k] == ws[k];
      }
    }
  }

  /** A chunk is not empty, spans at most `chunkSize + 1` characters, and
      neither starts nor ends with white space. */
  predicate Shaped(c: string, chunkSize: int) {
    0 < |c| <= chunkSize + 1 && !IsSpace(c[0]) && !IsSpace(c[|c| - 1])
  }

  /** Windows no wider than `chunkSize + 1` give chunks of that shape. */
  lemma {:induction false} ChunksOfShaped(text: string, ws: seq<Window>, chunkSize: int)
    requires forall k | 0 <= k < |ws| :: ws[k].hi <= ws[k].lo + chunkSize + 1
    ensures forall c | c in ChunksOf(text, ws) :: Shaped(c, chunkSize)
  {
    if |ws| > 0 {
      var init := ws[..|ws| - 1];
      assert forall k | 0 <= k < |init| :: init[k] == ws[k];
      ChunksOfShaped(text, init, chunkSize);
      SliceLength(text, ws[|ws| - 1]);
      StripEnds(Slice(text, ws[|ws| - 1]));
    }
  }

  /** The chunks of a text longer than a chunk are non-empty stripped
      windows of at most `chunkSize + 1` characters; a shorter text is its
      own single chunk, even when empty. */
  lemma ChunkTextShape(text: string, chunkSize: int, overlap: int)
    requires 99 <= chunkSize && overlap <= chunkSize - 99
    ensures |text| <= chunkSize ==> ChunkText(text, chunkSize, overlap) == [text]
    ensures |text| > chunkSize ==> forall c | c in ChunkText(text, chunkSize, overlap) :: Shaped(c, chunkSize)
  {
    if |text| > chunkSize {
      WindowsBounds(text, 0, chunkSize, overlap);
      ChunksOfShaped(text, Windows(text, 0, chunkSize, overlap), chunkSize);
    }
  }
}
