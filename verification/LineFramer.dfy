/** Reassembly of the feed's lines from arbitrary chunks (LineFramer.swift). */
module LineFraming {
  import opened Prelude

  const NEWLINE: byte := 10

  /** The lines that `s` finishes when `begun` is what the current line already holds. */
  function Done(begun: Bytes, s: Bytes): seq<Bytes>
    decreases |s|
  {
    if s == [] then []
    else if s[0] == NEWLINE then [begun] + Done([], s[1..])
    else Done(begun + [s[0]], s[1..])
  }

  /** What the current line holds once `s` has been read. */
  function Rest(begun: Bytes, s: Bytes): Bytes
    decreases |s|
  {
    if s == [] then begun
    else if s[0] == NEWLINE then Rest([], s[1..])
    else Rest(begun + [s[0]], s[1..])
  }

  /** The lines a stream has finished: the newline split without its last piece. */
  function Complete(stream: Bytes): seq<Bytes> {
    Done([], stream)
  }

  /** What has arrived since the last newline. */
  function Unfinished(stream: Bytes): Bytes {
    Rest([], stream)
  }

  function Concat(chunks: seq<Bytes>): Bytes {
    if chunks == [] then [] else Concat(chunks[..|chunks| - 1]) + chunks[|chunks| - 1]
  }

  function NonEmpty(lines: seq<Bytes>): seq<Bytes> {
    if lines == [] then []
    else (if lines[0] == [] then [] else [lines[0]]) + NonEmpty(lines[1..])
  }

  /** The framer's two fields. */
  datatype Framer = Framer(buffer: Bytes, resyncing: bool)

  const FRESH: Framer := Framer([], false)

  /** Lines handed out for buffered bytes: the first of them is rubbish while resyncing. */
  function Emitted(buffer: Bytes, resyncing: bool): seq<Bytes> {
    var lines := Complete(buffer);
    NonEmpty(if resyncing && lines != [] then lines[1..] else lines)
  }

  /** One push, stated through the newline split rather than through the loop that computes it. */
  function Pushed(f: Framer, limit: int, chunk: Bytes): (Framer, seq<Bytes>) {
    var all := f.buffer + chunk;
    var rest := Unfinished(all);
    var behind := f.resyncing && Complete(all) == [];
    (if |rest| > limit then Framer([], true) else Framer(rest, behind), Emitted(all, f.resyncing))
  }

  /** A connection's framer after a sequence of chunks, and every line it has handed out. */
  function PushedAll(limit: int, chunks: seq<Bytes>): (Framer, seq<Bytes>) {
    if chunks == [] then (FRESH, [])
    else
      var (f, lines) := PushedAll(limit, chunks[..|chunks| - 1]);
      var (f', more) := Pushed(f, limit, chunks[|chunks| - 1]);
      (f', lines + more)
  }

  class LineFramer {
    const limit: int
    var buffer: Bytes
    var resyncing: bool

    constructor (limit: int)
      ensures State() == FRESH && this.limit == limit
    {
      this.limit := limit;
      buffer := [];
      resyncing := false;
    }

    ghost function State(): Framer
      reads this
    {
      Framer(buffer, resyncing)
    }

    method Push(chunk: Bytes) returns (lines: seq<Bytes>)
      modifies this
      ensures (State(), lines) == Pushed(old(State()), limit, chunk)
    {
      buffer := buffer + chunk;
      lines := [];
      ghost var target, rest := Emitted(buffer, resyncing), Unfinished(buffer);
      ghost var behind := resyncing && Complete(buffer) == [];
      var newline: nat := FirstNewline(buffer);
      while newline < |buffer|
        invariant newline <= |buffer| && NEWLINE !in buffer[..newline]
        invariant newline < |buffer| ==> buffer[newline] == NEWLINE
        invariant lines + Emitted(buffer, resyncing) == target
        invariant Unfinished(buffer) == rest
        invariant (resyncing && Complete(buffer) == []) == behind
        decreases |buffer|
      {
        CutEmits(buffer, newline, resyncing, lines);
        var line := buffer[..newline];
        buffer := buffer[newline + 1..];
        if resyncing {
          resyncing := false;
        } else if line != [] {
          lines := lines + [line];
        }
        newline := FirstNewline(buffer);
      }
      assert buffer[..newline] == buffer;
      NothingLeftToEmit(buffer, resyncing, lines);
      if |buffer| > limit {
        buffer := [];
        resyncing := true;
      }
    }
  }

  /** Index of the first newline, or the length when there is none. */
  method FirstNewline(s: Bytes) returns (i: nat)
    ensures i <= |s| && NEWLINE !in s[..i]
    ensures i < |s| ==> s[i] == NEWLINE
  {
    i := 0;
    while i < |s| && s[i] != NEWLINE
      invariant i <= |s| && NEWLINE !in s[..i]
    {
      i := i + 1;
    }
  }

  lemma {:induction false} NoNewline(begun: Bytes, s: Bytes)
    requires NEWLINE !in s
    ensures Done(begun, s) == [] && Rest(begun, s) == begun + s
    decreases |s|
  {
    if s != [] {
      NoNewline(begun + [s[0]], s[1..]);
      assert begun + [s[0]] + s[1..] == begun + s;
    }
  }

  /** Reading in two parts: the second goes on from what the first left begun. */
  lemma {:induction false} ReadInTwo(begun: Bytes, a: Bytes, b: Bytes)
    ensures Done(begun, a + b) == Done(begun, a) + Done(Rest(begun, a), b)
    ensures Rest(begun, a + b) == Rest(Rest(begun, a), b)
    decreases |a|
  {
    if a == [] {
      assert a + b == b;
    } else {
      assert (a + b)[0] == a[0] && (a + b)[1..] == a[1..] + b;
      ReadInTwo(if a[0] == NEWLINE then [] else begun + [a[0]], a[1..], b);
    }
  }

  /** One turn of the framer's loop. */
  lemma CutEmits(buffer: Bytes, i: nat, resyncing: bool, lines: seq<Bytes>)
    requires i < |buffer| && buffer[i] == NEWLINE && NEWLINE !in buffer[..i]
    ensures Complete(buffer) != []
    ensures Unfinished(buffer) == Unfinished(buffer[i + 1..])
    ensures lines + Emitted(buffer, resyncing)
         == (if resyncing || buffer[..i] == [] then lines else lines + [buffer[..i]]) + Emitted(buffer[i + 1..], false)
  {
    CutAtNewline(buffer, i);
    assert Complete(buffer)[1..] == Complete(buffer[i + 1..]);
  }

  lemma NothingLeftToEmit(buffer: Bytes, resyncing: bool, lines: seq<Bytes>)
    requires NEWLINE !in buffer
    ensures Complete(buffer) == [] && Unfinished(buffer) == buffer && lines + Emitted(buffer, resyncing) == lines
  {
    NoNewline([], buffer);
    assert [] + buffer == buffer;
  }

  lemma CutAtNewline(s: Bytes, i: nat)
    requires i < |s| && s[i] == NEWLINE && NEWLINE !in s[..i]
    ensures Complete(s) == [s[..i]] + Complete(s[i + 1..])
    ensures Unfinished(s) == Unfinished(s[i + 1..])
  {
    assert s == s[..i] + s[i..];
    ReadInTwo([], s[..i], s[i..]);
    NoNewline([], s[..i]);
    assert [] + s[..i] == s[..i];
    assert s[i..][1..] == s[i + 1..];
  }

  /** Only the first line finished depends on what was begun, and it is no shorter than that. */
  lemma {:induction false} BegunMattersOnce(b1: Bytes, b2: Bytes, s: Bytes)
    ensures |Done(b1, s)| == |Done(b2, s)|
    ensures Done(b1, s) == [] ==> |Rest(b1, s)| >= |b1|
    ensures Done(b1, s) != [] ==>
      |Done(b1, s)[0]| >= |b1| && Done(b1, s)[1..] == Done(b2, s)[1..] && Rest(b1, s) == Rest(b2, s)
    decreases |s|
  {
    if s != [] && s[0] != NEWLINE {
      BegunMattersOnce(b1 + [s[0]], b2 + [s[0]], s[1..]);
    }
  }

  lemma {:induction false} NothingHoldsANewline(begun: Bytes, s: Bytes)
    requires NEWLINE !in begun
    ensures NEWLINE !in Rest(begun, s) && forall line :: line in Done(begun, s) ==> NEWLINE !in line
    decreases |s|
  {
    if s != [] {
      NothingHoldsANewline(if s[0] == NEWLINE then [] else begun + [s[0]], s[1..]);
    }
  }

  /** Puts lines and an unfinished rest back together. */
  function Joined(lines: seq<Bytes>, rest: Bytes): Bytes {
    if lines == [] then rest else lines[0] + [NEWLINE] + Joined(lines[1..], rest)
  }

  lemma {:induction false} ReadingLosesNothing(begun: Bytes, s: Bytes)
    ensures Joined(Done(begun, s), Rest(begun, s)) == begun + s
    decreases |s|
  {
    if s != [] {
      var tail := s[1..];
      assert s == [s[0]] + tail;
      if s[0] == NEWLINE {
        ReadingLosesNothing([], tail);
        assert Done(begun, s)[1..] == Done([], tail);
        assert [] + tail == tail;
        assert begun + [NEWLINE] + tail == begun + s;
      } else {
        ReadingLosesNothing(begun + [s[0]], tail);
        assert begun + [s[0]] + tail == begun + s;
      }
    }
  }

  /** Complete and Unfinished are the newline split: the one way to write a stream as newline-free pieces. */
  lemma {:induction false} SplitIsUnique(lines: seq<Bytes>, rest: Bytes)
    requires NEWLINE !in rest && forall line :: line in lines ==> NEWLINE !in line
    ensures Complete(Joined(lines, rest)) == lines && Unfinished(Joined(lines, rest)) == rest
  {
    var s := Joined(lines, rest);
    if lines == [] {
      NoNewline([], rest);
      assert [] + rest == rest;
    } else {
      SplitIsUnique(lines[1..], rest);
      var i := |lines[0]|;
      assert s[..i] == lines[0] && s[i] == NEWLINE && s[i + 1..] == Joined(lines[1..], rest);
      CutAtNewline(s, i);
    }
  }

  /** The lines a mask picks out, in order. */
  function Select(lines: seq<Bytes>, keep: seq<bool>): seq<Bytes>
    requires |keep| == |lines|
  {
    if lines == [] then []
    else (if keep[0] then [lines[0]] else []) + Select(lines[1..], keep[1..])
  }

  lemma {:induction false} SelectAppend(a: seq<Bytes>, ka: seq<bool>, b: seq<Bytes>, kb: seq<bool>)
    requires |ka| == |a| && |kb| == |b|
    ensures Select(a + b, ka + kb) == Select(a, ka) + Select(b, kb)
  {
    if a == [] {
      assert a + b == b && ka + kb == kb;
    } else {
      assert (a + b)[1..] == a[1..] + b && (ka + kb)[1..] == ka[1..] + kb;
      SelectAppend(a[1..], ka[1..], b, kb);
    }
  }

  function NonEmptyMask(lines: seq<Bytes>): seq<bool> {
    seq(|lines|, i requires 0 <= i < |lines| => lines[i] != [])
  }

  lemma {:induction false} SelectNonEmpty(lines: seq<Bytes>)
    ensures Select(lines, NonEmptyMask(lines)) == NonEmpty(lines)
  {
    if lines != [] {
      assert NonEmptyMask(lines)[1..] == NonEmptyMask(lines[1..]);
      SelectNonEmpty(lines[1..]);
    }
  }

  // ---------------------------------------------------------------- which lines are handed out

  /** The push number `j` ends inside line `n` of the stream, with more than `limit` bytes of it read. */
  ghost predicate CutInside(limit: int, chunks: seq<Bytes>, j: nat, n: nat)
    requires j <= |chunks|
  {
    var stream := Concat(chunks[..j]);
    0 < j && |Complete(stream)| == n && |Unfinished(stream)| > limit
  }

  /** Some push ends inside line `n` with more than `limit` bytes of it read. */
  ghost predicate Overran(limit: int, chunks: seq<Bytes>, n: nat) {
    exists j: nat :: j <= |chunks| && CutInside(limit, chunks, j, n)
  }

  /** The lines worth handing out: those that hold something and that no push overran. */
  ghost function Fates(limit: int, chunks: seq<Bytes>): (fates: seq<bool>)
    ensures |fates| == |Complete(Concat(chunks))|
  {
    var lines := Complete(Concat(chunks));
    seq(|lines|, n requires 0 <= n < |lines| => lines[n] != [] && !Overran(limit, chunks, n))
  }

  /** The lines a stream gains from one more chunk. */
  function Gained(stream: Bytes, chunk: Bytes): seq<Bytes> {
    Done(Unfinished(stream), chunk)
  }

  lemma OneMoreChunk(limit: int, chunks: seq<Bytes>, n: nat)
    requires chunks != []
    ensures Overran(limit, chunks, n)
       <==> Overran(limit, chunks[..|chunks| - 1], n) || CutInside(limit, chunks, |chunks|, n)
  {
    var before := chunks[..|chunks| - 1];
    forall j: nat | j <= |before|
      ensures CutInside(limit, chunks, j, n) <==> CutInside(limit, before, j, n)
    {
      assert chunks[..j] == before[..j];
    }
  }

  /** Reading a chunk adds the lines it finishes and leaves what it leaves unfinished. */
  lemma ChunkReadsOn(chunks: seq<Bytes>)
    requires chunks != []
    ensures var before, chunk := Concat(chunks[..|chunks| - 1]), chunks[|chunks| - 1];
      && Complete(Concat(chunks)) == Complete(before) + Gained(before, chunk)
      && Unfinished(Concat(chunks)) == Rest(Unfinished(before), chunk)
  {
    ReadInTwo([], Concat(chunks[..|chunks| - 1]), chunks[|chunks| - 1]);
  }

  /** A line that a push overran is over the limit, finished or not. */
  lemma {:induction false} OverrunIsOverlong(limit: int, chunks: seq<Bytes>, n: nat)
    requires Overran(limit, chunks, n)
    ensures var lines := Complete(Concat(chunks));
      n <= |lines| && |if n < |lines| then lines[n] else Unfinished(Concat(chunks))| > limit
  {
    assert chunks != [];
    var before, chunk := chunks[..|chunks| - 1], chunks[|chunks| - 1];
    assert chunks[..|chunks|] == chunks;
    ChunkReadsOn(chunks);
    OneMoreChunk(limit, chunks, n);
    if Overran(limit, before, n) {
      OverrunIsOverlong(limit, before, n);
      BegunMattersOnce(Unfinished(Concat(before)), [], chunk);
    }
  }

  /** How the two fields stand to the chunks so far: resyncing exactly while the line at hand was overrun. */
  ghost predicate InStep(f: Framer, limit: int, chunks: seq<Bytes>) {
    && NEWLINE !in f.buffer
    && (f.buffer == [] || |f.buffer| <= limit)
    && (!f.resyncing ==> f.buffer == Unfinished(Concat(chunks)))
    && (f.resyncing <==> Overran(limit, chunks, |Complete(Concat(chunks))|))
  }

  /** The framer reads the chunk from its buffer as the stream reads it from its unfinished line. */
  lemma BufferReadsOn(f: Framer, chunk: Bytes)
    requires NEWLINE !in f.buffer
    ensures Complete(f.buffer + chunk) == Done(f.buffer, chunk)
    ensures Unfinished(f.buffer + chunk) == Rest(f.buffer, chunk)
  {
    ReadInTwo([], f.buffer, chunk);
    NoNewline([], f.buffer);
    assert [] + f.buffer == f.buffer;
  }

  lemma PushStaysInStep(f: Framer, limit: int, chunks: seq<Bytes>)
    requires chunks != [] && InStep(f, limit, chunks[..|chunks| - 1])
    ensures InStep(Pushed(f, limit, chunks[|chunks| - 1]).0, limit, chunks)
  {
    var before, chunk := chunks[..|chunks| - 1], chunks[|chunks| - 1];
    var n := |Complete(Concat(chunks))|;
    ChunkReadsOn(chunks);
    BufferReadsOn(f, chunk);
    BegunMattersOnce(Unfinished(Concat(before)), f.buffer, chunk);
    NothingHoldsANewline(f.buffer, chunk);
    OneMoreChunk(limit, chunks, n);
    assert chunks[..|chunks|] == chunks;
    if Overran(limit, before, n) {
      OverrunIsOverlong(limit, before, n);
    }
    if f.resyncing {
      OverrunIsOverlong(limit, before, |Complete(Concat(before))|);
    }
  }

  /** The fates of earlier lines are settled, and one push settles those of the lines the stream gains. */
  lemma PushSettles(f: Framer, limit: int, chunks: seq<Bytes>)
    requires chunks != [] && InStep(f, limit, chunks[..|chunks| - 1])
    ensures var before, chunk := chunks[..|chunks| - 1], chunks[|chunks| - 1];
      var gained := Gained(Concat(before), chunk);
      Fates(limit, chunks) == Fates(limit, before) + GainedFates(f, gained)
  {
    var before, chunk := chunks[..|chunks| - 1], chunks[|chunks| - 1];
    var gained := Gained(Concat(before), chunk);
    ChunkReadsOn(chunks);
    assert chunks[..|chunks|] == chunks;
    forall n: nat | n < |Fates(limit, chunks)|
      ensures Fates(limit, chunks)[n] == (Fates(limit, before) + GainedFates(f, gained))[n]
    {
      OneMoreChunk(limit, chunks, n);
      if n > |Complete(Concat(before))| && Overran(limit, before, n) {
        OverrunIsOverlong(limit, before, n);
      }
    }
  }

  /** Of the lines gained, the first is rubbish while resyncing, and an empty one is never handed out. */
  function GainedFates(f: Framer, gained: seq<Bytes>): seq<bool> {
    seq(|gained|, i requires 0 <= i < |gained| => gained[i] != [] && !(f.resyncing && i == 0))
  }

  lemma PushHandsOut(f: Framer, limit: int, chunks: seq<Bytes>)
    requires chunks != [] && InStep(f, limit, chunks[..|chunks| - 1])
    ensures var gained := Gained(Concat(chunks[..|chunks| - 1]), chunks[|chunks| - 1]);
      Pushed(f, limit, chunks[|chunks| - 1]).1 == Select(gained, GainedFates(f, gained))
  {
    var before, chunk := chunks[..|chunks| - 1], chunks[|chunks| - 1];
    var gained := Gained(Concat(before), chunk);
    BufferReadsOn(f, chunk);
    BegunMattersOnce(Unfinished(Concat(before)), f.buffer, chunk);
    if f.resyncing && gained != [] {
      SelectNonEmpty(gained[1..]);
      assert GainedFates(f, gained)[1..] == NonEmptyMask(gained[1..]);
    } else {
      SelectNonEmpty(gained);
      assert GainedFates(f, gained) == NonEmptyMask(gained);
    }
  }

  /**
   For any chunking of any stream the framer hands out, in order, exactly the finished lines that hold
   something and that no push overran, and holds at most `limit` bytes back.
   */
  lemma {:induction false} FramesWholeLines(limit: int, chunks: seq<Bytes>)
    ensures var (f, lines) := PushedAll(limit, chunks);
      && InStep(f, limit, chunks)
      && lines == Select(Complete(Concat(chunks)), Fates(limit, chunks))
  {
    if chunks != [] {
      var before, chunk := chunks[..|chunks| - 1], chunks[|chunks| - 1];
      var (f, lines) := PushedAll(limit, before);
      FramesWholeLines(limit, before);
      PushStaysInStep(f, limit, chunks);
      PushHandsOut(f, limit, chunks);
      PushSettles(f, limit, chunks);
      ChunkReadsOn(chunks);
      var gained := Gained(Concat(before), chunk);
      SelectAppend(Complete(Concat(before)), Fates(limit, before), gained, GainedFates(f, gained));
    }
  }

  /** When no line is over the limit the output is the plain newline split, however it was chunked. */
  lemma ChunkingDoesNotMatter(limit: int, chunks: seq<Bytes>)
    requires forall line :: line in Complete(Concat(chunks)) ==> |line| <= limit
    ensures PushedAll(limit, chunks).1 == NonEmpty(Complete(Concat(chunks)))
  {
    var lines := Complete(Concat(chunks));
    FramesWholeLines(limit, chunks);
    SelectNonEmpty(lines);
    forall n: nat | n < |lines|
      ensures !Overran(limit, chunks, n)
    {
      assert lines[n] in lines;
      if Overran(limit, chunks, n) {
        OverrunIsOverlong(limit, chunks, n);
      }
    }
    assert Fates(limit, chunks) == NonEmptyMask(lines);
  }

  /** A line over the limit is handed out when its newline comes with it, and dropped when it comes after. */
  lemma OverlongLinesHangOnTheirChunks(limit: int, line: Bytes)
    requires NEWLINE !in line && line != [] && |line| > limit
    ensures PushedAll(limit, [line + [NEWLINE]]).1 == [line]
    ensures PushedAll(limit, [line, [NEWLINE]]).1 == []
  {
    var whole, newline: Bytes := line + [NEWLINE], [NEWLINE];
    assert Joined([line], []) == whole;
    SplitIsUnique([line], []);
    NoNewline([], line);
    assert [] + line == line && [] + whole == whole && [] + newline == newline;
    assert [whole][..0] == [] && [line, newline][..1] == [line] && [line][..0] == [];
    assert PushedAll(limit, [line]).0 == Framer([], true);
    CutAtNewline(newline, 0);
  }
}
