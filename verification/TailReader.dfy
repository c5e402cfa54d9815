/** The timeline's backwards tail reader against a scan of the whole file. */
module TailReader {
  import opened Common
  import opened Journal
  import opened MiniJson
  import opened Framing

  function Newlines(data: Bytes): nat {
    if data == [] then 0
    else Newlines(data[..|data| - 1]) + if data[|data| - 1] == NEWLINE then 1 else 0
  }

  function Last<T>(s: seq<T>): T
    requires s != []
  {
    s[|s| - 1]
  }

  function Front<T>(s: seq<T>): seq<T>
    requires s != []
  {
    s[..|s| - 1]
  }

  lemma ConcatEnds<T>(a: seq<T>, b: seq<T>)
    requires b != []
    ensures a + b != [] && Front(a + b) == a + Front(b) && Last(a + b) == Last(b)
  {
  }

  lemma Regroup<T>(a: seq<T>, b: seq<T>, c: seq<T>)
    ensures (a + b) + c == a + (b + c)
  {
  }

  lemma FrontAndLast<T>(s: seq<T>)
    requires s != []
    ensures Front(s) + [Last(s)] == s
  {
  }

  /** The pieces once one more byte is read. */
  function Grown(pieces: seq<Bytes>, b: Byte): seq<Bytes>
    requires pieces != []
  {
    if b == NEWLINE then pieces + [[]] else Front(pieces) + [Last(pieces) + [b]]
  }

  /** The pieces between newlines; one more than there are newlines. */
  function Split(data: Bytes): (pieces: seq<Bytes>)
    ensures |pieces| == Newlines(data) + 1
  {
    if data == [] then [[]] else Grown(Split(Front(data)), Last(data))
  }

  /** Two texts' pieces, the middle two glued together. */
  function Glued(x: seq<Bytes>, y: seq<Bytes>): seq<Bytes>
    requires x != [] && y != []
  {
    Front(x) + [Last(x) + y[0]] + y[1..]
  }

  lemma GlueGrows(x: seq<Bytes>, y: seq<Bytes>, b: Byte)
    requires x != [] && y != []
    ensures Glued(x, Grown(y, b)) == Grown(Glued(x, y), b)
  {
    if b != NEWLINE && |y| == 1 {
      assert Last(x) + (y[0] + [b]) == Last(x) + y[0] + [b];
    }
  }

  /** Cutting a text splits one piece in two and leaves the others alone. */
  lemma {:induction false} SplitAtCut(a: Bytes, b: Bytes)
    ensures Split(a + b) == Glued(Split(a), Split(b))
  {
    if b == [] {
      assert a + b == a && Last(Split(a)) + [] == Last(Split(a));
    } else {
      ConcatEnds(a, b);
      SplitAtCut(a, Front(b));
      GlueGrows(Split(a), Split(Front(b)), Last(b));
    }
  }

  /** The lines that are not blank, whatever counts as blank. */
  function NonBlank(lines: seq<Bytes>, blank: Bytes -> bool): seq<Bytes> {
    if lines == [] then []
    else NonBlank(Front(lines), blank) + if blank(Last(lines)) then [] else [Last(lines)]
  }

  lemma {:induction false} NonBlankJoins(a: seq<Bytes>, b: seq<Bytes>, blank: Bytes -> bool)
    ensures NonBlank(a + b, blank) == NonBlank(a, blank) + NonBlank(b, blank)
  {
    if b == [] {
      assert a + b == a;
    } else {
      ConcatEnds(a, b);
      NonBlankJoins(a, Front(b), blank);
      Regroup(NonBlank(a, blank), NonBlank(Front(b), blank), if blank(Last(b)) then [] else [Last(b)]);
    }
  }

  predicate NoneBlank(lines: seq<Bytes>, blank: Bytes -> bool) {
    forall i :: 0 <= i < |lines| ==> !blank(lines[i])
  }

  lemma FrontNoneBlank(lines: seq<Bytes>, blank: Bytes -> bool)
    requires lines != [] && NoneBlank(lines, blank)
    ensures NoneBlank(Front(lines), blank) && !blank(Last(lines))
  {
    var front := Front(lines);
    assert forall i :: 0 <= i < |front| ==> front[i] == lines[i];
  }

  lemma {:induction false} AllNonBlank(lines: seq<Bytes>, blank: Bytes -> bool)
    requires NoneBlank(lines, blank)
    ensures NonBlank(lines, blank) == lines
  {
    if lines != [] {
      FrontNoneBlank(lines, blank);
      AllNonBlank(Front(lines), blank);
      FrontAndLast(lines);
    }
  }

  /** The reference: scan everything, keep the last `limit` lines that are not blank. */
  function FullScan(file: Bytes, limit: nat, blank: Bytes -> bool): seq<Bytes> {
    Tail(NonBlank(Split(file), blank), limit)
  }

  // ---------------------------------------------------------------------
  // The window that is read
  // ---------------------------------------------------------------------

  /** Where reading stops: chunk by chunk from `position` towards the front until
      more than `limit` newlines are in view. */
  function WindowFrom(file: Bytes, position: nat, limit: nat, chunk: nat): (start: nat)
    requires position <= |file| && chunk > 0
    ensures start <= position
    decreases position
  {
    if position > 0 && Newlines(file[position..]) <= limit
    then WindowFrom(file, if position < chunk then 0 else position - chunk, limit, chunk)
    else position
  }

  function Window(file: Bytes, limit: nat, chunk: nat): (start: nat)
    requires chunk > 0
    ensures start <= |file|
  {
    WindowFrom(file, |file|, limit, chunk)
  }

  /** The whole lines in view: the first piece may start mid-line and is left out. */
  function InView(file: Bytes, start: nat): seq<Bytes>
    requires start <= |file|
  {
    if start > 0 then Split(file[start..])[1..] else Split(file)
  }

  lemma ViewIsSuffix(file: Bytes, start: nat)
    requires start <= |file|
    ensures var view, all := InView(file, start), Split(file);
            |view| <= |all| && all[|all| - |view|..] == view
  {
    if start > 0 {
      assert file == file[..start] + file[start..];
      SplitAtCut(file[..start], file[start..]);
    }
  }

  /** The lines that are not in view. */
  function OutOfView(file: Bytes, start: nat): (lines: seq<Bytes>)
    requires start <= |file|
    ensures Split(file) == lines + InView(file, start)
  {
    ViewIsSuffix(file, start);
    Split(file)[..|Split(file)| - |InView(file, start)|]
  }

  lemma {:induction false} WindowSuffices(file: Bytes, position: nat, limit: nat, chunk: nat)
    requires position <= |file| && chunk > 0
    ensures var start := WindowFrom(file, position, limit, chunk);
            start == 0 || Newlines(file[start..]) > limit
    decreases position
  {
    if position > 0 && Newlines(file[position..]) <= limit {
      WindowSuffices(file, if position < chunk then 0 else position - chunk, limit, chunk);
    }
  }

  // ---------------------------------------------------------------------
  // The reader
  // ---------------------------------------------------------------------

  /** Reads chunks from the end until more than `limit` newlines are in view. */
  method ReadBackwards(file: Bytes, limit: nat, chunk: nat) returns (data: Bytes, position: nat)
    requires chunk > 0
    ensures position == Window(file, limit, chunk) && data == file[position..]
  {
    position := |file|;
    data := [];
    var newlineCount := 0;
    assert file[|file|..] == [];
    while position > 0 && newlineCount <= limit
      invariant 0 <= position <= |file| && data == file[position..] && newlineCount == Newlines(data)
      invariant WindowFrom(file, position, limit, chunk) == Window(file, limit, chunk)
      decreases position
    {
      var readSize := chunk;
      if position < readSize {
        readSize := position;
      }
      position := position - readSize;
      data := file[position..position + readSize] + data;
      assert data == file[position..];
      newlineCount := Newlines(data);
    }
  }

  method KeepNonBlank(pieces: seq<Bytes>, blank: Bytes -> bool) returns (nonEmpty: seq<Bytes>)
    ensures nonEmpty == NonBlank(pieces, blank)
  {
    nonEmpty := [];
    for i := 0 to |pieces|
      invariant nonEmpty == NonBlank(pieces[..i], blank)
    {
      assert Front(pieces[..i + 1]) == pieces[..i];
      if !blank(pieces[i]) {
        nonEmpty := nonEmpty + [pieces[i]];
      }
    }
    assert pieces[..|pieces|] == pieces;
  }

  method TailNonEmptyLines(file: Bytes, limit: int, chunk: nat, blank: Bytes -> bool) returns (lines: seq<Bytes>)
    requires chunk > 0
    ensures limit <= 0 ==> lines == []
    ensures limit > 0 ==> lines == Tail(NonBlank(InView(file, Window(file, limit, chunk)), blank), limit)
  {
    if limit <= 0 {
      return [];
    }
    var data, position := ReadBackwards(file, limit, chunk);
    var pieces := Split(data);
    if position > 0 {
      pieces := pieces[1..];
    } else {
      assert file[0..] == file;
    }
    var nonEmpty := KeepNonBlank(pieces, blank);
    if |nonEmpty| > limit {
      nonEmpty := nonEmpty[|nonEmpty| - limit..];
    }
    lines := nonEmpty;
  }

  // ---------------------------------------------------------------------
  // Agreement with the full scan
  // ---------------------------------------------------------------------

  function TailRead(file: Bytes, limit: nat, chunk: nat, blank: Bytes -> bool): seq<Bytes>
    requires chunk > 0
  {
    Tail(NonBlank(InView(file, Window(file, limit, chunk)), blank), limit)
  }

  predicate IsSuffix<T(==)>(part: seq<T>, whole: seq<T>) {
    |part| <= |whole| && whole[|whole| - |part|..] == part
  }

  lemma TailOfParts<T>(a: seq<T>, b: seq<T>, k: nat)
    requires k <= |b|
    ensures Tail(a + b, k) == b[|b| - k..]
    ensures (a + b)[..|a + b| - k] == a + b[..|b| - k]
  {
  }

  lemma CutBefore<T>(s: seq<T>, k: nat)
    requires k <= |s|
    ensures s == s[..|s| - k] + s[|s| - k..]
  {
  }

  lemma SuffixLength<T>(s: seq<T>, limit: nat)
    ensures |Tail(s, limit)| == if |s| < limit then |s| else limit
    ensures Tail(s, limit) == s[|s| - |Tail(s, limit)|..]
  {
  }

  lemma SuffixesNest<T>(a: seq<T>, b: seq<T>, n: nat)
    requires |b| <= n <= |a + b|
    ensures IsSuffix(b, (a + b)[|a + b| - n..])
  {
    assert (a + b)[|a + b| - n..] == a[|a + b| - n..] + b;
  }

  lemma TailOfJoined<T>(a: seq<T>, b: seq<T>, limit: nat)
    ensures Tail(a + b, limit) == Tail(b, limit) <==> |b| >= limit || a == []
    ensures IsSuffix(Tail(b, limit), Tail(a + b, limit))
  {
    SuffixLength(a + b, limit);
    SuffixLength(b, limit);
    if |b| >= limit {
      TailOfParts(a, b, limit);
    } else {
      SuffixesNest(a, b, |Tail(a + b, limit)|);
      if a == [] {
        assert a + b == b;
      }
    }
  }

  /** For every file, limit and chunk size the reader returns a suffix of what a
      full scan returns, and all of it exactly when the window holds enough
      lines that are not blank, or there is nothing but blank lines before it. */
  lemma TailReadIsExact(file: Bytes, limit: nat, chunk: nat, blank: Bytes -> bool)
    requires chunk > 0
    ensures var start := Window(file, limit, chunk);
            var read := TailRead(file, limit, chunk, blank);
            var scan := FullScan(file, limit, blank);
            && IsSuffix(read, scan)
            && (read == scan <==>
                  |NonBlank(InView(file, start), blank)| >= limit || NonBlank(OutOfView(file, start), blank) == [])
  {
    var start := Window(file, limit, chunk);
    NonBlankJoins(OutOfView(file, start), InView(file, start), blank);
    TailOfJoined(NonBlank(OutOfView(file, start), blank), NonBlank(InView(file, start), blank), limit);
  }

  /** In particular a file without blank lines is read exactly, although the
      first piece is thrown away whenever reading stopped mid-file. */
  lemma WithoutBlankLinesTheTailIsExact(file: Bytes, limit: nat, chunk: nat, blank: Bytes -> bool)
    requires chunk > 0 && forall i :: 0 <= i < |Split(file)| - 1 ==> !blank(Split(file)[i])
    ensures TailRead(file, limit, chunk, blank) == FullScan(file, limit, blank)
  {
    var start := Window(file, limit, chunk);
    var view := InView(file, start);
    TailReadIsExact(file, limit, chunk, blank);
    WindowSuffices(file, |file|, limit, chunk);
    if start > 0 {
      var whole := Front(view);
      assert forall i :: 0 <= i < |whole| ==> whole[i] == Split(file)[|OutOfView(file, start)| + i];
      AllNonBlank(whole, blank);
      assert |whole| >= limit;
    } else {
      assert OutOfView(file, start) == [];
    }
  }

  // ---------------------------------------------------------------------
  // Which files are read exactly
  // ---------------------------------------------------------------------

  /** The last `limit + 1` pieces of a file, and those before them. */
  function Late(file: Bytes, limit: nat): seq<Bytes> {
    Tail(Split(file), limit + 1)
  }

  function Early(file: Bytes, limit: nat): seq<Bytes> {
    Split(file)[..|Split(file)| - |Late(file, limit)|]
  }

  /** Enough lines at the end of the file are not blank, or all lines before
      them are.  A file of at most `limit + 1` pieces has none before them. */
  predicate EndsWell(file: Bytes, limit: nat, blank: Bytes -> bool) {
    |NonBlank(Late(file, limit), blank)| >= limit || NonBlank(Early(file, limit), blank) == []
  }

  lemma {:induction false} NewlinesJoin(a: Bytes, b: Bytes)
    ensures Newlines(a + b) == Newlines(a) + Newlines(b)
  {
    if b == [] {
      assert a + b == a;
    } else {
      ConcatEnds(a, b);
      NewlinesJoin(a, Front(b));
    }
  }

  lemma NewlinesBefore(file: Bytes, start: nat)
    requires start < |file|
    ensures Newlines(file[start..]) == Newlines(file[start + 1..]) + if file[start] == NEWLINE then 1 else 0
  {
    var one := [file[start]];
    assert file[start..] == one + file[start + 1..];
    NewlinesJoin(one, file[start + 1..]);
    assert one[..0] == [];
  }

  /** Byte by byte, reading stops right at the newline in front of the last
      `limit + 1` pieces, or never. */
  lemma {:induction false} WindowByBytes(file: Bytes, position: nat, limit: nat)
    requires position <= |file| && Newlines(file[position..]) <= limit
    ensures var start := WindowFrom(file, position, limit, 1);
            || (start == 0 && Newlines(file) <= limit)
            || (start < |file| && file[start] == NEWLINE && Newlines(file[start..]) == limit + 1)
    decreases position
  {
    if position == 0 {
      assert file[0..] == file;
    } else {
      NewlinesBefore(file, position - 1);
      if Newlines(file[position - 1..]) <= limit {
        WindowByBytes(file, position - 1, limit);
      }
    }
  }

  lemma NewlinesFromHere(file: Bytes, p: nat, q: nat)
    requires p <= q <= |file|
    ensures Newlines(file[q..]) <= Newlines(file[p..])
  {
    assert file[p..] == file[p..q] + file[q..];
    NewlinesJoin(file[p..q], file[q..]);
  }

  /** The last newline that has `n` newlines behind it: the one in front of the
      last `n + 1` pieces. */
  function NewlineBefore(file: Bytes, n: nat): (q: nat)
    requires Newlines(file) > n
    ensures q < |file| && file[q] == NEWLINE && Newlines(file[q..]) == n + 1
  {
    assert file[|file|..] == [];
    WindowByBytes(file, |file|, n);
    WindowFrom(file, |file|, n, 1)
  }

  /** Where the part of the file begins that is fetched in chunks of this size:
      at the last boundary, counted from the end, that is not behind the newline
      in front of the last `limit + 1` pieces, or at the front of the file. */
  function Boundary(file: Bytes, limit: nat, chunk: nat): (start: nat)
    requires chunk > 0
    ensures start <= |file|
  {
    if Newlines(file) <= limit then 0
    else
      var q := NewlineBefore(file, limit);
      Max(0, q - (q - |file|) % chunk)
  }

  function Max(a: int, b: int): int {
    if a < b then b else a
  }

  /** Remainders are unique. */
  lemma RemainderOf(a: int, k: int, r: nat, chunk: nat)
    requires r < chunk && a == k * chunk + r
    ensures a % chunk == r
  {
    var d := a / chunk - k;
    assert d * chunk == r - a % chunk;
    MultiplesAreFar(d, chunk);
  }

  lemma MultiplesAreFar(d: int, chunk: nat)
    ensures d >= 1 ==> d * chunk >= chunk
    ensures d <= -1 ==> d * chunk + chunk <= 0
  {
  }

  lemma OneChunkBack(a: int, chunk: nat)
    requires chunk > 0
    ensures (a + chunk) % chunk == a % chunk
    ensures 0 <= a + chunk < chunk ==> a % chunk == a + chunk
  {
    assert a + chunk == (a / chunk + 1) * chunk + a % chunk;
    RemainderOf(a + chunk, a / chunk + 1, a % chunk, chunk);
    if 0 <= a + chunk < chunk {
      RemainderOf(a, -1, a + chunk, chunk);
    }
  }

  /** Reading chunk by chunk stops at that boundary. */
  lemma {:induction false} WindowFromBoundary(file: Bytes, position: nat, limit: nat, chunk: nat)
    requires chunk > 0 && Newlines(file) > limit && NewlineBefore(file, limit) < position <= |file|
    ensures var q := NewlineBefore(file, limit);
            WindowFrom(file, position, limit, chunk) == Max(0, q - (q - position) % chunk)
    decreases position
  {
    var q := NewlineBefore(file, limit);
    var next := if position < chunk then 0 else position - chunk;
    ViewReaches(file, limit, position);
    ViewReaches(file, limit, next);
    OneChunkBack(q - position, chunk);
    if q < next {
      WindowFromBoundary(file, next, limit, chunk);
    }
  }

  /** The newline in question is in view from its own place on. */
  lemma ViewReaches(file: Bytes, limit: nat, position: nat)
    requires Newlines(file) > limit && position <= |file|
    ensures Newlines(file[position..]) <= limit <==> NewlineBefore(file, limit) < position
  {
    var q := NewlineBefore(file, limit);
    if q < position {
      NewlinesBefore(file, q);
      NewlinesFromHere(file, q + 1, position);
    } else {
      NewlinesFromHere(file, position, q);
    }
  }

  lemma WindowIsBoundary(file: Bytes, limit: nat, chunk: nat)
    requires chunk > 0
    ensures Window(file, limit, chunk) == Boundary(file, limit, chunk)
  {
    if Newlines(file) > limit {
      WindowFromBoundary(file, |file|, limit, chunk);
    } else {
      NoBoundary(file, |file|, limit, chunk);
    }
  }

  lemma {:induction false} NoBoundary(file: Bytes, position: nat, limit: nat, chunk: nat)
    requires chunk > 0 && Newlines(file) <= limit && position <= |file|
    ensures WindowFrom(file, position, limit, chunk) == 0
    decreases position
  {
    if position > 0 {
      assert file[0..] == file;
      NewlinesFromHere(file, 0, position);
      NoBoundary(file, if position < chunk then 0 else position - chunk, limit, chunk);
    }
  }

  /** Enough lines that begin in the fetched part are not blank, or all earlier
      ones are: a condition on the file, the limit and the chunk size. */
  predicate EndsWellFor(file: Bytes, limit: nat, chunk: nat, blank: Bytes -> bool)
    requires chunk > 0
  {
    var start := Boundary(file, limit, chunk);
    |NonBlank(InView(file, start), blank)| >= limit || NonBlank(OutOfView(file, start), blank) == []
  }

  /** For each chunk size, the program's 64 KiB among them: the reader returns a
      suffix of what a full scan returns, and all of it exactly on these files. */
  lemma ExactForThisChunk(file: Bytes, limit: nat, chunk: nat, blank: Bytes -> bool)
    requires chunk > 0
    ensures IsSuffix(TailRead(file, limit, chunk, blank), FullScan(file, limit, blank))
    ensures TailRead(file, limit, chunk, blank) == FullScan(file, limit, blank) <==>
            EndsWellFor(file, limit, chunk, blank)
  {
    WindowIsBoundary(file, limit, chunk);
    TailReadIsExact(file, limit, chunk, blank);
  }

  /** A window that starts inside the file shows the late pieces and more. */
  lemma ViewHoldsLate(file: Bytes, limit: nat, start: nat)
    requires 0 < start <= |file| && Newlines(file[start..]) > limit
    ensures var view, out := InView(file, start), OutOfView(file, start);
            && |view| >= limit + 1
            && view == view[..|view| - (limit + 1)] + Late(file, limit)
            && Early(file, limit) == out + view[..|view| - (limit + 1)]
  {
    var view, out := InView(file, start), OutOfView(file, start);
    TailOfParts(out, view, limit + 1);
    CutBefore(view, limit + 1);
  }

  lemma EndingWellSuffices(file: Bytes, limit: nat, chunk: nat, blank: Bytes -> bool)
    requires chunk > 0 && EndsWell(file, limit, blank)
    ensures TailRead(file, limit, chunk, blank) == FullScan(file, limit, blank)
  {
    var start := Window(file, limit, chunk);
    TailReadIsExact(file, limit, chunk, blank);
    WindowSuffices(file, |file|, limit, chunk);
    if start == 0 {
      assert OutOfView(file, start) == [];
    } else {
      var view, out := InView(file, start), OutOfView(file, start);
      var extra := view[..|view| - (limit + 1)];
      ViewHoldsLate(file, limit, start);
      NonBlankJoins(extra, Late(file, limit), blank);
      NonBlankJoins(out, extra, blank);
    }
  }

  /** Reading byte by byte shows no more than the late pieces. */
  lemma BytewiseViewIsLate(file: Bytes, limit: nat)
    ensures var start := Window(file, limit, 1);
            || (start > 0 && InView(file, start) == Late(file, limit) && OutOfView(file, start) == Early(file, limit))
            || Early(file, limit) == []
            || Early(file, limit) == [[]]
  {
    var start := Window(file, limit, 1);
    assert file[|file|..] == [];
    WindowByBytes(file, |file|, limit);
    if start > 0 {
      ViewHoldsLate(file, limit, start);
      var view := InView(file, start);
      assert view[..0] == [];
    } else if Newlines(file) > limit {
      assert file[0..] == file;
      assert file == [NEWLINE] + file[1..];
      SplitAtCut([NEWLINE], file[1..]);
      SplitNewline();
    }
  }

  lemma SplitNewline()
    ensures Split([NEWLINE]) == [[], []]
  {
    var none: seq<Bytes> := [[]];
    assert Front([NEWLINE]) == [] && Split([]) == none;
  }

  lemma OneEmptyPiece(blank: Bytes -> bool)
    requires blank([])
    ensures NonBlank([[]], blank) == []
  {
    var one: seq<Bytes> := [[]];
    assert Front(one) == [];
  }

  /** For every file and limit: reading is exact whatever the chunk size exactly
      when the file ends well. */
  lemma ExactForEveryChunk(file: Bytes, limit: nat, blank: Bytes -> bool)
    requires blank([])
    ensures (forall chunk: nat :: chunk > 0 ==> TailRead(file, limit, chunk, blank) == FullScan(file, limit, blank))
            <==> EndsWell(file, limit, blank)
  {
    if EndsWell(file, limit, blank) {
      forall chunk: nat | chunk > 0
        ensures TailRead(file, limit, chunk, blank) == FullScan(file, limit, blank)
      {
        EndingWellSuffices(file, limit, chunk, blank);
      }
    } else {
      BytewiseViewIsLate(file, limit);
      OneEmptyPiece(blank);
      TailReadIsExact(file, limit, 1, blank);
    }
  }

  // ---------------------------------------------------------------------
  // A failing file for every chunk size
  // ---------------------------------------------------------------------

  /** The chunk size the program reads with. */
  const TAIL_CHUNK_SIZE: nat := 0x1_0000

  function BlankLines(n: nat): Bytes {
    if n == 0 then [] else BlankLines(n - 1) + [NEWLINE]
  }

  function EmptyPieces(n: nat): seq<Bytes> {
    if n == 0 then [] else EmptyPieces(n - 1) + [[]]
  }

  /** A one-letter line and `n` newlines. */
  function BuriedLine(n: nat): Bytes {
    [0x61] + BlankLines(n)
  }

  lemma {:induction false} BlankLinesShape(n: nat)
    ensures |BlankLines(n)| == n && Newlines(BlankLines(n)) == n
  {
    if n > 0 {
      BlankLinesShape(n - 1);
      assert Front(BlankLines(n)) == BlankLines(n - 1);
    }
  }

  lemma {:induction false} BlankLinesSplit(n: nat)
    ensures Split(BlankLines(n)) == EmptyPieces(n + 1)
  {
    if n == 0 {
      assert EmptyPieces(1) == [[]];
    } else {
      BlankLinesSplit(n - 1);
      assert Front(BlankLines(n)) == BlankLines(n - 1);
    }
  }

  lemma {:induction false} EmptyPiecesShape(n: nat)
    ensures |EmptyPieces(n)| == n && forall i :: 0 <= i < n ==> EmptyPieces(n)[i] == []
  {
    if n > 0 {
      EmptyPiecesShape(n - 1);
    }
  }

  lemma {:induction false} EmptyPiecesAreBlank(n: nat, blank: Bytes -> bool)
    requires blank([])
    ensures NonBlank(EmptyPieces(n), blank) == []
  {
    if n > 0 {
      EmptyPiecesAreBlank(n - 1, blank);
      assert Front(EmptyPieces(n)) == EmptyPieces(n - 1);
    }
  }

  lemma EmptyPiecesAfterFirst(n: nat)
    ensures |EmptyPieces(n + 1)| == n + 1 && EmptyPieces(n + 1)[1..] == EmptyPieces(n) && EmptyPieces(n + 1)[0] == []
  {
    EmptyPiecesShape(n);
    EmptyPiecesShape(n + 1);
  }

  lemma {:induction false} BlankTails(n: nat, k: nat)
    requires k <= n && |BlankLines(n)| == n
    ensures |BlankLines(k)| == k && BlankLines(n)[n - k..] == BlankLines(k)
    decreases n
  {
    if k == n {
      assert BlankLines(n)[0..] == BlankLines(n);
    } else if k == 0 {
    } else {
      BlankTails(n - 1, k - 1);
      assert BlankLines(n)[n - k..] == BlankLines(n - 1)[n - 1 - (k - 1)..] + [NEWLINE];
    }
  }

  /** Behind the letter everything is a newline. */
  lemma BuriedTail(n: nat, position: nat)
    requires 0 < position <= n + 1
    ensures |BuriedLine(n)| == n + 1 && BuriedLine(n)[position..] == BlankLines(n + 1 - position)
  {
    BlankLinesShape(n);
    BlankTails(n, n + 1 - position);
    assert BuriedLine(n)[position..] == BlankLines(n)[position - 1..];
  }

  /** Only blank lines come into view: reading stops before it reaches the letter. */
  lemma {:induction false} BuriedWindow(n: nat, position: nat, limit: nat, chunk: nat)
    requires chunk > 0 && n >= limit + chunk && 0 < position <= n + 1 && |BuriedLine(n)| == n + 1
    ensures WindowFrom(BuriedLine(n), position, limit, chunk) > 0
    decreases position
  {
    BuriedTail(n, position);
    BlankLinesShape(n + 1 - position);
    if Newlines(BuriedLine(n)[position..]) <= limit {
      BuriedWindow(n, position - chunk, limit, chunk);
    }
  }

  lemma BuriedPieces(n: nat)
    ensures Split(BuriedLine(n)) == [[0x61]] + EmptyPieces(n)
  {
    var letter: Bytes := [0x61];
    SplitLetter(0x61);
    SplitAtCut(letter, BlankLines(n));
    BlankLinesSplit(n);
    EmptyPiecesAfterFirst(n);
    assert letter + [] == letter;
  }

  lemma BuriedNonBlank(n: nat, blank: Bytes -> bool)
    requires blank([]) && !blank([0x61])
    ensures NonBlank(Split(BuriedLine(n)), blank) == [[0x61]]
  {
    var one: seq<Bytes> := [[0x61]];
    BuriedPieces(n);
    NonBlankJoins(one, EmptyPieces(n), blank);
    EmptyPiecesAreBlank(n, blank);
    assert Front(one) == [];
  }

  lemma SplitLetter(b: Byte)
    requires b != NEWLINE
    ensures Split([b]) == [[b]]
  {
    var none: seq<Bytes> := [[]];
    assert Front([b]) == [] && Split([]) == none;
    assert Front(none) == [] && Last(none) + [b] == [b];
  }

  /** Whatever the chunk size, enough blank lines at the end hide the only line
      there is: the reader returns nothing where a full scan returns it. */
  lemma BlankLinesHideALine(limit: nat, chunk: nat, n: nat, blank: Bytes -> bool)
    requires limit > 0 && chunk > 0 && n >= limit + chunk && blank([]) && !blank([0x61])
    ensures TailRead(BuriedLine(n), limit, chunk, blank) == []
    ensures FullScan(BuriedLine(n), limit, blank) == [[0x61]]
  {
    var file := BuriedLine(n);
    BlankLinesShape(n);
    BuriedNonBlank(n, blank);
    BuriedWindow(n, |file|, limit, chunk);
    var start := Window(file, limit, chunk);
    var k := n + 1 - start;
    BuriedTail(n, start);
    BlankLinesSplit(k);
    EmptyPiecesAfterFirst(k);
    EmptyPiecesAreBlank(k, blank);
  }

  /** So it does in the program, with its own chunk size. */
  lemma TheProgramCanMissALine(limit: nat, blank: Bytes -> bool)
    requires limit > 0 && blank([]) && !blank([0x61])
    ensures exists file: Bytes :: TailRead(file, limit, TAIL_CHUNK_SIZE, blank) != FullScan(file, limit, blank)
  {
    BlankLinesHideALine(limit, TAIL_CHUNK_SIZE, limit + TAIL_CHUNK_SIZE, blank);
  }
}
