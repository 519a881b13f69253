/** Spoiler runs between double bars: finding them, scrambling them, and the
    combining marks drawn over them. */
module Spoiler {
  import opened Wrappers

  /** A segment borrows the part of the message from `lo` to `hi`. */
  datatype Segment = Text(lo: nat, hi: nat) | Hidden(lo: nat, hi: nat)

  predicate BarsAt(t: string, i: int) {
    0 <= i && i + 2 <= |t| && t[i] == '|' && t[i + 1] == '|'
  }

  /** The nearest double bar from `from` on. */
  function Find(t: string, from: nat): (r: Option<nat>)
    requires from <= |t|
    ensures r.Some? ==> from <= r.value && BarsAt(t, r.value)
    ensures forall i :: from <= i && (r.Some? ==> i < r.value) ==> !BarsAt(t, i)
    decreases |t| - from
  {
    if |t| - from < 2 then None else if BarsAt(t, from) then Some(from) else Find(t, from + 1)
  }

  datatype Run = Run(open: nat, close: nat)

  /** The first opener with a closer and something between, looking from `scan`. */
  function FirstRun(t: string, scan: nat): (r: Option<Run>)
    requires scan <= |t|
    ensures r.Some? ==> && scan <= r.value.open && r.value.open + 2 < r.value.close
                        && BarsAt(t, r.value.open) && BarsAt(t, r.value.close)
    decreases |t| - scan
  {
    var open := Find(t, scan);
    if open.None? then None
    else
      var close := Find(t, open.value + 2);
      if close.None? then None
      else if close.value == open.value + 2 then FirstRun(t, open.value + 2)
      else Some(Run(open.value, close.value))
  }

  /** The closer is the nearest one. */
  lemma {:induction false} RunIsShort(t: string, scan: nat, i: nat)
    requires scan <= |t| && FirstRun(t, scan).Some?
    requires FirstRun(t, scan).value.open + 2 <= i < FirstRun(t, scan).value.close
    ensures !BarsAt(t, i)
    decreases |t| - scan
  {
    var open := Find(t, scan).value;
    if Find(t, open + 2).value == open + 2 {
      RunIsShort(t, open + 2, i);
    }
  }

  /** Pending text is added unless it is empty. */
  function AddText(out: seq<Segment>, lo: nat, hi: nat): seq<Segment> {
    if lo < hi then out + [Text(lo, hi)] else out
  }

  function AddRun(out: seq<Segment>, pos: nat, run: Run): seq<Segment> {
    AddText(out, pos, run.open) + [Hidden(run.open + 2, run.close)]
  }

  /** The segments `out` so far and those from `pos` on: the text up to the first
      run, the run, and so on with what follows it. */
  function Collected(t: string, pos: nat, out: seq<Segment>): seq<Segment>
    requires pos <= |t|
    decreases |t| - pos
  {
    var run := FirstRun(t, pos);
    if run.None? then AddText(out, pos, |t|) else Collected(t, run.value.close + 2, AddRun(out, pos, run.value))
  }

  function Segments(t: string): seq<Segment> {
    Collected(t, 0, [])
  }

  /** What one round of the scan learns. */
  lemma ScanStep(t: string, scan: nat, open: Option<nat>, close: Option<nat>)
    requires scan <= |t| && open == Find(t, scan) && close == if open.Some? then Find(t, open.value + 2) else None
    ensures close.None? ==> FirstRun(t, scan) == None
    ensures close.Some? ==> open.Some? && scan <= open.value && open.value + 2 <= close.value && close.value + 2 <= |t|
    ensures close.Some? && close.value == open.value + 2 ==> FirstRun(t, scan) == FirstRun(t, open.value + 2)
    ensures close.Some? && close.value != open.value + 2 ==> FirstRun(t, scan) == Some(Run(open.value, close.value))
  {
  }

  /** The first run is known, or the search can go on at `next`, or there is none. */
  ghost predicate Found(t: string, scan: nat, run: Option<Run>, next: Option<nat>) {
    && scan <= |t|
    && if run.Some? then FirstRun(t, scan) == run
       else if next.Some? then scan < next.value <= |t| && FirstRun(t, scan) == FirstRun(t, next.value)
       else FirstRun(t, scan).None?
  }

  /** The next opener and closer, or where to look next. */
  method Round(t: string, scan: nat) returns (run: Option<Run>, next: Option<nat>)
    requires scan <= |t|
    ensures Found(t, scan, run, next)
  {
    var open := Find(t, scan);
    var close := if open.Some? then Find(t, open.value + 2) else None;
    ScanStep(t, scan, open, close);
    if close.None? {
      return None, None;
    }
    if close.value == open.value + 2 {
      return None, Some(open.value + 2);
    }
    return Some(Run(open.value, close.value)), None;
  }

  /** With `out` done, pending text from `pos` and the search at `scan`, what is
      still to come completes `all`. */
  ghost predicate Underway(t: string, all: seq<Segment>, pos: nat, scan: nat, out: seq<Segment>) {
    pos <= scan <= |t| && FirstRun(t, pos) == FirstRun(t, scan) && Collected(t, pos, out) == all
  }

  lemma TakeRun(t: string, all: seq<Segment>, pos: nat, scan: nat, out: seq<Segment>, run: Run)
    requires Underway(t, all, pos, scan, out) && Found(t, scan, Some(run), None)
    ensures Underway(t, all, run.close + 2, run.close + 2, AddRun(out, pos, run)) && scan < run.close + 2
  {
  }

  lemma SkipPair(t: string, all: seq<Segment>, pos: nat, scan: nat, out: seq<Segment>, next: nat)
    requires Underway(t, all, pos, scan, out) && Found(t, scan, None, Some(next))
    ensures Underway(t, all, pos, next, out)
  {
  }

  lemma Finishes(t: string, all: seq<Segment>, pos: nat, scan: nat, out: seq<Segment>)
    requires Underway(t, all, pos, scan, out) && Found(t, scan, None, None)
    ensures AddText(out, pos, |t|) == all
  {
  }

  /** `pos` is where the pending text starts, `scan` where the next opener is
      looked for. */
  method Parse(t: string) returns (out: seq<Segment>)
    ensures out == Segments(t)
  {
    ghost var all := Segments(t);
    out := [];
    var pos, scan := 0, 0;
    var run, next := Round(t, scan);
    while run.Some? || next.Some?
      invariant 0 <= pos && 0 <= scan && Underway(t, all, pos, scan, out)
      invariant Found(t, scan, run, next)
      decreases |t| - scan
    {
      if run.Some? {
        TakeRun(t, all, pos, scan, out, run.value);
        out := AddRun(out, pos, run.value);
        pos := run.value.close + 2;
        scan := pos;
      } else {
        SkipPair(t, all, pos, scan, out, next.value);
        scan := next.value;
      }
      run, next := Round(t, scan);
    }
    Finishes(t, all, pos, scan, out);
    out := AddText(out, pos, |t|);
  }

  // ---- Nothing is lost.

  function Cut(t: string, lo: nat, hi: nat): string {
    if lo <= hi <= |t| then t[lo..hi] else ""
  }

  /** A segment with its bars put back. */
  function Piece(t: string, s: Segment): string {
    if s.Text? then Cut(t, s.lo, s.hi) else "||" + Cut(t, s.lo, s.hi) + "||"
  }

  /** The pieces of the segments, one after another. */
  function Render(piece: Segment -> string, segments: seq<Segment>): string {
    if segments == [] then "" else Render(piece, segments[..|segments| - 1]) + piece(segments[|segments| - 1])
  }

  lemma RenderOne(piece: Segment -> string, segments: seq<Segment>, s: Segment)
    ensures Render(piece, segments + [s]) == Render(piece, segments) + piece(s)
  {
    assert (segments + [s])[..|segments|] == segments;
  }

  /** Each segment's piece is the part of `t` it came from, bars included. */
  ghost predicate Restores(t: string, piece: Segment -> string) {
    && (forall lo: nat, hi: nat :: lo <= hi <= |t| ==> piece(Text(lo, hi)) == t[lo..hi])
    && (forall lo: nat, hi: nat :: 2 <= lo <= hi && BarsAt(t, lo - 2) && BarsAt(t, hi) ==>
       piece(Hidden(lo, hi)) == t[lo - 2..hi + 2])
  }

  lemma Parts(t: string, a: nat, b: nat, c: nat)
    requires a <= b <= c <= |t|
    ensures t[a..b] + t[b..c] == t[a..c]
  {
  }

  lemma BarsRestore(t: string, lo: nat, hi: nat)
    requires 2 <= lo <= hi && BarsAt(t, lo - 2) && BarsAt(t, hi)
    ensures "||" + t[lo..hi] + "||" == t[lo - 2..hi + 2]
  {
    assert t[lo - 2..lo] == "||" && t[hi..hi + 2] == "||";
    Parts(t, lo - 2, lo, hi);
    Parts(t, lo - 2, hi, hi + 2);
  }

  lemma PiecesRestore(t: string)
    ensures Restores(t, s => Piece(t, s))
  {
    forall lo: nat, hi: nat | 2 <= lo <= hi && BarsAt(t, lo - 2) && BarsAt(t, hi)
      ensures Piece(t, Hidden(lo, hi)) == t[lo - 2..hi + 2]
    {
      BarsRestore(t, lo, hi);
    }
  }

  lemma Extends(piece: Segment -> string, t: string, out: seq<Segment>, s: Segment, pos: nat, hi: nat)
    requires pos <= hi <= |t| && Render(piece, out) == t[0..pos] && piece(s) == t[pos..hi]
    ensures Render(piece, out + [s]) == t[0..hi]
  {
    RenderOne(piece, out, s);
    Parts(t, 0, pos, hi);
  }

  lemma TextRenders(t: string, piece: Segment -> string, out: seq<Segment>, pos: nat, hi: nat)
    requires Restores(t, piece) && pos <= hi <= |t| && Render(piece, out) == t[0..pos]
    ensures Render(piece, AddText(out, pos, hi)) == t[0..hi]
  {
    if pos < hi {
      Extends(piece, t, out, Text(pos, hi), pos, hi);
    }
  }

  lemma RunRenders(t: string, piece: Segment -> string, out: seq<Segment>, pos: nat, run: Run)
    requires Restores(t, piece) && pos <= run.open && run.open + 2 <= run.close && BarsAt(t, run.open)
    requires BarsAt(t, run.close)
    requires Render(piece, out) == t[0..pos]
    ensures Render(piece, AddRun(out, pos, run)) == t[0..run.close + 2]
  {
    TextRenders(t, piece, out, pos, run.open);
    Extends(piece, t, AddText(out, pos, run.open), Hidden(run.open + 2, run.close), run.open, run.close + 2);
  }

  lemma {:induction false} CollectedRenders(t: string, piece: Segment -> string, pos: nat, out: seq<Segment>)
    requires Restores(t, piece) && pos <= |t| && Render(piece, out) == t[0..pos]
    ensures Render(piece, Collected(t, pos, out)) == t[0..|t|]
    decreases |t| - pos
  {
    var run := FirstRun(t, pos);
    if run.None? {
      TextRenders(t, piece, out, pos, |t|);
    } else {
      RunRenders(t, piece, out, pos, run.value);
      CollectedRenders(t, piece, run.value.close + 2, AddRun(out, pos, run.value));
    }
  }

  /** Putting the bars back rebuilds the input. */
  lemma ParseLosesNothing(t: string)
    ensures Render(s => Piece(t, s), Segments(t)) == t
  {
    PiecesRestore(t);
    CollectedRenders(t, s => Piece(t, s), 0, []);
    assert t[0..|t|] == t;
  }

  /** Not empty, inside the message, and a hidden run holds no double bar. */
  ghost predicate IsSegment(t: string, s: Segment) {
    s.lo < s.hi <= |t| && (s.Hidden? ==> forall i :: s.lo <= i < s.hi ==> !BarsAt(t[..s.hi], i))
  }

  lemma SegmentsAreProper(t: string, s: Segment)
    requires s in Segments(t)
    ensures IsSegment(t, s)
  {
    var ok := (s: Segment) => IsSegment(t, s);
    forall pos: nat | pos <= |t| ensures AddsOnly(t, pos, ok) {
      if FirstRun(t, pos).Some? {
        HiddenIsProper(t, pos, FirstRun(t, pos).value);
      }
    }
    CollectedAre(t, 0, [], ok, s);
  }

  /** The segments added at `pos` are all `ok`. */
  ghost predicate AddsOnly(t: string, pos: nat, ok: Segment -> bool)
    requires pos <= |t|
  {
    match FirstRun(t, pos)
    case None => pos < |t| ==> ok(Text(pos, |t|))
    case Some(run) => (pos < run.open ==> ok(Text(pos, run.open))) && ok(Hidden(run.open + 2, run.close))
  }

  lemma {:induction false} CollectedAre(t: string, pos: nat, out: seq<Segment>, ok: Segment -> bool, s: Segment)
    requires pos <= |t| && s in Collected(t, pos, out)
    requires forall p: nat :: p <= |t| ==> AddsOnly(t, p, ok)
    ensures s in out || ok(s)
    decreases |t| - pos
  {
    assert AddsOnly(t, pos, ok);
    var run := FirstRun(t, pos);
    if run.Some? {
      CollectedAre(t, run.value.close + 2, AddRun(out, pos, run.value), ok, s);
    }
  }

  lemma HiddenIsProper(t: string, pos: nat, run: Run)
    requires pos <= |t| && FirstRun(t, pos) == Some(run)
    ensures IsSegment(t, Hidden(run.open + 2, run.close))
  {
    forall i: int | run.open + 2 <= i < run.close ensures !BarsAt(t[..run.close], i) {
      RunIsShort(t, pos, i);
    }
  }

  // ---- No run is missed.

  /** `part` is the stretch of `t` from `lo` on. */
  ghost predicate IsPart(t: string, part: string, lo: nat) {
    lo + |part| <= |t| && part == t[lo..lo + |part|]
  }

  lemma FindWithin(t: string, part: string, lo: nat, from: nat, i: nat)
    requires IsPart(t, part, lo) && from <= |part| && Find(part, from) == Some(i)
    ensures Find(t, lo + from) == Some(lo + i)
  {
    assert BarsAt(t, lo + i);
    forall k | lo + from <= k < lo + i ensures !BarsAt(t, k) {
      assert !BarsAt(part, k - lo);
    }
  }

  /** A part's first run is the message's first from there. */
  lemma {:induction false} RunWithin(t: string, part: string, lo: nat, scan: nat, run: Run)
    requires IsPart(t, part, lo) && scan <= |part| && FirstRun(part, scan) == Some(run)
    ensures lo + scan <= |t| && FirstRun(t, lo + scan) == Some(Run(lo + run.open, lo + run.close))
    decreases |part| - scan
  {
    var open, close := FirstPair(part, scan);
    PairWithin(t, part, lo, scan, open, close);
    if close == open + 2 {
      RunWithin(t, part, lo, close, run);
    }
  }

  /** The nearest double bar and the next one after it. */
  ghost predicate IsPair(t: string, scan: nat, open: nat, close: nat) {
    scan <= |t| && open + 2 <= |t| && Find(t, scan) == Some(open) && Find(t, open + 2) == Some(close)
  }

  lemma FirstPair(t: string, scan: nat) returns (open: nat, close: nat)
    requires scan <= |t| && FirstRun(t, scan).Some?
    ensures IsPair(t, scan, open, close) && scan < open + 2
    ensures FirstRun(t, scan) == if close == open + 2 then FirstRun(t, close) else Some(Run(open, close))
  {
    open := Find(t, scan).value;
    close := Find(t, open + 2).value;
  }

  lemma PairWithin(t: string, part: string, lo: nat, scan: nat, open: nat, close: nat)
    requires IsPart(t, part, lo) && IsPair(part, scan, open, close)
    ensures IsPair(t, lo + scan, lo + open, lo + close)
    ensures FirstRun(t, lo + scan) ==
            if close == open + 2 then FirstRun(t, lo + close) else Some(Run(lo + open, lo + close))
  {
    FindWithin(t, part, lo, scan, open);
    FindWithin(t, part, lo, open + 2, close);
  }

  /** The part holds no run. */
  ghost predicate HasNoRun(t: string, lo: nat, hi: nat) {
    lo <= hi <= |t| ==> FirstRun(t[lo..hi], 0).None?
  }

  /** No run in the text, nor with the bars that follow it. */
  ghost predicate MissesNothing(t: string, s: Segment) {
    s.Text? ==> HasNoRun(t, s.lo, s.hi) && HasNoRun(t, s.lo, s.hi + 2)
  }

  lemma NoEarlierRun(t: string, pos: nat, hi: nat)
    requires pos <= hi <= |t| && (FirstRun(t, pos).Some? ==> hi <= FirstRun(t, pos).value.open + 2)
    ensures FirstRun(t[pos..hi], 0).None?
  {
    if FirstRun(t[pos..hi], 0).Some? {
      RunWithin(t, t[pos..hi], pos, 0, FirstRun(t[pos..hi], 0).value);
    }
  }

  lemma TextIsPlain(t: string, pos: nat, hi: nat)
    requires pos <= hi <= |t|
    requires hi == match FirstRun(t, pos) case Some(run) => run.open case None => |t|
    ensures MissesNothing(t, Text(pos, hi))
  {
    NoEarlierRun(t, pos, hi);
    if hi + 2 <= |t| {
      NoEarlierRun(t, pos, hi + 2);
    }
  }

  /** Whatever is shown as text hides no run, not even one closed by the bars that
      open the next run. */
  lemma NoRunIsMissed(t: string, s: Segment)
    requires s in Segments(t)
    ensures MissesNothing(t, s)
  {
    var ok := (s: Segment) => MissesNothing(t, s);
    forall pos: nat | pos <= |t| ensures AddsOnly(t, pos, ok) {
      TextIsPlain(t, pos, match FirstRun(t, pos) case Some(run) => run.open case None => |t|);
    }
    CollectedAre(t, 0, [], ok, s);
  }

  // ---- Characters.

  /** What the program takes from outside: the character database beyond ASCII,
      and the hash that decides, per stream and place, for one run. */
  datatype Noise = Noise(numeric: char -> bool, uppercase: char -> bool, decide: (Stream, nat) -> nat)

  datatype Stream = Letters | Marks

  datatype Class = Structure | Digit | Upper | Other

  predicate IsAscii(c: char) {
    c as int < 128
  }

  /** The characters with the property White_Space. */
  predicate IsWhitespace(c: char) {
    var n := c as int;
    || 0x09 <= n <= 0x0D || n in {0x20, 0x85, 0xA0, 0x1680} || 0x2000 <= n <= 0x200A
    || n in {0x2028, 0x2029, 0x202F, 0x205F, 0x3000}
  }

  predicate IsAsciiPunctuation(c: char) {
    '!' <= c <= '/' || ':' <= c <= '@' || '[' <= c <= '`' || '{' <= c <= '~'
  }

  function ClassOf(noise: Noise, c: char): Class {
    if IsWhitespace(c) || IsAsciiPunctuation(c) then Structure
    else if (if IsAscii(c) then '0' <= c <= '9' else noise.numeric(c)) then Digit
    else if (if IsAscii(c) then 'A' <= c <= 'Z' else noise.uppercase(c)) then Upper
    else Other
  }

  /** The combining marks: grave, acute, tilde, breve, diaeresis, caron, dot below,
      tilde below. */
  const MARKS: string :=
    ['\U{0300}', '\U{0301}', '\U{0303}', '\U{0306}', '\U{0308}', '\U{030C}', '\U{0323}', '\U{0330}']

  predicate IsMark(c: char) {
    c in MARKS
  }

  // ---- Scrambling and marks.

  function Substitute(class': Class, h: nat): char {
    match class'
    case Digit => (48 + h % 10) as char
    case Upper => (65 + h % 26) as char
    case _ => (97 + h % 26) as char
  }

  function Scrambled(noise: Noise, c: char, i: nat): char {
    if ClassOf(noise, c) == Structure then c else Substitute(ClassOf(noise, c), noise.decide(Letters, i))
  }

  function Scramble(noise: Noise, t: string): string {
    seq(|t|, (i: nat) requires i < |t| => Scrambled(noise, t[i], i))
  }

  /** A substitute is plain, is no mark, and is of the character's own class. */
  lemma ScrambledIsPlain(noise: Noise, c: char, i: nat)
    ensures var d := Scrambled(noise, c, i);
            && ClassOf(noise, d) == ClassOf(noise, c) && (ClassOf(noise, c) == Structure ==> d == c)
            && (IsAscii(d) || IsWhitespace(d)) && !IsMark(d)
  {
    assert forall d :: IsMark(d) ==> 0x300 <= d as int < 0x400;
  }

  const ASCII_PUNCTUATION: string := "!\"#$%&'()*+,-./:;<=>?@[\\]^_`{|}~"

  const WHITESPACE: set<int> :=
    {0x09, 0x0A, 0x0B, 0x0C, 0x0D, 0x20, 0x85, 0xA0, 0x1680, 0x2000, 0x2001, 0x2002, 0x2003, 0x2004, 0x2005,
     0x2006, 0x2007, 0x2008, 0x2009, 0x200A, 0x2028, 0x2029, 0x202F, 0x205F, 0x3000}

  lemma PunctuationIs(c: char)
    ensures IsAsciiPunctuation(c) <==> c in ASCII_PUNCTUATION
  {
    if IsAsciiPunctuation(c) {
      var n := c as int;
      var i := if n <= 47 then n - 33 else if n <= 64 then n - 43 else if n <= 96 then n - 69 else n - 95;
      assert ASCII_PUNCTUATION[i] as int == n;
      assert ASCII_PUNCTUATION[i] == c;
    }
  }

  lemma WhitespaceIs(c: char)
    ensures IsWhitespace(c) <==> c as int in WHITESPACE
  {
  }

  /** Whitespace and ASCII punctuation stand; a digit gives a digit, a capital a
      capital, anything else a small letter. */
  lemma ScrambledByClass(noise: Noise, t: string, i: nat)
    requires i < |t|
    ensures var c, d := t[i], Scramble(noise, t)[i];
            var ascii := c as int <= 127;
            if c as int in WHITESPACE || c in ASCII_PUNCTUATION then d == c
            else if (if ascii then c in "0123456789" else noise.numeric(c)) then '0' <= d <= '9'
            else if (if ascii then 'A' <= c <= 'Z' else noise.uppercase(c)) then 'A' <= d <= 'Z'
            else 'a' <= d <= 'z'
  {
    WhitespaceIs(t[i]);
    PunctuationIs(t[i]);
    DigitIs(t[i]);
  }

  lemma DigitIs(c: char)
    ensures c in "0123456789" <==> '0' <= c <= '9'
  {
    if '0' <= c <= '9' {
      var i := c as int - 48;
      assert "0123456789"[i] as int == c as int;
      assert "0123456789"[i] == c;
    }
  }

  /** What a scrambled run shows of a character: itself if it is structure, else
      only its class. */
  datatype Shape = Plain(c: char) | Veiled(class': Class)

  function ShapeOf(noise: Noise, c: char): Shape {
    if ClassOf(noise, c) == Structure then Plain(c) else Veiled(ClassOf(noise, c))
  }

  ghost predicate SameShape(noise: Noise, t: string, u: string) {
    |t| == |u| && forall i :: 0 <= i < |t| ==> ShapeOf(noise, t[i]) == ShapeOf(noise, u[i])
  }

  /** The scrambled run has the shape of the hidden one, nothing but ASCII and
      whitespace, and is the same for every hidden run of that shape. */
  lemma ScrambleShowsOnlyShape(noise: Noise, t: string, u: string)
    ensures SameShape(noise, Scramble(noise, t), t)
    ensures forall c :: c in Scramble(noise, t) ==> (IsAscii(c) || IsWhitespace(c)) && !IsMark(c)
    ensures SameShape(noise, t, u) ==> Scramble(noise, t) == Scramble(noise, u)
  {
    forall i | 0 <= i < |t|
      ensures var d := Scramble(noise, t)[i];
              ShapeOf(noise, d) == ShapeOf(noise, t[i]) && (IsAscii(d) || IsWhitespace(d)) && !IsMark(d)
    {
      ScrambledIsPlain(noise, t[i], i);
    }
    if SameShape(noise, t, u) {
      forall i | 0 <= i < |t| ensures Scramble(noise, t)[i] == Scramble(noise, u)[i] {
        assert ShapeOf(noise, t[i]) == ShapeOf(noise, u[i]);
      }
    }
  }

  /** About one visible character in three gets a mark. */
  function MarkFor(noise: Noise, c: char, i: nat): string {
    var h := noise.decide(Marks, i);
    if IsWhitespace(c) || h % 3 != 0 then "" else [MARKS[h / 3 % 8]]
  }

  /** What goes behind each character, by its place in the whole run. */
  type Marker = (char, nat) -> string

  function MarkerOf(noise: Noise): Marker {
    (c: char, i: nat) => MarkFor(noise, c, i)
  }

  /** `offset` is where `t` starts in the whole run. */
  function Zalgo(marker: Marker, t: string, offset: nat): string {
    if t == "" then "" else Zalgo(marker, t[..|t| - 1], offset) + ([t[|t| - 1]] + marker(t[|t| - 1], offset + |t| - 1))
  }

  lemma ZalgoOne(marker: Marker, t: string, c: char, offset: nat)
    ensures Zalgo(marker, t + [c], offset) == Zalgo(marker, t, offset) + ([c] + marker(c, offset + |t|))
  {
    assert (t + [c])[..|t|] == t;
  }

  method AddMarks(noise: Noise, t: string, offset: nat) returns (out: string)
    ensures out == Zalgo(MarkerOf(noise), t, offset)
  {
    out := "";
    for i := 0 to |t|
      invariant out == Zalgo(MarkerOf(noise), t[..i], offset)
    {
      MarksNext(noise, t, i, offset, out);
      out := out + [t[i]];
      if !IsWhitespace(t[i]) {
        var h := noise.decide(Marks, offset + i);
        if h % 3 == 0 {
          out := out + [MARKS[h / 3 % 8]];
        }
      }
    }
    assert t[..|t|] == t;
  }

  lemma MarksNext(noise: Noise, t: string, i: nat, offset: nat, out: string)
    requires i < |t| && out == Zalgo(MarkerOf(noise), t[..i], offset)
    ensures var mark := MarkFor(noise, t[i], offset + i);
            Zalgo(MarkerOf(noise), t[..i + 1], offset) == if mark == "" then out + [t[i]] else out + [t[i]] + mark
  {
    assert t[..i + 1] == t[..i] + [t[i]];
    ZalgoOne(MarkerOf(noise), t[..i], t[i], offset);
    var mark := MarkFor(noise, t[i], offset + i);
    Joins(out, [t[i]], mark);
    assert out + [t[i]] + "" == out + [t[i]];
  }

  lemma Joins(a: string, b: string, c: string)
    ensures a + b + c == a + (b + c)
  {
  }

  /** A run drawn in pieces carries the marks it has when drawn whole. */
  lemma {:induction false} ZalgoSplits(marker: Marker, a: string, b: string, offset: nat)
    ensures Zalgo(marker, a + b, offset) == Zalgo(marker, a, offset) + Zalgo(marker, b, offset + |a|)
    decreases |b|
  {
    if b == "" {
      assert a + b == a;
    } else {
      var first, last := b[..|b| - 1], b[|b| - 1];
      ZalgoSplits(marker, a, first, offset);
      assert b == first + [last];
      Joins(a, first, [last]);
      ZalgoOne(marker, a + first, last, offset);
      Joins(Zalgo(marker, a, offset), Zalgo(marker, first, offset + |a|),
          [last] + marker(last, offset + |b| - 1 + |a|));
    }
  }

  function Stripped(t: string): string {
    if t == "" then "" else Stripped(t[..|t| - 1]) + if IsMark(t[|t| - 1]) then "" else [t[|t| - 1]]
  }

  ghost predicate Unmarked(t: string) {
    forall c :: c in t ==> !IsMark(c)
  }

  lemma StripOne(t: string, c: char)
    ensures Stripped(t + [c]) == Stripped(t) + if IsMark(c) then "" else [c]
  {
    assert (t + [c])[..|t|] == t;
  }

  /** Nothing but marks. */
  ghost predicate OnlyMarks(marks: string) {
    |marks| <= 1 && forall c :: c in marks ==> IsMark(c)
  }

  lemma StripTwo(t: string, c: char, marks: string)
    requires !IsMark(c) && OnlyMarks(marks)
    ensures Stripped(t + ([c] + marks)) == Stripped(t) + [c]
  {
    StripOne(t, c);
    Joins(t, [c], marks);
    if marks == "" {
      assert t + [c] + "" == t + [c];
    } else {
      assert marks == [marks[0]] && marks[0] in marks;
      StripOne(t + [c], marks[0]);
    }
  }

  /** Marks come off again from any text that had none. */
  lemma {:induction false} StripRestores(marker: Marker, t: string, offset: nat)
    requires Unmarked(t) && forall c, i: nat :: OnlyMarks(marker(c, i))
    ensures Stripped(Zalgo(marker, t, offset)) == t
  {
    if t != "" {
      var first, last := t[..|t| - 1], t[|t| - 1];
      assert t == first + [last];
      StripRestores(marker, first, offset);
      StripTwo(Zalgo(marker, first, offset), last, marker(last, offset + |t| - 1));
    }
  }

  /** Stripping the marks off a scrambled run gives the scrambled run back, one
      character for every character hidden. */
  lemma ScrambleSurvivesMarks(noise: Noise, t: string, offset: nat)
    ensures |Scramble(noise, t)| == |t|
    ensures Stripped(Zalgo(MarkerOf(noise), Scramble(noise, t), offset)) == Scramble(noise, t)
  {
    ScrambleShowsOnlyShape(noise, t, t);
    StripRestores(MarkerOf(noise), Scramble(noise, t), offset);
  }
}
