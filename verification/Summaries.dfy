/** Summarizing a long history: lines are packed into chunks that fit the summarizer,
  and the partial summaries merged round by round until one is left. */
module Summaries {
  import opened Basics

  datatype Result<T> = Ok(value: T) | Err

  /** UTF-16 code units of a text. */
  function Units(s: string): nat {
    if s == "" then 0 else Units(s[..|s| - 1]) + UnitsOf(s[|s| - 1])
  }

  function UnitsOf(c: char): nat { if c as int >= 0x10000 then 2 else 1 }

  /** One code unit a character, section 2.1 of RFC 2781. */
  predicate Plane0(s: string) { forall c :: c in s ==> c as int < 0x10000 }

  function EstimateTokens(s: string): nat { (Units(s) + 3) / 4 }

  const CUT := "\n[... cut ...]\n"

  /** What a line past the limit is cut to. */
  function CutDown(line: string, keep: nat): string
    requires keep <= |line|
  {
    line[..keep] + CUT + line[|line| - keep..]
  }

  function TrimMiddle(line: string, limit: nat): string {
    var keep := limit * 4 / 2;
    if EstimateTokens(line) <= limit || keep * 2 >= |line| then line
    else CutDown(line, keep)
  }

  // ----------------------------------------------------------------- packing lines

  /** Chunks closed, the one being built, its estimate and how many lines are in it. */
  datatype Packing = Packing(chunks: seq<string>, sb: string, used: nat, held: nat)

  function PackOne(p: Packing, line: string, limit: nat): Packing {
    var t := EstimateTokens(line);
    if p.used > 0 && p.used + t > limit then Packing(p.chunks + [p.sb], line, t, 1)
    else Packing(p.chunks, p.sb + line, p.used + t, p.held + 1)
  }

  function Pack(lines: seq<string>, limit: nat): Packing {
    if lines == [] then Packing([], "", 0, 0)
    else PackOne(Pack(lines[..|lines| - 1], limit), lines[|lines| - 1], limit)
  }

  function Trimmed(lines: seq<string>, limit: nat): seq<string> {
    if lines == [] then [] else Trimmed(lines[..|lines| - 1], limit) + [TrimMiddle(lines[|lines| - 1], limit)]
  }

  lemma PackSnoc(lines: seq<string>, line: string, limit: nat)
    ensures Pack(lines + [line], limit) == PackOne(Pack(lines, limit), line, limit)
  {
    assert (lines + [line])[..|lines|] == lines;
  }

  lemma TrimmedOneMore(lines: seq<string>, i: nat, limit: nat)
    requires i < |lines|
    ensures Trimmed(lines[..i + 1], limit) == Trimmed(lines[..i], limit) + [TrimMiddle(lines[i], limit)]
  {
    assert lines[..i + 1][..i] == lines[..i];
  }

  function Packed(p: Packing): (chunks: seq<string>)
    ensures chunks != []
  {
    if p.used > 0 || p.chunks == [] then p.chunks + [p.sb] else p.chunks
  }

  function Chunks(lines: seq<string>, limit: nat): (chunks: seq<string>)
    ensures chunks != []
  {
    Packed(Pack(Trimmed(lines, limit), limit))
  }

  method ChunkLines(lines: seq<string>, limit: nat) returns (chunks: seq<string>)
    ensures chunks == Chunks(lines, limit)
  {
    chunks := [];
    var sb, used := "", 0;
    for i := 0 to |lines|
      invariant var p := Pack(Trimmed(lines[..i], limit), limit);
                chunks == p.chunks && sb == p.sb && used == p.used
    {
      var line := TrimMiddle(lines[i], limit);
      TrimmedOneMore(lines, i, limit);
      PackSnoc(Trimmed(lines[..i], limit), line, limit);
      var t := EstimateTokens(line);
      if used > 0 && used + t > limit {
        chunks := chunks + [sb];
        sb, used := "", 0;
      }
      assert "" + line == line;
      sb := sb + line;
      used := used + t;
    }
    assert lines[..|lines|] == lines;
    if used > 0 || |chunks| == 0 {
      chunks := chunks + [sb];
    }
  }

  // -------------------------------------------------------------- nothing is lost

  function Concat(parts: seq<string>): string {
    if parts == [] then "" else Concat(parts[..|parts| - 1]) + parts[|parts| - 1]
  }

  lemma ConcatSnoc(parts: seq<string>, s: string)
    ensures Concat(parts + [s]) == Concat(parts) + s
  {
    assert (parts + [s])[..|parts|] == parts;
  }

  lemma {:induction false} UnitsJoin(a: string, b: string)
    ensures Units(a + b) == Units(a) + Units(b)
  {
    if b == "" {
      assert a + b == a;
    } else {
      assert (a + b)[..|a + b| - 1] == a + b[..|b| - 1];
      UnitsJoin(a, b[..|b| - 1]);
    }
  }

  lemma SubText(s: string, i: nat, j: nat)
    requires i <= j <= |s|
    ensures Plane0(s) ==> Plane0(s[i..j])
  {
    if Plane0(s) {
      forall c | c in s[i..j]
        ensures c as int < 0x10000
      {
        var k :| 0 <= k < j - i && s[i..j][k] == c;
        assert s[i + k] in s;
      }
    }
  }

  lemma {:induction false} UnitsPositive(s: string)
    ensures |s| <= Units(s) <= 2 * |s|
    ensures Plane0(s) <==> Units(s) == |s|
  {
    if s != "" {
      var init := s[0..|s| - 1];
      assert s[..|s| - 1] == init && s == init + [s[|s| - 1]];
      SubText(s, 0, |s| - 1);
      assert s[|s| - 1] in s;
      UnitsPositive(init);
    }
  }

  lemma {:induction false} PackKeepsText(lines: seq<string>, limit: nat)
    ensures var p := Pack(lines, limit);
            Concat(p.chunks) + p.sb == Concat(lines) && (p.used == 0 ==> p.sb == "")
  {
    if lines != [] {
      var init, line := lines[..|lines| - 1], lines[|lines| - 1];
      var p := Pack(init, limit);
      PackKeepsText(init, limit);
      ConcatSnoc(p.chunks, p.sb);
      Associates(Concat(p.chunks), p.sb, line);
      UnitsPositive(line);
    }
  }

  lemma {:induction false} ClosedAreFull(lines: seq<string>, limit: nat)
    ensures var p := Pack(lines, limit);
            (forall c :: c in p.chunks ==> c != "") && (p.used > 0 ==> p.sb != "")
  {
    if lines != [] {
      ClosedAreFull(lines[..|lines| - 1], limit);
    }
  }

  /** No chunk is empty, unless there is nothing to say. */
  lemma NoEmptyChunk(lines: seq<string>, limit: nat)
    ensures Chunks(lines, limit) == [""] || forall c :: c in Chunks(lines, limit) ==> c != ""
  {
    ClosedAreFull(Trimmed(lines, limit), limit);
  }

  /** Chunking loses nothing: its chunks are the trimmed lines in order. */
  lemma {:induction false} ChunksKeepEveryLine(lines: seq<string>, limit: nat)
    ensures Concat(Chunks(lines, limit)) == Concat(Trimmed(lines, limit))
  {
    var p := Pack(Trimmed(lines, limit), limit);
    PackKeepsText(Trimmed(lines, limit), limit);
    ConcatSnoc(p.chunks, p.sb);
  }

  // ------------------------------------------------------------ every chunk fits

  /** How much a trimmed line can come to: text outside plane 0 counts double. */
  function LineBound(plane0: bool, limit: nat): nat { (if plane0 then limit else 2 * limit) + 4 }

  lemma CutUnits()
    ensures Units(CUT) == 15 && Plane0(CUT)
  {
    assert |CUT| == 15;
    UnitsPositive(CUT);
  }

  lemma JoinThree(a: string, b: string, plane0: bool)
    requires |a| == |b| && (plane0 ==> Plane0(a) && Plane0(b))
    ensures Units(a + CUT + b) <= (if plane0 then 2 else 4) * |a| + 15
    ensures plane0 ==> Plane0(a + CUT + b)
  {
    UnitsJoin(a + CUT, b);
    UnitsJoin(a, CUT);
    CutUnits();
    UnitsPositive(a);
    UnitsPositive(b);
  }

  lemma CutDownBound(line: string, keep: nat, plane0: bool)
    requires keep <= |line| && (plane0 ==> Plane0(line))
    ensures Units(CutDown(line, keep)) <= (if plane0 then 2 else 4) * keep + 15
    ensures plane0 ==> Plane0(CutDown(line, keep))
  {
    SubText(line, 0, keep);
    SubText(line, |line| - keep, |line|);
    assert line[..keep] == line[0..keep] && line[|line| - keep..] == line[|line| - keep..|line|];
    JoinThree(line[..keep], line[|line| - keep..], plane0);
  }

  /** A trimmed line keeps both its ends, half of what fits each, with the cut named between
    them; a line that fits, or of which the ends are everything, is left alone. */
  lemma TrimKeepsBothEnds(line: string, limit: nat)
    ensures var t, half := TrimMiddle(line, limit), 2 * limit;
            if (Units(line) + 3) / 4 <= limit || |line| <= 2 * half then t == line
            else && |t| == half + |"\n[... cut ...]\n"| + half
                 && t[..half] == line[..half] && t[|t| - half..] == line[|line| - half..]
                 && t[half..|t| - half] == "\n[... cut ...]\n"
  {
    assert limit * 4 / 2 == 2 * limit;
    if EstimateTokens(line) > limit && 4 * limit < |line| {
      ThreeParts(line[..2 * limit], CUT, line[|line| - 2 * limit..]);
    }
  }

  lemma ThreeParts(a: string, b: string, c: string)
    ensures var t := a + b + c;
            && |t| == |a| + |b| + |c| && t[..|a|] == a && t[|t| - |c|..] == c && t[|a|..|t| - |c|] == b
  {
  }

  lemma TrimBound(line: string, limit: nat, plane0: bool)
    requires plane0 ==> Plane0(line)
    ensures EstimateTokens(TrimMiddle(line, limit)) <= LineBound(plane0, limit)
    ensures plane0 ==> Plane0(TrimMiddle(line, limit))
  {
    var keep := limit * 4 / 2;
    if EstimateTokens(line) > limit {
      if keep * 2 < |line| {
        CutDownBound(line, keep, plane0);
      } else {
        UnitsPositive(line);
      }
    }
  }

  predicate AllPlane0(lines: seq<string>) { forall l :: l in lines ==> Plane0(l) }

  lemma EstimateJoin(a: string, b: string)
    ensures EstimateTokens(a + b) <= EstimateTokens(a) + EstimateTokens(b)
  {
    UnitsJoin(a, b);
  }

  lemma {:induction false} TrimmedFit(lines: seq<string>, limit: nat, plane0: bool)
    requires plane0 ==> AllPlane0(lines)
    ensures forall l :: l in Trimmed(lines, limit) ==> EstimateTokens(l) <= LineBound(plane0, limit)
  {
    if lines != [] {
      var init, last := lines[..|lines| - 1], lines[|lines| - 1];
      assert lines == init + [last] && last in lines;
      TrimmedFit(init, limit, plane0);
      TrimBound(last, limit, plane0);
    }
  }

  lemma {:induction false} PackFits(lines: seq<string>, limit: nat, bound: nat)
    requires bound >= limit && forall l :: l in lines ==> EstimateTokens(l) <= bound
    ensures var p := Pack(lines, limit);
            && (forall c :: c in p.chunks ==> EstimateTokens(c) <= bound)
            && EstimateTokens(p.sb) <= p.used <= bound
  {
    if lines != [] {
      var init, last := lines[..|lines| - 1], lines[|lines| - 1];
      assert lines == init + [last] && last in lines;
      PackFits(init, limit, bound);
      EstimateJoin(Pack(init, limit).sb, last);
    }
  }

  /** Every chunk is at most limit + 4 estimated tokens for text in plane 0, and at most
    about twice the limit for any other. */
  lemma {:induction false} EveryChunkFits(lines: seq<string>, limit: nat, plane0: bool)
    requires plane0 ==> AllPlane0(lines)
    ensures forall c :: c in Chunks(lines, limit) ==>
              (Units(c) + 3) / 4 <= (if plane0 then limit else 2 * limit) + 4
  {
    TrimmedFit(lines, limit, plane0);
    PackFits(Trimmed(lines, limit), limit, LineBound(plane0, limit));
  }

  // ---------------------------------------------------- each merge round shrinks

  lemma {:induction false} PackPairs(lines: seq<string>, limit: nat)
    requires forall l :: l in lines ==> 1 <= EstimateTokens(l) <= limit / 2
    ensures var p := Pack(lines, limit);
            && 2 * |p.chunks| + p.held <= |lines|
            && (p.held == 1 ==> p.used <= limit / 2)
            && (p.held > 0 <==> p.used > 0) && (lines != [] ==> p.held > 0)
  {
    if lines != [] {
      var init, last := lines[..|lines| - 1], lines[|lines| - 1];
      assert lines == init + [last] && last in lines;
      PackPairs(init, limit);
    }
  }

  /** Lines that fit are not trimmed. */
  lemma {:induction false} SmallLinesStay(lines: seq<string>, limit: nat)
    requires forall l :: l in lines ==> TrimMiddle(l, limit) == l
    ensures Trimmed(lines, limit) == lines
  {
    if lines != [] {
      var init, last := lines[..|lines| - 1], lines[|lines| - 1];
      assert lines == init + [last] && last in lines;
      SmallLinesStay(init, limit);
    }
  }

  /** Lines of at most half a chunk go at least two to a chunk, all but the last one. */
  lemma {:induction false} SmallLinesPairUp(lines: seq<string>, limit: nat)
    requires lines != [] && forall l :: l in lines ==> 1 <= EstimateTokens(l) <= limit / 2
    ensures |Chunks(lines, limit)| <= (|lines| + 1) / 2
  {
    SmallLinesStay(lines, limit);
    PackPairs(lines, limit);
  }

  /** No two neighbours fit in one chunk together. */
  ghost predicate NoPairFits(lines: seq<string>, limit: nat) {
    |lines| <= 1 ||
      (NoPairFits(lines[..|lines| - 1], limit) &&
       EstimateTokens(lines[|lines| - 2]) + EstimateTokens(lines[|lines| - 1]) > limit)
  }

  /** Every chunk but the last holds one line, and so does the last. */
  predicate Alone(p: Packing, lines: seq<string>) {
    lines != [] && |p.chunks| + 1 == |lines| && p.used == EstimateTokens(lines[|lines| - 1])
  }

  lemma PackOneAlone(p: Packing, lines: seq<string>, line: string, limit: nat)
    requires EstimateTokens(line) >= 1 && p.used > 0 && lines != [] && |p.chunks| + 1 <= |lines|
    requires Alone(p, lines) || |p.chunks| + 1 < |lines|
    ensures var q := PackOne(p, line, limit);
            && |q.chunks| + 1 <= |lines| + 1 && q.used > 0
            && (Alone(q, lines + [line]) || |q.chunks| + 1 < |lines| + 1)
            && (Alone(q, lines + [line]) <==>
                Alone(p, lines) && EstimateTokens(lines[|lines| - 1]) + EstimateTokens(line) > limit)
  {
  }

  /** No line is empty to the estimate. */
  predicate AllCount(lines: seq<string>) {
    lines == [] || (AllCount(lines[..|lines| - 1]) && EstimateTokens(lines[|lines| - 1]) >= 1)
  }

  lemma {:induction false} AllCountIs(lines: seq<string>)
    requires forall l :: l in lines ==> EstimateTokens(l) >= 1
    ensures AllCount(lines)
  {
    if lines != [] {
      var init, last := lines[..|lines| - 1], lines[|lines| - 1];
      assert lines == init + [last] && last in lines;
      AllCountIs(init);
    }
  }

  lemma PackFirst(line: string, limit: nat)
    ensures Pack([line], limit) == Packing([], "" + line, EstimateTokens(line), 1)
  {
    assert [line][..0] == [];
    assert Pack([], limit) == Packing([], "", 0, 0);
  }

  lemma {:induction false} PackAlone(lines: seq<string>, limit: nat)
    requires lines != [] && AllCount(lines)
    ensures var p := Pack(lines, limit);
            && p.used > 0 && |p.chunks| + 1 <= |lines|
            && (Alone(p, lines) || |p.chunks| + 1 < |lines|)
            && (Alone(p, lines) <==> NoPairFits(lines, limit))
  {
    var init, last := lines[..|lines| - 1], lines[|lines| - 1];
    assert lines == init + [last];
    if init == [] {
      assert lines == [last];
      PackFirst(last, limit);
    } else {
      assert init[|init| - 1] == lines[|lines| - 2];
      PackAlone(init, limit);
      PackOneAlone(Pack(init, limit), init, last, limit);
    }
  }

  /** A round of merging leaves fewer parts exactly when some two neighbours fit in one
    chunk together. */
  lemma {:induction false} RoundShrinks(lines: seq<string>, limit: nat)
    requires forall l :: l in lines ==> 1 <= EstimateTokens(l) && TrimMiddle(l, limit) == l
    requires lines != []
    ensures |Chunks(lines, limit)| <= |lines|
    ensures |Chunks(lines, limit)| < |lines| <==> !NoPairFits(lines, limit)
  {
    SmallLinesStay(lines, limit);
    AllCountIs(lines);
    PackAlone(lines, limit);
  }

  function Decimal(n: nat): string {
    if n < 10 then [DIGITS[n]] else Decimal(n / 10) + [DIGITS[n % 10]]
  }

  const DIGITS := "0123456789"

  function Part(i: nat, text: string): string { "Part " + Decimal(i) + ":\n" + text + "\n\n" }

  function MergeLines(parts: seq<string>, limit: nat): seq<string> {
    if parts == [] then []
    else MergeLines(parts[..|parts| - 1], limit) + [TrimMiddle(Part(|parts|, parts[|parts| - 1]), limit / 3)]
  }

  function ValueOf(digits: string): int {
    if digits == "" then 0
    else 10 * ValueOf(digits[..|digits| - 1]) + (digits[|digits| - 1] as int - '0' as int)
  }

  /** A part's number as a reader has it. */
  ghost predicate Numbers(digits: string, n: nat) {
    digits != "" && ValueOf(digits) == n && (n > 0 ==> digits[0] != '0') && forall c :: c in digits ==> '0' <= c <= '9'
  }

  lemma Digit(d: nat)
    requires d < 10
    ensures DIGITS[d] as int == '0' as int + d && '0' <= DIGITS[d] <= '9'
  {
  }

  lemma {:induction false} DecimalNumbers(n: nat)
    ensures Numbers(Decimal(n), n)
  {
    Digit(n % 10);
    if n >= 10 {
      DecimalNumbers(n / 10);
      assert Decimal(n)[..|Decimal(n)| - 1] == Decimal(n / 10);
    } else {
      assert Decimal(n)[..0] == "";
    }
  }

  /** A merge round is sent every part, in its place, under its number from one; a part past
    a third of the limit with its number, cut in the middle. */
  lemma {:induction false} EveryPartIsMerged(parts: seq<string>, limit: nat, i: nat)
    requires i < |parts|
    ensures |MergeLines(parts, limit)| == |parts|
    ensures exists digits: string :: Numbers(digits, i + 1) &&
              MergeLines(parts, limit)[i] == TrimMiddle("Part " + digits + ":\n" + parts[i] + "\n\n", limit / 3)
  {
    MergedAt(parts, limit, i);
    DecimalNumbers(i + 1);
  }

  lemma {:induction false} MergedAt(parts: seq<string>, limit: nat, i: nat)
    requires i < |parts|
    ensures |MergeLines(parts, limit)| == |parts|
    ensures MergeLines(parts, limit)[i] == TrimMiddle(Part(i + 1, parts[i]), limit / 3)
  {
    var n := |parts| - 1;
    MergedParts(parts[..n], limit);
    if i < n {
      MergedAt(parts[..n], limit, i);
    }
  }

  lemma {:induction false} MergedParts(parts: seq<string>, limit: nat)
    ensures |MergeLines(parts, limit)| == |parts|
  {
    if parts != [] {
      MergedParts(parts[..|parts| - 1], limit);
    }
  }

  lemma {:induction false} DecimalIsPlane0(n: nat)
    ensures Plane0(Decimal(n)) && Decimal(n) != ""
  {
    if n >= 10 {
      DecimalIsPlane0(n / 10);
    }
  }

  lemma PartIsPlane0(i: nat, text: string)
    requires Plane0(text)
    ensures Plane0(Part(i, text)) && |Part(i, text)| > 5
  {
    DecimalIsPlane0(i);
    assert Plane0("Part ") && Plane0(":\n") && Plane0("\n\n");
  }

  lemma TrimKeepsSomething(line: string, limit: nat)
    requires line != ""
    ensures EstimateTokens(TrimMiddle(line, limit)) >= 1
  {
    UnitsPositive(TrimMiddle(line, limit));
  }

  lemma {:induction false} MergeLinesAreSmall(parts: seq<string>, limit: nat)
    requires AllPlane0(parts) && limit >= 24
    ensures |MergeLines(parts, limit)| == |parts| && AllPlane0(MergeLines(parts, limit))
    ensures forall l :: l in MergeLines(parts, limit) ==> 1 <= EstimateTokens(l) <= limit / 2
  {
    if parts != [] {
      var init, last := parts[..|parts| - 1], parts[|parts| - 1];
      assert last in parts && AllPlane0(init) by {
        assert parts == init + [last];
      }
      MergeLinesAreSmall(init, limit);
      PartIsPlane0(|parts|, last);
      TrimBound(Part(|parts|, last), limit / 3, true);
      TrimKeepsSomething(Part(|parts|, last), limit / 3);
      assert limit / 3 + 4 <= limit / 2;
    }
  }

  /** For text in plane 0 every round turns n parts into at most ceil(n / 2), whatever
    the summarizer answers: so the rounds come to an end. */
  lemma {:induction false} EachRoundHalves(parts: seq<string>, limit: nat)
    requires AllPlane0(parts) && parts != [] && limit >= 1000
    ensures |Chunks(MergeLines(parts, limit), limit)| <= (|parts| + 1) / 2
  {
    MergeLinesAreSmall(parts, limit);
    SmallLinesPairUp(MergeLines(parts, limit), limit);
  }

  /** Whatever was answered, a merge line is not empty and is not trimmed again. */
  lemma {:induction false} MergeLinesStay(parts: seq<string>, limit: nat)
    requires limit >= 12
    ensures |MergeLines(parts, limit)| == |parts|
    ensures forall l :: l in MergeLines(parts, limit) ==> 1 <= EstimateTokens(l) && TrimMiddle(l, limit) == l
  {
    if parts != [] {
      MergeLinesStay(parts[..|parts| - 1], limit);
      var line := Part(|parts|, parts[|parts| - 1]);
      assert line[0] == 'P';
      TrimKeepsSomething(line, limit / 3);
      TrimmedStays(line, limit / 3, limit);
    }
  }

  lemma ShortLineStays(line: string, limit: nat)
    requires |line| <= limit * 4
    ensures TrimMiddle(line, limit) == line
  {
    assert limit * 4 / 2 * 2 == limit * 4;
  }

  /** A line trimmed to a smaller limit is within a larger one. */
  lemma TrimmedStays(line: string, small: nat, limit: nat)
    requires small * 4 + 15 <= limit * 4
    ensures TrimMiddle(TrimMiddle(line, small), limit) == TrimMiddle(line, small)
  {
    var keep := small * 4 / 2;
    if EstimateTokens(line) > small {
      if keep * 2 < |line| {
        assert |CUT| == 15;
        assert |CutDown(line, keep)| == 2 * keep + 15;
      }
      ShortLineStays(TrimMiddle(line, small), limit);
    }
  }

  /** Whatever was answered, a merge round leaves fewer parts exactly when some two
    neighbouring merge lines fit in one chunk together. */
  lemma {:induction false} MergeRoundShrinks(parts: seq<string>, limit: nat)
    requires parts != [] && limit >= 1000
    ensures |Chunks(MergeLines(parts, limit), limit)| <= |parts|
    ensures |Chunks(MergeLines(parts, limit), limit)| < |parts| <==> !NoPairFits(MergeLines(parts, limit), limit)
  {
    MergeLinesStay(parts, limit);
    RoundShrinks(MergeLines(parts, limit), limit);
  }

  // --------------------------------------------------- and outside plane 0 it can not

  function Faces(n: nat): string { if n == 0 then "" else Faces(n - 1) + ['\U{1F600}'] }

  lemma {:induction false} FacesUnits(n: nat)
    ensures Units(Faces(n)) == 2 * n && |Faces(n)| == n
  {
    if n > 0 {
      FacesUnits(n - 1);
      assert Faces(n)[..|Faces(n)| - 1] == Faces(n - 1);
    }
  }

  lemma FacesPart(i: nat, n: nat)
    requires i < 10
    ensures |Part(i, Faces(n))| == n + 10 && Units(Part(i, Faces(n))) == 2 * n + 10
  {
    var head, tail := "Part " + Decimal(i) + ":\n", "\n\n";
    FacesUnits(n);
    assert Part(i, Faces(n)) == head + Faces(n) + tail;
    UnitsJoin(head, Faces(n));
    UnitsJoin(head + Faces(n), tail);
    assert |head| == 8;
    PartIsPlane0(i, "");
    assert Part(i, "") == head + tail;
    SubText(Part(i, ""), 0, 8);
    assert Part(i, "")[0..8] == head && Plane0(tail);
    UnitsPositive(head);
    UnitsPositive(tail);
  }

  lemma FacesPartStays(i: nat, n: nat, limit: nat, part: string)
    requires i < 10 && limit <= n <= limit / 3 * 4 - 10 && part == Part(i, Faces(n))
    ensures TrimMiddle(part, limit / 3) == part && TrimMiddle(part, limit) == part
    ensures limit < 2 * EstimateTokens(part)
  {
    FacesPart(i, n);
    ShortLineStays(part, limit / 3);
    ShortLineStays(part, limit);
  }

  /** Outside plane 0 the trim counts characters where the estimate counts code units:
    whatever the chunk limit, there are answers (emoji, say) of which no two fit in one
    chunk together, so a round of two merges nothing. */
  lemma AstralPartsNeverMerge(n: nat, limit: nat)
    requires limit >= 1000 && limit <= n <= limit / 3 * 4 - 10
    ensures var parts := [Faces(n), Faces(n)];
            |Chunks(MergeLines(parts, limit), limit)| == |parts|
  {
    var one := [Faces(n)];
    var parts := [Faces(n), Faces(n)];
    var lines := MergeLines(parts, limit);
    assert parts[..|parts| - 1] == one && one[..|one| - 1] == [];
    FacesPartStays(1, n, limit, Part(1, Faces(n)));
    FacesPartStays(2, n, limit, Part(2, Faces(n)));
    assert MergeLines(one, limit) == [Part(1, Faces(n))];
    assert lines == [Part(1, Faces(n)), Part(2, Faces(n))];
    RoundShrinks(lines, limit);
    assert lines[..|lines| - 1] == [Part(1, Faces(n))];
    assert NoPairFits(lines, limit);
  }

  // ---------------------------------------------------------------- the whole of it

  /** The calls of a whole summary: each round sends the chunks of its lines, and while
    there is more than one answer the next round's lines are the answers, labelled; the
    only answer of the last round is the result. */
  ghost predicate Summarized(lines: seq<string>, limit: nat, sent: seq<string>, answers: seq<string>, result: string)
    decreases |sent|
  {
    var n := |Chunks(lines, limit)|;
    && n <= |sent| == |answers| && sent[..n] == Chunks(lines, limit)
    && if n == 1 then |sent| == 1 && result == answers[0]
       else Summarized(MergeLines(answers[..n], limit), limit, sent[n..], answers[n..], result)
  }

  /** The same for the rounds so far: now are the lines of the next one. */
  ghost predicate Led(lines: seq<string>, limit: nat, sent: seq<string>, answers: seq<string>, now: seq<string>)
    decreases |sent|
  {
    var n := |Chunks(lines, limit)|;
    if sent == [] then answers == [] && now == lines
    else
      && n > 1 && n <= |sent| == |answers| && sent[..n] == Chunks(lines, limit)
      && Led(MergeLines(answers[..n], limit), limit, sent[n..], answers[n..], now)
  }

  lemma Cut3(a: seq<string>, b: seq<string>, n: nat)
    requires n <= |a|
    ensures (a + b)[..n] == a[..n] && (a + b)[n..] == a[n..] + b
  {
  }

  lemma {:induction false} LedOneMore(
    lines: seq<string>, limit: nat, sent: seq<string>, answers: seq<string>, now: seq<string>, parts: seq<string>)
    requires Led(lines, limit, sent, answers, now) && |parts| == |Chunks(now, limit)| > 1
    ensures Led(lines, limit, sent + Chunks(now, limit), answers + parts, MergeLines(parts, limit))
    decreases |sent|
  {
    var n, chunks := |Chunks(lines, limit)|, Chunks(now, limit);
    if sent == [] {
      assert sent + chunks == chunks && answers + parts == parts;
      assert parts[..n] == parts && chunks[..n] == chunks && chunks[n..] == [] && parts[n..] == [];
    } else {
      Cut3(sent, chunks, n);
      Cut3(answers, parts, n);
      LedOneMore(MergeLines(answers[..n], limit), limit, sent[n..], answers[n..], now, parts);
    }
  }

  lemma {:induction false} LedEnds(
    lines: seq<string>, limit: nat, sent: seq<string>, answers: seq<string>, now: seq<string>, result: string)
    requires Led(lines, limit, sent, answers, now) && |Chunks(now, limit)| == 1
    ensures Summarized(lines, limit, sent + Chunks(now, limit), answers + [result], result)
    decreases |sent|
  {
    var n, chunks := |Chunks(lines, limit)|, Chunks(now, limit);
    if sent == [] {
      assert sent + chunks == chunks && answers + [result] == [result] && chunks[..1] == chunks;
    } else {
      Cut3(sent, chunks, n);
      Cut3(answers, [result], n);
      LedEnds(MergeLines(answers[..n], limit), limit, sent[n..], answers[n..], now, result);
    }
  }

  /** A round before the others. */
  lemma SummarizedFrom(
    lines: seq<string>, limit: nat, parts: seq<string>, sent: seq<string>, answers: seq<string>, result: string)
    requires |parts| == |Chunks(lines, limit)| > 1 && |sent| == |answers|
    requires Summarized(MergeLines(parts, limit), limit, sent, answers, result)
    ensures Summarized(lines, limit, Chunks(lines, limit) + sent, parts + answers, result)
  {
    var all, told := Chunks(lines, limit) + sent, parts + answers;
    assert all[..|parts|] == Chunks(lines, limit) && all[|parts|..] == sent;
    assert told[..|parts|] == parts && told[|parts|..] == answers;
  }

  lemma SummarizedAtOnce(lines: seq<string>, limit: nat, result: string)
    requires |Chunks(lines, limit)| == 1
    ensures Summarized(lines, limit, Chunks(lines, limit), [result], result)
  {
    var chunks := Chunks(lines, limit);
    assert chunks[..1] == chunks;
  }

  lemma Silence(k: nat) returns (parts: seq<string>)
    ensures |parts| == k && AllPlane0(parts)
  {
    parts := seq(k, _ => "");
  }

  /** Any text at all can come out: there are answers that lead to it. */
  lemma {:induction false} AnyTextCanComeOut(lines: seq<string>, limit: nat, text: string)
    returns (calls: seq<string>, told: seq<string>)
    requires limit >= 1000
    ensures Summarized(lines, limit, calls, told, text)
    decreases |Chunks(lines, limit)|
  {
    var n := |Chunks(lines, limit)|;
    if n == 1 {
      calls, told := Chunks(lines, limit), [text];
      SummarizedAtOnce(lines, limit, text);
    } else {
      var parts := Silence(n);
      EachRoundHalves(parts, limit);
      calls, told := AnyTextCanComeOut(MergeLines(parts, limit), limit, text);
      SummarizedFrom(lines, limit, parts, calls, told, text);
      calls, told := Chunks(lines, limit) + calls, parts + told;
    }
  }

  // ------------------------------------------------ how many rounds there can be

  /** The lines after some rounds, given the answers of each. */
  function LinesAfter(lines: seq<string>, limit: nat, rounds: seq<seq<string>>): seq<string> {
    if rounds == [] then lines else MergeLines(rounds[|rounds| - 1], limit)
  }

  /** Each round answers the chunks of its lines, and there was more than one. */
  ghost predicate Rounds(lines: seq<string>, limit: nat, rounds: seq<seq<string>>) {
    rounds == [] ||
      var before := rounds[..|rounds| - 1];
      && Rounds(lines, limit, before)
      && |rounds[|rounds| - 1]| == |Chunks(LinesAfter(lines, limit, before), limit)| > 1
  }

  function CallsIn(lines: seq<string>, limit: nat, rounds: seq<seq<string>>): seq<string> {
    if rounds == [] then []
    else
      var before := rounds[..|rounds| - 1];
      CallsIn(lines, limit, before) + Chunks(LinesAfter(lines, limit, before), limit)
  }

  function AnswersIn(rounds: seq<seq<string>>): seq<string> {
    if rounds == [] then [] else AnswersIn(rounds[..|rounds| - 1]) + rounds[|rounds| - 1]
  }

  /** These are rounds the loop can make. */
  lemma {:induction false} RoundsLead(lines: seq<string>, limit: nat, rounds: seq<seq<string>>)
    requires Rounds(lines, limit, rounds)
    ensures Led(lines, limit, CallsIn(lines, limit, rounds), AnswersIn(rounds), LinesAfter(lines, limit, rounds))
  {
    if rounds != [] {
      var before, last := rounds[..|rounds| - 1], rounds[|rounds| - 1];
      RoundsLead(lines, limit, before);
      LedOneMore(
        lines, limit, CallsIn(lines, limit, before), AnswersIn(before), LinesAfter(lines, limit, before), last);
    }
  }

  /** Closing a chunk is for good. */
  lemma {:induction false} PackGrows(lines: seq<string>, k: nat, limit: nat)
    requires k <= |lines|
    ensures |Pack(lines[..k], limit).chunks| <= |Pack(lines, limit).chunks|
  {
    if k < |lines| {
      PackGrows(lines[..|lines| - 1], k, limit);
      assert lines[..|lines| - 1][..k] == lines[..k];
    } else {
      assert lines[..k] == lines;
    }
  }

  lemma {:induction false} MergeLinesBegin(parts: seq<string>, k: nat, limit: nat)
    requires k <= |parts|
    ensures |MergeLines(parts, limit)| == |parts| && MergeLines(parts, limit)[..k] == MergeLines(parts[..k], limit)
  {
    if k < |parts| {
      MergeLinesBegin(parts[..|parts| - 1], k, limit);
      assert parts[..|parts| - 1][..k] == parts[..k];
    } else {
      assert parts[..k] == parts;
      if parts != [] {
        MergeLinesBegin(parts[..|parts| - 1], 0, limit);
      }
    }
  }

  /** Two such answers first, and the next round has two chunks at least. */
  lemma StillTwo(parts: seq<string>, n: nat, limit: nat)
    requires limit >= 1000 && limit <= n <= limit / 3 * 4 - 10
    requires |parts| >= 2 && parts[..2] == [Faces(n), Faces(n)]
    ensures |Chunks(MergeLines(parts, limit), limit)| >= 2
  {
    var lines, two := MergeLines(parts, limit), MergeLines(parts[..2], limit);
    AstralPartsNeverMerge(n, limit);
    MergeLinesBegin(parts, 2, limit);
    MergeLinesStay(parts[..2], limit);
    MergeLinesStay(parts, limit);
    SmallLinesStay(two, limit);
    SmallLinesStay(lines, limit);
    PackGrows(lines, 2, limit);
    AllCountIs(lines);
    PackAlone(lines, limit);
  }

  lemma ManyFaces(k: nat, n: nat) returns (parts: seq<string>)
    requires k >= 2
    ensures |parts| == k && parts[..2] == [Faces(n), Faces(n)]
  {
    parts := seq(k, i requires 0 <= i < k => Faces(n));
  }

  /** However many rounds are made, some answers leave more than one chunk to merge, from
    any lines that make more than one to begin with. */
  lemma {:induction false} SomeAnswersNeverEnd(lines: seq<string>, limit: nat, n: nat)
    returns (rounds: seq<seq<string>>)
    requires limit >= 1000 && |Chunks(lines, limit)| > 1
    ensures |rounds| == n && Rounds(lines, limit, rounds) && |Chunks(LinesAfter(lines, limit, rounds), limit)| > 1
  {
    if n == 0 {
      rounds := [];
    } else {
      var before := SomeAnswersNeverEnd(lines, limit, n - 1);
      var parts := ManyFaces(|Chunks(LinesAfter(lines, limit, before), limit)|, limit);
      StillTwo(parts, limit, limit);
      rounds := before + [parts];
      assert rounds[..|rounds| - 1] == before;
    }
  }

  /** Whatever is answered, so many rounds leave one chunk. */
  ghost predicate AlwaysEndsBy(lines: seq<string>, limit: nat, n: nat) {
    forall rounds: seq<seq<string>> ::
      |rounds| == n && Rounds(lines, limit, rounds) ==> |Chunks(LinesAfter(lines, limit, rounds), limit)| == 1
  }

  /** So there is a bound on the rounds, whatever is answered, exactly when there is one
    chunk to begin with. */
  lemma SureToEnd(lines: seq<string>, limit: nat)
    requires limit >= 1000
    ensures (exists n: nat :: AlwaysEndsBy(lines, limit, n)) <==> |Chunks(lines, limit)| == 1
  {
    if |Chunks(lines, limit)| == 1 {
      assert AlwaysEndsBy(lines, limit, 0);
    } else {
      forall n: nat
        ensures !AlwaysEndsBy(lines, limit, n)
      {
        var rounds := SomeAnswersNeverEnd(lines, limit, n);
      }
    }
  }

  /** The summarizing model: the text it was sent, and what it answered. */
  class Summarizer {
    var sent: seq<string>
    var answers: seq<string>

    constructor ()
      ensures sent == [] && answers == []
    {
      sent, answers := [], [];
    }

    /** One call. It can fail; its answer is any text. */
    method SummaryCall(chunk: string) returns (r: Result<string>)
      modifies this
      ensures sent == old(sent) + [chunk]
      ensures answers == if r.Ok? then old(answers) + [r.value] else old(answers)
    {
      sent := sent + [chunk];
      var refused: bool, text: string := *, *;
      if refused {
        return Err;
      }
      answers := answers + [text];
      r := Ok(text);
    }

    /** One round: a call for each chunk. */
    method Round(chunks: seq<string>) returns (r: Result<seq<string>>)
      modifies this
      ensures old(sent) <= sent <= old(sent) + chunks
      ensures r.Ok? ==> sent == old(sent) + chunks && answers == old(answers) + r.value && |r.value| == |chunks|
    {
      var parts := [];
      for i := 0 to |chunks|
        invariant |parts| == i && sent == old(sent) + chunks[..i] && answers == old(answers) + parts
      {
        var text := SummaryCall(chunks[i]);
        assert chunks[..i + 1] == chunks[..i] + [chunks[i]];
        if text.Err? {
          return Err;
        }
        parts := parts + [text.value];
      }
      assert chunks[..|chunks|] == chunks;
      r := Ok(parts);
    }

    /** Summarizes the lines in as many calls as fit, then merges until one is left. The
      loop has no bound of its own; here it is followed for so many rounds. Every text
      sent fits, and the result is what the rounds lead to. In as many rounds as the lines
      make chunks it is done, unless a call failed or an answer was outside plane 0. */
    method SummarizeLines(lines: seq<string>, limit: nat, rounds: nat)
      returns (r: Summary, ghost calls: seq<string>, ghost told: seq<string>)
      requires limit >= 1000
      modifies this
      ensures !r.Failed? ==> sent == old(sent) + calls && answers == old(answers) + told
      ensures r.Done? ==> Summarized(lines, limit, calls, told, r.text)
      ensures AllFit(calls, LineBound(AllPlane0(lines) && AllPlane0(told), limit))
      ensures r.Done? && AllPlane0(told) ==> |calls| <= 3 * |Chunks(lines, limit)| - 2
      ensures r.Unfinished? && rounds >= |Chunks(lines, limit)| ==> !AllPlane0(told)
    {
      var now, n := lines, 0;
      calls, told := [], [];
      while n < rounds
        invariant n <= rounds && sent == old(sent) + calls && answers == old(answers) + told
        invariant OnTheWay(lines, limit, calls, told, now, n)
      {
        var chunks := ChunkLines(now, limit);
        var parts := Round(chunks);
        if parts.Err? {
          return Failed, calls, told;
        }
        Associates(old(sent), calls, chunks);
        Associates(old(answers), told, parts.value);
        if |parts.value| == 1 {
          LastRound(lines, limit, calls, told, now, n, parts.value[0]);
          assert parts.value == [parts.value[0]];
          return Done(parts.value[0]), calls + chunks, told + parts.value;
        }
        AnotherRound(lines, limit, calls, told, now, n, parts.value);
        calls, told := calls + chunks, told + parts.value;
        now := Relined(parts.value, limit);
        n := n + 1;
      }
      r := Unfinished;
    }
  }

  /** How a summary ends. */
  datatype Summary = Done(text: string) | Failed | Unfinished

  /** After some whole rounds: their calls fit, and while every answer is in plane 0 what
    is left to call is counted by the chunks of the lines now. */
  ghost predicate OnTheWay(
    lines: seq<string>, limit: nat, calls: seq<string>, told: seq<string>, now: seq<string>, rounds: nat)
  {
    && Led(lines, limit, calls, told, now)
    && AllFit(calls, LineBound(AllPlane0(lines) && AllPlane0(told), limit))
    && (AllPlane0(told) ==> Shrinking(lines, limit, calls, now, rounds))
  }

  ghost predicate Shrinking(lines: seq<string>, limit: nat, calls: seq<string>, now: seq<string>, rounds: nat) {
    && (AllPlane0(lines) ==> AllPlane0(now))
    && |calls| + 3 * |Chunks(now, limit)| <= 3 * |Chunks(lines, limit)|
    && rounds + |Chunks(now, limit)| <= |Chunks(lines, limit)|
  }

  lemma PlanesJoin(a: seq<string>, b: seq<string>)
    ensures AllPlane0(a + b) <==> AllPlane0(a) && AllPlane0(b)
  {
    assert forall l :: l in a ==> l in a + b;
    assert forall l :: l in b ==> l in a + b;
  }

  lemma NextCallsFit(
    lines: seq<string>, limit: nat, calls: seq<string>, told: seq<string>, now: seq<string>, rounds: nat,
    parts: seq<string>)
    requires OnTheWay(lines, limit, calls, told, now, rounds)
    ensures AllFit(calls + Chunks(now, limit), LineBound(AllPlane0(lines) && AllPlane0(told + parts), limit))
  {
    PlanesJoin(told, parts);
    var bound := LineBound(AllPlane0(lines) && AllPlane0(told + parts), limit);
    EveryChunkFits(now, limit, AllPlane0(lines) && AllPlane0(told));
    FitJoin(calls, Chunks(now, limit), bound);
  }

  lemma AnotherRound(
    lines: seq<string>, limit: nat, calls: seq<string>, told: seq<string>, now: seq<string>, rounds: nat,
    parts: seq<string>)
    requires OnTheWay(lines, limit, calls, told, now, rounds) && limit >= 1000
    requires |parts| == |Chunks(now, limit)| > 1
    ensures OnTheWay(lines, limit, calls + Chunks(now, limit), told + parts, MergeLines(parts, limit), rounds + 1)
  {
    NextCallsFit(lines, limit, calls, told, now, rounds, parts);
    LedOneMore(lines, limit, calls, told, now, parts);
    PlanesJoin(told, parts);
    if AllPlane0(told + parts) {
      EachRoundHalves(parts, limit);
      MergeLinesAreSmall(parts, limit);
    }
  }

  lemma LastRound(
    lines: seq<string>, limit: nat, calls: seq<string>, told: seq<string>, now: seq<string>, rounds: nat,
    result: string)
    requires OnTheWay(lines, limit, calls, told, now, rounds) && |Chunks(now, limit)| == 1
    ensures Summarized(lines, limit, calls + Chunks(now, limit), told + [result], result)
    ensures AllFit(calls + Chunks(now, limit), LineBound(AllPlane0(lines) && AllPlane0(told + [result]), limit))
    ensures AllPlane0(told + [result]) ==> |calls| + 1 <= 3 * |Chunks(lines, limit)| - 2
  {
    NextCallsFit(lines, limit, calls, told, now, rounds, [result]);
    PlanesJoin(told, [result]);
    LedEnds(lines, limit, calls, told, now, result);
  }

  ghost predicate AllFit(sent: seq<string>, bound: nat) { forall c :: c in sent ==> EstimateTokens(c) <= bound }

  lemma FitJoin(a: seq<string>, b: seq<string>, bound: nat)
    requires AllFit(a, bound) && AllFit(b, bound)
    ensures AllFit(a + b, bound)
  {
  }

  method Relined(parts: seq<string>, limit: nat) returns (lines: seq<string>)
    ensures lines == MergeLines(parts, limit)
  {
    lines := [];
    for i := 0 to |parts|
      invariant lines == MergeLines(parts[..i], limit)
    {
      assert parts[..i + 1][..i] == parts[..i];
      lines := lines + [TrimMiddle(Part(i + 1, parts[i]), limit / 3)];
    }
    assert parts[..|parts|] == parts;
  }
}
