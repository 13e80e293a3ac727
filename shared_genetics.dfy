/**
 * The shared part of the genetics feature: the six-valued base alphabet,
 * base pairs, the gene and value-block records, the base-4 rendering of
 * numbers with the digits A, T, G, C, and the splice-puzzle validator that
 * re-stitches puzzle blocks, checks that they are complete and scores a
 * submission against the solution.
 */
module SharedGenetics {
  import opened Wrappers

  // ---------------------------------------------------------------------
  // Data model
  // ---------------------------------------------------------------------

  /** A strand symbol: the four nucleotides, a redacted base, or no strand. */
  datatype Base = A | T | G | C | Unknown | Empty

  predicate IsNucleotide(b: Base) {
    b == A || b == T || b == G || b == C
  }

  /** One position of the double strand; Actual is canonical, Assigned is player-editable. */
  datatype BasePair = BasePair(topActual: Base, topAssigned: Base, botActual: Base, botAssigned: Base)

  /** A movable puzzle piece: a contiguous run of base pairs. */
  type PairBlock = seq<BasePair>

  /** The splicing minigame state. */
  datatype GenePuzzle = GenePuzzle(solution: string, unusedBlocks: seq<PairBlock>, usedBlocks: seq<PairBlock>)

  datatype GeneType = Species | SkinColor | EyeColor | Markings | Sex | Gender | BaseLayer | Mutation

  datatype BlockType = Primary | Modifier

  /** A value block of a gene: a number and its kind (its rendered text is not modelled). */
  datatype Block = Block(value: nat, kind: BlockType)

  /** Marking categories are identified by their position in the enumeration. */
  type Category = nat

  datatype Gene = Gene(kind: GeneType, blocks: seq<Block>, markingCategory: Option<Category>, active: bool, damaged: bool)

  /** The symbol shown for each base. */
  function BaseToChar(b: Base): (c: char)
    ensures c in "ATGC" <==> IsNucleotide(b)
  {
    match b
    case A => 'A'
    case T => 'T'
    case G => 'G'
    case C => 'C'
    case Unknown => '?'
    case Empty => ' '
  }

  // ---------------------------------------------------------------------
  // Base-4 rendering of numbers
  // ---------------------------------------------------------------------

  newtype int64 = x: int | -0x8000_0000_0000_0000 <= x < 0x8000_0000_0000_0000

  const MinInt64: int64 := -0x8000_0000_0000_0000

  function Abs(x: int): nat {
    if x < 0 then -x else x
  }

  function DigitChar(d: nat): char
    requires d < 4
  {
    "ATGC"[d]
  }

  function DigitValue(c: char): nat {
    if c == 'T' then 1 else if c == 'G' then 2 else if c == 'C' then 3 else 0
  }

  /** The base-4 digits of m, most significant first, with no leading zero digit; empty for 0. */
  function Digits(m: nat): string
    decreases m
  {
    if m == 0 then "" else Digits(m / 4) + [DigitChar(m % 4)]
  }

  /** Reads a string of ATGC digits back as a base-4 number. */
  function ValueOf(s: string): nat {
    if s == [] then 0 else ValueOf(s[..|s| - 1]) * 4 + DigitValue(s[|s| - 1])
  }

  /** What DecimalToGene returns for a number whose absolute value fits in 64 bits. */
  function GeneText(n: int): string {
    if n == 0 then "A" else (if n < 0 then "-" else "") + Digits(Abs(n))
  }

  function Pow4(k: nat): nat {
    if k == 0 then 1 else 4 * Pow4(k - 1)
  }

  lemma {:induction false} Pow4Add(a: nat, b: nat)
    ensures Pow4(a + b) == Pow4(a) * Pow4(b)
  {
    if a != 0 {
      Pow4Add(a - 1, b);
    }
  }

  lemma Pow4Of32()
    ensures Pow4(32) == 0x1_0000_0000_0000_0000
  {
    assert Pow4(4) == 256;
    Pow4Add(4, 4);
    Pow4Add(8, 8);
    Pow4Add(16, 16);
  }

  lemma {:induction false} DigitsBelowPow4(m: nat, k: nat)
    requires m < Pow4(k)
    ensures |Digits(m)| <= k
  {
    if m != 0 {
      DigitsBelowPow4(m / 4, k - 1);
    }
  }

  lemma {:induction false} DigitsAreNucleotides(m: nat)
    ensures forall i :: 0 <= i < |Digits(m)| ==> Digits(m)[i] in "ATGC"
  {
    if m != 0 {
      DigitsAreNucleotides(m / 4);
    }
  }

  /** Reading the digits back gives the number. */
  lemma {:induction false} DigitsRoundTrip(m: nat)
    ensures ValueOf(Digits(m)) == m
  {
    if m != 0 {
      DigitsRoundTrip(m / 4);
      var s := Digits(m);
      assert s[..|s| - 1] == Digits(m / 4);
      assert DigitValue(s[|s| - 1]) == m % 4;
    }
  }

  /** A positive number has no leading zero digit. */
  lemma {:induction false} DigitsLeadNonZero(m: nat)
    requires m > 0
    ensures |Digits(m)| > 0 && Digits(m)[0] != 'A'
  {
    if m / 4 != 0 {
      DigitsLeadNonZero(m / 4);
    }
  }

  /**
   * Renders a 64-bit number in base 4 with the digits ATGC; None where
   * Math.Abs overflows.
   */
  method DecimalToGene(decimalNumber: int64) returns (r: Option<string>)
    ensures decimalNumber == MinInt64 <==> r.None?
    ensures r.Some? ==> r.value == GeneText(decimalNumber as int)
  {
    if decimalNumber == 0 {
      return Some("A");
    }
    if decimalNumber == MinInt64 {
      return None;
    }
    var absolute := Abs(decimalNumber as int);
    Pow4Of32();
    DigitsBelowPow4(absolute, 32);
    var result := FillDigitBuffer(absolute);
    if decimalNumber < 0 {
      result := "-" + result;
    }
    return Some(result);
  }

  /** The digit loop of DecimalToGene: fills a 64-character buffer from its end and returns the written part. */
  method FillDigitBuffer(absolute: nat) returns (digits: string)
    requires |Digits(absolute)| <= 64
    ensures digits == Digits(absolute)
  {
    var index := 63;
    var currentNumber := absolute;
    var charArray := new char[64];
    ghost var written: string := [];
    while currentNumber != 0
      invariant 0 <= index + 1 <= 64
      invariant |written| == 63 - index
      invariant forall k :: index < k < 64 ==> charArray[k] == written[k - index - 1]
      invariant Digits(absolute) == Digits(currentNumber) + written
      decreases currentNumber
    {
      var remainder := currentNumber % 4;
      DigitsPrepend(absolute, currentNumber, written);
      charArray[index] := DigitChar(remainder);
      ghost var next := [DigitChar(remainder)] + written;
      forall k | index <= k < 64
        ensures charArray[k] == next[k - index]
      {
        if k > index {
          assert next[k - index] == written[k - index - 1];
        }
      }
      written := next;
      index := index - 1;
      currentNumber := currentNumber / 4;
    }
    digits := charArray[index + 1..];
  }

  /** Peeling the last base-4 digit off a positive number moves it to the front of the digits already written. */
  lemma DigitsPrepend(absolute: nat, m: nat, written: string)
    requires m != 0 && Digits(absolute) == Digits(m) + written
    ensures Digits(absolute) == Digits(m / 4) + ([DigitChar(m % 4)] + written)
    ensures |Digits(m / 4)| + 1 == |Digits(m)|
  {
    assert Digits(m) == Digits(m / 4) + [DigitChar(m % 4)];
  }

  /** Every positive input renders as ATGC digits that read back as the input. */
  lemma PositiveGeneTextReadsBack(n: int)
    requires n > 0
    ensures forall i :: 0 <= i < |GeneText(n)| ==> GeneText(n)[i] in "ATGC"
    ensures ValueOf(GeneText(n)) == n
    ensures GeneText(n)[0] != 'A'
  {
    assert GeneText(n) == Digits(n);
    DigitsAreNucleotides(n);
    DigitsRoundTrip(n);
    DigitsLeadNonZero(n);
  }

  /** A negative input renders as a minus sign followed by its absolute value's text. */
  lemma NegativeGeneText(n: int)
    requires n < 0
    ensures GeneText(n) == "-" + GeneText(-n)
  {
  }

  // ---------------------------------------------------------------------
  // Re-stitching puzzle blocks
  // ---------------------------------------------------------------------

  /** Both strands of the pair are present (a jagged cut leaves one of them Empty). */
  predicate Whole(p: BasePair) {
    p.topActual != Empty && p.botActual != Empty
  }

  /** Both assigned strands hold a nucleotide. */
  predicate Resolved(p: BasePair) {
    IsNucleotide(p.topAssigned) && IsNucleotide(p.botAssigned)
  }

  predicate AllResolved(pairs: seq<BasePair>) {
    forall i :: 0 <= i < |pairs| ==> Resolved(pairs[i])
  }

  function Flatten(blocks: seq<PairBlock>): seq<BasePair> {
    if blocks == [] then [] else blocks[0] + Flatten(blocks[1..])
  }

  lemma {:induction false} FlattenAppend(xs: seq<PairBlock>, ys: seq<PairBlock>)
    ensures Flatten(xs + ys) == Flatten(xs) + Flatten(ys)
  {
    if xs != [] {
      assert (xs + ys)[0] == xs[0];
      assert (xs + ys)[1..] == xs[1..] + ys;
      FlattenAppend(xs[1..], ys);
    } else {
      assert xs + ys == ys;
    }
  }

  /**
   * Adds one pair to the combined list: a pair whose top is Empty completes a
   * previous top-only pair with its bottom strand, a pair whose bottom is
   * Empty completes a previous bottom-only pair with its top strand, and any
   * other pair is appended as a copy.
   */
  function Stitch(combined: seq<BasePair>, pair: BasePair): seq<BasePair> {
    if combined == [] then [pair]
    else
      var previous := combined[|combined| - 1];
      if pair.topActual == Empty && previous.topActual != Empty && previous.botActual == Empty then
        combined[..|combined| - 1] + [previous.(botActual := pair.botActual, botAssigned := pair.botAssigned)]
      else if pair.botActual == Empty && previous.botActual != Empty && previous.topActual == Empty then
        combined[..|combined| - 1] + [previous.(topActual := pair.topActual, topAssigned := pair.topAssigned)]
      else
        combined + [pair]
  }

  /** Stitches the pairs, in order, onto an already combined list. */
  function StitchAll(combined: seq<BasePair>, pairs: seq<BasePair>): seq<BasePair>
    decreases |pairs|
  {
    if pairs == [] then combined else StitchAll(Stitch(combined, pairs[0]), pairs[1..])
  }

  /** The pairs that combining the blocks in the given order produces. */
  function Combined(blocks: seq<PairBlock>): seq<BasePair> {
    StitchAll([], Flatten(blocks))
  }

  lemma {:induction false} StitchAllAppend(combined: seq<BasePair>, xs: seq<BasePair>, ys: seq<BasePair>)
    ensures StitchAll(combined, xs + ys) == StitchAll(StitchAll(combined, xs), ys)
    decreases |xs|
  {
    if xs != [] {
      assert (xs + ys)[0] == xs[0];
      assert (xs + ys)[1..] == xs[1..] + ys;
      StitchAllAppend(Stitch(combined, xs[0]), xs[1..], ys);
    } else {
      assert xs + ys == ys;
    }
  }

  lemma StitchAllSnoc(combined: seq<BasePair>, xs: seq<BasePair>, x: BasePair)
    ensures StitchAll(combined, xs + [x]) == Stitch(StitchAll(combined, xs), x)
  {
    StitchAllAppend(combined, xs, [x]);
  }

  /** Stitching never produces more pairs than it is given, and the first pair is kept. */
  lemma {:induction false} StitchAllLength(combined: seq<BasePair>, pairs: seq<BasePair>)
    ensures |StitchAll(combined, pairs)| <= |combined| + |pairs|
    ensures combined != [] ==> |StitchAll(combined, pairs)| >= 1
    ensures combined == [] && pairs != [] ==> |StitchAll(combined, pairs)| >= 1
    decreases |pairs|
  {
    if pairs != [] {
      StitchAllLength(Stitch(combined, pairs[0]), pairs[1..]);
    }
  }

  /** Whole pairs stitched onto whole pairs are appended unchanged. */
  lemma {:induction false} StitchAllWhole(combined: seq<BasePair>, pairs: seq<BasePair>)
    requires forall i :: 0 <= i < |combined| ==> Whole(combined[i])
    requires forall i :: 0 <= i < |pairs| ==> Whole(pairs[i])
    ensures StitchAll(combined, pairs) == combined + pairs
    decreases |pairs|
  {
    if pairs != [] {
      assert Stitch(combined, pairs[0]) == combined + [pairs[0]];
      assert combined + pairs == (combined + [pairs[0]]) + pairs[1..];
      StitchAllWhole(combined + [pairs[0]], pairs[1..]);
    } else {
      assert combined + pairs == combined;
    }
  }

  /** CombineBlocks returns at most as many pairs as its blocks hold, the first one copied. */
  lemma CombinedLength(blocks: seq<PairBlock>)
    ensures |Combined(blocks)| <= |Flatten(blocks)|
    ensures Flatten(blocks) != [] ==> |Combined(blocks)| >= 1
    ensures Flatten(blocks) != [] && Whole(Flatten(blocks)[0]) ==> Combined(blocks)[0] == Flatten(blocks)[0]
  {
    StitchAllLength([], Flatten(blocks));
    var f := Flatten(blocks);
    if f != [] && Whole(f[0]) {
      assert f == [f[0]] + f[1..];
      FirstPairKept([f[0]], f[1..]);
    }
  }

  lemma {:induction false} FirstPairKept(combined: seq<BasePair>, pairs: seq<BasePair>)
    requires combined != [] && Whole(combined[0])
    ensures StitchAll(combined, pairs) != []
    ensures StitchAll(combined, pairs)[0] == combined[0]
    decreases |pairs|
  {
    if pairs != [] {
      var next := Stitch(combined, pairs[0]);
      assert next != [] && next[0] == combined[0];
      FirstPairKept(next, pairs[1..]);
    }
  }

  /** A top-only pair followed by a pair with an Empty top is merged into one pair. */
  lemma MergeTopThenBottom(combined: seq<BasePair>, top: BasePair, bot: BasePair)
    requires top.topActual != Empty && top.botActual == Empty && bot.topActual == Empty
    requires combined == [] || Whole(combined[|combined| - 1])
    ensures StitchAll(combined, [top, bot])
            == combined + [BasePair(top.topActual, top.topAssigned, bot.botActual, bot.botAssigned)]
  {
    assert [top, bot][1..] == [bot];
    assert Stitch(combined, top) == combined + [top];
    assert (combined + [top])[..|combined|] == combined;
    assert StitchAll(combined, [top, bot]) == StitchAll(combined + [top], [bot]);
    assert StitchAll(combined + [top], [bot]) == Stitch(combined + [top], bot);
  }

  /** A bottom-only pair followed by a pair with an Empty bottom is merged into one pair. */
  lemma MergeBottomThenTop(combined: seq<BasePair>, bot: BasePair, top: BasePair)
    requires bot.botActual != Empty && bot.topActual == Empty && top.botActual == Empty
    requires combined == [] || Whole(combined[|combined| - 1])
    ensures StitchAll(combined, [bot, top])
            == combined + [BasePair(top.topActual, top.topAssigned, bot.botActual, bot.botAssigned)]
  {
    assert [bot, top][1..] == [top];
    assert Stitch(combined, bot) == combined + [bot];
    assert (combined + [bot])[..|combined|] == combined;
    assert StitchAll(combined, [bot, top]) == StitchAll(combined + [bot], [top]);
    assert StitchAll(combined + [bot], [top]) == Stitch(combined + [bot], top);
  }

  /**
   * Combines the blocks pair by pair in the given order, re-stitching the
   * top-only and bottom-only halves that a jagged cut leaves at a boundary.
   */
  method CombineBlocks(blocks: seq<PairBlock>) returns (combined: seq<BasePair>)
    ensures combined == Combined(blocks)
  {
    combined := [];
    var i := 0;
    while i < |blocks|
      invariant 0 <= i <= |blocks|
      invariant combined == StitchAll([], Flatten(blocks[..i]))
    {
      var block := blocks[i];
      ghost var done := Flatten(blocks[..i]);
      var j := 0;
      assert done + block[..0] == done;
      while j < |block|
        invariant 0 <= j <= |block|
        invariant combined == StitchAll([], done + block[..j])
      {
        var pair := block[j];
        combined := Stitch(combined, pair);
        PrefixSnoc(done, block, j);
        StitchAllSnoc([], done + block[..j], pair);
        j := j + 1;
      }
      FlattenPrefixSnoc(blocks, i);
      assert block[..j] == block;
      i := i + 1;
    }
    assert blocks[..i] == blocks;
  }

  lemma PrefixSnoc(done: seq<BasePair>, block: PairBlock, j: nat)
    requires j < |block|
    ensures done + block[..j + 1] == (done + block[..j]) + [block[j]]
  {
    assert block[..j + 1] == block[..j] + [block[j]];
  }

  lemma FlattenPrefixSnoc(blocks: seq<PairBlock>, i: nat)
    requires i < |blocks|
    ensures Flatten(blocks[..i + 1]) == Flatten(blocks[..i]) + blocks[i]
  {
    assert blocks[..i + 1] == blocks[..i] + [blocks[i]];
    FlattenAppend(blocks[..i], [blocks[i]]);
    assert Flatten([blocks[i]]) == blocks[i] + Flatten([]);
  }

  // ---------------------------------------------------------------------
  // Completeness and scoring
  // ---------------------------------------------------------------------

  /** Scans the pairs and stops at the first one with an Empty or Unknown assigned strand. */
  method ValidateCombinedPairs(pairs: seq<BasePair>) returns (valid: bool)
    ensures valid <==> AllResolved(pairs)
  {
    var i := 0;
    while i < |pairs|
      invariant 0 <= i <= |pairs|
      invariant AllResolved(pairs[..i])
    {
      var pair := pairs[i];
      if pair.topAssigned == Empty || pair.botAssigned == Empty {
        return false;
      }
      if pair.topAssigned == Unknown || pair.botAssigned == Unknown {
        return false;
      }
      i := i + 1;
    }
    assert pairs[..i] == pairs;
    return true;
  }

  /** A puzzle can be submitted when every block is used and every combined pair is resolved. */
  function CanSubmitPuzzle(puzzle: Option<GenePuzzle>): (r: bool)
    ensures r ==> puzzle.Some? && puzzle.value.unusedBlocks == []
    ensures r <==> puzzle.Some? && puzzle.value.unusedBlocks == []
                   && forall i :: 0 <= i < |Combined(puzzle.value.usedBlocks)| ==>
                        IsNucleotide(Combined(puzzle.value.usedBlocks)[i].topAssigned)
                        && IsNucleotide(Combined(puzzle.value.usedBlocks)[i].botAssigned)
  {
    puzzle.Some? && |puzzle.value.unusedBlocks| == 0 && AllResolved(Combined(puzzle.value.usedBlocks))
  }

  /** The top assigned strand of the pairs as text. */
  function TopText(pairs: seq<BasePair>): (s: string)
    ensures |s| == |pairs|
    ensures forall i :: 0 <= i < |s| ==> (s[i] in "ATGC" <==> IsNucleotide(pairs[i].topAssigned))
  {
    seq(|pairs|, i requires 0 <= i < |pairs| => BaseToChar(pairs[i].topAssigned))
  }

  /** The sequence a player has built: one symbol per combined pair. */
  function CalculateSubmittedSequence(blocks: seq<PairBlock>): (s: string)
    ensures |s| == |Combined(blocks)| <= |Flatten(blocks)|
    ensures forall i :: 0 <= i < |s| ==> s[i] == BaseToChar(Combined(blocks)[i].topAssigned)
  {
    CombinedLength(blocks);
    TopText(Combined(blocks))
  }

  /** Number of positions at which two equally long strings differ. */
  function Mismatches(a: string, b: string): nat
    requires |a| == |b|
  {
    if a == [] then 0
    else Mismatches(a[..|a| - 1], b[..|b| - 1]) + (if a[|a| - 1] != b[|b| - 1] then 1 else 0)
  }

  lemma {:induction false} MismatchesBounds(a: string, b: string)
    requires |a| == |b|
    ensures Mismatches(a, b) <= |a|
    ensures Mismatches(a, b) == 0 <==> a == b
  {
    if a != [] {
      MismatchesBounds(a[..|a| - 1], b[..|b| - 1]);
      if a[..|a| - 1] == b[..|b| - 1] && a[|a| - 1] == b[|b| - 1] {
        assert a == a[..|a| - 1] + [a[|a| - 1]];
        assert b == b[..|b| - 1] + [b[|b| - 1]];
      }
      if a == b {
        assert a[..|a| - 1] == b[..|b| - 1];
      }
    }
  }

  /** The score of a puzzle: 0 when blocks are unused, the full length when unresolved, else the mismatches. */
  function SolutionDiff(puzzle: Option<GenePuzzle>): int {
    if puzzle.None? || |puzzle.value.unusedBlocks| > 0 then 0
    else
      var combined := Combined(puzzle.value.usedBlocks);
      var solution := puzzle.value.solution;
      if !AllResolved(combined) then |solution|
      else
        var submitted := TopText(combined);
        if |submitted| != |solution| then Abs(|submitted| - |solution|)
        else Mismatches(submitted, solution)
  }

  /** Scores a submission against the solution. */
  method CalculatePuzzleSolutionDiff(puzzle: Option<GenePuzzle>) returns (diff: int)
    ensures diff == SolutionDiff(puzzle)
    ensures puzzle.Some? && puzzle.value.unusedBlocks != [] ==> diff == 0
    ensures puzzle.Some? && puzzle.value.unusedBlocks == [] && !AllResolved(Combined(puzzle.value.usedBlocks))
            ==> diff == |puzzle.value.solution|
    ensures CanSubmitPuzzle(puzzle) ==>
              (diff == 0 <==> CalculateSubmittedSequence(puzzle.value.usedBlocks) == puzzle.value.solution)
  {
    if puzzle.None? || |puzzle.value.unusedBlocks| > 0 {
      return 0;
    }
    var combined := CombineBlocks(puzzle.value.usedBlocks);
    var valid := ValidateCombinedPairs(combined);
    if !valid {
      return |puzzle.value.solution|;
    }
    var submitted := TopText(combined);
    var solution := puzzle.value.solution;
    if |submitted| != |solution| {
      return Abs(|submitted| - |solution|);
    }
    diff := 0;
    var i := 0;
    while i < |solution|
      invariant 0 <= i <= |solution|
      invariant diff == Mismatches(submitted[..i], solution[..i])
    {
      assert submitted[..i + 1][..i] == submitted[..i];
      assert solution[..i + 1][..i] == solution[..i];
      if submitted[i] != solution[i] {
        diff := diff + 1;
      }
      i := i + 1;
    }
    assert submitted[..i] == submitted && solution[..i] == solution;
    MismatchesBounds(submitted, solution);
  }
}
