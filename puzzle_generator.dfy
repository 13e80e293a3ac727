/**
 * The splice-puzzle generator of the genetics console: it turns a solution
 * string into complementary base pairs, redacts some strands, cuts the pairs
 * into blocks, splits some block boundaries into top-only and bottom-only
 * halves (jagged cuts) and shuffles the blocks.
 *
 * The random source is a parameter: every call the generator makes to it is
 * a drawn number in a Draws record, and ValidDraws says that each lies in
 * the range of its call.
 */
module PuzzleGenerator {
  import opened Wrappers
  import opened SharedGenetics

  const Cuts: nat := 3
  const DoubleUnknowns: nat := 2
  const Unknowns: nat := 4

  // ---------------------------------------------------------------------
  // Solved pairs
  // ---------------------------------------------------------------------

  /** The base a solution letter stands for (the charToBP table). */
  function CharToBase(c: char): Option<Base> {
    if c == 'A' then Some(A)
    else if c == 'T' then Some(T)
    else if c == 'G' then Some(G)
    else if c == 'C' then Some(C)
    else None
  }

  /** The opposite strand's base: A and T pair, G and C pair. */
  function Complement(b: Base): Base {
    match b
    case A => T
    case T => A
    case G => C
    case C => G
    case Unknown => Unknown
    case Empty => Empty
  }

  predicate IsSolutionText(s: string) {
    forall i :: 0 <= i < |s| ==> s[i] in "ATGC"
  }

  /** The resolved pair for one solution letter. */
  function SolvedPair(c: char): (p: BasePair)
    requires c in "ATGC"
    ensures IsNucleotide(p.topActual) && p.botActual == Complement(p.topActual)
    ensures p.topAssigned == p.topActual && p.botAssigned == p.botActual
    ensures BaseToChar(p.topActual) == c
  {
    var b := CharToBase(c).value;
    BasePair(b, b, Complement(b), Complement(b))
  }

  function Solved(solution: string): seq<BasePair>
    requires IsSolutionText(solution)
  {
    seq(|solution|, i requires 0 <= i < |solution| => SolvedPair(solution[i]))
  }

  /** Builds one resolved, complementary pair per solution letter; a letter outside ATGC is a missing key. */
  method GenerateSolvedPairs(solution: string) returns (r: Result<seq<BasePair>>)
    ensures r.Success? <==> IsSolutionText(solution)
    ensures r.Failure? ==> r.error == KeyNotFound
    ensures r.Success? ==> |r.value| == |solution|
    ensures r.Success? ==> forall i :: 0 <= i < |solution| ==>
              && BaseToChar(r.value[i].topActual) == solution[i]
              && r.value[i].topAssigned == r.value[i].topActual
              && r.value[i].botActual == Complement(r.value[i].topActual)
              && r.value[i].botAssigned == r.value[i].botActual
  {
    var pairs: seq<BasePair> := [];
    var i := 0;
    while i < |solution|
      invariant 0 <= i <= |solution|
      invariant IsSolutionText(solution[..i])
      invariant pairs == Solved(solution[..i])
    {
      var c := solution[i];
      var b := CharToBase(c);
      if b.None? {
        return Failure(KeyNotFound);
      }
      pairs := pairs + [BasePair(b.value, b.value, Complement(b.value), Complement(b.value))];
      assert solution[..i + 1] == solution[..i] + [c];
      i := i + 1;
    }
    assert solution[..i] == solution;
    return Success(pairs);
  }

  /** The complement pairs each base with its partner, and pairing twice is the identity. */
  lemma ComplementIsInvolution(b: Base)
    ensures Complement(Complement(b)) == b
    ensures IsNucleotide(b) ==> IsNucleotide(Complement(b)) && Complement(b) != b
  {
  }

  /** Reading the top strand of the solved pairs gives back the solution. */
  lemma SolvedReadsBack(solution: string)
    requires IsSolutionText(solution)
    ensures TopText(Solved(solution)) == solution
    ensures AllResolved(Solved(solution))
  {
  }

  // ---------------------------------------------------------------------
  // Redactions
  // ---------------------------------------------------------------------

  function HideTop(p: BasePair): BasePair {
    p.(topActual := Unknown, topAssigned := Unknown)
  }

  function HideBottom(p: BasePair): BasePair {
    p.(botActual := Unknown, botAssigned := Unknown)
  }

  /** A single redaction: the coin picks the top (0) or the bottom strand. */
  function RedactSingle(pairs: seq<BasePair>, draw: (nat, nat)): seq<BasePair>
    requires draw.0 < |pairs|
  {
    if draw.1 == 0 then pairs[draw.0 := HideTop(pairs[draw.0])]
    else pairs[draw.0 := HideBottom(pairs[draw.0])]
  }

  function RedactSingles(pairs: seq<BasePair>, draws: seq<(nat, nat)>): seq<BasePair>
    requires forall k :: 0 <= k < |draws| ==> draws[k].0 < |pairs|
    ensures |RedactSingles(pairs, draws)| == |pairs|
  {
    if draws == [] then pairs
    else RedactSingle(RedactSingles(pairs, draws[..|draws| - 1]), draws[|draws| - 1])
  }

  function RedactDoubles(pairs: seq<BasePair>, draws: seq<nat>): seq<BasePair>
    requires forall k :: 0 <= k < |draws| ==> draws[k] < |pairs|
    ensures |RedactDoubles(pairs, draws)| == |pairs|
  {
    if draws == [] then pairs
    else
      var before := RedactDoubles(pairs, draws[..|draws| - 1]);
      var index := draws[|draws| - 1];
      before[index := HideBottom(HideTop(before[index]))]
  }

  /** Each strand of q is the strand of p, or is Unknown in both its actual and assigned fields. */
  predicate KeptOrHidden(p: BasePair, q: BasePair) {
    && ((q.topActual == p.topActual && q.topAssigned == p.topAssigned) || (q.topActual == Unknown && q.topAssigned == Unknown))
    && ((q.botActual == p.botActual && q.botAssigned == p.botAssigned) || (q.botActual == Unknown && q.botAssigned == Unknown))
  }

  predicate AllKeptOrHidden(original: seq<BasePair>, redacted: seq<BasePair>) {
    |redacted| == |original| && forall i :: 0 <= i < |original| ==> KeptOrHidden(original[i], redacted[i])
  }

  lemma {:induction false} RedactSinglesKeepsOrHides(pairs: seq<BasePair>, draws: seq<(nat, nat)>)
    requires forall k :: 0 <= k < |draws| ==> draws[k].0 < |pairs|
    ensures AllKeptOrHidden(pairs, RedactSingles(pairs, draws))
  {
    if draws != [] {
      RedactSinglesKeepsOrHides(pairs, draws[..|draws| - 1]);
    }
  }

  lemma {:induction false} RedactDoublesKeepsOrHides(original: seq<BasePair>, pairs: seq<BasePair>, draws: seq<nat>)
    requires AllKeptOrHidden(original, pairs)
    requires forall k :: 0 <= k < |draws| ==> draws[k] < |pairs|
    ensures AllKeptOrHidden(original, RedactDoubles(pairs, draws))
  {
    if draws != [] {
      RedactDoublesKeepsOrHides(original, pairs, draws[..|draws| - 1]);
    }
  }

  // ---------------------------------------------------------------------
  // The random draws
  // ---------------------------------------------------------------------

  /** What IRobustRandom.Next(min, max) may return: a value in [min, max), or min when the range is empty. */
  predicate NextInRange(min: int, max: int, x: int) {
    (min < max && min <= x < max) || (min == max && x == min)
  }

  function Max(a: int, b: int): int { if a < b then b else a }

  function Min(a: int, b: int): int { if a < b then a else b }

  /** The window of the i-th cut: [max(i+2, (n/3)*i), min(n-1, (n/3)*(i+1))). */
  function CutMin(n: nat, i: nat): int { Max(i + 2, (n / Cuts) * i) }

  function CutMax(n: nat, i: nat): int { Min(n - 1, (n / Cuts) * (i + 1)) }

  /**
   * One drawn number per call the generator makes: a pair index and a coin
   * for each single redaction, a pair index for each double redaction, a cut
   * per window, a die roll per block boundary, and the partner of each swap
   * of the shuffle, taken from the last position down.
   */
  datatype Draws = Draws(singles: seq<(nat, nat)>, doubles: seq<nat>, cuts: seq<int>, rolls: seq<nat>, swaps: seq<nat>)

  predicate ValidDraws(n: nat, d: Draws) {
    && |d.singles| == Unknowns
    && (forall k :: 0 <= k < Unknowns ==> NextInRange(0, n, d.singles[k].0) && NextInRange(0, 2, d.singles[k].1))
    && |d.doubles| == DoubleUnknowns
    && (forall k :: 0 <= k < DoubleUnknowns ==> NextInRange(0, n, d.doubles[k]))
    && |d.cuts| == Cuts
    && (forall i :: 0 <= i < Cuts && CutMin(n, i) <= CutMax(n, i) ==> NextInRange(CutMin(n, i), CutMax(n, i), d.cuts[i]))
    && |d.rolls| == Cuts
    && (forall k :: 0 <= k < Cuts ==> d.rolls[k] < 10)
    && |d.swaps| == Cuts
    && (forall k :: 0 <= k < Cuts ==> d.swaps[k] <= Cuts - k)
  }

  /** The three cut windows written with q = n / 3. */
  lemma CutWindows(n: nat, q: int)
    requires n >= 6 && q == n / 3
    ensures 2 <= q && 3 * q <= n
    ensures CutMin(n, 0) == 2 && CutMax(n, 0) == Min(n - 1, q)
    ensures CutMin(n, 1) == Max(3, q) && CutMax(n, 1) == Min(n - 1, 2 * q)
    ensures CutMin(n, 2) == Max(4, 2 * q) && CutMax(n, 2) == Min(n - 1, 3 * q)
  {
  }

  /** Below six pairs the first cut window is already empty. */
  lemma ShortWindowEmpty(n: nat)
    requires 0 < n < 6
    ensures CutMin(n, 0) > CutMax(n, 0)
  {
  }

  /** With at least six pairs every cut window is non-empty and the cuts strictly increase inside (0, n). */
  lemma {:induction false} CutsIncrease(n: nat, d: Draws)
    requires n >= 6 && ValidDraws(n, d)
    ensures forall i :: 0 <= i < Cuts ==> CutMin(n, i) <= CutMax(n, i)
    ensures 0 < d.cuts[0] < d.cuts[1] < d.cuts[2] < n
  {
    var q := n / 3;
    CutWindows(n, q);
    assert CutMin(n, 0) <= CutMax(n, 0);
    assert CutMin(n, 1) <= CutMax(n, 1);
    assert CutMin(n, 2) <= CutMax(n, 2);
    assert NextInRange(CutMin(n, 0), CutMax(n, 0), d.cuts[0]);
    assert NextInRange(CutMin(n, 1), CutMax(n, 1), d.cuts[1]);
    assert NextInRange(CutMin(n, 2), CutMax(n, 2), d.cuts[2]);
  }

  // ---------------------------------------------------------------------
  // Cuts, jagged boundaries and the shuffle
  // ---------------------------------------------------------------------

  /** The four blocks between the cuts. */
  function CutBlocks(pairs: seq<BasePair>, cuts: seq<int>): (blocks: seq<PairBlock>)
    requires |cuts| == Cuts && 0 < cuts[0] < cuts[1] < cuts[2] < |pairs|
    ensures |blocks| == Cuts + 1
    ensures forall k :: 0 <= k < |blocks| ==> blocks[k] != []
    ensures Flatten(blocks) == pairs
  {
    var blocks := [pairs[..cuts[0]], pairs[cuts[0]..cuts[1]], pairs[cuts[1]..cuts[2]], pairs[cuts[2]..]];
    assert Flatten(blocks[3..]) == pairs[cuts[2]..];
    assert Flatten(blocks[2..]) == pairs[cuts[1]..cuts[2]] + pairs[cuts[2]..];
    assert pairs[cuts[1]..cuts[2]] + pairs[cuts[2]..] == pairs[cuts[1]..];
    assert Flatten(blocks[1..]) == pairs[cuts[0]..cuts[1]] + pairs[cuts[1]..];
    assert pairs[cuts[0]..cuts[1]] + pairs[cuts[1]..] == pairs[cuts[0]..];
    assert pairs[..cuts[0]] + pairs[cuts[0]..] == pairs;
    blocks
  }

  /** splitPair: the top-only half and the bottom-only half of a pair. */
  function SplitPair(pair: BasePair): (halves: (BasePair, BasePair))
    ensures halves.0 == BasePair(pair.topActual, pair.topAssigned, Empty, Empty)
    ensures halves.1 == BasePair(Empty, Empty, pair.botActual, pair.botAssigned)
  {
    (BasePair(pair.topActual, pair.topAssigned, Empty, Empty),
     BasePair(Empty, Empty, pair.botActual, pair.botAssigned))
  }

  /**
   * The jagged step at one boundary: a roll below 4 keeps the top half of
   * the previous block's last pair in that block and moves the bottom half
   * on, a roll from 4 to 7 does the mirror split, and a higher roll leaves
   * the boundary clean. Returns the previous block and the pairs moved to
   * the front of the next one.
   */
  function Carry(previous: PairBlock, roll: nat): (r: (PairBlock, seq<BasePair>))
    requires previous != []
    ensures r.0 != [] && |r.1| <= 1
    ensures |r.0| + |r.1| == |previous| + (if roll < 8 then 1 else 0)
  {
    var halves := SplitPair(previous[|previous| - 1]);
    if roll < 4 then (previous[..|previous| - 1] + [halves.0], [halves.1])
    else if roll < 8 then (previous[..|previous| - 1] + [halves.1], [halves.0])
    else (previous, [])
  }

  /** The jagged steps over every boundary, from the first, each seeing the block the previous step extended. */
  function Jag(blocks: seq<PairBlock>, rolls: seq<nat>): (r: seq<PairBlock>)
    requires |blocks| <= |rolls| + 1
    requires forall k :: 0 <= k < |blocks| ==> blocks[k] != []
    ensures |r| == |blocks|
    decreases |blocks|
  {
    if |blocks| <= 1 then blocks
    else
      var step := Carry(blocks[0], rolls[0]);
      [step.0] + Jag([step.1 + blocks[1]] + blocks[2..], rolls[1..])
  }

  /** The jagged step at the boundary between blocks k-1 and k, in place on the block list. */
  function JagBoundary(blocks: seq<PairBlock>, k: nat, roll: nat): (r: seq<PairBlock>)
    requires 1 <= k < |blocks| && blocks[k - 1] != []
    ensures |r| == |blocks|
  {
    var step := Carry(blocks[k - 1], roll);
    blocks[k - 1 := step.0][k := step.1 + blocks[k]]
  }

  /** One boundary of the in-place jagged loop advances Jag by one block. */
  lemma {:induction false} JagStep(before: seq<PairBlock>, rolls: seq<nat>, k: nat)
    requires 1 <= k < |before| <= |rolls| + 1
    requires forall j :: 0 <= j < |before| ==> before[j] != []
    ensures var after := JagBoundary(before, k, rolls[k - 1]);
      && (forall j :: 0 <= j < |after| ==> after[j] != [])
      && before[..k - 1] + Jag(before[k - 1..], rolls[k - 1..]) == after[..k] + Jag(after[k..], rolls[k..])
  {
    var after := JagBoundary(before, k, rolls[k - 1]);
    var blocks := before[k - 1..];
    assert blocks[0] == before[k - 1] && blocks[1] == before[k] && blocks[2..] == before[k + 1..];
    assert rolls[k - 1..][0] == rolls[k - 1] && rolls[k - 1..][1..] == rolls[k..];
    assert after[..k] == before[..k - 1] + [after[k - 1]];
    assert after[k..] == [after[k]] + before[k + 1..];
  }

  predicate AllWhole(pairs: seq<BasePair>) {
    forall i :: 0 <= i < |pairs| ==> Whole(pairs[i])
  }

  predicate BlocksWhole(blocks: seq<PairBlock>) {
    forall k :: 0 <= k < |blocks| ==> blocks[k] != [] && AllWhole(blocks[k])
  }

  lemma {:induction false} CarryPrepend(x: BasePair, previous: PairBlock, roll: nat)
    requires previous != []
    ensures Carry([x] + previous, roll) == ([x] + Carry(previous, roll).0, Carry(previous, roll).1)
  {
    var longer := [x] + previous;
    var init := previous[..|previous| - 1];
    assert longer[..|longer| - 1] == [x] + init;
    assert longer[|longer| - 1] == previous[|previous| - 1];
    var halves := SplitPair(previous[|previous| - 1]);
    if roll < 4 {
      assert ([x] + init) + [halves.0] == [x] + (init + [halves.0]);
    } else if roll < 8 {
      assert ([x] + init) + [halves.1] == [x] + (init + [halves.1]);
    }
  }

  /** A pair put in front of the first block rides along: the jagged steps only touch a block's last pair. */
  lemma {:induction false} JagPrepend(x: BasePair, blocks: seq<PairBlock>, rolls: seq<nat>)
    requires 1 <= |blocks| <= |rolls| + 1
    requires forall k :: 0 <= k < |blocks| ==> blocks[k] != []
    ensures var plain := Jag(blocks, rolls);
      Jag([[x] + blocks[0]] + blocks[1..], rolls) == [[x] + plain[0]] + plain[1..]
  {
    var moved := [[x] + blocks[0]] + blocks[1..];
    assert moved[0] == [x] + blocks[0] && moved[1..] == blocks[1..];
    if |blocks| >= 2 {
      CarryPrepend(x, blocks[0], rolls[0]);
      assert moved[1] == blocks[1] && moved[2..] == blocks[2..];
    }
  }

  lemma {:induction false} FlattenCons(b: PairBlock, bs: seq<PairBlock>)
    ensures Flatten([b] + bs) == b + Flatten(bs)
  {
    assert ([b] + bs)[1..] == bs;
  }

  /** Jag of two or more blocks: the first step's kept block, then the rest jagged with the moved pairs in front. */
  lemma {:induction false} JagUnfold(blocks: seq<PairBlock>, rolls: seq<nat>)
    requires 2 <= |blocks| <= |rolls| + 1
    requires forall k :: 0 <= k < |blocks| ==> blocks[k] != []
    ensures var step := Carry(blocks[0], rolls[0]);
      Flatten(Jag(blocks, rolls)) == step.0 + Flatten(Jag([step.1 + blocks[1]] + blocks[2..], rolls[1..]))
  {
    var step := Carry(blocks[0], rolls[0]);
    FlattenCons(step.0, Jag([step.1 + blocks[1]] + blocks[2..], rolls[1..]));
  }

  /** The block list the next jagged step sees, written against the blocks after the first. */
  lemma {:induction false} NextBlocks(blocks: seq<PairBlock>, moved: seq<BasePair>)
    requires |blocks| >= 2 && |moved| <= 1
    ensures moved == [] ==> [moved + blocks[1]] + blocks[2..] == blocks[1..]
    ensures moved != [] ==> [moved + blocks[1]] + blocks[2..] == [[moved[0]] + blocks[1..][0]] + blocks[1..][1..]
  {
    assert blocks[1..][0] == blocks[1] && blocks[1..][1..] == blocks[2..];
    if moved == [] {
      assert moved + blocks[1] == blocks[1];
    } else {
      assert moved == [moved[0]];
    }
  }

  /** The pairs of the jagged blocks: the first step's two parts, then the rest jagged. */
  lemma {:induction false} JagFlatten(blocks: seq<PairBlock>, rolls: seq<nat>)
    requires 2 <= |blocks| <= |rolls| + 1
    requires forall k :: 0 <= k < |blocks| ==> blocks[k] != []
    ensures var step := Carry(blocks[0], rolls[0]);
      Flatten(Jag(blocks, rolls)) == step.0 + step.1 + Flatten(Jag(blocks[1..], rolls[1..]))
  {
    var step := Carry(blocks[0], rolls[0]);
    var next := [step.1 + blocks[1]] + blocks[2..];
    var tail := Flatten(Jag(blocks[1..], rolls[1..]));
    JagUnfold(blocks, rolls);
    NextBlocks(blocks, step.1);
    if step.1 == [] {
      assert next == blocks[1..];
      assert step.0 + step.1 == step.0;
    } else {
      JagFlattenPrepend(step.1[0], blocks[1..], rolls[1..]);
      assert [step.1[0]] == step.1;
      assert Flatten(Jag(next, rolls[1..])) == step.1 + tail;
      assert step.0 + (step.1 + tail) == step.0 + step.1 + tail;
    }
  }

  lemma {:induction false} JagFlattenPrepend(x: BasePair, blocks: seq<PairBlock>, rolls: seq<nat>)
    requires 1 <= |blocks| <= |rolls| + 1
    requires forall k :: 0 <= k < |blocks| ==> blocks[k] != []
    ensures Flatten(Jag([[x] + blocks[0]] + blocks[1..], rolls)) == [x] + Flatten(Jag(blocks, rolls))
  {
    var plain := Jag(blocks, rolls);
    var moved := Jag([[x] + blocks[0]] + blocks[1..], rolls);
    JagPrepend(x, blocks, rolls);
    assert moved == [[x] + plain[0]] + plain[1..];
    FlattenSplitHead(x, plain);
  }

  lemma {:induction false} FlattenSplitHead(x: BasePair, bs: seq<PairBlock>)
    requires bs != []
    ensures Flatten([[x] + bs[0]] + bs[1..]) == [x] + Flatten(bs)
  {
    var head := bs[0];
    var tail := Flatten(bs[1..]);
    FlattenCons([x] + head, bs[1..]);
    assert Flatten(bs) == head + tail;
    assert ([x] + head) + tail == [x] + (head + tail);
  }

  /** The two parts of one jagged step stitch back into the block they came from. */
  lemma {:induction false} CarryStitchesBack(acc: seq<BasePair>, previous: PairBlock, roll: nat)
    requires AllWhole(acc) && previous != [] && AllWhole(previous)
    ensures var step := Carry(previous, roll);
      StitchAll(acc, step.0 + step.1) == acc + previous
  {
    var step := Carry(previous, roll);
    var init := previous[..|previous| - 1];
    assert previous == init + [previous[|previous| - 1]];
    StitchAllWhole(acc, init);
    assert AllWhole(acc + init);
    if roll < 8 {
      var kept := step.0[|step.0| - 1];
      var moved := step.1[0];
      assert step.0 + step.1 == init + [kept, moved];
      StitchAllAppend(acc, init, [kept, moved]);
      if roll < 4 {
        MergeTopThenBottom(acc + init, kept, moved);
      } else {
        MergeBottomThenTop(acc + init, kept, moved);
      }
    } else {
      assert step.0 + step.1 == previous;
      StitchAllWhole(acc, previous);
    }
  }

  /**
   * Stitching the jagged blocks in generation order onto whole pairs gives
   * back the blocks' own pairs: each split pair's halves are adjacent and
   * merge into the pair they came from.
   */
  lemma {:induction false} JagStitchesBack(acc: seq<BasePair>, blocks: seq<PairBlock>, rolls: seq<nat>)
    requires AllWhole(acc) && BlocksWhole(blocks)
    requires |blocks| <= |rolls| + 1
    ensures StitchAll(acc, Flatten(Jag(blocks, rolls))) == acc + Flatten(blocks)
    decreases |blocks|
  {
    if |blocks| == 0 {
      assert acc + Flatten(blocks) == acc;
    } else if |blocks| == 1 {
      assert Flatten(blocks) == blocks[0] + Flatten(blocks[1..]);
      assert Flatten(blocks[1..]) == [];
      StitchAllWhole(acc, Flatten(blocks));
    } else {
      var previous := blocks[0];
      assert AllWhole(acc + previous);
      assert BlocksWhole(blocks[1..]);
      JagStitchesBack(acc + previous, blocks[1..], rolls[1..]);
      JagStitchesBackStep(acc, blocks, rolls);
    }
  }

  /** One step of JagStitchesBack: the first block's carry stitches back, the rest by the recursive result. */
  lemma {:induction false} JagStitchesBackStep(acc: seq<BasePair>, blocks: seq<PairBlock>, rolls: seq<nat>)
    requires AllWhole(acc) && BlocksWhole(blocks)
    requires 2 <= |blocks| <= |rolls| + 1
    requires StitchAll(acc + blocks[0], Flatten(Jag(blocks[1..], rolls[1..]))) == acc + blocks[0] + Flatten(blocks[1..])
    ensures StitchAll(acc, Flatten(Jag(blocks, rolls))) == acc + Flatten(blocks)
  {
    var previous := blocks[0];
    var rest := blocks[1..];
    var step := Carry(previous, rolls[0]);
    var tail := Flatten(Jag(rest, rolls[1..]));
    assert blocks == [previous] + rest;
    calc {
      StitchAll(acc, Flatten(Jag(blocks, rolls)));
      { JagFlatten(blocks, rolls); }
      StitchAll(acc, (step.0 + step.1) + tail);
      { StitchAllAppend(acc, step.0 + step.1, tail); }
      StitchAll(StitchAll(acc, step.0 + step.1), tail);
      { CarryStitchesBack(acc, previous, rolls[0]); }
      StitchAll(acc + previous, tail);
      acc + previous + Flatten(rest);
      { FlattenCons(previous, rest); }
      acc + Flatten(blocks);
    }
  }

  /** The number of boundaries the rolls split. */
  function Splits(rolls: seq<nat>): nat {
    if rolls == [] then 0 else (if rolls[0] < 8 then 1 else 0) + Splits(rolls[1..])
  }

  /** A jagged boundary turns one pair into two halves, so each split adds one pair to the blocks. */
  lemma {:induction false} JagPairCount(blocks: seq<PairBlock>, rolls: seq<nat>)
    requires 1 <= |blocks| <= |rolls| + 1
    requires forall k :: 0 <= k < |blocks| ==> blocks[k] != []
    ensures |Flatten(Jag(blocks, rolls))| == |Flatten(blocks)| + Splits(rolls[..|blocks| - 1])
    decreases |blocks|
  {
    if |blocks| == 1 {
      assert rolls[..0] == [];
    } else {
      JagFlatten(blocks, rolls);
      JagPairCount(blocks[1..], rolls[1..]);
      assert rolls[..|blocks| - 1][1..] == rolls[1..][..|blocks| - 2];
      assert Flatten(blocks) == blocks[0] + Flatten(blocks[1..]);
    }
  }

  /** Swaps positions k and n of a list. */
  function Swap(s: seq<PairBlock>, k: nat, n: nat): seq<PairBlock>
    requires k < |s| && n < |s|
  {
    s[k := s[n]][n := s[k]]
  }

  /** The list after the first |swaps| steps of the shuffle: step j swaps position |s|-1-j with its drawn partner. */
  function Shuffled(s: seq<PairBlock>, swaps: seq<nat>): (r: seq<PairBlock>)
    requires |swaps| < |s|
    requires forall j :: 0 <= j < |swaps| ==> swaps[j] <= |s| - 1 - j
    ensures |r| == |s|
  {
    if swaps == [] then s
    else
      var before := Shuffled(s, swaps[..|swaps| - 1]);
      Swap(before, swaps[|swaps| - 1], |s| - |swaps|)
  }

  lemma SwapPermutes(s: seq<PairBlock>, k: nat, n: nat)
    requires k < |s| && n < |s|
    ensures multiset(Swap(s, k, n)) == multiset(s)
  {
    if k != n {
      var t := s[k := s[n]];
      assert multiset(t) == multiset(s) - multiset{s[k]} + multiset{s[n]};
      assert multiset(t[n := s[k]]) == multiset(t) - multiset{t[n]} + multiset{s[k]};
    }
  }

  /** Reordering the blocks keeps the number of pairs they hold. */
  lemma {:induction false} FlattenPermutation(xs: seq<PairBlock>, ys: seq<PairBlock>)
    requires multiset(xs) == multiset(ys)
    ensures |Flatten(xs)| == |Flatten(ys)|
    decreases |xs|
  {
    if xs != [] {
      var x := xs[0];
      assert x in multiset(ys);
      var i :| 0 <= i < |ys| && ys[i] == x;
      var others := ys[..i] + ys[i + 1..];
      assert ys == ys[..i] + [x] + ys[i + 1..];
      assert xs == [x] + xs[1..];
      assert multiset(ys) == multiset(ys[..i]) + multiset([x]) + multiset(ys[i + 1..]);
      assert multiset(xs) == multiset([x]) + multiset(xs[1..]);
      assert multiset(others) == multiset(ys[..i]) + multiset(ys[i + 1..]);
      assert multiset(xs[1..]) == multiset(xs) - multiset([x]);
      assert multiset(others) == multiset(ys) - multiset([x]);
      FlattenPermutation(xs[1..], others);
      FlattenAppend(ys[..i] + [x], ys[i + 1..]);
      FlattenAppend(ys[..i], [x]);
      FlattenAppend(ys[..i], ys[i + 1..]);
      FlattenCons(x, xs[1..]);
      FlattenCons(x, []);
    } else {
      assert ys == [];
    }
  }

  lemma {:induction false} ShuffledPermutes(s: seq<PairBlock>, swaps: seq<nat>)
    requires |swaps| < |s|
    requires forall j :: 0 <= j < |swaps| ==> swaps[j] <= |s| - 1 - j
    ensures multiset(Shuffled(s, swaps)) == multiset(s)
  {
    if swaps != [] {
      ShuffledPermutes(s, swaps[..|swaps| - 1]);
      SwapPermutes(Shuffled(s, swaps[..|swaps| - 1]), swaps[|swaps| - 1], |s| - |swaps|);
    }
  }

  // ---------------------------------------------------------------------
  // The whole generator
  // ---------------------------------------------------------------------

  predicate Generable(solution: string, d: Draws) {
    IsSolutionText(solution) && |solution| >= 6 && ValidDraws(|solution|, d)
  }

  /** The redacted solved pairs. */
  function Redacted(solution: string, d: Draws): seq<BasePair>
    requires Generable(solution, d)
  {
    RedactDoubles(RedactSingles(Solved(solution), d.singles), d.doubles)
  }

  /** The blocks before the shuffle, in generation order. */
  function GenerationOrder(solution: string, d: Draws): seq<PairBlock>
    requires Generable(solution, d)
  {
    CutsIncrease(|solution|, d);
    Jag(CutBlocks(Redacted(solution, d), d.cuts), d.rolls)
  }

  /** The redaction loops: four single redactions, then two double ones; an index past the end of an empty strand fails. */
  method RedactPairs(solved: seq<BasePair>, draws: Draws) returns (r: Result<seq<BasePair>>)
    requires ValidDraws(|solved|, draws)
    ensures r.Success? <==> |solved| > 0
    ensures r.Failure? ==> r.error == IndexOutOfRange
    ensures r.Success? ==> r.value == RedactDoubles(RedactSingles(solved, draws.singles), draws.doubles)
  {
    var pairs := solved;
    var i := 0;
    while i < Unknowns
      invariant 0 <= i <= Unknowns
      invariant |solved| > 0 || i == 0
      invariant pairs == RedactSingles(solved, draws.singles[..i])
    {
      var index := draws.singles[i].0;
      if index >= |pairs| {
        return Failure(IndexOutOfRange);
      }
      if draws.singles[i].1 == 0 {
        pairs := pairs[index := pairs[index].(topAssigned := Unknown, topActual := Unknown)];
      } else {
        pairs := pairs[index := pairs[index].(botAssigned := Unknown, botActual := Unknown)];
      }
      assert draws.singles[..i + 1][..i] == draws.singles[..i];
      i := i + 1;
    }
    assert draws.singles[..Unknowns] == draws.singles;

    i := 0;
    while i < DoubleUnknowns
      invariant 0 <= i <= DoubleUnknowns
      invariant pairs == RedactDoubles(RedactSingles(solved, draws.singles), draws.doubles[..i])
    {
      var index := draws.doubles[i];
      pairs := pairs[index := pairs[index].(topAssigned := Unknown, topActual := Unknown,
                                            botAssigned := Unknown, botActual := Unknown)];
      assert draws.doubles[..i + 1][..i] == draws.doubles[..i];
      i := i + 1;
    }
    assert draws.doubles[..DoubleUnknowns] == draws.doubles;
    return Success(pairs);
  }

  /** Cut i ends the block that starts at the previous cut, and that block is the next of CutBlocks. */
  lemma CutBlockStep(pairs: seq<BasePair>, cuts: seq<int>, i: nat)
    requires |cuts| == Cuts && 0 < cuts[0] < cuts[1] < cuts[2] < |pairs| && i < Cuts
    ensures var start := if i == 0 then 0 else cuts[i - 1];
      && 0 <= start < cuts[i] < |pairs|
      && pairs[start..cuts[i]] == CutBlocks(pairs, cuts)[i]
      && CutBlocks(pairs, cuts)[..i + 1] == CutBlocks(pairs, cuts)[..i] + [pairs[start..cuts[i]]]
  {
  }

  /** The cut loop: fewer than six pairs leave a cut window empty, which the random source rejects. */
  method MakeCuts(solved: seq<BasePair>, draws: Draws) returns (r: Result<seq<PairBlock>>)
    requires |solved| > 0 && ValidDraws(|solved|, draws)
    ensures r.Success? <==> |solved| >= 6
    ensures r.Failure? ==> r.error == ArgumentOutOfRange
    ensures r.Success? ==> 0 < draws.cuts[0] < draws.cuts[1] < draws.cuts[2] < |solved|
    ensures r.Success? ==> r.value == CutBlocks(solved, draws.cuts)
  {
    var totalLength := |solved|;
    if totalLength >= 6 {
      CutsIncrease(totalLength, draws);
    } else {
      ShortWindowEmpty(totalLength);
    }
    var puzzle: seq<PairBlock> := [];
    var start := 0;
    var i := 0;
    while i < Cuts
      invariant 0 <= i <= Cuts
      invariant totalLength >= 6 || i == 0
      invariant |puzzle| == i
      invariant start == if i == 0 then 0 else draws.cuts[i - 1]
      invariant i > 0 ==> puzzle == CutBlocks(solved, draws.cuts)[..i]
    {
      var min := CutMin(totalLength, i);
      var max := CutMax(totalLength, i);
      if min > max {
        return Failure(ArgumentOutOfRange);
      }
      var cut := draws.cuts[i];
      var stop := Min(cut, totalLength);
      CutBlockStep(solved, draws.cuts, i);
      var block := solved[start..stop];
      start := start + |block|;
      puzzle := puzzle + [block];
      i := i + 1;
    }
    ghost var blocks := CutBlocks(solved, draws.cuts);
    var remaining := solved[start..];
    assert remaining == blocks[3] && remaining != [];
    if |remaining| > 0 {
      puzzle := puzzle + [remaining];
    }
    assert puzzle == blocks[..3] + [blocks[3]] == blocks;
    return Success(puzzle);
  }

  /** The jagged loop over the block boundaries, in place on the block list. */
  method JagBlocks(blocks: seq<PairBlock>, rolls: seq<nat>) returns (jagged: seq<PairBlock>)
    requires |blocks| == Cuts + 1 && |rolls| == Cuts
    requires forall j :: 0 <= j < |blocks| ==> blocks[j] != []
    ensures jagged == Jag(blocks, rolls)
  {
    jagged := blocks;
    var k := 1;
    while k < |jagged|
      invariant 1 <= k <= |jagged| == Cuts + 1
      invariant forall j :: 0 <= j < |jagged| ==> jagged[j] != []
      invariant Jag(blocks, rolls) == jagged[..k - 1] + Jag(jagged[k - 1..], rolls[k - 1..])
    {
      ghost var before := jagged;
      JagStep(before, rolls, k);
      var previous := jagged[k - 1];
      var block := jagged[k];
      var dieRoll := rolls[k - 1];
      if dieRoll < 4 {
        var splitPairs := SplitPair(previous[|previous| - 1]);
        jagged := jagged[k - 1 := previous[..|previous| - 1] + [splitPairs.0]][k := [splitPairs.1] + block];
      } else if dieRoll < 8 {
        var splitPairs := SplitPair(previous[|previous| - 1]);
        jagged := jagged[k - 1 := previous[..|previous| - 1] + [splitPairs.1]][k := [splitPairs.0] + block];
      } else {
        assert [] + block == block;
      }
      assert jagged == JagBoundary(before, k, dieRoll);
      k := k + 1;
    }
    assert jagged[k - 1..] == [jagged[k - 1]];
  }

  /** The shuffle, from the last position down, each position swapped with its drawn partner at or below it. */
  method Shuffle(blocks: seq<PairBlock>, swaps: seq<nat>) returns (shuffled: seq<PairBlock>)
    requires |swaps| == |blocks| - 1
    requires forall j :: 0 <= j < |swaps| ==> swaps[j] <= |blocks| - 1 - j
    ensures shuffled == Shuffled(blocks, swaps)
  {
    shuffled := blocks;
    var n := |shuffled|;
    while n > 1
      invariant 1 <= n <= |shuffled| == |blocks|
      invariant shuffled == Shuffled(blocks, swaps[..|blocks| - n])
    {
      n := n - 1;
      var swapWith := swaps[|blocks| - 1 - n];
      ghost var done := swaps[..|blocks| - n];
      assert done[..|done| - 1] == swaps[..|blocks| - n - 1];
      assert done[|done| - 1] == swapWith;
      assert Shuffled(blocks, done) == Swap(shuffled, swapWith, n);
      shuffled := shuffled[swapWith := shuffled[n]][n := shuffled[swapWith]];
    }
    assert swaps[..|blocks| - 1] == swaps;
  }

  /** The outcome of generation: the errors the source throws, or the shuffled blocks as an unused list. */
  function Generated(solution: string, d: Draws): Result<GenePuzzle>
    requires ValidDraws(|solution|, d)
  {
    if !IsSolutionText(solution) then Failure(KeyNotFound)
    else if |solution| == 0 then Failure(IndexOutOfRange)
    else if |solution| < 6 then Failure(ArgumentOutOfRange)
    else Success(GenePuzzle(solution, Shuffled(GenerationOrder(solution, d), d.swaps), []))
  }

  /**
   * GeneratePuzzle: redacts, cuts, jags and shuffles, and returns a puzzle
   * with every block unused. A solution letter outside ATGC is a missing
   * key; an empty solution fails on the first redaction index; a solution
   * shorter than six letters has an empty cut window.
   */
  method GeneratePuzzle(solution: string, draws: Draws) returns (r: Result<GenePuzzle>)
    requires ValidDraws(|solution|, draws)
    ensures r.Success? <==> IsSolutionText(solution) && |solution| >= 6
    ensures !IsSolutionText(solution) ==> r == Failure(KeyNotFound)
    ensures IsSolutionText(solution) && |solution| == 0 ==> r == Failure(IndexOutOfRange)
    ensures IsSolutionText(solution) && 0 < |solution| < 6 ==> r == Failure(ArgumentOutOfRange)
    ensures r.Success? ==> r.value == GenePuzzle(solution, Shuffled(GenerationOrder(solution, draws), draws.swaps), [])
    ensures r == Generated(solution, draws)
  {
    var solvedResult := GenerateSolvedPairs(solution);
    if solvedResult.Failure? {
      return Failure(solvedResult.error);
    }
    assert solvedResult.value == Solved(solution);
    var redacted := RedactPairs(solvedResult.value, draws);
    if redacted.Failure? {
      return Failure(redacted.error);
    }
    var cut := MakeCuts(redacted.value, draws);
    if cut.Failure? {
      return Failure(cut.error);
    }
    var jagged := JagBlocks(cut.value, draws.rolls);
    var shuffled := Shuffle(jagged, draws.swaps);
    return Success(GenePuzzle(solution, shuffled, []));
  }

  // ---------------------------------------------------------------------
  // What a generated puzzle promises
  // ---------------------------------------------------------------------

  lemma RedactedKeepsOrHides(solution: string, d: Draws)
    requires Generable(solution, d)
    ensures AllKeptOrHidden(Solved(solution), Redacted(solution, d))
    ensures AllWhole(Redacted(solution, d))
  {
    var solved := Solved(solution);
    RedactSinglesKeepsOrHides(solved, d.singles);
    RedactDoublesKeepsOrHides(solved, RedactSingles(solved, d.singles), d.doubles);
    var r := Redacted(solution, d);
    forall i | 0 <= i < |r|
      ensures Whole(r[i])
    {
      assert KeptOrHidden(solved[i], r[i]);
    }
  }

  lemma CutBlocksWhole(pairs: seq<BasePair>, cuts: seq<int>)
    requires |cuts| == Cuts && 0 < cuts[0] < cuts[1] < cuts[2] < |pairs|
    requires AllWhole(pairs)
    ensures BlocksWhole(CutBlocks(pairs, cuts))
  {
  }

  /**
   * Combining the generated blocks in generation order rebuilds the
   * redacted solved strand: one pair per solution letter, each with its
   * strands either as solved or Unknown.
   */
  lemma GenerationOrderCombines(solution: string, d: Draws)
    requires Generable(solution, d)
    ensures Combined(GenerationOrder(solution, d)) == Redacted(solution, d)
    ensures |Redacted(solution, d)| == |solution|
    ensures AllKeptOrHidden(Solved(solution), Redacted(solution, d))
  {
    CutsIncrease(|solution|, d);
    var pairs := Redacted(solution, d);
    RedactedKeepsOrHides(solution, d);
    CutBlocksWhole(pairs, d.cuts);
    JagStitchesBack([], CutBlocks(pairs, d.cuts), d.rolls);
  }

  /**
   * A generated puzzle is solvable: its unused blocks are a reordering of
   * blocks whose combination, in generation order, is one pair per solution
   * letter with every strand as solved or Unknown.
   */
  lemma GeneratedPuzzleSolvable(solution: string, d: Draws, puzzle: GenePuzzle)
    requires Generable(solution, d)
    requires puzzle == GenePuzzle(solution, Shuffled(GenerationOrder(solution, d), d.swaps), [])
    ensures puzzle.usedBlocks == [] && puzzle.solution == solution
    ensures multiset(puzzle.unusedBlocks) == multiset(GenerationOrder(solution, d))
    ensures |Combined(GenerationOrder(solution, d))| == |solution|
    ensures AllKeptOrHidden(Solved(solution), Combined(GenerationOrder(solution, d)))
    ensures |Flatten(puzzle.unusedBlocks)| == |solution| + Splits(d.rolls)
  {
    ShuffledPermutes(GenerationOrder(solution, d), d.swaps);
    GenerationOrderCombines(solution, d);
    GeneratedPairCount(solution, d);
    FlattenPermutation(GenerationOrder(solution, d), puzzle.unusedBlocks);
  }

  /** The blocks hold one pair per solution letter plus one per jagged boundary. */
  lemma GeneratedPairCount(solution: string, d: Draws)
    requires Generable(solution, d)
    ensures |Flatten(GenerationOrder(solution, d))| == |solution| + Splits(d.rolls)
  {
    CutsIncrease(|solution|, d);
    var blocks := CutBlocks(Redacted(solution, d), d.cuts);
    JagPairCount(blocks, d.rolls);
    assert d.rolls[..|blocks| - 1] == d.rolls;
  }
}
