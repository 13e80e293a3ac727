/**
 * The genetics console's puzzle bookkeeping: the per-gene puzzle cache, the
 * activation target, the player's block and base commands, and the
 * activation decision.
 *
 * A GenePuzzle is a shared mutable object in the original: the console's
 * current puzzle is the very object stored in the cache, so the player's
 * edits land in the cache. Here the cache is a map from gene identity to
 * puzzle value and the console's current puzzle is the key of its entry;
 * every edit rewrites that entry.
 */
module GeneticsConsole {
  import opened Wrappers
  import opened SharedGenetics
  import opened PuzzleGenerator

  /** The identity of a gene object: the cache is keyed by the object, not by its contents. */
  type GeneId = nat

  /** A gene as the console reads it: identity, type, activity and the display text of each block. */
  datatype ConsoleGene = ConsoleGene(id: GeneId, kind: GeneType, active: bool, blockTexts: seq<string>)

  predicate IsInactiveMutation(g: ConsoleGene) {
    g.kind == Mutation && !g.active
  }

  /** string.Join(" ", texts). */
  function JoinWithSpaces(texts: seq<string>): (s: string)
    ensures texts == [] ==> s == ""
    ensures |texts| == 1 ==> s == texts[0]
  {
    if texts == [] then ""
    else if |texts| == 1 then texts[0]
    else texts[0] + " " + JoinWithSpaces(texts[1..])
  }

  /** Joining one more text adds a separating space and that text at the end. */
  lemma {:induction false} JoinWithSpacesSnoc(texts: seq<string>, last: string)
    requires texts != []
    ensures JoinWithSpaces(texts + [last]) == JoinWithSpaces(texts) + " " + last
    decreases |texts|
  {
    if |texts| == 1 {
      assert texts + [last] == [texts[0], last];
    } else {
      assert (texts + [last])[1..] == texts[1..] + [last];
      JoinWithSpacesSnoc(texts[1..], last);
    }
  }

  // ---------------------------------------------------------------------
  // The puzzle cache
  // ---------------------------------------------------------------------

  /**
   * Looks the gene's puzzle up, generating it from the text of the gene's
   * first block when absent. A gene without blocks fails on the first-block
   * lookup; a failed generation leaves the cache as it was.
   */
  function CacheFill(cache: map<GeneId, GenePuzzle>, gene: ConsoleGene, draws: Draws): (r: Result<map<GeneId, GenePuzzle>>)
    requires |gene.blockTexts| > 0 ==> ValidDraws(|gene.blockTexts[0]|, draws)
    ensures gene.id in cache ==> r == Success(cache)
    ensures r.Success? ==> gene.id in r.value && r.value.Keys == cache.Keys + {gene.id}
    ensures r.Success? ==> forall k :: k in cache ==> r.value[k] == cache[k]
    ensures r.Success? && gene.id !in cache ==> |gene.blockTexts| > 0 && Generated(gene.blockTexts[0], draws) == Success(r.value[gene.id])
    ensures r.Failure? ==> gene.id !in cache
  {
    if gene.id in cache then Success(cache)
    else if |gene.blockTexts| == 0 then Failure(IndexOutOfRange)
    else
      match Generated(gene.blockTexts[0], draws)
      case Success(p) => Success(cache[gene.id := p])
      case Failure(e) => Failure(e)
  }

  /** A gene's puzzle is generated once: filling the cache again, whatever the draws, changes nothing. */
  lemma CacheFillIdempotent(cache: map<GeneId, GenePuzzle>, gene: ConsoleGene, draws: Draws, again: Draws)
    requires |gene.blockTexts| > 0 ==> ValidDraws(|gene.blockTexts[0]|, draws) && ValidDraws(|gene.blockTexts[0]|, again)
    requires CacheFill(cache, gene, draws).Success?
    ensures CacheFill(CacheFill(cache, gene, draws).value, gene, again) == CacheFill(cache, gene, draws)
  {
  }

  /** The draws of every gene with blocks fit the length of the gene's first block text. */
  predicate DrawsFit(genes: seq<ConsoleGene>, draws: seq<Draws>) {
    && |draws| == |genes|
    && forall i :: 0 <= i < |genes| && |genes[i].blockTexts| > 0 ==> ValidDraws(|genes[i].blockTexts[0]|, draws[i])
  }

  /** The cache after displaying one gene: filled for an inactive mutation, unchanged otherwise. */
  function FillOne(cache: map<GeneId, GenePuzzle>, gene: ConsoleGene, draws: Draws): Result<map<GeneId, GenePuzzle>>
    requires |gene.blockTexts| > 0 ==> ValidDraws(|gene.blockTexts[0]|, draws)
  {
    if IsInactiveMutation(gene) then CacheFill(cache, gene, draws) else Success(cache)
  }

  /**
   * The cache after displaying the first n genes of a list: FillOne for
   * each gene in list order, stopping at the first failure.
   */
  function FillAll(cache: map<GeneId, GenePuzzle>, genes: seq<ConsoleGene>, draws: seq<Draws>, n: nat): Result<map<GeneId, GenePuzzle>>
    requires DrawsFit(genes, draws) && n <= |genes|
  {
    if n == 0 then Success(cache)
    else
      match FillAll(cache, genes, draws, n - 1)
      case Failure(e) => Failure(e)
      case Success(filled) => FillOne(filled, genes[n - 1], draws[n - 1])
  }

  /** The inactive mutation genes among the first n of a list, by identity. */
  function MutationIds(genes: seq<ConsoleGene>, n: nat): set<GeneId>
    requires n <= |genes|
  {
    set j | 0 <= j < n && IsInactiveMutation(genes[j]) :: genes[j].id
  }

  /**
   * Filling keeps every old entry and adds exactly one entry per inactive
   * mutation gene, and nothing else.
   */
  lemma {:induction false} FillAllCovers(cache: map<GeneId, GenePuzzle>, genes: seq<ConsoleGene>, draws: seq<Draws>, n: nat)
    requires DrawsFit(genes, draws) && n <= |genes|
    ensures var r := FillAll(cache, genes, draws, n);
      r.Success? ==>
        && r.value.Keys == cache.Keys + MutationIds(genes, n)
        && forall k :: k in cache ==> r.value[k] == cache[k]
  {
    if n > 0 {
      FillAllCovers(cache, genes, draws, n - 1);
      match FillAll(cache, genes, draws, n - 1)
      case Failure(_) =>
      case Success(filled) =>
        FillAllStep(cache, genes, draws, n - 1, filled);
        FillOneCovers(filled, genes[n - 1], draws[n - 1]);
        MutationIdsStep(genes, n - 1);
    }
  }

  /** Filling one gene keeps every old entry and adds at most that gene's. */
  lemma FillOneCovers(cache: map<GeneId, GenePuzzle>, gene: ConsoleGene, draws: Draws)
    requires |gene.blockTexts| > 0 ==> ValidDraws(|gene.blockTexts[0]|, draws)
    ensures var r := FillOne(cache, gene, draws);
      r.Success? ==>
        && r.value.Keys == cache.Keys + (if IsInactiveMutation(gene) then {gene.id} else {})
        && forall k :: k in cache ==> r.value[k] == cache[k]
  {
  }

  /** One more gene on a prefix that filled fills that gene into the prefix's cache. */
  lemma FillAllStep(cache: map<GeneId, GenePuzzle>, genes: seq<ConsoleGene>, draws: seq<Draws>, i: nat, filled: map<GeneId, GenePuzzle>)
    requires DrawsFit(genes, draws) && i < |genes|
    requires FillAll(cache, genes, draws, i) == Success(filled)
    ensures |genes[i].blockTexts| > 0 ==> ValidDraws(|genes[i].blockTexts[0]|, draws[i])
    ensures FillAll(cache, genes, draws, i + 1) == FillOne(filled, genes[i], draws[i])
  {
  }

  /** The identities of the first n + 1 genes add the n-th gene's when it is an inactive mutation. */
  lemma MutationIdsStep(genes: seq<ConsoleGene>, n: nat)
    requires n < |genes|
    ensures MutationIds(genes, n + 1) == MutationIds(genes, n) + (if IsInactiveMutation(genes[n]) then {genes[n].id} else {})
  {
  }

  /** Once the first i genes fail, every longer prefix fails. */
  lemma {:induction false} FillAllFailurePersists(cache: map<GeneId, GenePuzzle>, genes: seq<ConsoleGene>, draws: seq<Draws>, i: nat, n: nat)
    requires DrawsFit(genes, draws) && i <= n <= |genes|
    requires FillAll(cache, genes, draws, i).Failure?
    ensures FillAll(cache, genes, draws, n).Failure?
    decreases n
  {
    if i < n {
      FillAllFailurePersists(cache, genes, draws, i, n - 1);
    }
  }

  /** The display text of one gene: its block texts, or for an inactive mutation the submitted text of its puzzle, used blocks first. */
  function DisplayOf(gene: ConsoleGene, cache: map<GeneId, GenePuzzle>): string
    requires IsInactiveMutation(gene) ==> gene.id in cache
  {
    if !IsInactiveMutation(gene) then JoinWithSpaces(gene.blockTexts)
    else
      var p := cache[gene.id];
      CalculateSubmittedSequence(p.usedBlocks + p.unusedBlocks)
  }

  // ---------------------------------------------------------------------
  // Player commands on a puzzle
  // ---------------------------------------------------------------------

  /** Takes unused block i out of the unused list and appends it to the used list. */
  function UseBlock(p: GenePuzzle, i: nat): GenePuzzle
    requires i < |p.unusedBlocks|
  {
    GenePuzzle(p.solution, p.unusedBlocks[..i] + p.unusedBlocks[i + 1..], p.usedBlocks + [p.unusedBlocks[i]])
  }

  /** Takes used block i out of the used list and appends it to the unused list. */
  function ReturnBlock(p: GenePuzzle, i: nat): GenePuzzle
    requires i < |p.usedBlocks|
  {
    GenePuzzle(p.solution, p.unusedBlocks + [p.usedBlocks[i]], p.usedBlocks[..i] + p.usedBlocks[i + 1..])
  }

  /** All blocks of a puzzle, used or not. */
  function AllBlocks(p: GenePuzzle): multiset<PairBlock> {
    multiset(p.unusedBlocks) + multiset(p.usedBlocks)
  }

  lemma RemoveOne(s: seq<PairBlock>, i: nat)
    requires i < |s|
    ensures multiset(s[..i] + s[i + 1..]) + multiset{s[i]} == multiset(s)
  {
    assert s == s[..i] + [s[i]] + s[i + 1..];
  }

  /** Using a block keeps every block and the solution, and puts that block last in the used list. */
  lemma UseBlockConserves(p: GenePuzzle, i: nat)
    requires i < |p.unusedBlocks|
    ensures AllBlocks(UseBlock(p, i)) == AllBlocks(p)
    ensures UseBlock(p, i).solution == p.solution
    ensures |UseBlock(p, i).usedBlocks| == |p.usedBlocks| + 1
    ensures UseBlock(p, i).usedBlocks[|p.usedBlocks|] == p.unusedBlocks[i]
  {
    RemoveOne(p.unusedBlocks, i);
  }

  /** Returning a block keeps every block and the solution, and puts that block last in the unused list. */
  lemma ReturnBlockConserves(p: GenePuzzle, i: nat)
    requires i < |p.usedBlocks|
    ensures AllBlocks(ReturnBlock(p, i)) == AllBlocks(p)
    ensures ReturnBlock(p, i).solution == p.solution
    ensures |ReturnBlock(p, i).unusedBlocks| == |p.unusedBlocks| + 1
    ensures ReturnBlock(p, i).unusedBlocks[|p.unusedBlocks|] == p.usedBlocks[i]
  {
    RemoveOne(p.usedBlocks, i);
  }

  /** Using the last unused block and then returning it, as the last used block, gives the puzzle back. */
  lemma UseThenReturn(p: GenePuzzle)
    requires p.unusedBlocks != []
    ensures ReturnBlock(UseBlock(p, |p.unusedBlocks| - 1), |p.usedBlocks|) == p
  {
    var last := |p.unusedBlocks| - 1;
    assert p.unusedBlocks[..last] + [p.unusedBlocks[last]] == p.unusedBlocks;
    var q := UseBlock(p, last);
    assert q.usedBlocks[..|p.usedBlocks|] == p.usedBlocks;
  }

  /** The unused-block button: an index below the count moves that block; a negative one fails on the list; any other changes nothing. */
  function PressUnused(p: GenePuzzle, index: int): Result<GenePuzzle> {
    if index < |p.unusedBlocks| then
      if index < 0 then Failure(IndexOutOfRange) else Success(UseBlock(p, index))
    else Success(p)
  }

  /** The used-block button, symmetric to the unused one. */
  function PressUsed(p: GenePuzzle, index: int): Result<GenePuzzle> {
    if index < |p.usedBlocks| then
      if index < 0 then Failure(IndexOutOfRange) else Success(ReturnBlock(p, index))
    else Success(p)
  }

  /** Sets the assigned base of the top or the bottom strand. */
  function SetAssigned(pair: BasePair, isTop: bool, b: Base): BasePair {
    if isTop then pair.(topAssigned := b) else pair.(botAssigned := b)
  }

  /** The pair-level part of the fill button on one block: an index past the end changes nothing, a negative one fails. */
  function FillInBlock(block: PairBlock, pairIndex: int, isTop: bool, b: Base): Result<PairBlock> {
    if pairIndex < |block| then
      if pairIndex < 0 then Failure(IndexOutOfRange)
      else Success(block[pairIndex := SetAssigned(block[pairIndex], isTop, b)])
    else Success(block)
  }

  /**
   * The fill button: the block index addresses the unused blocks first and
   * the used blocks after them; an index past both changes nothing.
   */
  function FillPuzzle(p: GenePuzzle, blockIndex: int, pairIndex: int, isTop: bool, b: Base): Result<GenePuzzle> {
    if blockIndex < |p.unusedBlocks| then
      if blockIndex < 0 then Failure(IndexOutOfRange)
      else
        match FillInBlock(p.unusedBlocks[blockIndex], pairIndex, isTop, b)
        case Success(block) => Success(p.(unusedBlocks := p.unusedBlocks[blockIndex := block]))
        case Failure(e) => Failure(e)
    else if blockIndex - |p.unusedBlocks| < |p.usedBlocks| then
      var k := blockIndex - |p.unusedBlocks|;
      match FillInBlock(p.usedBlocks[k], pairIndex, isTop, b)
      case Success(block) => Success(p.(usedBlocks := p.usedBlocks[k := block]))
      case Failure(e) => Failure(e)
    else Success(p)
  }

  /** The pairs agree everywhere except, possibly, in the assigned base of the named strand, which is b. */
  predicate OnlyAssignedChanged(before: BasePair, after: BasePair, isTop: bool, b: Base) {
    && after.topActual == before.topActual
    && after.botActual == before.botActual
    && (if isTop then after.topAssigned == b && after.botAssigned == before.botAssigned
        else after.botAssigned == b && after.topAssigned == before.topAssigned)
  }

  /** The block lists have the same shape and agree on every pair except the one at (k, j). */
  predicate SameBlocksExcept(xs: seq<PairBlock>, ys: seq<PairBlock>, k: int, j: int) {
    && |xs| == |ys|
    && (forall m :: 0 <= m < |xs| ==> |xs[m]| == |ys[m]|)
    && (forall m, n :: 0 <= m < |xs| && 0 <= n < |xs[m]| && (m != k || n != j) ==> ys[m][n] == xs[m][n])
  }

  /**
   * A fill changes only the addressed pair's assigned base on the named
   * strand: no actual base, no other pair and no block moves. A fill at an
   * index past both lists, or past the block, changes nothing.
   */
  lemma FillChangesOneField(p: GenePuzzle, blockIndex: int, pairIndex: int, isTop: bool, b: Base)
    ensures var r := FillPuzzle(p, blockIndex, pairIndex, isTop, b);
      r.Success? ==> r.value.solution == p.solution
    ensures var r := FillPuzzle(p, blockIndex, pairIndex, isTop, b);
      r.Success? && 0 <= blockIndex < |p.unusedBlocks| ==>
        && SameBlocksExcept(p.unusedBlocks, r.value.unusedBlocks, blockIndex, pairIndex)
        && r.value.usedBlocks == p.usedBlocks
        && (pairIndex < |p.unusedBlocks[blockIndex]| ==>
              OnlyAssignedChanged(p.unusedBlocks[blockIndex][pairIndex], r.value.unusedBlocks[blockIndex][pairIndex], isTop, b))
    ensures var r := FillPuzzle(p, blockIndex, pairIndex, isTop, b);
      var k := blockIndex - |p.unusedBlocks|;
      r.Success? && 0 <= k < |p.usedBlocks| ==>
        && SameBlocksExcept(p.usedBlocks, r.value.usedBlocks, k, pairIndex)
        && r.value.unusedBlocks == p.unusedBlocks
        && (pairIndex < |p.usedBlocks[k]| ==>
              OnlyAssignedChanged(p.usedBlocks[k][pairIndex], r.value.usedBlocks[k][pairIndex], isTop, b))
    ensures FillPuzzle(p, blockIndex, pairIndex, isTop, b).Failure? <==>
      (blockIndex < 0 || (blockIndex < |p.unusedBlocks| + |p.usedBlocks| && pairIndex < 0))
    ensures blockIndex >= |p.unusedBlocks| + |p.usedBlocks| ==> FillPuzzle(p, blockIndex, pairIndex, isTop, b) == Success(p)
  {
  }

  // ---------------------------------------------------------------------
  // The console
  // ---------------------------------------------------------------------

  /**
   * The console system's puzzle cache together with one console's target
   * gene and current puzzle (the key of its cache entry).
   */
  class GeneticConsoleSystem {
    var puzzles: map<GeneId, GenePuzzle>
    var target: Option<GeneId>
    var puzzle: Option<GeneId>

    /** The current puzzle is always one of the cached puzzles. */
    ghost predicate Valid()
      reads this
    {
      puzzle.Some? ==> puzzle.value in puzzles
    }

    constructor ()
      ensures Valid() && puzzles == map[] && target == None && puzzle == None
    {
      puzzles := map[];
      target := None;
      puzzle := None;
    }

    /** The cache fill, in place. */
    method EnsurePuzzle(gene: ConsoleGene, draws: Draws) returns (error: Option<Error>)
      requires Valid()
      requires |gene.blockTexts| > 0 ==> ValidDraws(|gene.blockTexts[0]|, draws)
      modifies this
      ensures Valid() && target == old(target) && puzzle == old(puzzle)
      ensures var f := CacheFill(old(puzzles), gene, draws);
        && (f.Success? ==> error == None && puzzles == f.value)
        && (f.Failure? ==> error == Some(f.error) && puzzles == old(puzzles))
    {
      error := None;
      if gene.id !in puzzles {
        if |gene.blockTexts| == 0 {
          return Some(IndexOutOfRange);
        }
        var solution := gene.blockTexts[0];
        var generated := GeneratePuzzle(solution, draws);
        if generated.Failure? {
          return Some(generated.error);
        }
        puzzles := puzzles[gene.id := generated.value];
      }
    }

    /**
     * Picks the gene at the index as the activation target, then makes its
     * cached puzzle the console's current puzzle. The target is set before
     * the cache fill, so it stays set when generation fails.
     */
    method OnStartActivationButton(genes: seq<ConsoleGene>, index: int, draws: Draws) returns (error: Option<Error>)
      requires Valid()
      requires 0 <= index < |genes| && |genes[index].blockTexts| > 0 ==> ValidDraws(|genes[index].blockTexts[0]|, draws)
      modifies this
      ensures Valid()
      ensures !(0 <= index < |genes|) ==>
        error == Some(IndexOutOfRange) && puzzles == old(puzzles) && target == old(target) && puzzle == old(puzzle)
      ensures 0 <= index < |genes| ==>
        var f := CacheFill(old(puzzles), genes[index], draws);
        && target == Some(genes[index].id)
        && (f.Success? ==> error == None && puzzles == f.value && puzzle == Some(genes[index].id))
        && (f.Failure? ==> error == Some(f.error) && puzzles == old(puzzles) && puzzle == old(puzzle))
    {
      if !(0 <= index < |genes|) {
        return Some(IndexOutOfRange);
      }
      var gene := genes[index];
      target := Some(gene.id);
      error := EnsurePuzzle(gene, draws);
      if error.None? {
        puzzle := Some(gene.id);
      }
    }

    method OnCancelActivationButton()
      requires Valid()
      modifies this
      ensures Valid() && target == None && puzzles == old(puzzles) && puzzle == old(puzzle)
    {
      target := None;
    }

    /** Moves the unused block at the index to the end of the used blocks, in the cached puzzle. */
    method OnUnusedBlockButton(index: int) returns (error: Option<Error>)
      requires Valid()
      modifies this
      ensures Valid() && target == old(target) && puzzle == old(puzzle)
      ensures old(puzzle).None? ==> error == None && puzzles == old(puzzles)
      ensures old(puzzle).Some? ==>
        var key := old(puzzle).value;
        var r := PressUnused(old(puzzles)[key], index);
        && (r.Success? ==> error == None && puzzles == old(puzzles)[key := r.value])
        && (r.Failure? ==> error == Some(r.error) && puzzles == old(puzzles))
    {
      error := None;
      if puzzle.Some? {
        var key := puzzle.value;
        var p := puzzles[key];
        if index < |p.unusedBlocks| {
          if index < 0 {
            return Some(IndexOutOfRange);
          }
          var block := p.unusedBlocks[index];
          var unused := p.unusedBlocks[..index] + p.unusedBlocks[index + 1..];
          var used := p.usedBlocks + [block];
          puzzles := puzzles[key := GenePuzzle(p.solution, unused, used)];
        }
      }
    }

    /** Moves the used block at the index to the end of the unused blocks, in the cached puzzle. */
    method OnUsedBlockButton(index: int) returns (error: Option<Error>)
      requires Valid()
      modifies this
      ensures Valid() && target == old(target) && puzzle == old(puzzle)
      ensures old(puzzle).None? ==> error == None && puzzles == old(puzzles)
      ensures old(puzzle).Some? ==>
        var key := old(puzzle).value;
        var r := PressUsed(old(puzzles)[key], index);
        && (r.Success? ==> error == None && puzzles == old(puzzles)[key := r.value])
        && (r.Failure? ==> error == Some(r.error) && puzzles == old(puzzles))
    {
      error := None;
      if puzzle.Some? {
        var key := puzzle.value;
        var p := puzzles[key];
        if index < |p.usedBlocks| {
          if index < 0 {
            return Some(IndexOutOfRange);
          }
          var block := p.usedBlocks[index];
          var used := p.usedBlocks[..index] + p.usedBlocks[index + 1..];
          var unused := p.unusedBlocks + [block];
          puzzles := puzzles[key := GenePuzzle(p.solution, unused, used)];
        }
      }
    }

    /** Overwrites one assigned base of one pair of the cached puzzle. */
    method OnFillBasePairButton(newBase: Base, blockIndex: int, pairIndex: int, isTop: bool) returns (error: Option<Error>)
      requires Valid()
      modifies this
      ensures Valid() && target == old(target) && puzzle == old(puzzle)
      ensures old(puzzle).None? ==> error == None && puzzles == old(puzzles)
      ensures old(puzzle).Some? ==>
        var key := old(puzzle).value;
        var r := FillPuzzle(old(puzzles)[key], blockIndex, pairIndex, isTop, newBase);
        && (r.Success? ==> error == None && puzzles == old(puzzles)[key := r.value])
        && (r.Failure? ==> error == Some(r.error) && puzzles == old(puzzles))
    {
      error := None;
      if puzzle.None? {
        return;
      }
      var key := puzzle.value;
      var p := puzzles[key];
      assert puzzles[key := p] == puzzles;
      if blockIndex < |p.unusedBlocks| {
        if blockIndex < 0 {
          return Some(IndexOutOfRange);
        }
        var block := p.unusedBlocks[blockIndex];
        if pairIndex < |block| {
          if pairIndex < 0 {
            return Some(IndexOutOfRange);
          }
          var pair := block[pairIndex];
          if isTop {
            pair := pair.(topAssigned := newBase);
          } else {
            pair := pair.(botAssigned := newBase);
          }
          puzzles := puzzles[key := p.(unusedBlocks := p.unusedBlocks[blockIndex := block[pairIndex := pair]])];
        } else {
          assert p.unusedBlocks[blockIndex := block] == p.unusedBlocks;
        }
      } else if blockIndex - |p.unusedBlocks| < |p.usedBlocks| {
        var k := blockIndex - |p.unusedBlocks|;
        var block := p.usedBlocks[k];
        if pairIndex < |block| {
          if pairIndex < 0 {
            return Some(IndexOutOfRange);
          }
          var pair := block[pairIndex];
          if isTop {
            pair := pair.(topAssigned := newBase);
          } else {
            pair := pair.(botAssigned := newBase);
          }
          puzzles := puzzles[key := p.(usedBlocks := p.usedBlocks[k := block[pairIndex := pair]])];
        } else {
          assert p.usedBlocks[k := block] == p.usedBlocks;
        }
      }
    }

    /**
     * The activation button as written: the diff is computed and then
     * overridden to 0, so any console with a current puzzle activates its
     * target gene, whatever was submitted. Returns the activated gene.
     */
    method OnActivateButton() returns (activated: Option<GeneId>)
      requires Valid()
      modifies this
      ensures Valid() && puzzles == old(puzzles) && puzzle == old(puzzle)
      ensures activated == (if old(puzzle).Some? then old(target) else None)
      ensures target == (if activated.Some? then None else old(target))
    {
      activated := None;
      if puzzle.None? {
        return;
      }
      var slnDiff := CalculatePuzzleSolutionDiff(Some(puzzles[puzzle.value]));
      var forceActivate := true;
      if forceActivate {
        slnDiff := 0;
      }
      if target.Some? && slnDiff == 0 {
        activated := target;
        target := None;
      }
    }

    /**
     * The activation button without the override and with the window's
     * guard that enables the button only for a puzzle that can be submitted:
     * the target is activated exactly when the submission spells the solution.
     */
    method OnActivateButtonChecked() returns (activated: Option<GeneId>)
      requires Valid()
      modifies this
      ensures Valid() && puzzles == old(puzzles) && puzzle == old(puzzle)
      ensures activated.Some? <==>
        && old(puzzle).Some? && old(target).Some?
        && var p := old(puzzles)[old(puzzle).value];
           CanSubmitPuzzle(Some(p)) && CalculateSubmittedSequence(p.usedBlocks) == p.solution
      ensures activated.Some? ==> activated == old(target)
      ensures target == (if activated.Some? then None else old(target))
    {
      activated := None;
      if puzzle.None? {
        return;
      }
      var current := Some(puzzles[puzzle.value]);
      var slnDiff := CalculatePuzzleSolutionDiff(current);
      if target.Some? && CanSubmitPuzzle(current) && slnDiff == 0 {
        activated := target;
        target := None;
      }
    }

    /**
     * The display texts of a gene list; each inactive mutation gene gets
     * its cached puzzle, generated from its own draws on first sight. Old
     * cache entries are never replaced, and a failing gene leaves the
     * puzzles already stored for the genes before it in the cache.
     */
    method GenerateDisplayForAllGenes(genes: seq<ConsoleGene>, draws: seq<Draws>) returns (r: Result<seq<string>>)
      requires Valid()
      requires DrawsFit(genes, draws)
      modifies this
      ensures Valid() && target == old(target) && puzzle == old(puzzle)
      ensures r.Success? <==> FillAll(old(puzzles), genes, draws, |genes|).Success?
      ensures r.Success? ==> FillAll(old(puzzles), genes, draws, |genes|) == Success(puzzles)
      ensures r.Success? ==> forall i :: 0 <= i < |genes| && IsInactiveMutation(genes[i]) ==> genes[i].id in puzzles
      ensures r.Success? ==> |r.value| == |genes| && forall i :: 0 <= i < |genes| ==> r.value[i] == DisplayOf(genes[i], puzzles)
      ensures r.Failure? ==> exists i :: 0 <= i < |genes| && FillAll(old(puzzles), genes, draws, i) == Success(puzzles) && FillOne(puzzles, genes[i], draws[i]).Failure?
    {
      var display: seq<string> := [];
      var i := 0;
      while i < |genes|
        invariant 0 <= i <= |genes|
        invariant Valid() && target == old(target) && puzzle == old(puzzle)
        invariant FillAll(old(puzzles), genes, draws, i) == Success(puzzles)
        invariant Displayed(genes, i, display, puzzles)
      {
        ghost var before := puzzles;
        FillAllStep(old(puzzles), genes, draws, i, before);
        var shown := ShowGene(genes[i], draws[i]);
        if shown.Failure? {
          FillAllFailurePersists(old(puzzles), genes, draws, i + 1, |genes|);
          return Failure(shown.error);
        }
        DisplayStep(old(puzzles), genes, draws, i, display, shown.value, before, puzzles);
        display := display + [shown.value];
        i := i + 1;
      }
      assert Displayed(genes, |genes|, display, puzzles);
      return Success(display);
    }

    /**
     * One iteration of GenerateDisplayForAllGenes: the block texts of an
     * ordinary gene; for an inactive mutation, fill the cache and show the
     * cached puzzle's blocks.
     */
    method ShowGene(gene: ConsoleGene, draws: Draws) returns (r: Result<string>)
      requires Valid()
      requires |gene.blockTexts| > 0 ==> ValidDraws(|gene.blockTexts[0]|, draws)
      modifies this
      ensures Valid() && target == old(target) && puzzle == old(puzzle)
      ensures r.Success? <==> FillOne(old(puzzles), gene, draws).Success?
      ensures r.Success? ==> FillOne(old(puzzles), gene, draws) == Success(puzzles)
      ensures r.Success? ==> forall k :: k in old(puzzles) ==> k in puzzles && puzzles[k] == old(puzzles)[k]
      ensures r.Success? ==> (IsInactiveMutation(gene) ==> gene.id in puzzles) && r.value == DisplayOf(gene, puzzles)
      ensures r.Failure? ==> puzzles == old(puzzles)
    {
      if !IsInactiveMutation(gene) {
        return Success(JoinWithSpaces(gene.blockTexts));
      }
      var error := EnsurePuzzle(gene, draws);
      if error.Some? {
        return Failure(error.value);
      }
      var p := puzzles[gene.id];
      return Success(CalculateSubmittedSequence(p.usedBlocks + p.unusedBlocks));
    }
  }

  /** The first n genes are covered by the cache and the texts are their displays. */
  ghost predicate Displayed(genes: seq<ConsoleGene>, n: nat, display: seq<string>, cache: map<GeneId, GenePuzzle>) {
    && n <= |genes| && |display| == n
    && (forall j :: 0 <= j < n && IsInactiveMutation(genes[j]) ==> genes[j].id in cache)
    && forall j :: 0 <= j < n ==> display[j] == DisplayOf(genes[j], cache)
  }

  /** One iteration of GenerateDisplayForAllGenes keeps the loop's account of the cache and the texts. */
  lemma DisplayStep(cache: map<GeneId, GenePuzzle>, genes: seq<ConsoleGene>, draws: seq<Draws>, i: nat,
                    display: seq<string>, shown: string, before: map<GeneId, GenePuzzle>, after: map<GeneId, GenePuzzle>)
    requires DrawsFit(genes, draws) && i < |genes|
    requires FillAll(cache, genes, draws, i) == Success(before)
    requires Displayed(genes, i, display, before)
    requires FillOne(before, genes[i], draws[i]) == Success(after)
    requires forall k :: k in before ==> k in after && after[k] == before[k]
    requires IsInactiveMutation(genes[i]) ==> genes[i].id in after
    requires shown == DisplayOf(genes[i], after)
    ensures FillAll(cache, genes, draws, i + 1) == Success(after)
    ensures Displayed(genes, i + 1, display + [shown], after)
  {
    FillAllStep(cache, genes, draws, i, before);
    DisplaysExtend(genes, i, display, shown, before, after);
  }

  /**
   * Growing the cache leaves the display of every gene that was already
   * covered unchanged, so the texts so far extend by the next gene's text.
   */
  lemma DisplaysExtend(genes: seq<ConsoleGene>, n: nat, display: seq<string>, shown: string,
                       before: map<GeneId, GenePuzzle>, after: map<GeneId, GenePuzzle>)
    requires n < |genes| && |display| == n
    requires forall j :: 0 <= j < n && IsInactiveMutation(genes[j]) ==> genes[j].id in before
    requires forall j :: 0 <= j < n ==> display[j] == DisplayOf(genes[j], before)
    requires forall k :: k in before ==> k in after && after[k] == before[k]
    requires IsInactiveMutation(genes[n]) ==> genes[n].id in after
    requires shown == DisplayOf(genes[n], after)
    ensures forall j :: 0 <= j < n + 1 && IsInactiveMutation(genes[j]) ==> genes[j].id in after
    ensures forall j :: 0 <= j < n + 1 ==> (display + [shown])[j] == DisplayOf(genes[j], after)
  {
  }

  /**
   * The override lets a wrong submission through: this finished puzzle
   * submits "T" for the solution "A", scores 1, and is still activated by
   * OnActivateButton.
   */
  lemma WrongSubmissionScoresNonZero()
    ensures var p := GenePuzzle("A", [], [[BasePair(T, T, A, A)]]);
      && CanSubmitPuzzle(Some(p))
      && CalculateSubmittedSequence(p.usedBlocks) == "T"
      && SolutionDiff(Some(p)) == 1
  {
    var p := GenePuzzle("A", [], [[BasePair(T, T, A, A)]]);
    assert Flatten(p.usedBlocks) == [BasePair(T, T, A, A)];
    assert Combined(p.usedBlocks) == [BasePair(T, T, A, A)];
  }
}
