/**
 * Trait-to-gene encoding: a humanoid's species, sex, skin colour, eye colour
 * and markings become a gene list, and ModifyGenes reads a gene list back.
 *
 * The index tables the encoding uses are dictionaries whose keys are the
 * positions 0, 1, 2, ... in prototype enumeration order; they are kept here
 * as sequences, the key being the position. Dictionary enumeration follows
 * insertion order, so "the first entry with this value" is the lowest
 * position holding it.
 */
module GeneticsCodec {
  import opened Wrappers
  import opened SharedGenetics

  const SpeciesGeneIndex: nat := 0
  const SexGeneIndex: nat := 1
  const SkinColorGeneIndex: nat := 2
  const EyeColorGeneIndex: nat := 3
  const MarkingsGeneIndex: nat := 4

  /** A colour as four channels in hundredths, the form its blocks carry. */
  datatype Color = Color(r: nat, g: nat, b: nat, a: nat)

  const White := Color(100, 100, 100, 100)

  /** A marking of a humanoid: its prototype identifier and its colours, one per sprite. */
  datatype Marking = Marking(markingId: string, colors: seq<Color>)

  /** The parts of a humanoid's appearance the genes encode; the markings are listed per category. */
  datatype Appearance = Appearance(
    species: string,
    sex: string,
    skin: Color,
    eyes: Option<Color>,
    markings: map<Category, seq<Marking>>)

  /**
   * The index tables: species identifiers, sex names, the marking
   * identifiers of each category, the largest marking-point count of each
   * category, and the number of marking categories.
   */
  datatype Tables = Tables(
    species: seq<string>,
    sexes: seq<string>,
    markings: map<Category, seq<string>>,
    maxPoints: map<Category, int>,
    categoryCount: nat)

  // ---------------------------------------------------------------------
  // Colours
  // ---------------------------------------------------------------------

  /** Four blocks, R, G, B, A, each of the given kind. */
  function ConvertToBlocks(color: Color, kind: BlockType): (blocks: seq<Block>)
    ensures |blocks| == 4 && forall i :: 0 <= i < 4 ==> blocks[i].kind == kind
  {
    [Block(color.r, kind), Block(color.g, kind), Block(color.b, kind), Block(color.a, kind)]
  }

  /** The colour of four blocks; any other number of blocks reads as white. */
  function ConvertToColor(blocks: seq<Block>): (color: Color)
    ensures |blocks| != 4 ==> color == White
  {
    if |blocks| != 4 then White
    else Color(blocks[0].value, blocks[1].value, blocks[2].value, blocks[3].value)
  }

  /** A colour survives the trip through its blocks, whatever their kind. */
  lemma ColorRoundTrip(color: Color, kind: BlockType)
    ensures ConvertToColor(ConvertToBlocks(color, kind)) == color
  {
  }

  /** The modifier blocks of a list of colours, four per colour, in order. */
  function ColorBlocks(colors: seq<Color>): (blocks: seq<Block>)
    ensures |blocks| == 4 * |colors|
    ensures forall i :: 0 <= i < |blocks| ==> blocks[i].kind == Modifier
  {
    if colors == [] then [] else ConvertToBlocks(colors[0], Modifier) + ColorBlocks(colors[1..])
  }

  // ---------------------------------------------------------------------
  // Keys
  // ---------------------------------------------------------------------

  /** FirstOrDefault over a table: the lowest position holding the value, or 0 when none does. */
  function FirstKey(table: seq<string>, value: string): (key: nat)
    ensures value in table ==> key < |table| && table[key] == value && forall j :: 0 <= j < key ==> table[j] != value
    ensures value !in table ==> key == 0
  {
    if table == [] then 0
    else if table[0] == value then 0
    else if value in table[1..] then 1 + FirstKey(table[1..], value)
    else 0
  }

  // ---------------------------------------------------------------------
  // Encoding
  // ---------------------------------------------------------------------

  /** A gene with the constructor's defaults: active and undamaged. */
  function NewGene(kind: GeneType, blocks: seq<Block>, category: Option<Category>): Gene {
    Gene(kind, blocks, category, true, false)
  }

  /** ConvertToGene(species): one primary block holding the species' key, which names the species whenever the table lists it. */
  function SpeciesGene(t: Tables, species: string): (gene: Gene)
    ensures gene.kind == Species && |gene.blocks| == 1 && gene.blocks[0].kind == Primary
    ensures species in t.species ==> Lookup(t.species, gene.blocks[0].value) == Success(species)
    ensures species !in t.species ==> gene.blocks[0].value == 0
  {
    NewGene(Species, [Block(FirstKey(t.species, species), Primary)], None)
  }

  /** ConvertToGene(sex): one primary block holding the sex's key. */
  function SexGene(t: Tables, sex: string): (gene: Gene)
    ensures gene.kind == Sex && |gene.blocks| == 1 && gene.blocks[0].kind == Primary
    ensures sex in t.sexes ==> Lookup(t.sexes, gene.blocks[0].value) == Success(sex)
    ensures sex !in t.sexes ==> gene.blocks[0].value == 0
  {
    NewGene(Sex, [Block(FirstKey(t.sexes, sex), Primary)], None)
  }

  /** ConvertToGene(Color): a gene of the given type holding the colour's four primary blocks. */
  function ColorGene(color: Color, kind: GeneType): (gene: Gene)
    ensures gene.kind == kind && gene.markingCategory == None
    ensures |gene.blocks| == 4 && ConvertToColor(gene.blocks) == color
  {
    NewGene(kind, ConvertToBlocks(color, Primary), None)
  }

  /** ConvertToGene(Marking): the marking's key as a primary block, then four modifier blocks per colour. */
  function MarkingGene(t: Tables, m: Marking, category: Category): (gene: Gene)
    requires category in t.markings
    ensures gene.kind == Markings && gene.markingCategory == Some(category)
    ensures |gene.blocks| == 1 + 4 * |m.colors|
    ensures gene.blocks[0].kind == Primary
    ensures forall i :: 1 <= i < |gene.blocks| ==> gene.blocks[i].kind == Modifier
  {
    NewGene(Markings, [Block(FirstKey(t.markings[category], m.markingId), Primary)] + ColorBlocks(m.colors), Some(category))
  }

  /** The per-category cap on marking genes; a category without points has none. */
  function MaxPoints(t: Tables, category: Category): int {
    if category in t.maxPoints then t.maxPoints[category] else 0
  }

  function MarkingsOf(markings: map<Category, seq<Marking>>, category: Category): seq<Marking> {
    if category in markings then markings[category] else []
  }

  /** A marking gene with no blocks, holding a place in its category. */
  function PaddingGene(category: Category): Gene {
    NewGene(Markings, [], Some(category))
  }

  function MarkingGeneList(t: Tables, ms: seq<Marking>, category: Category): (genes: seq<Gene>)
    requires category in t.markings
    ensures |genes| == |ms|
    ensures forall i :: 0 <= i < |ms| ==> genes[i] == MarkingGene(t, ms[i], category)
  {
    seq(|ms|, i requires 0 <= i < |ms| => MarkingGene(t, ms[i], category))
  }

  function Padding(category: Category, count: nat): (genes: seq<Gene>)
    ensures |genes| == count && forall i :: 0 <= i < count ==> genes[i] == PaddingGene(category)
  {
    seq(count, i => PaddingGene(category))
  }

  /** The genes of one category: one per marking, then padding up to the category's cap. */
  function CategoryGenes(t: Tables, ms: seq<Marking>, category: Category): seq<Gene>
    requires category in t.markings
  {
    MarkingGeneList(t, ms, category) + Padding(category, if |ms| < MaxPoints(t, category) then MaxPoints(t, category) - |ms| else 0)
  }

  predicate TablesCover(t: Tables, n: nat) {
    forall c :: 0 <= c < n ==> c in t.markings
  }

  /** The marking genes of the first n categories, in enumeration order. */
  function MarkingGenes(t: Tables, markings: map<Category, seq<Marking>>, n: nat): seq<Gene>
    requires TablesCover(t, n)
  {
    if n == 0 then []
    else MarkingGenes(t, markings, n - 1) + CategoryGenes(t, MarkingsOf(markings, n - 1), n - 1)
  }

  /** The whole gene list: species, sex, skin colour, eye colour, then the markings. */
  function GeneticSequence(t: Tables, h: Appearance): seq<Gene>
    requires TablesCover(t, t.categoryCount)
  {
    [SpeciesGene(t, h.species),
     SexGene(t, h.sex),
     ColorGene(h.skin, SkinColor),
     if h.eyes.Some? then ColorGene(h.eyes.value, EyeColor) else NewGene(EyeColor, [], None)]
    + MarkingGenes(t, h.markings, t.categoryCount)
  }

  /** Each category yields max(markings, cap) genes, all marking genes of that category; nothing is truncated. */
  lemma CategoryGenesCount(t: Tables, ms: seq<Marking>, category: Category)
    requires category in t.markings
    ensures |CategoryGenes(t, ms, category)| == if |ms| < MaxPoints(t, category) then MaxPoints(t, category) else |ms|
    ensures forall i :: 0 <= i < |CategoryGenes(t, ms, category)| ==>
      CategoryGenes(t, ms, category)[i].kind == Markings && CategoryGenes(t, ms, category)[i].markingCategory == Some(category)
    ensures forall i :: 0 <= i < |ms| ==> CategoryGenes(t, ms, category)[i] == MarkingGene(t, ms[i], category)
    ensures forall i :: |ms| <= i < |CategoryGenes(t, ms, category)| ==> CategoryGenes(t, ms, category)[i].blocks == []
  {
  }

  /** The layout: species at 0, sex at 1, skin colour at 2, eye colour at 3 (no blocks without an eye layer), markings from 4 on. */
  lemma GeneticSequenceLayout(t: Tables, h: Appearance)
    requires TablesCover(t, t.categoryCount)
    ensures var genes := GeneticSequence(t, h);
      && |genes| >= 4
      && genes[SpeciesGeneIndex].kind == Species
      && genes[SexGeneIndex].kind == Sex
      && genes[SkinColorGeneIndex].kind == SkinColor
      && genes[EyeColorGeneIndex].kind == EyeColor
      && (genes[EyeColorGeneIndex].blocks == [] <==> h.eyes.None?)
      && genes[MarkingsGeneIndex..] == MarkingGenes(t, h.markings, t.categoryCount)
  {
  }

  // ---------------------------------------------------------------------
  // Decoding one marking gene
  // ---------------------------------------------------------------------

  /** The state of the block scan: the marking found so far, the modifier blocks not yet grouped, and the colours. */
  datatype Scan = Scan(prototype: Option<string>, pending: seq<Block>, colors: seq<Color>)

  const EmptyScan := Scan(None, [], [])

  /**
   * One block of the scan: a primary block looks its marking up (the last
   * one wins; a missing category or key fails), a modifier block joins the
   * pending group, and a group of four becomes a colour.
   */
  function ScanStep(table: Option<seq<string>>, s: Scan, b: Block): Result<Scan> {
    if b.kind == Primary then
      if table.Some? && b.value < |table.value| then Success(s.(prototype := Some(table.value[b.value])))
      else Failure(KeyNotFound)
    else
      var pending := s.pending + [b];
      if |pending| == 4 then Success(s.(pending := [], colors := s.colors + [ConvertToColor(pending)]))
      else Success(s.(pending := pending))
  }

  function ScanFrom(table: Option<seq<string>>, s: Scan, blocks: seq<Block>): Result<Scan>
    decreases |blocks|
  {
    if blocks == [] then Success(s)
    else
      match ScanStep(table, s, blocks[0])
      case Failure(e) => Failure(e)
      case Success(next) => ScanFrom(table, next, blocks[1..])
  }

  /** TryConvertToMarking: None when the gene has no primary block. */
  function DecodeMarking(t: Tables, gene: Gene): Result<Option<Marking>> {
    if gene.markingCategory.None? then Failure(MissingValue)
    else
      var category := gene.markingCategory.value;
      var table := if category in t.markings then Some(t.markings[category]) else None;
      match ScanFrom(table, EmptyScan, gene.blocks)
      case Failure(e) => Failure(e)
      case Success(s) =>
        if s.prototype.Some? then Success(Some(Marking(s.prototype.value, s.colors))) else Success(None)
  }

  /** The modifier blocks of a list, in order. */
  function Mods(blocks: seq<Block>): seq<Block> {
    if blocks == [] then []
    else (if blocks[0].kind == Modifier then [blocks[0]] else []) + Mods(blocks[1..])
  }

  /** The colours of the complete groups of four; a trailing partial group gives none. */
  function Groups(mods: seq<Block>): seq<Color>
    decreases |mods|
  {
    if |mods| < 4 then [] else [ConvertToColor(mods[..4])] + Groups(mods[4..])
  }

  /** The trailing partial group. */
  function Leftover(mods: seq<Block>): seq<Block>
    decreases |mods|
  {
    if |mods| < 4 then mods else Leftover(mods[4..])
  }

  /** The value of the last primary block, if any. */
  function LastPrimary(blocks: seq<Block>): Option<nat> {
    if blocks == [] then None
    else
      var later := LastPrimary(blocks[1..]);
      if later.Some? then later
      else if blocks[0].kind == Primary then Some(blocks[0].value)
      else None
  }

  /** The table entry a primary block's value names, if the table and the entry exist. */
  function Entry(table: Option<seq<string>>, key: nat): Option<string> {
    if table.Some? && key < |table.value| then Some(table.value[key]) else None
  }

  predicate Resolves(table: Option<seq<string>>, b: Block) {
    b.kind == Primary ==> Entry(table, b.value).Some?
  }

  predicate PrimariesResolve(table: Option<seq<string>>, blocks: seq<Block>) {
    forall i :: 0 <= i < |blocks| ==> Resolves(table, blocks[i])
  }

  lemma PrimariesResolveCons(table: Option<seq<string>>, blocks: seq<Block>)
    requires blocks != []
    ensures PrimariesResolve(table, blocks) <==> Resolves(table, blocks[0]) && PrimariesResolve(table, blocks[1..])
  {
    if Resolves(table, blocks[0]) && PrimariesResolve(table, blocks[1..]) {
      forall i | 0 < i < |blocks| ensures Resolves(table, blocks[i]) {
        assert blocks[i] == blocks[1..][i - 1];
      }
    }
  }

  lemma {:induction false} GroupsOfShortPrefix(pending: seq<Block>, b: Block, rest: seq<Block>)
    requires |pending| < 4
    ensures |pending + [b]| == 4 ==>
      Groups(pending + [b] + rest) == [ConvertToColor(pending + [b])] + Groups(rest)
      && Leftover(pending + [b] + rest) == Leftover(rest)
  {
    if |pending + [b]| == 4 {
      var all := pending + [b] + rest;
      assert all[..4] == pending + [b];
      assert all[4..] == rest;
    }
  }

  /** One scan step, in the terms of ScanMeaning: what it adds to the colours, the pending group and the marking. */
  lemma {:induction false} StepMeaning(table: Option<seq<string>>, s: Scan, b: Block, rest: seq<Block>)
    requires |s.pending| < 4
    ensures ScanStep(table, s, b).Success? <==> Resolves(table, b)
    ensures ScanStep(table, s, b).Success? ==>
      var next := ScanStep(table, s, b).value;
      && |next.pending| < 4
      && next.colors + Groups(next.pending + Mods(rest)) == s.colors + Groups(s.pending + Mods([b] + rest))
      && Leftover(next.pending + Mods(rest)) == Leftover(s.pending + Mods([b] + rest))
      && next.prototype == (if b.kind == Primary then Entry(table, b.value) else s.prototype)
  {
    var blocks := [b] + rest;
    assert blocks[0] == b && blocks[1..] == rest;
    var step := ScanStep(table, s, b);
    if step.Success? {
      var next := step.value;
      if b.kind == Primary {
        assert Mods(blocks) == Mods(rest);
      } else {
        assert Mods(blocks) == [b] + Mods(rest);
        assert s.pending + Mods(blocks) == s.pending + [b] + Mods(rest);
        GroupsOfShortPrefix(s.pending, b, Mods(rest));
        if |s.pending + [b]| == 4 {
          assert next.pending + Mods(rest) == Mods(rest);
        }
      }
    }
  }

  /**
   * The scan from any state with fewer than four pending blocks succeeds
   * exactly when every primary block resolves; it then adds the colours of
   * the complete groups of the pending and modifier blocks, keeps the
   * partial group pending, and ends on the last primary block's marking.
   */
  lemma {:induction false} ScanMeaning(table: Option<seq<string>>, s: Scan, blocks: seq<Block>)
    requires |s.pending| < 4
    ensures ScanFrom(table, s, blocks).Success? <==> PrimariesResolve(table, blocks)
    ensures ScanFrom(table, s, blocks).Success? ==>
      var r := ScanFrom(table, s, blocks).value;
      && r.colors == s.colors + Groups(s.pending + Mods(blocks))
      && r.pending == Leftover(s.pending + Mods(blocks))
      && r.prototype == (if LastPrimary(blocks).Some? then Entry(table, LastPrimary(blocks).value) else s.prototype)
    decreases |blocks|
  {
    if blocks != [] {
      var b := blocks[0];
      var rest := blocks[1..];
      assert blocks == [b] + rest;
      PrimariesResolveCons(table, blocks);
      StepMeaning(table, s, b, rest);
      var step := ScanStep(table, s, b);
      if step.Success? {
        ScanMeaning(table, step.value, rest);
      }
    } else {
      assert s.pending + Mods(blocks) == s.pending;
      assert s.colors + Groups(s.pending) == s.colors;
    }
  }

  /**
   * A gene with a category decodes exactly when every primary block names
   * an entry of the category's table; it decodes to a marking exactly when
   * it has a primary block, the last one naming the marking, and the
   * colours are the complete groups of four modifier blocks, in order.
   */
  lemma DecodeMarkingMeaning(t: Tables, gene: Gene)
    requires gene.markingCategory.Some?
    ensures var category := gene.markingCategory.value;
      var table := if category in t.markings then Some(t.markings[category]) else None;
      var r := DecodeMarking(t, gene);
      && (r.Success? <==> PrimariesResolve(table, gene.blocks))
      && (r.Success? ==> (r.value.Some? <==> LastPrimary(gene.blocks).Some?))
      && (r.Success? && r.value.Some? ==>
            && Some(r.value.value.markingId) == Entry(table, LastPrimary(gene.blocks).value)
            && r.value.value.colors == Groups(Mods(gene.blocks)))
  {
    var category := gene.markingCategory.value;
    var table := if category in t.markings then Some(t.markings[category]) else None;
    ScanMeaning(table, EmptyScan, gene.blocks);
    assert EmptyScan.pending + Mods(gene.blocks) == Mods(gene.blocks);
    if PrimariesResolve(table, gene.blocks) && LastPrimary(gene.blocks).Some? {
      LastPrimaryResolves(table, gene.blocks);
    }
  }

  lemma {:induction false} LastPrimaryResolves(table: Option<seq<string>>, blocks: seq<Block>)
    requires PrimariesResolve(table, blocks) && LastPrimary(blocks).Some?
    ensures Entry(table, LastPrimary(blocks).value).Some?
  {
    PrimariesResolveCons(table, blocks);
    if LastPrimary(blocks[1..]).Some? {
      LastPrimaryResolves(table, blocks[1..]);
    }
  }

  lemma {:induction false} ModsAppend(xs: seq<Block>, ys: seq<Block>)
    ensures Mods(xs + ys) == Mods(xs) + Mods(ys)
  {
    if xs != [] {
      assert (xs + ys)[0] == xs[0] && (xs + ys)[1..] == xs[1..] + ys;
      ModsAppend(xs[1..], ys);
    } else {
      assert xs + ys == ys;
    }
  }

  lemma {:induction false} AllModifiers(blocks: seq<Block>)
    requires forall i :: 0 <= i < |blocks| ==> blocks[i].kind == Modifier
    ensures Mods(blocks) == blocks && LastPrimary(blocks) == None
  {
    if blocks != [] {
      AllModifiers(blocks[1..]);
    }
  }

  /** Colour blocks read back as the colours they encode, with nothing left over. */
  lemma {:induction false} ColorBlocksRoundTrip(colors: seq<Color>)
    ensures Groups(ColorBlocks(colors)) == colors
    ensures Leftover(ColorBlocks(colors)) == []
  {
    if colors != [] {
      var head := ConvertToBlocks(colors[0], Modifier);
      var rest := ColorBlocks(colors[1..]);
      ColorBlocksRoundTrip(colors[1..]);
      assert (head + rest)[..4] == head && (head + rest)[4..] == rest;
      ColorRoundTrip(colors[0], Modifier);
    }
  }

  /** A marking gene decodes to the marking it encodes, provided its identifier is in the category's table. */
  lemma MarkingRoundTrip(t: Tables, m: Marking, category: Category)
    requires category in t.markings && m.markingId in t.markings[category]
    ensures DecodeMarking(t, MarkingGene(t, m, category)) == Success(Some(m))
  {
    var gene := MarkingGene(t, m, category);
    var table := Some(t.markings[category]);
    var key := FirstKey(t.markings[category], m.markingId);
    var primary := [Block(key, Primary)];
    assert gene.blocks == primary + ColorBlocks(m.colors);
    ColorBlocksRoundTrip(m.colors);
    AllModifiers(ColorBlocks(m.colors));
    ModsAppend(primary, ColorBlocks(m.colors));
    assert Mods(primary) == [];
    assert gene.blocks[1..] == ColorBlocks(m.colors);
    assert LastPrimary(gene.blocks) == Some(key);
    PrimariesResolveCons(table, gene.blocks);
    ScanMeaning(table, EmptyScan, gene.blocks);
    assert EmptyScan.pending + Mods(gene.blocks) == ColorBlocks(m.colors);
    assert Entry(table, key) == Some(m.markingId);
    var r := ScanFrom(table, EmptyScan, gene.blocks);
    assert r.Success? && r.value.prototype == Some(m.markingId) && r.value.colors == m.colors;
  }

  // ---------------------------------------------------------------------
  // Decoding a gene list (ModifyGenes)
  // ---------------------------------------------------------------------

  /** What ModifyGenes sets on the humanoid; the markings are listed in gene order. */
  datatype Decoded = Decoded(species: string, sex: string, skin: Color, eyes: Option<Color>, markings: seq<Marking>)

  /** The value of the first block of gene i; a missing gene or an empty block list is an index error. */
  function FirstBlockValue(genes: seq<Gene>, i: nat): (r: Result<nat>)
    ensures r.Success? <==> i < |genes| && genes[i].blocks != []
    ensures r.Success? ==> r.value == genes[i].blocks[0].value
  {
    if i >= |genes| || genes[i].blocks == [] then Failure(IndexOutOfRange)
    else Success(genes[i].blocks[0].value)
  }

  /** A dictionary lookup by position; a missing key is an error. */
  function Lookup(table: seq<string>, key: nat): (r: Result<string>)
    ensures r.Success? <==> key < |table|
    ensures r.Success? ==> r.value == table[key] && r.value in table
  {
    if key < |table| then Success(table[key]) else Failure(KeyNotFound)
  }

  /** Markings genes with at least one block, decoded in order; genes that decode to no marking add nothing. */
  function DecodeMarkings(t: Tables, genes: seq<Gene>): Result<seq<Marking>> {
    if genes == [] then Success([])
    else if genes[0].kind == Markings && genes[0].blocks != [] then
      match DecodeMarking(t, genes[0])
      case Failure(e) => Failure(e)
      case Success(found) =>
        match DecodeMarkings(t, genes[1..])
        case Failure(e) => Failure(e)
        case Success(rest) => Success((if found.Some? then [found.value] else []) + rest)
    else DecodeMarkings(t, genes[1..])
  }

  /** Two decodes in sequence: the first failure wins, otherwise the markings concatenate. */
  function Concat(a: Result<seq<Marking>>, b: Result<seq<Marking>>): Result<seq<Marking>> {
    if a.Failure? then a else if b.Failure? then b else Success(a.value + b.value)
  }

  lemma {:induction false} DecodeMarkingsAppend(t: Tables, xs: seq<Gene>, ys: seq<Gene>)
    ensures DecodeMarkings(t, xs + ys) == Concat(DecodeMarkings(t, xs), DecodeMarkings(t, ys))
  {
    if xs == [] {
      assert xs + ys == ys;
      if DecodeMarkings(t, ys).Success? {
        assert [] + DecodeMarkings(t, ys).value == DecodeMarkings(t, ys).value;
      }
    } else {
      assert (xs + ys)[0] == xs[0] && (xs + ys)[1..] == xs[1..] + ys;
      DecodeMarkingsAppend(t, xs[1..], ys);
      var tail := DecodeMarkings(t, xs[1..]);
      var other := DecodeMarkings(t, ys);
      if xs[0].kind == Markings && xs[0].blocks != [] {
        var head := DecodeMarking(t, xs[0]);
        if head.Success? && tail.Success? && other.Success? {
          var found := if head.value.Some? then [head.value.value] else [];
          assert found + (tail.value + other.value) == (found + tail.value) + other.value;
        }
      }
    }
  }

  /** ModifyGenes: species, sex, skin colour, eye colour (only when its gene has blocks), then the markings from index 4 on. */
  function DecodeGenes(t: Tables, genes: seq<Gene>): Result<Decoded> {
    match FirstBlockValue(genes, SpeciesGeneIndex)
    case Failure(e) => Failure(e)
    case Success(speciesKey) =>
      match Lookup(t.species, speciesKey)
      case Failure(e) => Failure(e)
      case Success(species) =>
        match FirstBlockValue(genes, SexGeneIndex)
        case Failure(e) => Failure(e)
        case Success(sexKey) =>
          match Lookup(t.sexes, sexKey)
          case Failure(e) => Failure(e)
          case Success(sex) =>
            if |genes| <= EyeColorGeneIndex then Failure(IndexOutOfRange)
            else
              var skin := ConvertToColor(genes[SkinColorGeneIndex].blocks);
              var eyes := if genes[EyeColorGeneIndex].blocks != [] then Some(ConvertToColor(genes[EyeColorGeneIndex].blocks)) else None;
              match DecodeMarkings(t, genes[MarkingsGeneIndex..])
              case Failure(e) => Failure(e)
              case Success(markings) => Success(Decoded(species, sex, skin, eyes, markings))
  }

  /** The markings of the first n categories, in category order. */
  function AllMarkings(markings: map<Category, seq<Marking>>, n: nat): seq<Marking> {
    if n == 0 then [] else AllMarkings(markings, n - 1) + MarkingsOf(markings, n - 1)
  }

  /** Every species, sex and marking of the appearance has an entry in the tables. */
  predicate Encodable(t: Tables, h: Appearance) {
    && TablesCover(t, t.categoryCount)
    && h.species in t.species
    && h.sex in t.sexes
    && forall c, i :: 0 <= c < t.categoryCount && 0 <= i < |MarkingsOf(h.markings, c)| ==>
         MarkingsOf(h.markings, c)[i].markingId in t.markings[c]
  }

  lemma {:induction false} MarkingGeneListDecodes(t: Tables, ms: seq<Marking>, category: Category)
    requires category in t.markings
    requires forall i :: 0 <= i < |ms| ==> ms[i].markingId in t.markings[category]
    ensures DecodeMarkings(t, MarkingGeneList(t, ms, category)) == Success(ms)
  {
    var genes := MarkingGeneList(t, ms, category);
    if ms != [] {
      MarkingGeneListDecodes(t, ms[1..], category);
      assert genes[1..] == MarkingGeneList(t, ms[1..], category);
      MarkingRoundTrip(t, ms[0], category);
      assert [ms[0]] + ms[1..] == ms;
    }
  }

  lemma {:induction false} PaddingDecodes(t: Tables, category: Category, count: nat)
    ensures DecodeMarkings(t, Padding(category, count)) == Success([])
  {
    if count > 0 {
      PaddingDecodes(t, category, count - 1);
      assert Padding(category, count)[1..] == Padding(category, count - 1);
    }
  }

  lemma CategoryGenesDecode(t: Tables, ms: seq<Marking>, category: Category)
    requires category in t.markings
    requires forall i :: 0 <= i < |ms| ==> ms[i].markingId in t.markings[category]
    ensures DecodeMarkings(t, CategoryGenes(t, ms, category)) == Success(ms)
  {
    var pad := if |ms| < MaxPoints(t, category) then MaxPoints(t, category) - |ms| else 0;
    MarkingGeneListDecodes(t, ms, category);
    PaddingDecodes(t, category, pad);
    DecodeMarkingsAppend(t, MarkingGeneList(t, ms, category), Padding(category, pad));
    assert ms + [] == ms;
  }

  lemma {:induction false} MarkingGenesDecode(t: Tables, h: Appearance, n: nat)
    requires Encodable(t, h) && n <= t.categoryCount
    ensures DecodeMarkings(t, MarkingGenes(t, h.markings, n)) == Success(AllMarkings(h.markings, n))
  {
    if n > 0 {
      var c := n - 1;
      var ms := MarkingsOf(h.markings, c);
      var before := MarkingGenes(t, h.markings, c);
      var these := CategoryGenes(t, ms, c);
      assert MarkingGenes(t, h.markings, n) == before + these;
      MarkingGenesDecode(t, h, c);
      assert forall i :: 0 <= i < |ms| ==> ms[i].markingId in t.markings[c];
      CategoryGenesDecode(t, ms, c);
      DecodeMarkingsAppend(t, before, these);
      assert AllMarkings(h.markings, n) == AllMarkings(h.markings, c) + ms;
    }
  }

  /**
   * ModifyGenes reads GenerateGeneticSequence back: the species, the sex,
   * the skin colour, the eye colour when there is one, and every marking in
   * category order, whenever the tables hold them all.
   */
  lemma GenesRoundTrip(t: Tables, h: Appearance)
    requires Encodable(t, h)
    ensures DecodeGenes(t, GeneticSequence(t, h)) == Success(Decoded(h.species, h.sex, h.skin, h.eyes, AllMarkings(h.markings, t.categoryCount)))
  {
    var genes := GeneticSequence(t, h);
    GeneticSequenceLayout(t, h);
    MarkingGenesDecode(t, h, t.categoryCount);
    ColorRoundTrip(h.skin, Primary);
    if h.eyes.Some? {
      ColorRoundTrip(h.eyes.value, Primary);
    }
  }

  // ---------------------------------------------------------------------
  // Marking points
  // ---------------------------------------------------------------------

  /** One marking-points prototype folded into the running maxima: a category is raised when it is new or the prototype's points exceed it. */
  function MergeMax(acc: map<Category, int>, points: map<Category, int>): (r: map<Category, int>)
    ensures r.Keys == acc.Keys + points.Keys
  {
    map c | c in acc.Keys + points.Keys :: if c in points && (c !in acc || acc[c] < points[c]) then points[c] else acc[c]
  }

  /** The per-category maxima over all marking-points prototypes, in enumeration order. */
  function MaxPointsOf(prototypes: seq<map<Category, int>>): map<Category, int> {
    if prototypes == [] then map[]
    else MergeMax(MaxPointsOf(prototypes[..|prototypes| - 1]), prototypes[|prototypes| - 1])
  }

  /**
   * Each category's cap is the largest number of points any prototype gives
   * it, it is given by some prototype, and a category no prototype mentions
   * has no cap.
   */
  lemma {:induction false} MaxPointsIsMaximum(prototypes: seq<map<Category, int>>)
    ensures forall k, c :: 0 <= k < |prototypes| && c in prototypes[k] ==>
      c in MaxPointsOf(prototypes) && prototypes[k][c] <= MaxPointsOf(prototypes)[c]
    ensures forall c :: c in MaxPointsOf(prototypes) ==>
      exists k :: 0 <= k < |prototypes| && c in prototypes[k] && prototypes[k][c] == MaxPointsOf(prototypes)[c]
  {
    if prototypes != [] {
      var n := |prototypes| - 1;
      var front := prototypes[..n];
      MaxPointsIsMaximum(front);
      assert forall k :: 0 <= k < n ==> front[k] == prototypes[k];
      forall c | c in MaxPointsOf(prototypes)
        ensures exists k :: 0 <= k < |prototypes| && c in prototypes[k] && prototypes[k][c] == MaxPointsOf(prototypes)[c]
      {
        if c in prototypes[n] && (c !in MaxPointsOf(front) || MaxPointsOf(front)[c] < prototypes[n][c]) {
          assert prototypes[n][c] == MaxPointsOf(prototypes)[c];
        } else {
          assert c in MaxPointsOf(front);
          var k :| 0 <= k < n && c in front[k] && front[k][c] == MaxPointsOf(front)[c];
          assert prototypes[k][c] == MaxPointsOf(prototypes)[c];
        }
      }
    }
  }

  function Restrict(points: map<Category, int>, keys: set<Category>): (r: map<Category, int>)
    ensures r.Keys == points.Keys * keys
    ensures forall c :: c in r ==> r[c] == points[c]
  {
    map c | c in keys && c in points :: points[c]
  }

  /** Adding one more category of a prototype raises its cap when it is new or lower, and leaves the rest. */
  lemma MergeMaxStep(before: map<Category, int>, points: map<Category, int>, done: set<Category>, c: Category)
    requires c in points && c !in done
    ensures var current := MergeMax(before, Restrict(points, done));
      MergeMax(before, Restrict(points, done + {c})) ==
        if c !in current || current[c] < points[c] then current[c := points[c]] else current
  {
    var current := MergeMax(before, Restrict(points, done));
    var next := MergeMax(before, Restrict(points, done + {c}));
    var expected := if c !in current || current[c] < points[c] then current[c := points[c]] else current;
    assert next.Keys == expected.Keys;
    forall k | k in next ensures next[k] == expected[k] {
      if k != c {
        assert k in Restrict(points, done + {c}) <==> k in Restrict(points, done);
      }
    }
  }

  /** The marking index after population: every category 0 .. n-1 holds the same table of all marking prototypes. */
  function EveryCategory(n: nat, table: seq<string>): (r: map<Category, seq<string>>)
    ensures forall c: Category :: c in r <==> c < n
    ensures forall c :: c in r ==> r[c] == table
  {
    if n == 0 then map[] else EveryCategory(n - 1, table)[n - 1 := table]
  }

  // ---------------------------------------------------------------------
  // Loop lemmas
  // ---------------------------------------------------------------------

  lemma {:induction false} ColorBlocksSnoc(colors: seq<Color>, color: Color)
    ensures ColorBlocks(colors + [color]) == ColorBlocks(colors) + ConvertToBlocks(color, Modifier)
  {
    if colors == [] {
      assert colors + [color] == [color];
      assert [color][1..] == [];
    } else {
      assert (colors + [color])[0] == colors[0] && (colors + [color])[1..] == colors[1..] + [color];
      ColorBlocksSnoc(colors[1..], color);
    }
  }

  lemma {:induction false} ScanAppend(table: Option<seq<string>>, s: Scan, xs: seq<Block>, ys: seq<Block>)
    ensures ScanFrom(table, s, xs + ys) ==
      match ScanFrom(table, s, xs)
      case Failure(e) => Failure(e)
      case Success(mid) => ScanFrom(table, mid, ys)
    decreases |xs|
  {
    if xs == [] {
      assert xs + ys == ys;
    } else {
      assert (xs + ys)[0] == xs[0] && (xs + ys)[1..] == xs[1..] + ys;
      var step := ScanStep(table, s, xs[0]);
      if step.Success? {
        ScanAppend(table, step.value, xs[1..], ys);
      }
    }
  }

  lemma ScanSnoc(table: Option<seq<string>>, s: Scan, xs: seq<Block>, b: Block)
    requires ScanFrom(table, s, xs).Success?
    ensures ScanFrom(table, s, xs + [b]) == ScanStep(table, ScanFrom(table, s, xs).value, b)
  {
    ScanAppend(table, s, xs, [b]);
    assert [b][1..] == [];
  }

  lemma PaddingSnoc(category: Category, count: nat)
    ensures Padding(category, count + 1) == Padding(category, count) + [PaddingGene(category)]
  {
  }

  lemma MarkingGeneListSnoc(t: Tables, ms: seq<Marking>, m: Marking, category: Category)
    requires category in t.markings
    ensures MarkingGeneList(t, ms + [m], category) == MarkingGeneList(t, ms, category) + [MarkingGene(t, m, category)]
  {
  }

  // ---------------------------------------------------------------------
  // The system: index tables and the conversions that use them
  // ---------------------------------------------------------------------

  class GeneticsSystem {
    var speciesIndex: seq<string>
    var sexIndex: seq<string>
    var markingsIndex: map<Category, seq<string>>
    var maxMarkingPointsPerCategory: map<Category, int>
    /** The number of values of the marking-category enumeration. */
    const categoryCount: nat

    function Current(): Tables
      reads this
    {
      Tables(speciesIndex, sexIndex, markingsIndex, maxMarkingPointsPerCategory, categoryCount)
    }

    constructor(categoryCount: nat)
      ensures Current() == Tables([], [], map[], map[], categoryCount)
    {
      this.categoryCount := categoryCount;
      speciesIndex := [];
      sexIndex := [];
      markingsIndex := map[];
      maxMarkingPointsPerCategory := map[];
    }

    /** Fills the four tables from the prototypes: species, marking prototypes, marking points and the sex enumeration. */
    method Initialize(allSpecies: seq<string>, allMarkings: seq<string>, pointsPrototypes: seq<map<Category, int>>, sexes: seq<string>)
      modifies this
      ensures Current() == Tables(allSpecies, sexes, EveryCategory(categoryCount, allMarkings), MaxPointsOf(pointsPrototypes), categoryCount)
      ensures TablesCover(Current(), categoryCount)
    {
      PopulateSpeciesIndex(allSpecies);
      PopulateMarkingsIndex(allMarkings);
      PopulateMarkingPointsIndex(pointsPrototypes);
      PopulateSexIndex(sexes);
    }

    /** Keys 0, 1, 2, ... for the species prototypes in enumeration order. */
    method PopulateSpeciesIndex(allSpecies: seq<string>)
      modifies this
      ensures speciesIndex == allSpecies
      ensures sexIndex == old(sexIndex) && markingsIndex == old(markingsIndex)
      ensures maxMarkingPointsPerCategory == old(maxMarkingPointsPerCategory)
    {
      speciesIndex := [];
      var i := 0;
      while i < |allSpecies|
        invariant 0 <= i <= |allSpecies|
        invariant speciesIndex == allSpecies[..i]
        invariant sexIndex == old(sexIndex) && markingsIndex == old(markingsIndex)
        invariant maxMarkingPointsPerCategory == old(maxMarkingPointsPerCategory)
      {
        speciesIndex := speciesIndex + [allSpecies[i]];
        i := i + 1;
      }
    }

    /** Keys 0, 1, 2, ... for the values of the sex enumeration. */
    method PopulateSexIndex(sexes: seq<string>)
      modifies this
      ensures sexIndex == sexes
      ensures speciesIndex == old(speciesIndex) && markingsIndex == old(markingsIndex)
      ensures maxMarkingPointsPerCategory == old(maxMarkingPointsPerCategory)
    {
      sexIndex := [];
      var i := 0;
      while i < |sexes|
        invariant 0 <= i <= |sexes|
        invariant sexIndex == sexes[..i]
        invariant speciesIndex == old(speciesIndex) && markingsIndex == old(markingsIndex)
        invariant maxMarkingPointsPerCategory == old(maxMarkingPointsPerCategory)
      {
        sexIndex := sexIndex + [sexes[i]];
        i := i + 1;
      }
    }

    /** Every category gets its own table of all marking prototypes, keyed 0, 1, 2, ... */
    method PopulateMarkingsIndex(allMarkings: seq<string>)
      modifies this
      ensures markingsIndex == EveryCategory(categoryCount, allMarkings)
      ensures speciesIndex == old(speciesIndex) && sexIndex == old(sexIndex)
      ensures maxMarkingPointsPerCategory == old(maxMarkingPointsPerCategory)
    {
      markingsIndex := map[];
      var category := 0;
      while category < categoryCount
        invariant 0 <= category <= categoryCount
        invariant markingsIndex == EveryCategory(category, allMarkings)
        invariant speciesIndex == old(speciesIndex) && sexIndex == old(sexIndex)
        invariant maxMarkingPointsPerCategory == old(maxMarkingPointsPerCategory)
      {
        var forCategory := [];
        var i := 0;
        while i < |allMarkings|
          invariant 0 <= i <= |allMarkings|
          invariant forCategory == allMarkings[..i]
        {
          forCategory := forCategory + [allMarkings[i]];
          i := i + 1;
        }
        assert allMarkings[..i] == allMarkings;
        markingsIndex := markingsIndex[category := forCategory];
        category := category + 1;
      }
    }

    /** For each prototype and each of its categories, raises the category's cap when it is new or lower. */
    method PopulateMarkingPointsIndex(pointsPrototypes: seq<map<Category, int>>)
      modifies this
      ensures maxMarkingPointsPerCategory == MaxPointsOf(pointsPrototypes)
      ensures speciesIndex == old(speciesIndex) && sexIndex == old(sexIndex) && markingsIndex == old(markingsIndex)
    {
      maxMarkingPointsPerCategory := map[];
      var k := 0;
      while k < |pointsPrototypes|
        invariant 0 <= k <= |pointsPrototypes|
        invariant maxMarkingPointsPerCategory == MaxPointsOf(pointsPrototypes[..k])
        invariant speciesIndex == old(speciesIndex) && sexIndex == old(sexIndex) && markingsIndex == old(markingsIndex)
      {
        RaiseCaps(pointsPrototypes[k]);
        assert pointsPrototypes[..k + 1][..k] == pointsPrototypes[..k];
        k := k + 1;
      }
      assert pointsPrototypes[..k] == pointsPrototypes;
    }

    /** The inner loop of PopulateMarkingPointsIndex: one prototype's categories, in any order. */
    method RaiseCaps(points: map<Category, int>)
      modifies this
      ensures maxMarkingPointsPerCategory == MergeMax(old(maxMarkingPointsPerCategory), points)
      ensures speciesIndex == old(speciesIndex) && sexIndex == old(sexIndex) && markingsIndex == old(markingsIndex)
    {
      var categories := points.Keys;
      ghost var done: set<Category> := {};
      while categories != {}
        invariant categories == points.Keys - done && done <= points.Keys
        invariant maxMarkingPointsPerCategory == MergeMax(old(maxMarkingPointsPerCategory), Restrict(points, done))
        invariant speciesIndex == old(speciesIndex) && sexIndex == old(sexIndex) && markingsIndex == old(markingsIndex)
        decreases categories
      {
        var category :| category in categories;
        MergeMaxStep(old(maxMarkingPointsPerCategory), points, done, category);
        if category !in maxMarkingPointsPerCategory || maxMarkingPointsPerCategory[category] < points[category] {
          maxMarkingPointsPerCategory := maxMarkingPointsPerCategory[category := points[category]];
        }
        categories := categories - {category};
        done := done + {category};
      }
      assert Restrict(points, done) == points;
    }

    /** ConvertToGene(Marking): the marking's key, then four modifier blocks per colour. */
    method ConvertToGeneForMarking(m: Marking, category: Category) returns (gene: Gene)
      requires category in markingsIndex
      ensures gene == MarkingGene(Current(), m, category)
    {
      var key := FirstKey(markingsIndex[category], m.markingId);
      var blocks := [Block(key, Primary)];
      var i := 0;
      while i < |m.colors|
        invariant 0 <= i <= |m.colors|
        invariant blocks == [Block(key, Primary)] + ColorBlocks(m.colors[..i])
      {
        ColorBlocksSnoc(m.colors[..i], m.colors[i]);
        assert m.colors[..i + 1] == m.colors[..i] + [m.colors[i]];
        blocks := blocks + ConvertToBlocks(m.colors[i], Modifier);
        i := i + 1;
      }
      assert m.colors[..i] == m.colors;
      gene := NewGene(Markings, blocks, Some(category));
    }

    /** ConvertToGenes: for each category in order, one gene per marking, then padding up to the category's cap. */
    method ConvertToGenes(markings: map<Category, seq<Marking>>) returns (genes: seq<Gene>)
      requires TablesCover(Current(), categoryCount)
      ensures genes == MarkingGenes(Current(), markings, categoryCount)
    {
      ghost var t := Current();
      genes := [];
      var category := 0;
      while category < categoryCount
        invariant 0 <= category <= t.categoryCount
        invariant genes == MarkingGenes(t, markings, category)
      {
        var markingGenes := ConvertCategory(MarkingsOf(markings, category), category);
        genes := genes + markingGenes;
        category := category + 1;
      }
    }

    /** The body of ConvertToGenes for one category: the marking genes, then the padding loop. */
    method ConvertCategory(perCategory: seq<Marking>, category: Category) returns (markingGenes: seq<Gene>)
      requires category in markingsIndex
      ensures markingGenes == CategoryGenes(Current(), perCategory, category)
    {
      markingGenes := [];
      var j := 0;
      while j < |perCategory|
        invariant 0 <= j <= |perCategory|
        invariant markingGenes == MarkingGeneList(Current(), perCategory[..j], category)
      {
        var gene := ConvertToGeneForMarking(perCategory[j], category);
        MarkingGeneListSnoc(Current(), perCategory[..j], perCategory[j], category);
        assert perCategory[..j + 1] == perCategory[..j] + [perCategory[j]];
        markingGenes := markingGenes + [gene];
        j := j + 1;
      }
      assert perCategory[..j] == perCategory;
      var listed := markingGenes;
      var cap := MaxPoints(Current(), category);
      while |markingGenes| < cap
        invariant |perCategory| <= |markingGenes|
        invariant |markingGenes| == |perCategory| || |markingGenes| <= cap
        invariant markingGenes == listed + Padding(category, |markingGenes| - |perCategory|)
        decreases cap - |markingGenes|
      {
        PaddingSnoc(category, |markingGenes| - |perCategory|);
        markingGenes := markingGenes + [PaddingGene(category)];
      }
    }

    /** GenerateGeneticSequence: species, sex, skin colour, eye colour (or an empty eye gene), then the marking genes. */
    method GenerateGeneticSequence(h: Appearance) returns (genes: seq<Gene>)
      requires TablesCover(Current(), categoryCount)
      ensures genes == GeneticSequence(Current(), h)
    {
      genes := [SpeciesGene(Current(), h.species), SexGene(Current(), h.sex), ColorGene(h.skin, SkinColor)];
      if h.eyes.Some? {
        genes := genes + [ColorGene(h.eyes.value, EyeColor)];
      } else {
        genes := genes + [NewGene(EyeColor, [], None)];
      }
      var markingGenes := ConvertToGenes(h.markings);
      genes := genes + markingGenes;
    }

    /** TryConvertToMarking: scans the blocks, looking primary blocks up and turning each four modifier blocks into a colour. */
    method TryConvertToMarking(gene: Gene) returns (r: Result<Option<Marking>>)
      ensures r == DecodeMarking(Current(), gene)
    {
      if gene.markingCategory.None? {
        return Failure(MissingValue);
      }
      var category := gene.markingCategory.value;
      ghost var table := if category in markingsIndex then Some(markingsIndex[category]) else None;
      var prototype: Option<string> := None;
      var colorBlocks: seq<Block> := [];
      var convertedColors: seq<Color> := [];
      var i := 0;
      while i < |gene.blocks|
        invariant 0 <= i <= |gene.blocks|
        invariant ScanFrom(table, EmptyScan, gene.blocks[..i]) == Success(Scan(prototype, colorBlocks, convertedColors))
      {
        var block := gene.blocks[i];
        ScanSnoc(table, EmptyScan, gene.blocks[..i], block);
        assert gene.blocks[..i + 1] == gene.blocks[..i] + [block];
        if block.kind == Primary {
          if category !in markingsIndex || block.value >= |markingsIndex[category]| {
            ScanAppend(table, EmptyScan, gene.blocks[..i + 1], gene.blocks[i + 1..]);
            assert gene.blocks[..i + 1] + gene.blocks[i + 1..] == gene.blocks;
            return Failure(KeyNotFound);
          }
          prototype := Some(markingsIndex[category][block.value]);
        } else {
          colorBlocks := colorBlocks + [block];
          if |colorBlocks| == 4 {
            convertedColors := convertedColors + [ConvertToColor(colorBlocks)];
            colorBlocks := [];
          }
        }
        i := i + 1;
      }
      assert gene.blocks[..i] == gene.blocks;
      if prototype.Some? {
        return Success(Some(Marking(prototype.value, convertedColors)));
      }
      return Success(None);
    }

    /**
     * ModifyGenes: reads the species, the sex, the skin colour, the eye
     * colour and the markings off a gene list; any exception the source
     * raises on the way is a failure.
     */
    method ModifyGenes(genes: seq<Gene>) returns (r: Result<Decoded>)
      ensures r == DecodeGenes(Current(), genes)
    {
      if |genes| <= SpeciesGeneIndex || genes[SpeciesGeneIndex].blocks == [] {
        return Failure(IndexOutOfRange);
      }
      var speciesKey := genes[SpeciesGeneIndex].blocks[0].value;
      if speciesKey >= |speciesIndex| {
        return Failure(KeyNotFound);
      }
      var species := speciesIndex[speciesKey];
      if |genes| <= SexGeneIndex || genes[SexGeneIndex].blocks == [] {
        return Failure(IndexOutOfRange);
      }
      var sexKey := genes[SexGeneIndex].blocks[0].value;
      if sexKey >= |sexIndex| {
        return Failure(KeyNotFound);
      }
      var sex := sexIndex[sexKey];
      if |genes| <= EyeColorGeneIndex {
        return Failure(IndexOutOfRange);
      }
      var skin := ConvertToColor(genes[SkinColorGeneIndex].blocks);
      var eyes: Option<Color> := None;
      if |genes[EyeColorGeneIndex].blocks| > 0 {
        eyes := Some(ConvertToColor(genes[EyeColorGeneIndex].blocks));
      }
      var found := DecodeMarkingGenes(genes, MarkingsGeneIndex);
      if found.Failure? {
        return Failure(found.error);
      }
      return Success(Decoded(species, sex, skin, eyes, found.value));
    }

    /** The marking loop of ModifyGenes, from the given gene index to the end: marking genes with blocks are decoded, the rest skipped. */
    method DecodeMarkingGenes(genes: seq<Gene>, from: nat) returns (r: Result<seq<Marking>>)
      requires from <= |genes|
      ensures r == DecodeMarkings(Current(), genes[from..])
    {
      var markings: seq<Marking> := [];
      var geneIndex := from;
      if DecodeMarkings(Current(), genes[geneIndex..]).Success? {
        assert [] + DecodeMarkings(Current(), genes[geneIndex..]).value == DecodeMarkings(Current(), genes[geneIndex..]).value;
      }
      while geneIndex < |genes|
        invariant from <= geneIndex <= |genes|
        invariant DecodeMarkings(Current(), genes[from..]) == Concat(Success(markings), DecodeMarkings(Current(), genes[geneIndex..]))
      {
        var gene := genes[geneIndex];
        assert genes[geneIndex..][0] == gene && genes[geneIndex..][1..] == genes[geneIndex + 1..];
        geneIndex := geneIndex + 1;
        if gene.kind == Markings && |gene.blocks| > 0 {
          var found := TryConvertToMarking(gene);
          if found.Failure? {
            return Failure(found.error);
          }
          if found.value.Some? {
            ghost var rest := DecodeMarkings(Current(), genes[geneIndex..]);
            if rest.Success? {
              assert markings + ([found.value.value] + rest.value) == (markings + [found.value.value]) + rest.value;
            }
            markings := markings + [found.value.value];
          } else if DecodeMarkings(Current(), genes[geneIndex..]).Success? {
            assert [] + DecodeMarkings(Current(), genes[geneIndex..]).value == DecodeMarkings(Current(), genes[geneIndex..]).value;
          }
        }
      }
      assert markings + [] == markings;
      return Success(markings);
    }
  }
}

