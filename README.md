# Genetics: a verified model

This project models the genetics core of a space-station game server in Dafny. It has five parts:

- **Gene-splicing puzzle** (`SharedGenetics`, `PuzzleGenerator`): a solution string over A, T, G, C becomes a list of base pairs. Some strands are hidden, and the list is cut into blocks. The block boundaries are made jagged by splitting pairs across them, and the blocks are shuffled. The checker stitches the blocks back together, decides whether the puzzle may be submitted, and scores it against the solution. `DecimalToGene` writes a number in base 4 over the letters A, T, G, C. `Content.Shared/Genetics/SharedGeneticsConsole.cs` holds a second copy of this checker code, the `PuzzleChecker` class. Its `DecimalToGene`, `CombineBlocks`, `CanSubmitPuzzle`, `ValidateCombinedPairs` and `CalculatePuzzleSolutionDiff` have the same text as the `SharedGenetics` versions, so one model covers both copies.
- **Genetics console** (`GeneticsConsole`): a cache of generated puzzles, one per inactive mutation gene. Its buttons move blocks between the unused and used lists, fill in bases, and activate the mutation.
- **Trait-to-gene codec** (`GeneticsCodec`): a humanoid's species, sex, skin colour, eye colour and markings become a list of genes, and a gene list is decoded back into an appearance. The lookup tables are filled by the `Populate*Index` loops.
- **DNA sequencer** (`DnaSequencer`): a hand tool with two modes. In Sequence mode it copies a target's genes into its sample. In Modify mode it writes the sample into a humanoid target. A pending delayed action is tracked by a cancellation token.
- **Mutation effects** (`Mutations`, `ReactToDamage`):
  - per-source low-pressure and damage-resistance entries;
  - the low-pressure handler, which multiplies by the largest resistance;
  - the react-to-damage effect, which appends a ladder of damage thresholds.

How the source's forms are modelled:

- Pure code becomes functions and lemmas.
- Loops become methods proved against those functions: `CombineBlocks`, `DecimalToGene`, `GeneratePuzzle` and its stages, `ConvertToGenes`, `TryConvertToMarking`, `ModifyGenes`, the `Populate*Index` methods, `HighestResistance`, and `ReactToDamageMutationEffect.Apply`.
- Objects whose fields the source updates become classes:
  - the console system;
  - the codec's table system;
  - the sequencer and its target;
  - the mutations component and the destructible component.
- Random draws are passed in as parameters (`Draws`). The in-range conditions on them are preconditions, because the source's random calls always return values in range.

## Model

| member | source | states |
|---|---|---|
| SharedGenetics.BaseToChar | Content.Shared/Genetics/SharedGenetics.cs:16-24 | a base prints as one of A, T, G, C exactly when it is a nucleotide |
| SharedGenetics.DecimalToGene | Content.Shared/Genetics/SharedGenetics.cs:31-58 | 0 gives "A"; otherwise the result is the base-4 text of the number, with "-" before it for negatives; long.MinValue, whose absolute value overflows, gives no result |
| SharedGenetics.PositiveGeneTextReadsBack | Content.Shared/Genetics/SharedGenetics.cs:40-51 | for a positive input the text uses only A, T, G, C, has no leading A, and read back in base 4 gives the input |
| SharedGenetics.NegativeGeneText | Content.Shared/Genetics/SharedGenetics.cs:41-56 | a negative input gives "-" followed by the text of its absolute value |
| SharedGenetics.DigitsRoundTrip | Content.Shared/Genetics/SharedGenetics.cs:40-51 | reading the base-4 digits back gives the number |
| SharedGenetics.DigitsBelowPow4 | Content.Shared/Genetics/SharedGenetics.cs:40-51 | a number below 4^k has at most k digits, so 64-bit inputs stay short |
| SharedGenetics.CombineBlocks | Content.Shared/Genetics/SharedGenetics.cs:85-116 | the loop builds exactly the stitched sequence of the flattened blocks |
| SharedGenetics.CombinedLength | Content.Shared/Genetics/SharedGenetics.cs:85-116 | the result has at most as many pairs as the blocks hold, and at least one when there is any |
| SharedGenetics.FirstPairKept | Content.Shared/Genetics/SharedGenetics.cs:94-96 | the first input pair is the first output pair |
| SharedGenetics.MergeTopThenBottom | Content.Shared/Genetics/SharedGenetics.cs:98-103 | a top-only pair followed by a top-empty pair becomes one pair holding both strands |
| SharedGenetics.MergeBottomThenTop | Content.Shared/Genetics/SharedGenetics.cs:105-109 | a bottom-only pair followed by a bottom-empty pair takes only the top strand of the second pair |
| SharedGenetics.StitchAllWhole | Content.Shared/Genetics/SharedGenetics.cs:85-116 | stitching whole pairs onto whole pairs appends them unchanged |
| SharedGenetics.StitchAllAppend | Content.Shared/Genetics/SharedGenetics.cs:92-112 | stitching a concatenation is stitching its parts one after the other |
| SharedGenetics.ValidateCombinedPairs | Content.Shared/Genetics/SharedGenetics.cs:125-137 | true exactly when every pair's assigned top and bottom are nucleotides |
| SharedGenetics.CanSubmitPuzzle | Content.Shared/Genetics/SharedGenetics.cs:118-123 | true exactly when there is a puzzle, no block is unused, and every combined pair is resolved |
| SharedGenetics.TopText | Content.Shared/Genetics/SharedGenetics.cs:139-143 | one character per pair: the printed assigned top base |
| SharedGenetics.CalculateSubmittedSequence | Content.Shared/Genetics/SharedGeneticsConsole.cs:267-271 | one character per combined pair, namely the printed assigned top base |
| SharedGenetics.MismatchesBounds | Content.Shared/Genetics/SharedGeneticsConsole.cs:286-292 | the mismatch count is at most the length, and 0 exactly when the texts are equal |
| SharedGenetics.CalculatePuzzleSolutionDiff | Content.Shared/Genetics/SharedGenetics.cs:145-165 | 0 with no puzzle or with unused blocks; the solution length if a pair is unresolved; the length difference if the lengths differ; otherwise the mismatch count, which is 0 exactly when the submission equals the solution |
| PuzzleGenerator.SolvedPair | Content.Server/Genetics/EntitySystems/GeneticConsoleSystem.cs:478-483 | a solution letter gives a pair whose top is that base and whose bottom is its complement, with assigned equal to actual |
| PuzzleGenerator.GenerateSolvedPairs | Content.Server/Genetics/EntitySystems/GeneticConsoleSystem.cs:461-485 | fails exactly on a letter outside A, T, G, C; otherwise one solved pair per letter, in order |
| PuzzleGenerator.ComplementIsInvolution | Content.Server/Genetics/EntitySystems/GeneticConsoleSystem.cs:468-481 | the complement of the complement is the base, and a nucleotide's complement is another nucleotide |
| PuzzleGenerator.SolvedReadsBack | Content.Server/Genetics/EntitySystems/GeneticConsoleSystem.cs:461-485 | the solved pairs are resolved, and their top strand reads the solution |
| PuzzleGenerator.RedactSinglesKeepsOrHides | Content.Server/Genetics/EntitySystems/GeneticConsoleSystem.cs:497-510 | after the single redactions every strand either keeps its solved value or is Unknown in both fields |
| PuzzleGenerator.RedactDoublesKeepsOrHides | Content.Server/Genetics/EntitySystems/GeneticConsoleSystem.cs:513-520 | the double redactions keep that property |
| PuzzleGenerator.RedactPairs | Content.Server/Genetics/EntitySystems/GeneticConsoleSystem.cs:497-520 | fails on an empty list, where `Next(0, 0)` gives index 0 and the list indexer `solved[index]` throws; otherwise the two loops produce the redacted pairs |
| PuzzleGenerator.CutsIncrease | Content.Server/Genetics/EntitySystems/GeneticConsoleSystem.cs:523-535 | from 6 pairs up every cut window is non-empty, and the cuts lie strictly increasing inside the list |
| PuzzleGenerator.CutBlocks | Content.Server/Genetics/EntitySystems/GeneticConsoleSystem.cs:536-544 | four non-empty blocks whose concatenation is the pair list |
| PuzzleGenerator.MakeCuts | Content.Server/Genetics/EntitySystems/GeneticConsoleSystem.cs:523-544 | fails exactly below 6 pairs, where a window is empty; otherwise it gives the four cut blocks |
| PuzzleGenerator.SplitPair | Content.Server/Genetics/EntitySystems/GeneticConsoleSystem.cs:572-577 | the top half keeps the top strand with an empty bottom; the bottom half is the mirror |
| PuzzleGenerator.Carry | Content.Server/Genetics/EntitySystems/GeneticConsoleSystem.cs:550-565 | a roll below 8 splits the last pair across the boundary, which adds one pair; a roll from 8 up changes nothing |
| PuzzleGenerator.JagStep | Content.Server/Genetics/EntitySystems/GeneticConsoleSystem.cs:547-567 | one iteration of the jag loop, on the block list as it stands, is one boundary step of the specification |
| PuzzleGenerator.JagBlocks | Content.Server/Genetics/EntitySystems/GeneticConsoleSystem.cs:547-567 | the in-place loop produces the jagged blocks |
| PuzzleGenerator.JagStitchesBack | Content.Server/Genetics/EntitySystems/GeneticConsoleSystem.cs:547-567 | stitching the jagged blocks gives back the pairs before jagging, so the splits are exactly undone |
| PuzzleGenerator.JagPairCount | Content.Server/Genetics/EntitySystems/GeneticConsoleSystem.cs:547-567 | jagging adds one pair per roll below 8 |
| PuzzleGenerator.SwapPermutes | Content.Server/Genetics/EntitySystems/GeneticConsoleSystem.cs:568 | a swap keeps the multiset of blocks |
| PuzzleGenerator.ShuffledPermutes | Content.Server/Genetics/EntitySystems/GeneticConsoleSystem.cs:568 | the shuffle is a permutation of the blocks |
| PuzzleGenerator.Shuffle | Content.Server/Genetics/EntitySystems/GeneticConsoleSystem.cs:568 | the swap loop produces the shuffled blocks |
| PuzzleGenerator.GeneratePuzzle | Content.Server/Genetics/EntitySystems/GeneticConsoleSystem.cs:487-570 | fails on a letter outside A, T, G, C, on the empty solution, and below 6 letters; otherwise gives the solution, the shuffled blocks as unused blocks, and no used blocks |
| PuzzleGenerator.GenerationOrderCombines | Content.Server/Genetics/EntitySystems/GeneticConsoleSystem.cs:487-567 | combining the blocks in generation order gives the redacted solved pairs: one per solution letter, each kept or hidden |
| PuzzleGenerator.GeneratedPuzzleSolvable | Content.Server/Genetics/EntitySystems/GeneticConsoleSystem.cs:487-570 | the generated puzzle's unused blocks are a permutation of blocks that combine to the redacted solution, and its pair count is the solution length plus the splits |
| PuzzleGenerator.CutBlocksWhole | Content.Server/Genetics/EntitySystems/GeneticConsoleSystem.cs:536-544 | cutting whole pairs leaves whole pairs in every block |
| GeneticsConsole.JoinWithSpaces | Content.Server/Genetics/EntitySystems/GeneticConsoleSystem.cs:188 | no texts give the empty text, and one text is itself |
| GeneticsConsole.JoinWithSpacesSnoc | Content.Server/Genetics/EntitySystems/GeneticConsoleSystem.cs:188 | joining one more text appends a single space and that text |
| GeneticsConsole.CacheFill | Content.Server/Genetics/EntitySystems/GeneticConsoleSystem.cs:193-197 | a cached gene keeps its puzzle; a missing one gets the puzzle generated from its first block's text; no other entry changes |
| GeneticsConsole.CacheFillIdempotent | Content.Server/Genetics/EntitySystems/GeneticConsoleSystem.cs:193-197 | once a puzzle is cached, filling again changes nothing, whatever the new draws |
| GeneticsConsole.UseBlockConserves | Content.Server/Genetics/EntitySystems/GeneticConsoleSystem.cs:326-331 | using unused block i keeps the multiset of all blocks and the solution, and appends exactly that block to the used list |
| GeneticsConsole.ReturnBlockConserves | Content.Server/Genetics/EntitySystems/GeneticConsoleSystem.cs:339-344 | returning used block i keeps the multiset of all blocks and the solution, and appends exactly that block to the unused list |
| GeneticsConsole.UseThenReturn | Content.Server/Genetics/EntitySystems/GeneticConsoleSystem.cs:322-346 | using the last unused block and then returning it gives the puzzle back |
| GeneticsConsole.FillChangesOneField | Content.Server/Genetics/EntitySystems/GeneticConsoleSystem.cs:402-426 | a fill changes only the addressed pair's assigned base on one strand; unused blocks come first and then used ones; out-of-range indices change nothing; negative ones fail |
| GeneticsConsole.GeneticConsoleSystem.constructor | Content.Server/Genetics/EntitySystems/GeneticConsoleSystem.cs:39 | the cache starts empty, with no target and no puzzle |
| GeneticsConsole.GeneticConsoleSystem.EnsurePuzzle | Content.Server/Genetics/EntitySystems/GeneticConsoleSystem.cs:193-197 | the cache becomes its filled version |
| GeneticsConsole.GeneticConsoleSystem.OnStartActivationButton | Content.Server/Genetics/EntitySystems/GeneticConsoleSystem.cs:295-312 | selects the gene and its cached or freshly generated puzzle; an index out of range fails |
| GeneticsConsole.GeneticConsoleSystem.OnCancelActivationButton | Content.Server/Genetics/EntitySystems/GeneticConsoleSystem.cs:314-320 | clears the target and keeps the cache |
| GeneticsConsole.GeneticConsoleSystem.OnUnusedBlockButton | Content.Server/Genetics/EntitySystems/GeneticConsoleSystem.cs:322-333 | with a puzzle, the cached puzzle becomes the pressed one; without one nothing changes |
| GeneticsConsole.GeneticConsoleSystem.OnUsedBlockButton | Content.Server/Genetics/EntitySystems/GeneticConsoleSystem.cs:335-346 | the mirror of the unused-block button |
| GeneticsConsole.GeneticConsoleSystem.OnFillBasePairButton | Content.Server/Genetics/EntitySystems/GeneticConsoleSystem.cs:402-426 | the cached puzzle becomes the filled puzzle |
| GeneticsConsole.GeneticConsoleSystem.OnActivateButton | Content.Server/Genetics/EntitySystems/GeneticConsoleSystem.cs:428-459 | as written: with a puzzle, the target is activated whatever the score |
| GeneticsConsole.GeneticConsoleSystem.OnActivateButtonChecked | Content.Server/Genetics/EntitySystems/GeneticConsoleSystem.cs:428-459 | activates exactly when there is a target and a current puzzle that can be submitted (the guard the client window puts on the activate button, Content.Client/GeneticsConsole/UI/GeneticsConsoleWindow.xaml.cs:179) and whose submitted sequence spells the solution |
| GeneticsConsole.GeneticConsoleSystem.GenerateDisplayForAllGenes | Content.Server/Genetics/EntitySystems/GeneticConsoleSystem.cs:180-205 | succeeds exactly when filling the cache gene by gene in list order (FillAll) succeeds, and the new cache is then exactly that fill; on failure the cache is the fill of the genes before the first failing gene, so puzzles stored for earlier genes stay; each display is the gene's block texts joined with spaces, or for an inactive mutation the submitted sequence of its cached puzzle with used blocks first |
| GeneticsConsole.GeneticConsoleSystem.ShowGene | Content.Server/Genetics/EntitySystems/GeneticConsoleSystem.cs:186-203 | one gene: an ordinary gene leaves the cache alone and shows its joined block texts; an inactive mutation's cache becomes CacheFill of the old one, and on success it shows the puzzle's submitted sequence |
| GeneticsConsole.FillAllCovers | Content.Server/Genetics/EntitySystems/GeneticConsoleSystem.cs:193-197 | after a successful fill the cache keys are the old keys plus the inactive mutation genes and nothing else, and every old entry is unchanged |
| GeneticsConsole.FillAllFailurePersists | Content.Server/Genetics/EntitySystems/GeneticConsoleSystem.cs:183-203 | a failure at some gene makes the whole display fail, as the exception leaves the loop |
| GeneticsConsole.WrongSubmissionScoresNonZero | Content.Server/Genetics/EntitySystems/GeneticConsoleSystem.cs:438-445 | a puzzle with a wrong submission has a non-zero diff, yet the as-written button activates it |
| GeneticsCodec.ConvertToBlocks | Content.Server/Genetics/EntitySystems/GeneticsSystem.cs:243-257 | four blocks, R, G, B, A, each of the requested kind |
| GeneticsCodec.ConvertToColor | Content.Server/Genetics/EntitySystems/GeneticsSystem.cs:258-275 | White unless there are exactly four blocks; otherwise their values as the channels |
| GeneticsCodec.ColorBlocksRoundTrip | Content.Server/Genetics/EntitySystems/GeneticsSystem.cs:225-275 | reading the colour blocks back in groups of four gives the colours |
| GeneticsCodec.FirstKey | Content.Server/Genetics/EntitySystems/GeneticsSystem.cs:182-199 | the first index of the value in the table, or 0 when it is absent |
| GeneticsCodec.SpeciesGene | Content.Server/Genetics/EntitySystems/GeneticsSystem.cs:182-190 | one primary block whose key looks up the species |
| GeneticsCodec.SexGene | Content.Server/Genetics/EntitySystems/GeneticsSystem.cs:191-199 | one primary block whose key looks up the sex |
| GeneticsCodec.ColorGene | Content.Server/Genetics/EntitySystems/GeneticsSystem.cs:239-242 | four blocks that read back as the colour |
| GeneticsCodec.MarkingGene | Content.Server/Genetics/EntitySystems/GeneticsSystem.cs:225-237 | a marking gene of the category: one primary block, then four modifier blocks per colour |
| GeneticsCodec.MarkingGeneList | Content.Server/Genetics/EntitySystems/GeneticsSystem.cs:211-214 | one gene per marking of the category |
| GeneticsCodec.Padding | Content.Server/Genetics/EntitySystems/GeneticsSystem.cs:215-218 | empty marking genes of the category |
| GeneticsCodec.CategoryGenesCount | Content.Server/Genetics/EntitySystems/GeneticsSystem.cs:200-223 | a category gets the larger of its marking count and its point cap |
| GeneticsCodec.GeneticSequenceLayout | Content.Server/Genetics/EntitySystems/GeneticsSystem.cs:356-376 | species at 0, sex at 1, skin at 2, eyes at 3, with no blocks when there are no eyes, then the marking genes |
| GeneticsCodec.DecodeMarkingMeaning | Content.Server/Genetics/EntitySystems/GeneticsSystem.cs:110-147 | a marking decodes exactly when all its primary keys resolve; it has an id exactly when there is a primary block, and then the id is the last one; its colours are the complete groups of four modifiers, with a trailing partial group dropped |
| GeneticsCodec.ScanMeaning | Content.Server/Genetics/EntitySystems/GeneticsSystem.cs:118-133 | the block scan in closed form, from any scan state |
| GeneticsCodec.MarkingRoundTrip | Content.Server/Genetics/EntitySystems/GeneticsSystem.cs:110-147 | decoding an encoded marking gives the marking back |
| GeneticsCodec.FirstBlockValue | Content.Server/Genetics/EntitySystems/GeneticsSystem.cs:77-78 | the value of the gene's first block; fails on a missing gene or block |
| GeneticsCodec.Lookup | Content.Server/Genetics/EntitySystems/GeneticsSystem.cs:77-78 | the table entry; fails with a missing key when out of range |
| GeneticsCodec.DecodeMarkingsAppend | Content.Server/Genetics/EntitySystems/GeneticsSystem.cs:88-99 | decoding a concatenation of gene lists is concatenating the decodings |
| GeneticsCodec.MarkingGenesDecode | Content.Server/Genetics/EntitySystems/GeneticsSystem.cs:88-99 | the encoded marking genes decode to the markings, category by category, and padding decodes to nothing |
| GeneticsCodec.GenesRoundTrip | Content.Server/Genetics/EntitySystems/GeneticsSystem.cs:70-108 | decoding the generated gene list of an encodable appearance gives its species, sex, colours and markings |
| GeneticsCodec.MergeMax | Content.Server/Genetics/EntitySystems/GeneticsSystem.cs:294-302 | the keys are the union of both maps |
| GeneticsCodec.MaxPointsIsMaximum | Content.Server/Genetics/EntitySystems/GeneticsSystem.cs:290-304 | each category's cap is at least every prototype's points and equal to one of them |
| GeneticsCodec.EveryCategory | Content.Server/Genetics/EntitySystems/GeneticsSystem.cs:317-333 | every category maps to the same table |
| GeneticsCodec.GeneticsSystem.constructor | Content.Server/Genetics/EntitySystems/GeneticsSystem.cs:42-45 | the tables start empty |
| GeneticsCodec.GeneticsSystem.Initialize | Content.Server/Genetics/EntitySystems/GeneticsSystem.cs:53-65 | the tables become the species, sexes, markings per category, and per-category maximum points |
| GeneticsCodec.GeneticsSystem.PopulateSpeciesIndex | Content.Server/Genetics/EntitySystems/GeneticsSystem.cs:277-288 | the species table is the prototype list in order |
| GeneticsCodec.GeneticsSystem.PopulateSexIndex | Content.Server/Genetics/EntitySystems/GeneticsSystem.cs:305-315 | the sex table is the sex list in order |
| GeneticsCodec.GeneticsSystem.PopulateMarkingsIndex | Content.Server/Genetics/EntitySystems/GeneticsSystem.cs:317-333 | every category's table is the marking list in order |
| GeneticsCodec.GeneticsSystem.PopulateMarkingPointsIndex | Content.Server/Genetics/EntitySystems/GeneticsSystem.cs:290-304 | the caps are the maximum points over the prototypes |
| GeneticsCodec.GeneticsSystem.RaiseCaps | Content.Server/Genetics/EntitySystems/GeneticsSystem.cs:294-302 | one prototype raises each of its categories to the larger value |
| GeneticsCodec.GeneticsSystem.ConvertToGeneForMarking | Content.Server/Genetics/EntitySystems/GeneticsSystem.cs:225-237 | the loop builds the marking gene |
| GeneticsCodec.GeneticsSystem.ConvertToGenes | Content.Server/Genetics/EntitySystems/GeneticsSystem.cs:200-223 | the nested loops build the marking genes of every category with padding |
| GeneticsCodec.GeneticsSystem.GenerateGeneticSequence | Content.Server/Genetics/EntitySystems/GeneticsSystem.cs:356-376 | the gene list of the appearance |
| GeneticsCodec.GeneticsSystem.TryConvertToMarking | Content.Server/Genetics/EntitySystems/GeneticsSystem.cs:110-147 | the block loop computes the marking decoding |
| GeneticsCodec.GeneticsSystem.ModifyGenes | Content.Server/Genetics/EntitySystems/GeneticsSystem.cs:70-108 | the decoding of the gene list |
| DnaSequencer.Toggled | Content.Server/Genetics/EntitySystems/DNASequencerSystem.cs:157-169 | the other mode |
| DnaSequencer.DnaSequencer.constructor | Content.Server/Genetics/Components/DNASequencerComponent.cs:28-36 | Sequence mode, no sample, no token |
| DnaSequencer.DnaSequencer.OnModificationCancelled | Content.Server/Genetics/EntitySystems/DNASequencerSystem.cs:43-46 | clears the token only |
| DnaSequencer.DnaSequencer.OnModificationComplete | Content.Server/Genetics/EntitySystems/DNASequencerSystem.cs:48-52 | clears the token, then uses the sequencer on the target |
| DnaSequencer.DnaSequencer.UseDnaSequencer | Content.Server/Genetics/EntitySystems/DNASequencerSystem.cs:54-83 | in Sequence mode the sample becomes the target's genes; in Modify mode a humanoid target gets the sample; a target without genes changes nothing |
| DnaSequencer.DnaSequencer.OnDnaSequencerDeselected | Content.Server/Genetics/EntitySystems/DNASequencerSystem.cs:85-89 | cancels a pending token and clears it |
| DnaSequencer.DnaSequencer.OnDnaSequencerAfterInteract | Content.Server/Genetics/EntitySystems/DNASequencerSystem.cs:101-131 | while a token is pending the interaction is handled and starts nothing; otherwise a valid mob or gene target gets a fresh token |
| DnaSequencer.DnaSequencer.ModifyDoAfter | Content.Server/Genetics/EntitySystems/DNASequencerSystem.cs:177-241 | a fresh, uncancelled token |
| DnaSequencer.DnaSequencer.OnDnaSequencerUse | Content.Server/Genetics/EntitySystems/DNASequencerSystem.cs:139-148 | an unhandled use toggles the mode |
| DnaSequencer.DnaSequencer.Toggle | Content.Server/Genetics/EntitySystems/DNASequencerSystem.cs:153-172 | the mode becomes the other one |
| DnaSequencer.DnaSequencer.TryModifyGenes | Content.Server/Genetics/EntitySystems/DNASequencerSystem.cs:243-260 | the mode becomes Sequence even without a sample; with a sample and a humanoid target the genes become the sample |
| DnaSequencer.DnaSequencer.AfterSequence | Content.Server/Genetics/EntitySystems/DNASequencerSystem.cs:262-265 | the mode becomes Modify |
| DnaSequencer.DnaSequencer.TrySequence | Content.Server/Genetics/EntitySystems/DNASequencerSystem.cs:267-280 | the sample becomes the target's genes and the mode Modify |
| DnaSequencer.SequenceThenModify | Content.Server/Genetics/EntitySystems/DNASequencerSystem.cs:54-83 | sequencing one entity and then modifying a humanoid copies the first one's genes into it |
| Mutations.LowPressureResistMutationEffect.DoApply | Content.Server/Genetics/MutationEffects/LowPressureResistMutationEffect.cs:14-17 | the source's entry becomes the multiplier; the other entries are kept |
| Mutations.LowPressureResistMutationEffect.DoRemove | Content.Server/Genetics/MutationEffects/LowPressureResistMutationEffect.cs:19-22 | deletes the source's entry and nothing else |
| Mutations.DamageResistanceMutationEffect.Apply | Content.Server/Genetics/MutationEffects/DamageResistanceMutationEffect.cs:21-28 | creates the component if missing, then stores the source's single-coefficient modifier set |
| Mutations.DamageResistanceMutationEffect.Remove | Content.Server/Genetics/MutationEffects/DamageResistanceMutationEffect.cs:30-36 | deletes the source's entry; without a component nothing changes |
| Mutations.ApplyIdempotent | Content.Server/Genetics/MutationEffects/LowPressureResistMutationEffect.cs:16 | applying twice is applying once |
| Mutations.ApplyThenRemove | Content.Server/Genetics/MutationEffects/LowPressureResistMutationEffect.cs:14-22 | apply then remove leaves no entry for the source and the others as they were |
| Mutations.RemoveAbsent | Content.Server/Genetics/MutationEffects/LowPressureResistMutationEffect.cs:21 | removing an absent source changes nothing |
| Mutations.LowPressureFactorUnique | Content.Server/Genetics/EntitySystems/MutationsSystem.cs:34-38 | the factor does not depend on the iteration order |
| Mutations.HighestResistance | Content.Server/Genetics/EntitySystems/MutationsSystem.cs:34-38 | the result is at least 1 and at least every resistance, and equals 1 or one of them; an empty map gives 1 |
| Mutations.OnLowPressureModify | Content.Server/Genetics/EntitySystems/MutationsSystem.cs:31-40 | the multiplier is scaled by that factor; an empty map leaves it unchanged |
| ReactToDamage.Rungs | Content.Server/Genetics/MutationEffects/ReactToDamageMutationEffect.cs:28-38 | the number of positive multiples of the step strictly below the bound |
| ReactToDamage.Ladder | Content.Server/Genetics/MutationEffects/ReactToDamageMutationEffect.cs:31-35 | the k-th threshold is at (k+1)·step with the one behaviour |
| ReactToDamage.LadderBelowBound | Content.Server/Genetics/MutationEffects/ReactToDamageMutationEffect.cs:28-38 | every added threshold is below the limit, the next multiple is not, and the damages increase strictly |
| ReactToDamage.RungsUnique | Content.Server/Genetics/MutationEffects/ReactToDamageMutationEffect.cs:29-37 | the loop's iteration count is the number of rungs |
| ReactToDamage.Ceiling | Content.Server/Genetics/MutationEffects/ReactToDamageMutationEffect.cs:29 | the least integer not below the limit, so an integer damage is below the limit exactly when it is below this value |
| ReactToDamage.ReactToDamageMutationEffect.Apply | Content.Server/Genetics/MutationEffects/ReactToDamageMutationEffect.cs:24-40 | keeps the existing thresholds and appends the ladder below the limit; nothing is appended when the step is at or past the limit or there is no destructible component |

## Left out

- The console's user interface and networking, the gene pod, reports, the repair and sequence buttons, and the link and anchor handlers are not modelled. They only move data to the client.
- Colours are kept as integer channels in hundredths. The float-to-byte quantisation in ConvertToBlocks and ConvertToColor is not modelled; only the block structure is.
- Mutations.OnLowPressureModify: the multiplication is on reals, so float rounding is not modelled.
- MutationsSystem.OnDamageModify is not modelled. It calls the engine's damage-modifier code, which is not part of this model.
- ReactToDamageMutationEffect.Remove is not modelled. It removes from the list it is enumerating, which throws at run time in the engine's collection.
- ReactToDamage.ReactToDamageMutationEffect.Apply requires a step that ends the loop without overflowing 32 bits. With a non-positive step below the limit, the source loops forever or wraps around. The limit, a single-precision float, is kept as a real.
- DnaSequencer.DnaSequencer.ModifyDoAfter: the delay arithmetic, the popups and the do-after system are not modelled; only the fresh token is.
- DnaSequencer: the sample and the target's genes are kept as values, so aliasing between the shared list objects is not modelled.
- PuzzleGenerator: random numbers come from a Draws parameter whose entries are in the ranges the random calls use. The shuffle is modelled as the swap sequence of a Fisher–Yates pass, because the engine's shuffle is not part of this model.
- GeneticsCodec: a Block is modelled by its value and kind only; its display text is left out. GeneticsConsole uses the display texts of a gene's blocks as plain strings.
- GeneticsCodec: the humanoid appearance setters, the per-colour marking slots and the event raising in ModifyGenes are not modelled. ModifyGenes returns the decoded appearance (species, sex, skin, eyes, markings) instead of writing it into the humanoid.
- GeneticsCodec: the Sex and MarkingCategories enums are parameters: a list of sex names and a category count.
- GeneticsCodec.GeneticsSystem.ConvertToGenes and GenerateGeneticSequence require tables in which every category has a marking table; Initialize establishes this, as the source's initialization does. ModifyGenes accepts any tables and fails with KeyNotFound on a category without one.
- GeneticsCodec: the source's GenerateGeneticSequence emits no cipher genes and no mutation genes; the model follows the code.
- PuzzleGenerator: a jagged split adds one pair per split. So the blocks hold more pairs than the solution has letters, and only the combined sequence has one pair per letter. The model follows the code.
- SharedGenetics.DecimalToGene returns None for long.MinValue, where the source's Math.Abs throws on overflow.
- GetGeneTypeLoc and the gene display strings are localisation only and are not modelled.

## Findings

| source | as written | input that shows it | evidently intended | confidence | as-written member | corrected member |
|---|---|---|---|---|---|---|
| Content.Server/Genetics/EntitySystems/GeneticConsoleSystem.cs:438-445 | `forceActivate` is set to true, so a puzzle is activated whatever its diff | a puzzle with solution "A" whose one used block holds a pair assigned T/A: the diff is 1, yet the mutation is activated | activate only when the puzzle can be submitted (the client disables the button otherwise, Content.Client/GeneticsConsole/UI/GeneticsConsoleWindow.xaml.cs:179) and its submitted sequence equals the solution, i.e. its diff is 0 | not executed | GeneticsConsole.GeneticConsoleSystem.OnActivateButton, GeneticsConsole.WrongSubmissionScoresNonZero | GeneticsConsole.GeneticConsoleSystem.OnActivateButtonChecked |
