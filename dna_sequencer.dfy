/**
 * The DNA sequencer: a hand tool that alternates between sequencing a
 * target (copying its gene list into the sample) and modifying a target
 * (writing the sample into its genes). A mob target goes through a delayed
 * action guarded by a cancellation token; while the token is set the tool
 * is busy.
 */
module DnaSequencer {
  import opened Wrappers
  import opened SharedGenetics
  import opened GeneticsCodec

  datatype ToggleMode = Sequence | Modify

  /** The other mode. */
  function Toggled(mode: ToggleMode): (r: ToggleMode)
    ensures r != mode
  {
    match mode
    case Modify => Sequence
    case Sequence => Modify
  }

  /** Toggling twice restores the mode. */
  lemma ToggleTwice(mode: ToggleMode)
    ensures Toggled(Toggled(mode)) == mode
  {
  }

  /** A cancellation token source; cancelling it is all the sequencer does with it. */
  class CancelSource {
    var cancelled: bool

    constructor()
      ensures !cancelled
    {
      cancelled := false;
    }

    method Cancel()
      modifies this
      ensures cancelled
    {
      cancelled := true;
    }
  }

  /** The gene list of an entity that has genes, and whether it is also a humanoid, which gene modification needs. */
  class GeneticSequence {
    var genes: seq<Gene>
    const hasHumanoid: bool

    constructor(genes: seq<Gene>, hasHumanoid: bool)
      ensures this.genes == genes && this.hasHumanoid == hasHumanoid
    {
      this.genes := genes;
      this.hasHumanoid := hasHumanoid;
    }
  }

  class DnaSequencer {
    var toggleState: ToggleMode
    var sample: Option<seq<Gene>>
    var cancelToken: CancelSource?

    /** A fresh sequencer starts in Sequence mode, with no sample and no pending action. */
    constructor()
      ensures toggleState == Sequence && sample == None && cancelToken == null
    {
      toggleState := Sequence;
      sample := None;
      cancelToken := null;
    }

    /** Cancellation of the delayed action clears the token. */
    method OnModificationCancelled()
      modifies this
      ensures cancelToken == null
      ensures toggleState == old(toggleState) && sample == old(sample)
    {
      cancelToken := null;
    }

    /** Completion of the delayed action clears the token and then uses the sequencer on the target. */
    method OnModificationComplete(subject: GeneticSequence?, genetics: GeneticsSystem) returns (decoded: Option<Result<Decoded>>)
      modifies this, subject
      ensures cancelToken == null
      ensures subject == null ==> toggleState == old(toggleState) && sample == old(sample) && decoded.None?
      ensures subject != null && old(toggleState) == Sequence ==>
        sample == Some(old(subject.genes)) && toggleState == Modify && decoded.None?
      ensures subject != null && old(toggleState) == Modify ==>
        && toggleState == Sequence && sample == old(sample)
        && (if old(sample).Some? && subject.hasHumanoid
            then subject.genes == old(sample).value && decoded == Some(DecodeGenes(genetics.Current(), old(sample).value))
            else subject.genes == old(subject.genes) && decoded.None?)
    {
      cancelToken := null;
      decoded := UseDnaSequencer(subject, genetics);
    }

    /**
     * In Modify mode the sample is written into a target with genes; in
     * Sequence mode the target's genes are copied into the sample. A target
     * without genes only gets a message.
     */
    method UseDnaSequencer(subject: GeneticSequence?, genetics: GeneticsSystem) returns (decoded: Option<Result<Decoded>>)
      modifies this, subject
      ensures cancelToken == old(cancelToken)
      ensures subject == null ==> toggleState == old(toggleState) && sample == old(sample) && decoded.None?
      ensures subject != null && old(toggleState) == Sequence ==>
        sample == Some(old(subject.genes)) && toggleState == Modify && subject.genes == old(subject.genes) && decoded.None?
      ensures subject != null && old(toggleState) == Modify ==>
        && toggleState == Sequence && sample == old(sample)
        && (if old(sample).Some? && subject.hasHumanoid
            then subject.genes == old(sample).value && decoded == Some(DecodeGenes(genetics.Current(), old(sample).value))
            else subject.genes == old(subject.genes) && decoded.None?)
    {
      decoded := None;
      if subject == null {
        return;
      }
      match toggleState
      case Modify =>
        decoded := TryModifyGenes(subject, genetics);
      case Sequence =>
        TrySequence(subject);
    }

    /** Deselecting the sequencer cancels a pending action and clears the token. */
    method OnDnaSequencerDeselected()
      modifies this, cancelToken
      ensures cancelToken == null
      ensures old(cancelToken) != null ==> old(cancelToken).cancelled
      ensures toggleState == old(toggleState) && sample == old(sample)
    {
      if cancelToken != null {
        cancelToken.Cancel();
      }
      cancelToken := null;
    }

    /**
     * Using the sequencer on a target. An unhandled, reachable interaction
     * is swallowed while an action is pending; otherwise a valid target that
     * is a mob or has genes starts a delayed action with a fresh token, and
     * any other valid target gets the sequencer's message.
     */
    method OnDnaSequencerAfterInteract(handled: bool, canReach: bool, targetValid: bool, targetIsMob: bool,
                                       subject: GeneticSequence?, genetics: GeneticsSystem)
      returns (handledAfter: bool)
      modifies this
      ensures toggleState == old(toggleState) && sample == old(sample)
      ensures handled || !canReach ==> handledAfter == handled && cancelToken == old(cancelToken)
      ensures !handled && canReach && old(cancelToken) != null ==> handledAfter && cancelToken == old(cancelToken)
      ensures !handled && canReach && old(cancelToken) == null && !targetValid ==> !handledAfter && cancelToken == null
      ensures !handled && canReach && old(cancelToken) == null && targetValid ==>
        && handledAfter
        && (if targetIsMob || subject != null then fresh(cancelToken) && !cancelToken.cancelled else cancelToken == null)
    {
      if handled || !canReach {
        return handled;
      }
      if cancelToken != null {
        return true;
      }
      if !targetValid {
        return handled;
      }
      if targetIsMob || subject != null {
        ModifyDoAfter();
        return true;
      }
      var decoded := UseDnaSequencer(null, genetics);
      return true;
    }

    /** Starts the delayed action: a new token; the delay arithmetic is not modelled. */
    method ModifyDoAfter()
      modifies this
      ensures fresh(cancelToken) && !cancelToken.cancelled
      ensures toggleState == old(toggleState) && sample == old(sample)
    {
      cancelToken := new CancelSource();
    }

    /** Using the sequencer in hand toggles its mode. */
    method OnDnaSequencerUse(handled: bool) returns (handledAfter: bool)
      modifies this
      ensures handledAfter
      ensures toggleState == (if handled then old(toggleState) else Toggled(old(toggleState)))
      ensures sample == old(sample) && cancelToken == old(cancelToken)
    {
      if handled {
        return true;
      }
      Toggle();
      return true;
    }

    method Toggle()
      modifies this
      ensures toggleState == Toggled(old(toggleState))
      ensures sample == old(sample) && cancelToken == old(cancelToken)
    {
      match toggleState
      case Modify =>
        toggleState := Sequence;
      case Sequence =>
        toggleState := Modify;
    }

    /**
     * Switches to Sequence mode whether or not there is a sample, then
     * hands the sample to ModifyGenes, which writes it into a humanoid
     * target's genes and decodes it.
     */
    method TryModifyGenes(subject: GeneticSequence, genetics: GeneticsSystem) returns (decoded: Option<Result<Decoded>>)
      modifies this, subject
      ensures toggleState == Sequence && sample == old(sample) && cancelToken == old(cancelToken)
      ensures old(sample).Some? && subject.hasHumanoid ==>
        subject.genes == old(sample).value && decoded == Some(DecodeGenes(genetics.Current(), old(sample).value))
      ensures old(sample).None? || !subject.hasHumanoid ==> subject.genes == old(subject.genes) && decoded.None?
    {
      toggleState := Sequence;
      if sample.None? {
        return None;
      }
      if !subject.hasHumanoid {
        return None;
      }
      subject.genes := sample.value;
      var r := genetics.ModifyGenes(sample.value);
      return Some(r);
    }

    method AfterSequence()
      modifies this
      ensures toggleState == Modify && sample == old(sample) && cancelToken == old(cancelToken)
    {
      toggleState := Modify;
    }

    /** Copies the target's genes into the sample and switches to Modify mode. */
    method TrySequence(subject: GeneticSequence)
      modifies this
      ensures sample == Some(subject.genes) && toggleState == Modify && cancelToken == old(cancelToken)
    {
      sample := Some(subject.genes);
      AfterSequence();
    }
  }

  /**
   * Sequencing one humanoid and then modifying another writes the first's
   * genes into the second, and leaves the tool in Sequence mode.
   */
  method SequenceThenModify(tool: DnaSequencer, source: GeneticSequence, target: GeneticSequence, genetics: GeneticsSystem)
    returns (decoded: Option<Result<Decoded>>)
    requires tool.toggleState == Sequence && target.hasHumanoid && source != target
    modifies tool, source, target
    ensures source.genes == old(source.genes)
    ensures target.genes == old(source.genes) && tool.sample == Some(old(source.genes))
    ensures decoded == Some(DecodeGenes(genetics.Current(), old(source.genes)))
    ensures tool.toggleState == Sequence
  {
    var ignored := tool.UseDnaSequencer(source, genetics);
    decoded := tool.UseDnaSequencer(target, genetics);
  }
}
