/*
 * The stage-list part of the GUI application (src/gui/app.rs): the user
 * edits the ordered list of stage configurations, every effective edit marks
 * the amplifier chain dirty, and a periodic tick rebuilds the chain from the
 * list, at the oversampled rate, only when it is dirty.
 */
module App {
  import opened Common
  import opened Stages

  /** The `update` arms that edit or rebuild the stage list. */
  datatype Message =
    | SetStages(stages: seq<StageConfig>)
    | RebuildTick
    | AddStage
    | RemoveStage(idx: nat)
    | MoveStageUp(idx: nat)
    | MoveStageDown(idx: nat)
    | StageTypeSelected(kind: StageType)
    | Stage(idx: nat, msg: StageMessage)

  /** What `build_amplifier_chain` hands the engine: the stages in order and the rate they run at. */
  datatype ChainSpec = ChainSpec(stages: seq<StageConfig>, sampleRate: nat)

  /** `s.swap(i, j)`. */
  function Swap<T>(s: seq<T>, i: nat, j: nat): (r: seq<T>)
    requires i < |s| && j < |s|
    ensures |r| == |s| && r[i] == s[j] && r[j] == s[i]
    ensures forall k :: 0 <= k < |s| && k != i && k != j ==> r[k] == s[k]
  {
    s[i := s[j]][j := s[i]]
  }

  /** A swap only reorders the list. */
  lemma SwapPermutes<T>(s: seq<T>, i: nat, j: nat)
    requires i < |s| && j < |s|
    ensures multiset(Swap(s, i, j)) == multiset(s)
  {
  }

  /** `s.remove(idx)`. */
  function RemoveAt<T>(s: seq<T>, idx: nat): (r: seq<T>)
    requires idx < |s|
    ensures |r| == |s| - 1
    ensures forall k :: 0 <= k < idx ==> r[k] == s[k]
    ensures forall k :: idx <= k < |r| ==> r[k] == s[k + 1]
  {
    s[..idx] + s[idx + 1..]
  }

  /** Removing drops exactly the one element at the index. */
  lemma RemoveAtMultiset<T>(s: seq<T>, idx: nat)
    requires idx < |s|
    ensures multiset(RemoveAt(s, idx)) + multiset{s[idx]} == multiset(s)
  {
    assert s == s[..idx] + [s[idx]] + s[idx + 1..];
  }

  /**
   * The list after one message and whether the arm calls
   * `mark_stages_dirty`. `selected` is the stage type chosen in the control
   * bar. `RebuildTick` and `StageTypeSelected` leave the list alone.
   */
  function Transition(stages: seq<StageConfig>, selected: StageType, msg: Message): (seq<StageConfig>, bool) {
    match msg
    case SetStages(s) => (s, true)
    case RebuildTick => (stages, false)
    case AddStage => (stages + [FromKind(selected)], true)
    case RemoveStage(idx) => if idx < |stages| then (RemoveAt(stages, idx), true) else (stages, false)
    case MoveStageUp(idx) => if 0 < idx < |stages| then (Swap(stages, idx - 1, idx), true) else (stages, false)
    case MoveStageDown(idx) => if idx + 1 < |stages| then (Swap(stages, idx, idx + 1), true) else (stages, false)
    case StageTypeSelected(_) => (stages, false)
    case Stage(idx, m) =>
      if idx < |stages| then
        var (applied, c) := Apply(stages[idx], m);
        (stages[idx := c], applied)
      else (stages, false)
  }

  /** AddStage appends one stage of the selected type at its defaults. */
  lemma AddStageAppends(stages: seq<StageConfig>, selected: StageType)
    ensures var (s, dirty) := Transition(stages, selected, AddStage);
      && dirty && |s| == |stages| + 1 && s[..|stages|] == stages
      && s[|stages|].kind == selected && s[|stages|] == FromKind(selected)
  {
  }

  /** RemoveStage acts only on an index inside the list, and then drops exactly that stage. */
  lemma RemoveStageGuarded(stages: seq<StageConfig>, selected: StageType, idx: nat)
    ensures var (s, dirty) := Transition(stages, selected, RemoveStage(idx));
      && (dirty <==> idx < |stages|)
      && (idx < |stages| ==> |s| == |stages| - 1 && multiset(s) + multiset{stages[idx]} == multiset(stages))
      && (idx >= |stages| ==> s == stages)
  {
    if idx < |stages| {
      RemoveAtMultiset(stages, idx);
    }
  }

  /** MoveStageUp swaps a stage with its predecessor when there is one, keeping the same stages. */
  lemma MoveStageUpGuarded(stages: seq<StageConfig>, selected: StageType, idx: nat)
    ensures var (s, dirty) := Transition(stages, selected, MoveStageUp(idx));
      && (dirty <==> 0 < idx < |stages|)
      && multiset(s) == multiset(stages) && |s| == |stages|
      && (dirty ==> s[idx - 1] == stages[idx] && s[idx] == stages[idx - 1])
      && (!dirty ==> s == stages)
  {
    if 0 < idx < |stages| {
      SwapPermutes(stages, idx - 1, idx);
    }
  }

  /** MoveStageDown swaps a stage with its successor when there is one, keeping the same stages. */
  lemma MoveStageDownGuarded(stages: seq<StageConfig>, selected: StageType, idx: nat)
    ensures var (s, dirty) := Transition(stages, selected, MoveStageDown(idx));
      && (dirty <==> idx + 1 < |stages|)
      && multiset(s) == multiset(stages) && |s| == |stages|
      && (dirty ==> s[idx] == stages[idx + 1] && s[idx + 1] == stages[idx])
      && (!dirty ==> s == stages)
  {
    if idx + 1 < |stages| {
      SwapPermutes(stages, idx, idx + 1);
    }
  }

  /** Moving a stage up and then back down restores the list. */
  lemma MoveUpThenDown(stages: seq<StageConfig>, selected: StageType, idx: nat)
    requires 0 < idx < |stages|
    ensures Transition(Transition(stages, selected, MoveStageUp(idx)).0, selected, MoveStageDown(idx - 1)).0 == stages
  {
    var up := Transition(stages, selected, MoveStageUp(idx)).0;
    var down := Transition(up, selected, MoveStageDown(idx - 1)).0;
    assert forall k :: 0 <= k < |stages| ==> down[k] == stages[k];
  }

  /**
   * A stage message marks the chain dirty exactly when the index exists and
   * the message is of that stage's kind; only that stage can change.
   */
  lemma StageMessageMarksIffApplied(stages: seq<StageConfig>, selected: StageType, idx: nat, m: StageMessage)
    ensures var (s, dirty) := Transition(stages, selected, Stage(idx, m));
      && (dirty <==> idx < |stages| && stages[idx].kind == m.kind)
      && |s| == |stages|
      && (forall k :: 0 <= k < |stages| && k != idx ==> s[k] == stages[k])
      && (!dirty ==> s == stages)
  {
  }

  /** `build_amplifier_chain`: the configured stages, in list order, at `sample_rate · oversampling_factor`. */
  function BuildAmplifierChain(stages: seq<StageConfig>, sampleRate: nat, oversamplingFactor: nat): (c: ChainSpec)
    ensures c.stages == stages && c.sampleRate == sampleRate * oversamplingFactor
  {
    ChainSpec(stages, sampleRate * oversamplingFactor)
  }

  class AmplifierApp {
    var stages: seq<StageConfig>
    /** The stage type chosen in the control bar. */
    var selectedType: StageType
    var dirtyChain: bool
    /** The list the stage-list widget shows. */
    var shownStages: seq<StageConfig>
    const oversamplingFactor: nat
    /** The last chain handed to the engine. */
    var engineChain: Option<ChainSpec>

    /** Between edits the widget shows the current list. */
    ghost predicate Valid()
      reads this
    {
      shownStages == stages
    }

    /** `boot`, for the stage list: the preset's stages, a pending rebuild, the default stage type. */
    constructor (presetStages: seq<StageConfig>, oversamplingFactor: nat)
      ensures Valid()
      ensures stages == presetStages && dirtyChain && selectedType == DEFAULT_STAGE_TYPE
      ensures this.oversamplingFactor == oversamplingFactor && engineChain == None
    {
      stages := presetStages;
      shownStages := presetStages;
      selectedType := DEFAULT_STAGE_TYPE;
      dirtyChain := true;
      this.oversamplingFactor := oversamplingFactor;
      engineChain := None;
    }

    /** `mark_stages_dirty`. */
    method MarkStagesDirty()
      modifies this`dirtyChain, this`shownStages
      ensures dirtyChain && shownStages == stages
    {
      dirtyChain := true;
      shownStages := stages;
    }

    /** `rebuild_if_dirty`: rebuild and clear the flag, or nothing at all when clean. */
    method RebuildIfDirty(sampleRate: nat)
      modifies this`dirtyChain, this`engineChain
      ensures !dirtyChain
      ensures old(dirtyChain) ==> engineChain == Some(BuildAmplifierChain(stages, sampleRate, oversamplingFactor))
      ensures !old(dirtyChain) ==> engineChain == old(engineChain)
    {
      if !dirtyChain {
        return;
      }
      engineChain := Some(BuildAmplifierChain(stages, sampleRate, oversamplingFactor));
      dirtyChain := false;
    }

    /** The stage-list arms of `update`. */
    method Update(msg: Message, sampleRate: nat)
      requires Valid()
      modifies this`stages, this`selectedType, this`dirtyChain, this`shownStages, this`engineChain
      ensures Valid()
      ensures stages == Transition(old(stages), old(selectedType), msg).0
      ensures selectedType == if msg.StageTypeSelected? then msg.kind else old(selectedType)
      ensures msg.RebuildTick? ==> !dirtyChain
      ensures msg.RebuildTick? ==>
        (engineChain == if old(dirtyChain) then Some(BuildAmplifierChain(stages, sampleRate, oversamplingFactor)) else old(engineChain))
      ensures !msg.RebuildTick? ==> engineChain == old(engineChain)
      ensures !msg.RebuildTick? ==> dirtyChain == (old(dirtyChain) || Transition(old(stages), old(selectedType), msg).1)
    {
      match msg {
        case SetStages(s) =>
          stages := s;
          MarkStagesDirty();
        case RebuildTick =>
          RebuildIfDirty(sampleRate);
        case AddStage =>
          stages := stages + [FromKind(selectedType)];
          MarkStagesDirty();
        case RemoveStage(idx) =>
          if idx < |stages| {
            stages := RemoveAt(stages, idx);
            MarkStagesDirty();
          }
        case MoveStageUp(idx) =>
          if idx > 0 && idx < |stages| {
            stages := Swap(stages, idx - 1, idx);
            MarkStagesDirty();
          }
        case MoveStageDown(idx) =>
          if idx + 1 < |stages| {
            stages := Swap(stages, idx, idx + 1);
            MarkStagesDirty();
          }
        case StageTypeSelected(kind) =>
          selectedType := kind;
        case Stage(idx, m) =>
          if idx < |stages| {
            var (applied, c) := Apply(stages[idx], m);
            stages := stages[idx := c];
            if applied {
              MarkStagesDirty();
            }
          }
      }
    }
  }

  /** After a rebuild tick the chain is clean and a second tick hands the engine nothing new. */
  method RebuildTwice(app: AmplifierApp, sampleRate: nat)
    requires app.Valid()
    modifies app
    ensures !app.dirtyChain && app.stages == old(app.stages)
    ensures old(app.dirtyChain) ==> app.engineChain == Some(BuildAmplifierChain(app.stages, sampleRate, app.oversamplingFactor))
    ensures !old(app.dirtyChain) ==> app.engineChain == old(app.engineChain)
  {
    app.Update(RebuildTick, sampleRate);
    app.Update(RebuildTick, sampleRate);
  }
}
