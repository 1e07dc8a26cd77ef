/**
 * The edit program's operation pipeline, as values: operation descriptors
 * with their declared input kinds, the arguments resolved for them, the log
 * of calls made into the world store, and the reference definitions of
 * running an operation, cancelling and confirming a destination.
 *
 * The world store, the selection box of the render world, the option dialogs
 * of plugins and the objects plugins return are outside the model: the box
 * and returned objects arrive as parameters, and every call into the world
 * store is appended to a log.
 */
module Operations {

  datatype Option<T> = None | Some(value: T)

  // the input kinds an operation may declare; any other string is skipped
  const SRC_BOX: string := "src_box"
  const DST_BOX: string := "dst_box"
  const DST_BOX_MULTIPLE: string := "dst_box_multiple"
  const STRUCTURE: string := "structure"
  const OPTIONS: string := "options"
  const WX_OPTIONS: string := "wxoptions"

  /** The kinds the main run resolves, and the subset a structure callable is given. */
  const MAIN_KINDS: set<string> := {SRC_BOX, DST_BOX, DST_BOX_MULTIPLE, STRUCTURE, OPTIONS, WX_OPTIONS}
  const STAGING_KINDS: set<string> := {SRC_BOX, OPTIONS, WX_OPTIONS}

  /** The selection state in which the render world's box is confirmed. */
  const BOX_CONFIRMED: int := 2

  datatype Point = Point(x: int, y: int, z: int)

  /** The render world's selection box as the pipeline reads it. */
  datatype SelectionBox = SelectionBox(selectState: int, min: Point, max: Point)

  datatype SubSelectionBox = SubSelectionBox(min: Point, max: Point)
  datatype Selection = Selection(boxes: seq<SubSelectionBox>)

  /** An entry point of a plugin, known only by its identity. */
  type EntryPoint = string

  /** A registered operation: its name, its declared inputs (empty when it declares
      none), its main entry point, and its optional structure callable and options dialog. */
  datatype Operation = Operation(
    name: string,
    inputs: seq<string>,
    main: EntryPoint,
    structureCallable: Option<EntryPoint>,
    optionsDialog: Option<EntryPoint>)

  type OptionsDict = map<string, string>

  /** The per-operation options store, keyed by operation path. */
  type OptionsStore = map<string, OptionsDict>

  /** What a plugin's options dialog returned. */
  datatype PluginValue = DictValue(dict: OptionsDict) | OtherValue

  /** An object returned by the world store, tagged with whether it is a Structure. */
  datatype WorldValue = WorldValue(isStructure: bool, id: nat)

  /** A staged structure: returned by a structure callable, or a snapshot of the selection. */
  datatype Staged = Returned(value: WorldValue) | Snapshot(selection: Selection)

  datatype Arg =
    | SelectionArg(selection: Selection)
    | OptionsArg(options: OptionsDict)
    | DestinationArg(dst: Point)
    | StructureArg(structure: Staged)
    | NoneArg

  /** One call into the world store's run_operation. */
  datatype Call = Call(entry: EntryPoint, args: seq<Arg>, createUndo: bool)

  /** Messages shown to the user or written to the log. */
  datatype Notice = NoSelection | NotAStructure | ShouldNotHappen | InvalidOptions(name: string, path: string)

  datatype Exception = NotImplemented | KeyError(key: string)
  datatype Outcome = Completed | Raised(error: Exception)

  datatype Phase =
    | Idle
    | AwaitingDestination(path: string, operation: Operation, inputs: seq<string>, structure: Staged)

  /** The abstract state of the pipeline: which panel is up, the world-store log,
      the messages shown, and the options store. */
  datatype Session = Session(phase: Phase, world: seq<Call>, messages: seq<Notice>, options: OptionsStore)

  /** Where each input kind is resolved from. */
  datatype Sources = Sources(selection: Option<Selection>, options: OptionsDict, dst: Arg, dstMultiple: Arg, structure: Arg)

  /** The selection an operation receives, present exactly when the box is confirmed. */
  function SelectionOf(box: SelectionBox): (r: Option<Selection>)
    ensures r.Some? <==> box.selectState == BOX_CONFIRMED
    ensures r.Some? ==> r.value.boxes == [SubSelectionBox(box.min, box.max)]
  {
    if box.selectState == BOX_CONFIRMED then Some(Selection([SubSelectionBox(box.min, box.max)])) else None
  }

  function OptionsFor(store: OptionsStore, path: string): OptionsDict {
    if path in store then store[path] else map[]
  }

  /** The argument one declared kind resolves to; None when a source box is needed and missing. */
  function Resolve(kind: string, src: Sources): (r: Option<Arg>)
    requires kind in MAIN_KINDS
    ensures r.None? <==> kind == SRC_BOX && src.selection.None?
  {
    if kind == SRC_BOX then
      (if src.selection.Some? then Some(SelectionArg(src.selection.value)) else None)
    else if kind == DST_BOX then Some(src.dst)
    else if kind == DST_BOX_MULTIPLE then Some(src.dstMultiple)
    else if kind == STRUCTURE then Some(src.structure)
    else Some(OptionsArg(src.options))
  }

  /** How many of the declared kinds are among `kinds`. */
  function Count(defs: seq<string>, kinds: set<string>): nat
    decreases |defs|
  {
    if defs == [] then 0
    else Count(defs[..|defs| - 1], kinds) + (if defs[|defs| - 1] in kinds then 1 else 0)
  }

  /** The arguments gathered, in declared order, for the kinds of `defs` that are in
      `kinds`; None when a source box is declared and none is confirmed. */
  function Gather(defs: seq<string>, src: Sources, kinds: set<string>): (r: Option<seq<Arg>>)
    requires kinds <= MAIN_KINDS
    ensures r.None? <==> SRC_BOX in kinds && SRC_BOX in defs && src.selection.None?
    ensures r.Some? ==> |r.value| == Count(defs, kinds)
    decreases |defs|
  {
    if defs == [] then Some([])
    else
      var last := defs[|defs| - 1];
      assert defs == defs[..|defs| - 1] + [last];
      match Gather(defs[..|defs| - 1], src, kinds)
      case None => None
      case Some(args) =>
        if last !in kinds then Some(args)
        else match Resolve(last, src)
          case None => None
          case Some(a) => Some(args + [a])
  }

  /** A gathered prefix is a prefix of the gathered whole. */
  lemma {:induction false} GatherPrefix(defs: seq<string>, src: Sources, kinds: set<string>, n: nat)
    requires kinds <= MAIN_KINDS && n <= |defs| && Gather(defs, src, kinds).Some?
    ensures Gather(defs[..n], src, kinds).Some?
    ensures Gather(defs[..n], src, kinds).value <= Gather(defs, src, kinds).value
    decreases |defs|
  {
    if n < |defs| {
      var init := defs[..|defs| - 1];
      assert init[..n] == defs[..n];
      GatherPrefix(init, src, kinds, n);
    } else {
      assert defs[..n] == defs;
    }
  }

  /** Declared order is kept: the k-th declared kind, when it is resolved, supplies the
      argument at the position equal to the number of resolved kinds declared before it. */
  lemma {:induction false} GatherAt(defs: seq<string>, src: Sources, kinds: set<string>, k: nat)
    requires kinds <= MAIN_KINDS && Gather(defs, src, kinds).Some?
    requires k < |defs| && defs[k] in kinds
    ensures Count(defs[..k], kinds) < |Gather(defs, src, kinds).value|
    ensures Some(Gather(defs, src, kinds).value[Count(defs[..k], kinds)]) == Resolve(defs[k], src)
  {
    var n := |defs|;
    GatherPrefix(defs, src, kinds, k + 1);
    var upTo := defs[..k + 1];
    assert upTo[..k] == defs[..k];
    var before := Gather(defs[..k], src, kinds);
    assert Gather(upTo, src, kinds) == Some(before.value + [Resolve(defs[k], src).value]);
  }

  /** A structure callable is only ever given selections and option dictionaries. */
  lemma {:induction false} StagingArgs(defs: seq<string>, src: Sources)
    requires Gather(defs, src, STAGING_KINDS).Some?
    ensures forall a :: a in Gather(defs, src, STAGING_KINDS).value ==> a.SelectionArg? || a.OptionsArg?
    decreases |defs|
  {
    if defs != [] {
      StagingArgs(defs[..|defs| - 1], src);
    }
  }

  function StagingSources(s: Session, path: string, box: SelectionBox): Sources {
    Sources(SelectionOf(box), OptionsFor(s.options, path), NoneArg, NoneArg, NoneArg)
  }

  /** The first phase of a two-phase operation: the session after it, and the staged structure unless it aborted. */
  function Stage(s: Session, path: string, op: Operation, box: SelectionBox, result: WorldValue): (r: (Session, Option<Staged>))
    ensures r.0.phase == s.phase && r.0.options == s.options
    ensures s.world <= r.0.world && |r.0.world| <= |s.world| + 1
    ensures |r.0.world| == |s.world| + 1 ==>
              op.structureCallable == Some(r.0.world[|s.world|].entry) && !r.0.world[|s.world|].createUndo
    ensures r.1.Some? <==> r.0.messages == s.messages
    ensures r.1.None? ==> |r.0.messages| == |s.messages| + 1 && s.messages <= r.0.messages
  {
    if op.structureCallable.Some? then
      match Gather(op.inputs, StagingSources(s, path, box), STAGING_KINDS)
      case None => (s.(messages := s.messages + [NoSelection]), None)
      case Some(args) =>
        var called := s.(world := s.world + [Call(op.structureCallable.value, args, false)]);
        if result.isStructure then (called, Some(Returned(result)))
        else (called.(messages := called.messages + [NotAStructure]), None)
    else if SRC_BOX in op.inputs then
      match SelectionOf(box)
      case None => (s.(messages := s.messages + [NoSelection]), None)
      case Some(selection) => (s, Some(Snapshot(selection)))
    else (s.(messages := s.messages + [ShouldNotHappen]), None)
  }

  /** The main run of an operation: one call with createUndo, unless a source box is missing. */
  function MainOperationEffect(s: Session, path: string, op: Operation, defs: seq<string>,
                               dst: Arg, dstMultiple: Arg, structure: Arg, box: SelectionBox): (r: Session)
    ensures r.phase == s.phase && r.options == s.options
    ensures r.messages != s.messages <==> SRC_BOX in defs && box.selectState != BOX_CONFIRMED
    ensures r.messages != s.messages ==> r.world == s.world && r.messages == s.messages + [NoSelection]
    ensures r.messages == s.messages ==>
              |r.world| == |s.world| + 1 && s.world <= r.world
              && r.world[|s.world|].entry == op.main && r.world[|s.world|].createUndo
  {
    match Gather(defs, Sources(SelectionOf(box), OptionsFor(s.options, path), dst, dstMultiple, structure), MAIN_KINDS)
    case None => s.(messages := s.messages + [NoSelection])
    case Some(args) => s.(world := s.world + [Call(op.main, args, true)])
  }

  /** Pressing "Run Operation" with operation `op` registered at `path`. */
  function RunOperationEffect(s: Session, path: string, op: Operation, box: SelectionBox, result: WorldValue): (r: (Session, Outcome))
    ensures r.0.options == s.options
    ensures s.world <= r.0.world && |r.0.world| <= |s.world| + 1
    ensures r.1 == Raised(NotImplemented) <==>
              DST_BOX_MULTIPLE in op.inputs && DST_BOX !in op.inputs && Stage(s, path, op, box, result).1.Some?
    ensures r.1 == Completed || r.1 == Raised(NotImplemented)
    ensures r.0.phase == s.phase
            || (DST_BOX in op.inputs && Stage(s, path, op, box, result).1.Some?
                && r.0.phase == AwaitingDestination(path, op, op.inputs, Stage(s, path, op, box, result).1.value))
  {
    if DST_BOX in op.inputs || DST_BOX_MULTIPLE in op.inputs then
      var staged := Stage(s, path, op, box, result);
      if staged.1.None? then (staged.0, Completed)
      else if DST_BOX in op.inputs then
        (staged.0.(phase := AwaitingDestination(path, op, op.inputs, staged.1.value)), Completed)
      else (staged.0, Raised(NotImplemented))
    else (MainOperationEffect(s, path, op, op.inputs, NoneArg, NoneArg, NoneArg, box), Completed)
  }

  function CancelEffect(s: Session): (r: Session)
    ensures r.phase == Idle
    ensures r.world == s.world && r.messages == s.messages && r.options == s.options
  {
    s.(phase := Idle)
  }

  function ConfirmEffect(s: Session, dst: Point, box: SelectionBox): (r: Session)
    requires s.phase.AwaitingDestination?
    ensures r.phase == Idle && r.options == s.options
    ensures s.world <= r.world && |r.world| <= |s.world| + 1
    ensures |r.world| == |s.world| + 1 <==> r.messages == s.messages
    ensures |r.world| == |s.world| + 1 ==>
              r.world[|s.world|].entry == s.phase.operation.main && r.world[|s.world|].createUndo
  {
    var p := s.phase;
    MainOperationEffect(s, p.path, p.operation, p.inputs, DestinationArg(dst), NoneArg, StructureArg(p.structure), box)
      .(phase := Idle)
  }

  // ---- properties of the pipeline ----

  /** An operation that declares a source box, run with no confirmed box, makes no
      world call, stays where it was and tells the user once. */
  lemma MissingSelectionMakesNoCall(s: Session, path: string, op: Operation, box: SelectionBox, result: WorldValue)
    requires SRC_BOX in op.inputs && box.selectState != BOX_CONFIRMED
    ensures RunOperationEffect(s, path, op, box, result) == (s.(messages := s.messages + [NoSelection]), Completed)
  {
  }

  /** With a structure callable, the callable runs first, without undo, on the source
      box and options in declared order; a result that is not a Structure stops the
      flow before the destination panel. */
  lemma StagingRunsCallableWithoutUndo(s: Session, path: string, op: Operation, box: SelectionBox, result: WorldValue)
    requires DST_BOX in op.inputs || DST_BOX_MULTIPLE in op.inputs
    requires op.structureCallable.Some?
    requires SRC_BOX !in op.inputs || box.selectState == BOX_CONFIRMED
    ensures Gather(op.inputs, StagingSources(s, path, box), STAGING_KINDS).Some?
    ensures var args := Gather(op.inputs, StagingSources(s, path, box), STAGING_KINDS).value;
            var after := RunOperationEffect(s, path, op, box, result);
            after.0.world == s.world + [Call(op.structureCallable.value, args, false)]
            && (forall a :: a in args ==> a.SelectionArg? || a.OptionsArg?)
            && (!result.isStructure ==> after == (s.(world := after.0.world, messages := s.messages + [NotAStructure]), Completed))
  {
    StagingArgs(op.inputs, StagingSources(s, path, box));
  }

  /** A staged structure with a declared destination box moves to the destination panel. */
  lemma StagedAwaitsDestination(s: Session, path: string, op: Operation, box: SelectionBox, result: WorldValue)
    requires DST_BOX in op.inputs
    requires Stage(s, path, op, box, result).1.Some?
    ensures RunOperationEffect(s, path, op, box, result).0.phase
              == AwaitingDestination(path, op, op.inputs, Stage(s, path, op, box, result).1.value)
    ensures RunOperationEffect(s, path, op, box, result).1 == Completed
  {
  }

  /** Declaring dst_box_multiple without dst_box is rejected after staging, and the panel does not change. */
  lemma MultipleDestinationsRejected(s: Session, path: string, op: Operation, box: SelectionBox, result: WorldValue)
    requires DST_BOX_MULTIPLE in op.inputs && DST_BOX !in op.inputs
    requires Stage(s, path, op, box, result).1.Some?
    ensures RunOperationEffect(s, path, op, box, result) == (Stage(s, path, op, box, result).0, Raised(NotImplemented))
    ensures RunOperationEffect(s, path, op, box, result).0.phase == s.phase
  {
  }

  /** An operation declaring no destination runs its main entry point at once, with
      undo, never staging and never changing the panel. */
  lemma SinglePhaseRunsImmediately(s: Session, path: string, op: Operation, box: SelectionBox, result: WorldValue)
    requires DST_BOX !in op.inputs && DST_BOX_MULTIPLE !in op.inputs
    requires SRC_BOX !in op.inputs || box.selectState == BOX_CONFIRMED
    ensures var args := Gather(op.inputs, Sources(SelectionOf(box), OptionsFor(s.options, path), NoneArg, NoneArg, NoneArg), MAIN_KINDS);
            args.Some?
            && RunOperationEffect(s, path, op, box, result) == (s.(world := s.world + [Call(op.main, args.value, true)]), Completed)
  {
  }

  /** Confirming runs the main entry point once, with undo, giving the destination at
      each declared dst_box position and the staged structure at each structure position. */
  lemma ConfirmPlacesDestinationAndStructure(s: Session, dst: Point, box: SelectionBox, k: nat)
    requires s.phase.AwaitingDestination?
    requires SRC_BOX !in s.phase.inputs || box.selectState == BOX_CONFIRMED
    requires k < |s.phase.inputs| && (s.phase.inputs[k] == DST_BOX || s.phase.inputs[k] == STRUCTURE)
    ensures var after := ConfirmEffect(s, dst, box);
            var call := after.world[|s.world|];
            after.phase == Idle
            && |after.world| == |s.world| + 1 && after.world[..|s.world|] == s.world
            && call.entry == s.phase.operation.main && call.createUndo
            && Count(s.phase.inputs[..k], MAIN_KINDS) < |call.args|
            && call.args[Count(s.phase.inputs[..k], MAIN_KINDS)]
                 == (if s.phase.inputs[k] == DST_BOX then DestinationArg(dst) else StructureArg(s.phase.structure))
  {
    var p := s.phase;
    var src := Sources(SelectionOf(box), OptionsFor(s.options, p.path), DestinationArg(dst), NoneArg, StructureArg(p.structure));
    GatherAt(p.inputs, src, MAIN_KINDS, k);
  }

  /** A two-phase run followed by a cancel leaves only the undo-free structure call in the world log. */
  lemma StageThenCancel(s: Session, path: string, op: Operation, box: SelectionBox, result: WorldValue)
    requires DST_BOX in op.inputs && op.structureCallable.Some? && result.isStructure
    requires SRC_BOX !in op.inputs || box.selectState == BOX_CONFIRMED
    ensures var after := CancelEffect(RunOperationEffect(s, path, op, box, result).0);
            after.phase == Idle && |after.world| == |s.world| + 1 && after.world[..|s.world|] == s.world
            && !after.world[|s.world|].createUndo
  {
    assert Gather(op.inputs, StagingSources(s, path, box), STAGING_KINDS).Some?;
  }

  /** A two-phase run followed by a confirm logs the structure call without undo and
      then the main call with undo, and returns to idle. */
  lemma StageThenConfirm(s: Session, path: string, op: Operation, box: SelectionBox, result: WorldValue, dst: Point)
    requires DST_BOX in op.inputs && op.structureCallable.Some? && result.isStructure
    requires SRC_BOX !in op.inputs || box.selectState == BOX_CONFIRMED
    ensures RunOperationEffect(s, path, op, box, result).0.phase.AwaitingDestination?
    ensures var after := ConfirmEffect(RunOperationEffect(s, path, op, box, result).0, dst, box);
            after.phase == Idle && |after.world| == |s.world| + 2 && after.world[..|s.world|] == s.world
            && after.world[|s.world|] == Call(op.structureCallable.value, Gather(op.inputs, StagingSources(s, path, box), STAGING_KINDS).value, false)
            && after.world[|s.world| + 1].entry == op.main && after.world[|s.world| + 1].createUndo
  {
    assert Gather(op.inputs, StagingSources(s, path, box), STAGING_KINDS).Some?;
  }
}
