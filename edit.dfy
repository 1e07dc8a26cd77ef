/**
 * The edit program's panels and the extension that drives the operation
 * pipeline. Each class keeps the fields its source counterpart updates in
 * place; the extension's methods gather operation inputs with loops and are
 * proved to produce the session that the reference definitions in module
 * Operations describe.
 */
module Edit {
  import opened Operations

  /** The plugin registry: the operations (read-only) and the options store. */
  class OperationRegistry {
    const operations: map<string, Operation>
    var options: OptionsStore

    constructor (operations: map<string, Operation>)
      ensures this.operations == operations && options == map[]
    {
      this.operations := operations;
      options := map[];
    }
  }

  /** Whether an operation's "Change Options" button is enabled. */
  predicate OptionsEnabled(op: Operation) {
    OPTIONS in op.inputs || WX_OPTIONS in op.inputs
  }

  /** The operation chooser with its options button (OperationUI). */
  class OperationUI {
    const registry: OperationRegistry
    var selected: string
    var optionsEnabled: bool
    var shown: bool
    var logged: seq<Notice>

    ghost predicate Valid()
      reads this
    {
      selected in registry.operations && optionsEnabled == OptionsEnabled(registry.operations[selected])
    }

    constructor (registry: OperationRegistry, initial: string)
      requires initial in registry.operations
      ensures Valid() && this.registry == registry && selected == initial && shown && logged == []
    {
      this.registry := registry;
      selected := initial;
      shown := true;
      logged := [];
      new;
      SelectionChange(initial);
    }

    method SelectionChange(path: string)
      requires path in registry.operations
      modifies this
      ensures Valid() && selected == path
      ensures optionsEnabled <==> OPTIONS in registry.operations[path].inputs || WX_OPTIONS in registry.operations[path].inputs
      ensures shown == old(shown) && logged == old(logged)
    {
      selected := path;
      var op := registry.operations[path];
      if OPTIONS in op.inputs || WX_OPTIONS in op.inputs {
        optionsEnabled := true;
      } else {
        optionsEnabled := false;
      }
    }

    /** "Change Options": `result` is what the operation's options dialog returns. */
    method ChangeOptions(result: PluginValue) returns (outcome: Outcome)
      requires Valid()
      modifies this`logged, registry`options
      ensures Valid()
      ensures var op := registry.operations[selected];
              if OPTIONS in op.inputs || WX_OPTIONS !in op.inputs then
                registry.options == old(registry.options) && logged == old(logged) && outcome == Completed
              else if op.optionsDialog.None? then
                registry.options == old(registry.options) && logged == old(logged) && outcome == Raised(KeyError(WX_OPTIONS))
              else if result.DictValue? then
                registry.options == old(registry.options)[selected := result.dict] && logged == old(logged) && outcome == Completed
              else
                registry.options == old(registry.options) && logged == old(logged) + [InvalidOptions(op.name, selected)]
                && outcome == Completed
      ensures !optionsEnabled ==> registry.options == old(registry.options) && outcome == Completed
    {
      var op := registry.operations[selected];
      outcome := Completed;
      if OPTIONS in op.inputs {
        // not implemented by the program
      } else if WX_OPTIONS in op.inputs {
        if op.optionsDialog.None? {
          outcome := Raised(KeyError(WX_OPTIONS));
          return;
        }
        if result.DictValue? {
          registry.options := registry.options[selected := result.dict];
        } else {
          logged := logged + [InvalidOptions(op.name, selected)];
        }
      }
    }

    method Show()
      modifies this`shown
      ensures shown
    {
      shown := true;
    }

    method Hide()
      modifies this`shown
      ensures !shown
    {
      shown := false;
    }
  }

  const SPIN_MIN: int := -30000000
  const SPIN_MAX: int := 30000000

  /** A destination coordinate as its spin control holds it. */
  function Clamp(v: int): (r: int)
    ensures SPIN_MIN <= r <= SPIN_MAX
    ensures SPIN_MIN <= v <= SPIN_MAX ==> r == v
    ensures v < SPIN_MIN ==> r == SPIN_MIN
    ensures v > SPIN_MAX ==> r == SPIN_MAX
  {
    if v < SPIN_MIN then SPIN_MIN else if v > SPIN_MAX then SPIN_MAX else v
  }

  /** The destination panel (SelectDestinationUI): what setup stored and the spin controls. */
  class SelectDestinationUI {
    var operationPath: Option<string>
    var operation: Option<Operation>
    var inputDefinitions: Option<seq<string>>
    var structure: Option<Staged>
    var x: int
    var y: int
    var z: int
    var shown: bool

    ghost predicate Valid()
      reads this
    {
      SPIN_MIN <= x <= SPIN_MAX && SPIN_MIN <= y <= SPIN_MAX && SPIN_MIN <= z <= SPIN_MAX
    }

    predicate IsSetUp()
      reads this
    {
      operationPath.Some? && operation.Some? && inputDefinitions.Some? && structure.Some?
    }

    /** A new panel is shown, with nothing set up and every spin control at 0. */
    constructor ()
      ensures Valid() && shown && !IsSetUp()
      ensures operationPath.None? && operation.None? && inputDefinitions.None? && structure.None?
      ensures Destination() == Point(0, 0, 0)
    {
      operationPath, operation, inputDefinitions, structure := None, None, None, None;
      x, y, z := 0, 0, 0;
      shown := true;
    }

    method Setup(path: string, op: Operation, defs: seq<string>, structure: Staged)
      modifies this`operationPath, this`operation, this`inputDefinitions, this`structure
      ensures IsSetUp()
      ensures operationPath == Some(path) && operation == Some(op) && inputDefinitions == Some(defs)
      ensures this.structure == Some(structure)
    {
      operationPath := Some(path);
      operation := Some(op);
      inputDefinitions := Some(defs);
      this.structure := Some(structure);
    }

    /** The user types a destination; each control keeps its value within its range. */
    method EnterDestination(x: int, y: int, z: int)
      requires Valid()
      modifies this`x, this`y, this`z
      ensures Valid() && this.x == Clamp(x) && this.y == Clamp(y) && this.z == Clamp(z)
    {
      this.x, this.y, this.z := Clamp(x), Clamp(y), Clamp(z);
    }

    /** The destination handed on when "Confirm" is pressed. */
    function Destination(): (p: Point)
      reads this
      requires Valid()
      ensures SPIN_MIN <= p.x <= SPIN_MAX && SPIN_MIN <= p.y <= SPIN_MAX && SPIN_MIN <= p.z <= SPIN_MAX
    {
      Point(x, y, z)
    }

    method Show()
      modifies this`shown
      ensures shown
    {
      shown := true;
    }

    method Hide()
      modifies this`shown
      ensures !shown
    {
      shown := false;
    }
  }

  /** The edit program (EditExtension) with its two panels and the world-store log. */
  class EditExtension {
    const registry: OperationRegistry
    const operationUI: OperationUI
    const destinationUI: SelectDestinationUI
    var world: seq<Call>
    var messages: seq<Notice>

    /** Exactly one panel is shown, and the destination panel only once it is set up. */
    ghost predicate Valid()
      reads this, operationUI, destinationUI
    {
      operationUI.registry == registry && operationUI.Valid() && destinationUI.Valid()
      && operationUI.shown == !destinationUI.shown
      && (destinationUI.shown ==> destinationUI.IsSetUp())
    }

    ghost function Session(): Session
      reads this, operationUI, destinationUI, registry
    {
      var d := destinationUI;
      Operations.Session(
        if d.shown && d.IsSetUp()
        then AwaitingDestination(d.operationPath.value, d.operation.value, d.inputDefinitions.value, d.structure.value)
        else Idle,
        world, messages, registry.options)
    }

    constructor (registry: OperationRegistry, initial: string)
      requires initial in registry.operations
      ensures Valid() && this.registry == registry && fresh(operationUI) && fresh(destinationUI)
      ensures operationUI.shown && !destinationUI.shown && destinationUI.Destination() == Point(0, 0, 0)
      ensures Session() == Operations.Session(Idle, [], [], registry.options)
    {
      this.registry := registry;
      operationUI := new OperationUI(registry, initial);
      destinationUI := new SelectDestinationUI();
      world := [];
      messages := [];
      new;
      destinationUI.Hide();
    }

    /** The confirmed selection, or a message to the user. */
    method GetBox(box: SelectionBox) returns (selection: Option<Selection>)
      modifies this`messages
      ensures selection == SelectionOf(box)
      ensures selection.Some? ==> messages == old(messages)
      ensures selection.None? ==> messages == old(messages) + [NoSelection]
    {
      if box.selectState == BOX_CONFIRMED {
        selection := Some(Selection([SubSelectionBox(box.min, box.max)]));
      } else {
        messages := messages + [NoSelection];
        selection := None;
      }
    }

    method RunMainOperation(path: string, op: Operation, defs: seq<string>,
                            dst: Arg, dstMultiple: Arg, structure: Arg, box: SelectionBox)
      modifies this`world, this`messages
      ensures Session() == MainOperationEffect(old(Session()), path, op, defs, dst, dstMultiple, structure, box)
    {
      ghost var src := Sources(SelectionOf(box), OptionsFor(registry.options, path), dst, dstMultiple, structure);
      var inputs: seq<Arg> := [];
      var i := 0;
      while i < |defs|
        invariant 0 <= i <= |defs|
        invariant Gather(defs[..i], src, MAIN_KINDS) == Some(inputs)
        invariant world == old(world) && messages == old(messages)
      {
        var kind := defs[i];
        assert defs[..i + 1][..i] == defs[..i];
        if kind == SRC_BOX {
          var selection := GetBox(box);
          if selection.None? {
            return;
          }
          inputs := inputs + [SelectionArg(selection.value)];
        } else if kind == DST_BOX {
          inputs := inputs + [dst];
        } else if kind == DST_BOX_MULTIPLE {
          inputs := inputs + [dstMultiple];
        } else if kind == STRUCTURE {
          inputs := inputs + [structure];
        } else if kind == OPTIONS || kind == WX_OPTIONS {
          inputs := inputs + [OptionsArg(OptionsFor(registry.options, path))];
        }
        i := i + 1;
      }
      assert defs[..i] == defs;
      world := world + [Call(op.main, inputs, true)];
    }

    /** The structure callable's run: inputs gathered in declared order, then one call without undo. */
    method RunStructureCallable(path: string, op: Operation, box: SelectionBox, result: WorldValue)
      returns (structure: Option<Staged>)
      requires op.structureCallable.Some?
      modifies this`world, this`messages
      ensures (Session(), structure) == Stage(old(Session()), path, op, box, result)
    {
      var defs := op.inputs;
      ghost var src := StagingSources(Session(), path, box);
      var inputs: seq<Arg> := [];
      var i := 0;
      while i < |defs|
        invariant 0 <= i <= |defs|
        invariant Gather(defs[..i], src, STAGING_KINDS) == Some(inputs)
        invariant world == old(world) && messages == old(messages)
      {
        var kind := defs[i];
        assert defs[..i + 1][..i] == defs[..i];
        if kind == SRC_BOX {
          var selection := GetBox(box);
          if selection.None? {
            return None;
          }
          inputs := inputs + [SelectionArg(selection.value)];
        } else if kind == OPTIONS || kind == WX_OPTIONS {
          inputs := inputs + [OptionsArg(OptionsFor(registry.options, path))];
        }
        i := i + 1;
      }
      assert defs[..i] == defs;
      world := world + [Call(op.structureCallable.value, inputs, false)];
      if !result.isStructure {
        messages := messages + [NotAStructure];
        return None;
      }
      structure := Some(Returned(result));
    }

    /** The first phase of a two-phase operation: the staged structure, or None when it aborted. */
    method StageStructure(path: string, op: Operation, box: SelectionBox, result: WorldValue)
      returns (structure: Option<Staged>)
      modifies this`world, this`messages
      ensures (Session(), structure) == Stage(old(Session()), path, op, box, result)
    {
      if op.structureCallable.Some? {
        structure := RunStructureCallable(path, op, box, result);
      } else if SRC_BOX in op.inputs {
        var selection := GetBox(box);
        if selection.None? {
          return None;
        }
        structure := Some(Snapshot(selection.value));
      } else {
        messages := messages + [ShouldNotHappen];
        structure := None;
      }
    }

    /** "Run Operation": `box` is the render world's selection box and `result` what
        the world store returns from a structure callable. */
    method RunOperation(box: SelectionBox, result: WorldValue) returns (outcome: Outcome)
      requires Valid() && !destinationUI.shown
      modifies this`world, this`messages, operationUI`shown
      modifies destinationUI`operationPath, destinationUI`operation, destinationUI`inputDefinitions
      modifies destinationUI`structure, destinationUI`shown
      ensures Valid()
      ensures destinationUI.Destination() == old(destinationUI.Destination())
      ensures (Session(), outcome)
                == RunOperationEffect(old(Session()), operationUI.selected, registry.operations[operationUI.selected], box, result)
    {
      var path := operationUI.selected;
      var op := registry.operations[path];
      var defs := op.inputs;
      if DST_BOX in defs || DST_BOX_MULTIPLE in defs {
        var structure := StageStructure(path, op, box, result);
        if structure.None? {
          return Completed;
        }
        if DST_BOX in defs {
          destinationUI.Setup(path, op, defs, structure.value);
          operationUI.Hide();
          destinationUI.Show();
        } else {
          return Raised(NotImplemented);
        }
      } else {
        RunMainOperation(path, op, defs, NoneArg, NoneArg, NoneArg, box);
      }
      outcome := Completed;
    }

    method DestinationSelectCancel()
      requires Valid() && destinationUI.shown
      modifies operationUI`shown, destinationUI`shown
      ensures Valid() && !destinationUI.shown
      ensures Session() == CancelEffect(old(Session()))
    {
      destinationUI.Hide();
      operationUI.Show();
    }

    /** "Confirm" on the destination panel: the main run with the destination and the staged structure. */
    method DestinationSelectConfirm(box: SelectionBox)
      requires Valid() && destinationUI.shown
      modifies this`world, this`messages, operationUI`shown, destinationUI`shown
      ensures Valid() && !destinationUI.shown
      ensures old(Session()).phase.AwaitingDestination?
      ensures Session() == ConfirmEffect(old(Session()), old(destinationUI.Destination()), box)
    {
      var d := destinationUI;
      RunMainOperation(d.operationPath.value, d.operation.value, d.inputDefinitions.value,
                       DestinationArg(d.Destination()), NoneArg, StructureArg(d.structure.value), box);
      destinationUI.Hide();
      operationUI.Show();
    }
  }
}
