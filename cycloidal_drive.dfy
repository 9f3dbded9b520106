/** The command dialog of the add-in: the spinner ranges, the component
    check boxes filled from the loaded configuration, the roller-count rule
    of the validation handler, and the execute handler that writes the
    dialog's values back into the shared configuration and builds the
    drive. */
module Dialog {
  import opened Numerics
  import opened Printer
  import opened DriveConfigs
  import opened Stages
  import opened Component

  /** The ranges of the integer spinners. */
  const RollerCountMin := 5
  const RollerCountMax := 100
  const BoltCountMin := 3
  const BoltCountMax := 16

  /** The fewest rollers the validation handler accepts. */
  const FewestRollers := 6

  const RollerCountMessage := "The number of rollers must be 6 or more."

  /** An entry of the component drop-down. */
  datatype ListItem = ListItem(name: string, isSelected: bool)

  /** The check boxes in the order the dialog adds them. */
  const ItemOrder: seq<string> := [Ring, Disc, BearingSeat, Cam, Cage, Output, Brace, Rollers]

  /** The values the dialog's inputs hold when the user presses OK. */
  datatype Inputs = Inputs(
    rollerCount: int,
    rollerDiameter: real,
    rollerSpacing: real,
    outputPinDiameter: real,
    camBearingOuterDiameter: real,
    camBearingInnerDiameter: real,
    ringBoltCount: int,
    ringBoltDiameter: real,
    discBoltCount: int,
    discBoltDiameter: real,
    items: seq<ListItem>)

  /** What the spinners let the user enter. */
  predicate SpinnersAdmit(inputs: Inputs)
  {
    && RollerCountMin <= inputs.rollerCount <= RollerCountMax
    && BoltCountMin <= inputs.ringBoltCount <= BoltCountMax
    && BoltCountMin <= inputs.discBoltCount <= BoltCountMax
  }

  /** The check boxes as the dialog creates them: one per tag, in dialog
      order, each checked exactly when its tag is among the loaded
      components. */
  function InitialItems(c: Config): (items: seq<ListItem>)
    ensures |items| == |ItemOrder|
    ensures forall i :: 0 <= i < |items| ==> items[i].name == ItemOrder[i]
    ensures forall i :: 0 <= i < |items| ==> (items[i].isSelected <==> ItemOrder[i] in c.components)
  {
    seq(|ItemOrder|, i requires 0 <= i < |ItemOrder| => ListItem(ItemOrder[i], ItemOrder[i] in c.components))
  }

  /** The names of the selected entries. */
  function SelectedNames(items: seq<ListItem>): (names: set<string>)
    ensures forall n :: n in names <==> exists i :: 0 <= i < |items| && items[i].isSelected && items[i].name == n
  {
    if items == [] then {}
    else
      var last := items[|items| - 1];
      var prefix := SelectedNames(items[..|items| - 1]);
      assert forall i :: 0 <= i < |items| - 1 ==> items[..|items| - 1][i] == items[i];
      if last.isSelected then prefix + {last.name} else prefix
  }

  /** The message the validation handler leaves, `None` when the roller
      count is acceptable. */
  function RollerCountError(rollerCount: int): (message: Option<string>)
    ensures message.Some? <==> rollerCount < FewestRollers
  {
    if rollerCount < FewestRollers then Some(RollerCountMessage) else None
  }

  /** The error text box under the inputs. */
  class ErrorMessage {
    var text: string
    constructor ()
      ensures text == ""
    {
      text := "";
    }
  }

  /** The arguments of the validation event. */
  class ValidateInputsEventArgs {
    var areInputsValid: bool
    constructor ()
      ensures areInputsValid
    {
      areInputsValid := true;
    }
  }

  /** `CommandValidateInputsHandler.notify`: clears the error text, and for
      fewer than six rollers shows the message and marks the inputs
      invalid; otherwise it leaves the validity as it was. */
  method ValidateInputs(rollerCount: int, err: ErrorMessage, args: ValidateInputsEventArgs)
    modifies err, args
    ensures var e := RollerCountError(rollerCount);
      && err.text == (if e.Some? then e.value else "")
      && args.areInputsValid == (if e.Some? then false else old(args.areInputsValid))
  {
    err.text := "";
    if rollerCount < FewestRollers {
      err.text := RollerCountMessage;
      args.areInputsValid := false;
      return;
    }
    return;
  }

  /** The roller-count spinner admits exactly one count the validation
      handler rejects: five. Every other count it admits is accepted. */
  lemma SpinnerAdmitsOneRejectedCount(n: int)
    ensures RollerCountMin <= n <= RollerCountMax && RollerCountError(n).Some? <==> n == 5
  {
  }

  /** The configuration after the execute handler has written the inputs
      back: the ten fields the dialog shows take the inputs' values, the
      components are the selected entries' names, and every other field
      keeps its loaded or default value. */
  function Refreshed(loaded: Config, inputs: Inputs): (c: Config)
    ensures c.shaftDiameter == loaded.shaftDiameter && c.shaftBearingDiameter == loaded.shaftBearingDiameter
    ensures c.outputBearingBallDiameter == loaded.outputBearingBallDiameter
    ensures c.chamferRingBoltHoles == loaded.chamferRingBoltHoles && c.chamferDiscBoltHoles == loaded.chamferDiscBoltHoles
    ensures forall n :: n in c.components <==> exists i :: 0 <= i < |inputs.items| && inputs.items[i].isSelected && inputs.items[i].name == n
  {
    loaded.(
      rollerCount := inputs.rollerCount,
      rollerDiameter := inputs.rollerDiameter,
      rollerSpacing := inputs.rollerSpacing,
      outputPinDiameter := inputs.outputPinDiameter,
      camBearingOuterDiameter := inputs.camBearingOuterDiameter,
      camBearingInnerDiameter := inputs.camBearingInnerDiameter,
      ringBoltCount := inputs.ringBoltCount,
      ringBoltDiameter := inputs.ringBoltDiameter,
      discBoltCount := inputs.discBoltCount,
      discBoltDiameter := inputs.discBoltDiameter,
      components := SelectedNames(inputs.items))
  }

  /** Opening the dialog and pressing OK without touching the check boxes
      keeps the loaded selection, less any name that is not one of the
      eight tags. */
  lemma {:induction false} UntouchedSelectionKept(c: Config)
    ensures SelectedNames(InitialItems(c)) == c.components * AllTags
  {
    var items := InitialItems(c);
    forall n | n in c.components * AllTags
      ensures n in SelectedNames(items)
    {
      var i :| 0 <= i < |ItemOrder| && ItemOrder[i] == n by {
        if n == Ring { assert ItemOrder[0] == n; }
        else if n == Disc { assert ItemOrder[1] == n; }
        else if n == BearingSeat { assert ItemOrder[2] == n; }
        else if n == Cam { assert ItemOrder[3] == n; }
        else if n == Cage { assert ItemOrder[4] == n; }
        else if n == Output { assert ItemOrder[5] == n; }
        else if n == Brace { assert ItemOrder[6] == n; }
        else { assert ItemOrder[7] == n; }
      }
      assert items[i].isSelected && items[i].name == n;
    }
    forall n | n in SelectedNames(items)
      ensures n in c.components * AllTags
    {
      var i :| 0 <= i < |items| && items[i].isSelected && items[i].name == n;
      assert ItemOrder[i] in AllTags;
    }
  }

  /** The dialog as it opens on a loaded configuration. */
  function OpeningInputs(c: Config): (inputs: Inputs)
    ensures inputs.items == InitialItems(c)
  {
    Inputs(c.rollerCount, c.rollerDiameter, c.rollerSpacing, c.outputPinDiameter,
      c.camBearingOuterDiameter, c.camBearingInnerDiameter, c.ringBoltCount, c.ringBoltDiameter,
      c.discBoltCount, c.discBoltDiameter, InitialItems(c))
  }

  /** Pressing OK on an unchanged dialog gives back the loaded
      configuration, except for component names outside the eight tags;
      the default configuration fits every spinner and passes validation. */
  lemma UnchangedDialogKeepsConfig(c: Config)
    ensures Refreshed(c, OpeningInputs(c)) == c.(components := c.components * AllTags)
    ensures SpinnersAdmit(OpeningInputs(Defaults())) && RollerCountError(Defaults().rollerCount).None?
  {
    UntouchedSelectionKept(c);
  }

  /** `CommandExecuteHandler.notify`: overwrites the ten dialog-backed
      fields, clears the component set and adds the name of each selected
      entry, saves the configuration, and builds the drive for the 0.4 mm
      nozzle and 0.2 mm layers. */
  method Execute(config: DriveConfig, inputs: Inputs, codec: Codec, m: Math, kernel: Kernel, ui: bool)
    returns (saved: string, drive: CycloidalComponent)
    requires Valid(m)
    modifies config
    ensures config.attributes == Refreshed(old(config.attributes), inputs)
    ensures RoundTrips(codec) ==> codec.decode(saved) == Some(config.attributes)
    ensures drive.config == config.attributes && drive.printerConfig == DefaultPrinter()
    ensures Build(m, config.attributes, DefaultPrinter(), kernel, ui)
            == if drive.raised then Aborted(drive.State()) else Constructed(drive.State())
  {
    var a := config.attributes;
    config.attributes := a.(
      rollerCount := inputs.rollerCount,
      rollerDiameter := inputs.rollerDiameter,
      rollerSpacing := inputs.rollerSpacing,
      outputPinDiameter := inputs.outputPinDiameter,
      camBearingOuterDiameter := inputs.camBearingOuterDiameter,
      camBearingInnerDiameter := inputs.camBearingInnerDiameter,
      ringBoltCount := inputs.ringBoltCount,
      ringBoltDiameter := inputs.ringBoltDiameter,
      discBoltCount := inputs.discBoltCount,
      discBoltDiameter := inputs.discBoltDiameter);
    config.attributes := config.attributes.(components := {});
    var items := inputs.items;
    var i := 0;
    while i < |items|
      invariant 0 <= i <= |items|
      invariant config.attributes == Refreshed(a, inputs.(items := items[..i]))
    {
      assert items[..i + 1][..i] == items[..i];
      if items[i].isSelected {
        config.attributes := config.attributes.(components := config.attributes.components + {items[i].name});
      }
      i := i + 1;
    }
    assert items[..i] == items;
    saved := config.ToString(codec);
    drive := new CycloidalComponent(m, config.attributes, DefaultPrinter(), kernel, ui);
  }
}
