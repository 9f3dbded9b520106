# Cycloidal drive add-in: a verified model of its core

The add-in builds a printable cycloidal (roller) drive in a CAD design. The
user enters a roller count and diameter, a roller spacing, the cam bearing,
the flange bolts and the output pin. The user also ticks which of eight parts
to build: Ring, Disc, Bearing Seat, Rollers, Cage, Cam, Brace and Output.
`CycloidalComponent` derives the drive's radii from these values. It then
runs a fixed sequence of building stages against the CAD kernel, and each
stage catches and reports its own failure.

This project models that core in Dafny:

- `numerics.dfy` (`Numerics`): Python's `math.sin`, `cos`, `sqrt` and `pi` as
  uninterpreted values. `Valid` collects the only facts used about them:
  `pi > 0`, sine and cosine in `[-1, 1]`, `sin² + cos² = 1`, and a non-negative
  square root whose square gives back its argument.
- `printer_config.dfy` (`Printer`): `PrinterConfig` and its two unit conversions.
- `drive_config.dfy` (`DriveConfigs`): the `DriveConfig` record, its defaults,
  and its whole-dictionary `Load` / `ToString` through an abstract codec.
- `geometry.dfy` (`Geometry`):
  - the closed-form formulas (median diameter, outer radius, groove depth, the
    tangent relation and its inverse);
  - the contact diameter of a sampled amplitude;
  - the radii `__init__` derives;
  - the groove roots.
- `race.dfy` (`Race`):
  - the race samplers of `BuildRing`, `BuildDisc` and the construction sketch,
    as a sampling loop;
  - the loop that chains the sampled points into one closed polyline.
- `stages.dfy` (`Stages`): each stage as the list of statements its method runs.
  - A statement is a kernel call, the assignment of an attribute such as
    `cycloid_cut_plane`, a read of one, an arithmetic error, or a call of a
    helper that has its own `try` block.
  - An interpreter runs a stage until a statement raises. It records the
    stage's result and reports the failure, and `__init__`'s fixed order runs
    the stages around the bodies-folder light bulb.
  - The kernel is a parameter that says which call of which stage raises.
  - `Compile` gives the statements as the code is written, and `Build` runs
    them. `CompileIntended` differs only in the roller-sketch stage, repaired
    as described under "Findings".
- `stage_properties.dfy` (`StageProperties`):
  - the stage schedule, for every kernel;
  - proof that settings without effect have none.
- `stage_effects.dfy` (`StageEffects`):
  - what the `Output` selection and the chamfer flag change;
  - the attributes handed from one stage to the next;
  - the helpers' own `try` blocks.
- `cycloidal_component.dfy` (`Component`): the class `CycloidalComponent`, whose
  constructor runs the stages statement by statement and updates the object's
  fields in place. It is proved to end in the state the functional model
  describes.
- `cycloidal_drive.dfy` (`Dialog`): the dialog's spinner ranges and initial check
  boxes, the roller-count validation, and the execute handler that writes the
  inputs back into the shared configuration and builds the drive.

Floating-point numbers are modelled as exact reals. Python exceptions are
modelled as `Option` results or as a `Raise` statement.

## Model

| member | source | states |
|---|---|---|
| Printer.PrinterConfig.LToCm | packages/cycloidal/components/PrinterConfig.py:8-9 | with a positive layer height, the height of `n` layers is positive exactly for positive `n` and negative exactly for negative `n` |
| Printer.PrinterConfig.EwToCm | packages/cycloidal/components/PrinterConfig.py:11-12 | with a positive nozzle width, the width of `n` extrusions is positive exactly for positive `n` and negative exactly for negative `n` |
| Printer.ConversionsAreLinear | packages/cycloidal/components/PrinterConfig.py:8-12 | both conversions are 0 at 0 and additive in the count |
| Printer.ConversionsIncrease | packages/cycloidal/components/PrinterConfig.py:8-12 | both conversions strictly increase with the count when layer height and nozzle width are positive |
| Printer.DefaultPrinterClearances | CycloidalDrive.py:251 | for the 0.4 mm nozzle and 0.2 mm layers, five layers are 0.1 cm and three extrusions are 0.12 cm |
| DriveConfigs.DriveConfig.constructor | packages/cycloidal/components/DriveConfig.py:7-30 | a new configuration holds exactly the default values |
| DriveConfigs.Defaults | packages/cycloidal/components/DriveConfig.py:9-30 | every default count and length is positive, the spacing factor is non-negative, and the roller diameter is less than ten ring bolt diameters |
| DriveConfigs.DriveConfig.Load | packages/cycloidal/components/DriveConfig.py:32-33 | a decodable string replaces every attribute by the decoded record; an undecodable one leaves all of them unchanged |
| DriveConfigs.DriveConfig.ToString | packages/cycloidal/components/DriveConfig.py:35-36 | under a codec whose decode inverts its encode, the string decodes back to the present attributes |
| DriveConfigs.SaveThenLoad | packages/cycloidal/components/DriveConfig.py:32-36 | saving and loading again succeeds and leaves every attribute as it was |
| DriveConfigs.DefaultsAreSensible | packages/cycloidal/components/DriveConfig.py:9-30 | the default roller count passes the six-roller rule; the default bolt counts fit the 3..16 spinners; the cam bearing is wider outside than inside; both chamfer flags are off; all eight tags are selected |
| Geometry.MedianDiameter | packages/cycloidal/CycloidalComponent.py:77-79 | raises exactly when the divisor of pi or the sine is zero; otherwise the result times the sine is half the roller diameter, and it is positive for a positive diameter and sine |
| Geometry.MedianDiameterPositive | packages/cycloidal/CycloidalComponent.py:77-79 | with at least one roller, a non-negative spacing factor and a positive roller diameter, and where sine is positive on (0, pi), the median diameter exists and is positive |
| Geometry.OuterRadius | packages/cycloidal/CycloidalComponent.py:81-82 | for non-negative diameters the rim lies at least a roller diameter outside the median circle, and the inner edge of a bolt hole on the bolt circle clears a roller centred on the median circle |
| Geometry.Derive | packages/cycloidal/CycloidalComponent.py:30-47 | the radii exist exactly when the median diameter does not raise; the median diameter is that value and the radii are halves of their diameters; the thickness is a roller diameter plus two five-layer heights plus twice the race margin, so with a positive layer height the race half-height stays inside half the thickness; the bolt circle is a quarter bolt diameter inside the rim |
| Geometry.GrooveRootToBallCenter | packages/cycloidal/CycloidalComponent.py:226-227 | raises exactly for a zero diameter, and is otherwise two thirds of the diameter |
| Geometry.TangentFunction | packages/cycloidal/CycloidalComponent.py:229-230 | defined exactly when the contact diameter is smaller in magnitude than the planet diameter |
| Geometry.TangentFunctionInverse | packages/cycloidal/CycloidalComponent.py:232-238 | 0 for full contact; half the planet for zero contact; raises exactly in the general branch with a contact diameter at least as large as the planet; positive for `0 < contact < planet` and a positive height |
| Geometry.InverseThenTangent | packages/cycloidal/CycloidalComponent.py:229-238 | in the general branch, the tangent relation applied to the inverse's offset gives back the height |
| Geometry.TangentThenInverse | packages/cycloidal/CycloidalComponent.py:229-238 | in the general branch, the inverse undoes the tangent relation |
| Geometry.ContactDiameter | packages/cycloidal/CycloidalComponent.py:268-272 | for a positive roller diameter and amplitudes in [-1, 1] the contact diameter lies between three quarters of the roller diameter and the whole of it |
| Geometry.ContactDiameterBounds | packages/cycloidal/CycloidalComponent.py:268-272 | for amplitudes in [-1, 1] the contact diameter lies in [0.75 d, d]; it equals d exactly at -1 and 0.75 d exactly at 1, so it is never 0 |
| Geometry.OffsetBetween | packages/cycloidal/CycloidalComponent.py:232-238 | between a least contact diameter and the full ball, the inverse's offset exists, is non-negative, is no larger than at the least contact, and is 0 exactly at full contact or zero height |
| Geometry.SampledOffsetBounds | packages/cycloidal/CycloidalComponent.py:268-272 | a sampled race offset exists, lies between 0 and the offset at three-quarter contact, and is 0 exactly at amplitude -1 or zero height |
| Geometry.RingRadiiOrdering | packages/cycloidal/CycloidalComponent.py:40-47 | the outer radius is the median radius plus the roller diameter plus 1.5 bolt diameters; the bolt circle is a quarter bolt diameter inside it; the slot is the median radius plus 2.25 roller radii; the slot lies outside the median circle and inside the bolt circle exactly when the bolt diameter exceeds a tenth of the roller diameter |
| Geometry.DiscBoltHolesInsideSlot | packages/cycloidal/CycloidalComponent.py:44 | the disc's bolt holes lie wholly inside the disc's slot circle |
| Geometry.RingGrooveRoot | packages/cycloidal/CycloidalComponent.py:244 | the ring's groove root raises exactly for a zero roller diameter, and lies 7/12 of a roller diameter outside the median circle |
| Geometry.DiscGrooveRoot | packages/cycloidal/CycloidalComponent.py:519 | the disc's groove root raises exactly for a zero roller diameter, and lies 7/12 of a roller diameter inside the median circle |
| Geometry.GrooveRootsStraddleMedian | packages/cycloidal/CycloidalComponent.py:242-244 | the ring and disc groove roots exist, differ by the groove depth plus the roller radius, and lie 7/12 of a roller diameter outside and inside the median circle |
| Race.Samples | packages/cycloidal/CycloidalComponent.py:263-277 | the first `k` samples exist exactly when every point among them exists, and are those points in order |
| Race.RailRadius | packages/cycloidal/CycloidalComponent.py:266-272 | the construction rail never raises; for amplitudes in [-1, 1] and a positive roller diameter neither do the ring and disc rails, and the ring rail lies inside its groove root and the disc rail outside its own, meeting the root exactly at the lowest amplitude or for a zero race height |
| Race.SampledRail | packages/cycloidal/CycloidalComponent.py:258-277 | the sampled rail exists exactly when the lobe count is non-zero and every sample exists; it then holds one point per division, none for a negative count, and those points in order |
| Race.SampleRail | packages/cycloidal/CycloidalComponent.py:260-277 | the sampling loop returns the sampled rail: `div` points, or the exception of the first sample that raises |
| Race.PrefixFailure | packages/cycloidal/CycloidalComponent.py:263-277 | once a sample raises, every longer run of the loop raises too |
| Race.SampleAnglesInOneTurn | packages/cycloidal/CycloidalComponent.py:264-265 | the sample angles strictly increase and lie in [0, 2 pi), so no two coincide |
| Race.RailPointOnCircle | packages/cycloidal/CycloidalComponent.py:273-277 | every rail point lies at the race height, on the circle about the rail's centre whose radius is the offset sampled at its angle |
| Race.GrooveRailBounds | packages/cycloidal/CycloidalComponent.py:266-272 | ring and disc rail radii exist for a positive roller diameter; the ring rail lies between the root less the largest offset and the root; the disc rail lies between the root and the root plus that offset |
| Race.GrooveRailComplete | packages/cycloidal/CycloidalComponent.py:263-277 | a ring or disc rail with at least one lobe is sampled in full, into `div` points |
| Race.ReferenceRailBounds | packages/cycloidal/CycloidalComponent.py:120-131 | the construction rail stays within an eighth of a roller diameter of the median circle and meets it exactly at amplitude 0 |
| Race.ChainRail | packages/cycloidal/CycloidalComponent.py:279-287 | the chaining loop draws the closed polyline over the points, and needs at least two of them |
| Race.ClosedPolylineIsCycle | packages/cycloidal/CycloidalComponent.py:279-287 | following the lines from point 0 visits every point once in order and returns to point 0 after exactly `count` lines |
| Stages.Apply | packages/cycloidal/CycloidalComponent.py:240-356 | one statement raises exactly when it is an arithmetic error, a read of an unassigned attribute or the kernel call that is rejected; otherwise it appends its call, keeps the results and the light bulb, and never unassigns an attribute |
| Stages.ExecOps | packages/cycloidal/CycloidalComponent.py:361-431 | a helper's `try` block makes a prefix of its listed kernel calls, all of them when it finishes, and changes no recorded result |
| Stages.HealthyBlockFinishes | packages/cycloidal/CycloidalComponent.py:361-431 | a block whose calls are accepted, which never raises and which reads only assigned attributes finishes |
| Stages.Report | packages/cycloidal/CycloidalComponent.py:145-148 | a failure adds its message exactly when a user interface exists; nothing else changes |
| Stages.RunSub | packages/cycloidal/CycloidalComponent.py:361-431 | a helper call records exactly one helper result, keeps the stage results and the light bulb, and only extends the trace |
| Stages.ExecSteps | packages/cycloidal/CycloidalComponent.py:240-356 | a stage's `try` block keeps the stage results and the light bulb and only extends the trace |
| Stages.RunStage | packages/cycloidal/CycloidalComponent.py:87-148 | a stage records exactly one result, under the light bulb as it was; it only extends the trace; a failure ends the trace with the stage's message when a user interface exists |
| Stages.Build | packages/cycloidal/CycloidalComponent.py:12-73 | the constructor raises exactly when the radii cannot be derived, leaving the initial state; the bodies-folder light bulb always ends on |
| Stages.Body | packages/cycloidal/CycloidalComponent.py:87-826 | each stage assigns exactly the attributes its method assigns (`circle_center` in the construction sketch, the cut planes in the split-plane stage, `output_cut_plane` only with Output, nothing else anywhere) and reads only those it reads (the cut planes in the ring and disc, the roller sketch, mirror line and circle centre in the rollers) |
| Stages.SubBody | packages/cycloidal/CycloidalComponent.py:361-513 | the helpers make only kernel calls, except that the ring's key features first read the `cycloid-cut` plane and raise only for a zero ring bolt count |
| Stages.ConstructionSketchBody | packages/cycloidal/CycloidalComponent.py:87-148 | the construction sketch assigns `circle_center` and nothing else, and reads no attribute |
| Stages.RingBody | packages/cycloidal/CycloidalComponent.py:240-359 | the ring assigns no attribute and reads only the `cycloid-cut` plane, and the `output-cut` plane only when Output is selected |
| Stages.RingFeatures | packages/cycloidal/CycloidalComponent.py:289-354 | the ring's features after its race assign nothing and read only the cut planes, the `output-cut` one only with Output |
| Stages.DiscBody | packages/cycloidal/CycloidalComponent.py:515-640 | the disc assigns no attribute and reads only the `cycloid-cut` plane |
| Stages.DiscFeatures | packages/cycloidal/CycloidalComponent.py:567-635 | the disc's features after its race assign nothing and read only the `cycloid-cut` plane |
| Stages.CageBody | packages/cycloidal/CycloidalComponent.py:719-756 | the cage neither assigns nor reads an attribute |
| Stages.RailSteps | packages/cycloidal/CycloidalComponent.py:279-287 | chaining a rail neither assigns nor reads an attribute |
| Stages.RollerCircles | packages/cycloidal/CycloidalComponent.py:105-112 | every roller circle is a single kernel call |
| Stages.IntendedRollerSketch | packages/cycloidal/CycloidalComponent.py:179-198 | the repaired roller sketch first creates the sketch on the yz plane and assigns `roller_sketch` right after; it assigns exactly `roller_sketch` and `roller_mirror_line` |
| Stages.CompileIntended | packages/cycloidal/CycloidalComponent.py:179-198 | the repaired program differs from the program as written only in the roller-sketch stage |
| StageProperties.ScheduleIsFixed | packages/cycloidal/CycloidalComponent.py:12-73 | for every kernel and interface, the component is built exactly when the median diameter does not raise. Then the recorded stages are the three preparatory ones followed by each selected part in the fixed order, whatever fails. The brace alone runs with the light bulb off, and the bulb ends on |
| StageProperties.StagesRunInOrder | packages/cycloidal/CycloidalComponent.py:52-73 | the stage calls append exactly the scheduled stages with their light-bulb states |
| StageProperties.PreparationRecorded | packages/cycloidal/CycloidalComponent.py:52-54 | the construction sketch, split planes and roller sketch always run, in that order |
| StageProperties.HousingRecorded | packages/cycloidal/CycloidalComponent.py:55-60 | ring, disc and bearing seat run in that order, each exactly when selected |
| StageProperties.MovingPartsRecorded | packages/cycloidal/CycloidalComponent.py:61-66 | rollers, cage and cam run in that order, each exactly when selected |
| StageProperties.BraceAndOutputRecorded | packages/cycloidal/CycloidalComponent.py:67-73 | the brace runs, when selected, with the light bulb off; the output disc runs, when selected, with it on; the bulb ends on |
| StageProperties.StagesAgree | packages/cycloidal/CycloidalComponent.py:52-73 | the stage sequence depends only on the statements, the kernel, the interface and the eight tags |
| StageProperties.UnknownTagsIgnored | packages/cycloidal/CycloidalComponent.py:52-73 | tags outside the eight have no effect: the build equals the build for the selection cut down to the eight tags |
| StageProperties.DiscChamferFlagIgnored | packages/cycloidal/CycloidalComponent.py:698-707 | `chamfer_disc_bolt_holes` has no effect on anything built |
| StageEffects.RingHolesChamferedByFlag | packages/cycloidal/CycloidalComponent.py:403-412 | the ring holes are chamfered exactly when `chamfer_ring_bolt_holes` is set, by a third of the ring bolt diameter |
| StageEffects.DiscHolesChamferedByRingFlag | packages/cycloidal/CycloidalComponent.py:698-707 | the disc holes are chamfered exactly when `chamfer_ring_bolt_holes` is set, by a third of the ring bolt diameter |
| StageEffects.OutputCutInsideRing | packages/cycloidal/CycloidalComponent.py:295-298 | without Output the ring extends by its thickness. With Output its top rises by the ball diameter plus two layers, and the `output-cut` plane lies halfway between the plain and the raised top, strictly between them |
| StageEffects.RingHolesSpanRing | packages/cycloidal/CycloidalComponent.py:300-311 | the ring's bolt bosses and holes are extruded over the same span as the ring itself |
| StageEffects.RingRaceDrawnForPositiveRollers | packages/cycloidal/CycloidalComponent.py:260-287 | for a positive roller diameter and at least one roller, the ring race is drawn from `(roller_count + 1) * 32` points |
| StageEffects.OutputTopOnlyWithOutput | packages/cycloidal/CycloidalComponent.py:349-354 | a body is named "Output-top" exactly when Output is selected and the ring race was drawn |
| StageEffects.SplitPlanesFollowOutput | packages/cycloidal/CycloidalComponent.py:150-177 | without a kernel failure the stage finishes. It creates the `cycloid-cut` plane half a cage slot up, and the `output-cut` plane and its attribute exactly when Output is selected |
| StageEffects.RollersNeedRollerSketch | packages/cycloidal/CycloidalComponent.py:200-224 | with no roller sketch assigned, building the rollers raises before any kernel call, and leaves only its message |
| StageEffects.RaisingBlockFails | packages/cycloidal/CycloidalComponent.py:87-148 | a `try` block whose last statement raises never finishes |
| StageEffects.RollerSketchAlwaysFails | packages/cycloidal/CycloidalComponent.py:183-198 | as written, the roller-sketch stage raises at its first statement: it makes no kernel call, assigns nothing, and leaves only its failure and, with a user interface, its message |
| StageEffects.OutputDiscAlwaysFails | packages/cycloidal/CycloidalComponent.py:812-826 | as written, the output-disc stage always fails, and with a user interface its message ends the trace |
| StageEffects.HelpersAssignNothing | packages/cycloidal/CycloidalComponent.py:361-513 | no helper assigns an attribute |
| StageEffects.OpsLeaveUnassigned | packages/cycloidal/CycloidalComponent.py:361-431 | a helper block that never assigns an attribute leaves it unassigned |
| StageEffects.StepsLeaveUnassigned | packages/cycloidal/CycloidalComponent.py:87-148 | a stage block that never assigns an attribute, and whose helpers never do, leaves it unassigned |
| StageEffects.StageKeepsRollersStuck | packages/cycloidal/CycloidalComponent.py:179-224 | as written, every stage keeps `roller_sketch` unassigned and adds only failed runs of the rollers stage |
| StageEffects.WhenKeepsRollersStuck | packages/cycloidal/CycloidalComponent.py:61-62 | the same holds for a stage run only when its part is selected |
| StageEffects.RollersNeverBuilt | packages/cycloidal/CycloidalComponent.py:179-224 | as written, a constructed drive never has `roller_sketch` assigned, and every run of the rollers stage failed |
| StageEffects.RollerSketchHandedOn | packages/cycloidal/CycloidalComponent.py:179-198 | with the roller sketch repaired, once the kernel accepts the sketch's creation `roller_sketch` is assigned for the rollers stage, whatever fails later |
| StageEffects.BoundGrows | packages/cycloidal/CycloidalComponent.py:87-148 | a stage never unassigns an attribute |
| StageEffects.HealthyHelperFinishes | packages/cycloidal/CycloidalComponent.py:361-431 | a helper without failures records success and makes every kernel call it lists, in order |
| StageEffects.FailingHelperReported | packages/cycloidal/CycloidalComponent.py:428-431 | a failing helper records its failure and its message, and the calling stage goes on with its next statement |
| Component.CycloidalComponent.constructor | packages/cycloidal/CycloidalComponent.py:12-73 | the object ends with the derived radii, and the constructor raises exactly when they cannot be derived. Its trace, attributes, light bulb and results are those of the functional build |
| Component.CycloidalComponent.Prepare | packages/cycloidal/CycloidalComponent.py:52-54 | the three preparatory stage calls leave the state the schedule describes |
| Component.CycloidalComponent.BuildHousing | packages/cycloidal/CycloidalComponent.py:55-60 | the conditional ring, disc and bearing-seat calls leave the state the schedule describes |
| Component.CycloidalComponent.BuildMovingParts | packages/cycloidal/CycloidalComponent.py:61-66 | the conditional rollers, cage and cam calls leave the state the schedule describes |
| Component.CycloidalComponent.BuildBraceAndOutput | packages/cycloidal/CycloidalComponent.py:67-73 | switching the light bulb around the brace and then building the output leaves the state the schedule describes |
| Component.CycloidalComponent.RunStage | packages/cycloidal/CycloidalComponent.py:87-148 | a stage method with its `try`/`except` updates the object as the stage interpreter does |
| Component.CycloidalComponent.Perform | packages/cycloidal/CycloidalComponent.py:240-356 | running a stage's statements one by one gives the interpreter's state and outcome |
| Component.CycloidalComponent.PerformStep | packages/cycloidal/CycloidalComponent.py:240-356 | one statement advances the interpreter by one step, or raises and leaves the object unchanged |
| Component.CycloidalComponent.Step | packages/cycloidal/CycloidalComponent.py:240-356 | one operation updates the object exactly as `Apply` does, or raises and leaves the object unchanged |
| Component.CycloidalComponent.RunSub | packages/cycloidal/CycloidalComponent.py:361-431 | a helper with its `try`/`except` updates the object as the helper interpreter does |
| Dialog.InitialItems | CycloidalDrive.py:177-184 | one check box per tag in dialog order, checked exactly when its tag is among the loaded components |
| Dialog.SelectedNames | CycloidalDrive.py:243-246 | a name is collected exactly when some selected entry carries it |
| Dialog.RollerCountError | CycloidalDrive.py:300-306 | there is an error exactly for fewer than six rollers |
| Dialog.ValidateInputs | CycloidalDrive.py:296-306 | for fewer than six rollers the message is shown and the inputs are marked invalid. Otherwise the text is cleared and the validity is left as it was |
| Dialog.SpinnerAdmitsOneRejectedCount | CycloidalDrive.py:108-113 | of the counts the 5..100 spinner admits, exactly 5 fails validation |
| Dialog.Refreshed | CycloidalDrive.py:230-246 | shaft diameter, shaft bearing, output ball and both chamfer flags keep their values; the components are exactly the selected names |
| Dialog.UntouchedSelectionKept | CycloidalDrive.py:177-184 | collecting the selection of the opening check boxes gives the loaded components cut down to the eight tags |
| Dialog.OpeningInputs | CycloidalDrive.py:101-184 | the dialog opens with the check boxes built from the loaded configuration |
| Dialog.UnchangedDialogKeepsConfig | CycloidalDrive.py:101-246 | pressing OK on an unchanged dialog gives back the loaded configuration, less unknown component names. The defaults fit every spinner and pass validation |
| Dialog.Execute | CycloidalDrive.py:222-257 | the configuration becomes the refreshed one, and the saved string decodes back to it. The drive is built from it for the default printer and ends in the state of the functional build |

## Left out

- `Brace.py`: the arm silhouette and fillets come from constraints the CAD kernel solves. The brace stage is one kernel call carrying the values the component passes. Its divisions by the arm count (the ring bolt count) are not modelled, so a zero ring bolt count does not make the brace raise in the model.
- `OutputDisc.py` is modelled only up to the statement that raises: the new component, its sketch and its first two circles, then the arithmetic error of the third circle. Nothing after it runs.
- `WheelAssembly.py`: its only call site is commented out.
- The helpers in `components/helpers`: each feature call is one abstract trace event.
- The kernel's semantics of loft, mirror, combine, split, fillet and chamfer, including which profile or body index is which region. A failing kernel call is a parameter, and the kernel never changes what a later call returns.
- Property settings that cannot fail in the model are folded into the call that creates their object: names, `isFixed`, `isConstruction`, `isLightBulbOn` of planes, and `isComputeDeferred`.
- The chaining loop's individual line calls are one `RailDrawn` event carrying the closed polyline that `Race.ChainRail` builds.
- The edge-collection loops inside the helpers (fillet edges of the ring holes and keys) are folded into their fillet events.
- Numeric accuracy of `sin`, `cos`, `sqrt` and `pi`, and float rounding: numbers are exact reals.
- The outer-diameter text of the input-changed handler is left out, and so is its rounding.
- Pickle and base64 encoding: the codec is a parameter, and the round trip is the `RoundTrips` predicate, assumed where stated.
- Saving the configuration into the design's attributes is left out; `Dialog.Execute` returns the saved string.
- Add-in start and stop, handler registration, the dialog layout and the component description are left out. So is the outer `try` of the execute handler: a constructor exception reaching it is the `raised` flag.
- The bodies-folder light bulb is taken to be on when the component is created, the CAD system's default. Setting it is assumed not to fail.
- `addNewComponent`, the cast and the naming of the drive's own component in `__init__` are assumed not to fail: in the model only the median diameter can make the constructor raise.
- Reading `cycloid_cut_plane` or `output_cut_plane` while it is still `None` is taken to raise in the kernel call that receives it, so each is modelled as a read of an unassigned attribute.
- The `Split` events do not say which of the two split bodies each name goes to.
- Stages.RunStage: the recorded result is one flag per stage. The exception text that follows the message in the message box is not modelled.
- Dialog.ValidateInputs: the model does not carry the handler's outer `try`; setting the text box cannot fail in the model.

## Findings

| source | as written | input that shows it | evidently intended | confidence | as-written member | corrected member |
|---|---|---|---|---|---|---|
| packages/cycloidal/CycloidalComponent.py:183 | the roller sketch is created through the four-parameter sketch helper with a fifth argument, the yz plane, so the call raises a `TypeError` before `roller_sketch` or `roller_mirror_line` is assigned, and the rollers stage then fails on reading `roller_sketch` | any configuration whose median diameter exists, with Rollers selected | create the sketch on the yz plane through the helper that takes a plane, so that the rollers can be revolved | high, not executed | StageEffects.RollersNeverBuilt | StageEffects.RollerSketchHandedOn |
