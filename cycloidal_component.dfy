/** `CycloidalComponent` as an object: `__init__` assigns the derived radii,
    then runs the stages one statement at a time against the kernel,
    updating the component's trace, attributes and light bulb in place. */
module Component {
  import opened Numerics
  import opened Printer
  import opened DriveConfigs
  import opened Geometry
  import opened Stages

  class CycloidalComponent {
    const m: Math
    const config: Config
    const printerConfig: PrinterConfig
    const kernel: Kernel
    const ui: bool

    /** The radii `__init__` derives, `None` when their computation raised. */
    var geometry: Option<Geometry>
    /** Whether `__init__` raised while deriving the radii. */
    var raised: bool

    var trace: seq<Event>
    var bound: set<Ref>
    var lightBulbOn: bool
    var runs: seq<Run>
    var subRuns: seq<SubRun>

    /** The component as the stage sequencer sees it. */
    function State(): BuildState
      reads this
    {
      BuildState(trace, bound, lightBulbOn, runs, subRuns)
    }

    /** The stage statements under the derived radii. */
    function Environment(g: Geometry): Env
      reads this
      requires Valid(m)
    {
      Env(Compile(Ctx(m, config, printerConfig, g)), kernel, ui, config.components)
    }

    /** `__init__`: the new component, the derived radii, and the stages in
        their fixed order. The object ends in the state `Build` describes. */
    constructor (m: Math, config: Config, printerConfig: PrinterConfig, kernel: Kernel, ui: bool)
      requires Valid(m)
      ensures this.m == m && this.config == config && this.printerConfig == printerConfig
      ensures this.kernel == kernel && this.ui == ui
      ensures geometry == Derive(m, config, printerConfig) && raised == geometry.None?
      ensures Build(m, config, printerConfig, kernel, ui)
              == if raised then Aborted(State()) else Constructed(State())
    {
      this.m := m;
      this.config := config;
      this.printerConfig := printerConfig;
      this.kernel := kernel;
      this.ui := ui;
      trace := [ComponentCreated(config.rollerCount, config.rollerSpacing)];
      bound := {};
      lightBulbOn := true;
      runs := [];
      subRuns := [];
      var g := Derive(m, config, printerConfig);
      geometry := g;
      raised := g.None?;
      new;
      if g.Some? {
        var env := Environment(g.value);
        assert State() == Initial(config);
        Prepare(env);
        BuildHousing(env);
        BuildMovingParts(env);
        BuildBraceAndOutput(env);
      }
    }

    /** The construction sketch, the split planes and the roller sketch. */
    method Prepare(env: Env)
      modifies this
      ensures State() == RunPreparation(env, old(State()))
      ensures unchanged(this`geometry, this`raised)
    {
      RunStage(env, DrawConstructionSketch);
      RunStage(env, CreateSplitPlanes);
      RunStage(env, CreateRollerSketch);
    }

    /** The ring, the disc and the bearing seat, where selected. */
    method BuildHousing(env: Env)
      modifies this
      ensures State() == RunHousing(env, old(State()))
      ensures unchanged(this`geometry, this`raised)
    {
      if Ring in env.components { RunStage(env, BuildRing); }
      if Disc in env.components { RunStage(env, BuildDisc); }
      if BearingSeat in env.components { RunStage(env, CreateBearingSeat); }
    }

    /** The rollers, the cage and the cam, where selected. */
    method BuildMovingParts(env: Env)
      modifies this
      ensures State() == RunMovingParts(env, old(State()))
      ensures unchanged(this`geometry, this`raised)
    {
      if Rollers in env.components { RunStage(env, BuildRollers); }
      if Cage in env.components { RunStage(env, BuildRollerCage); }
      if Cam in env.components { RunStage(env, BuildCam); }
    }

    /** The brace with the bodies-folder light bulb off, then the output
        disc with it on again. */
    method BuildBraceAndOutput(env: Env)
      modifies this
      ensures State() == RunBraceAndOutput(env, old(State()))
      ensures unchanged(this`geometry, this`raised)
    {
      lightBulbOn := false;
      if Brace in env.components { RunStage(env, BuildBrace); }
      lightBulbOn := true;
      if Output in env.components { RunStage(env, BuildOutputDisc); }
    }

    /** A stage method with its `try`/`except`: the result is recorded under
        the light bulb as it is, and a failure is shown when a user
        interface exists. */
    method RunStage(env: Env, stage: Stage)
      modifies this
      ensures State() == Stages.RunStage(env, old(State()), stage)
      ensures unchanged(this`geometry, this`raised)
    {
      var on := lightBulbOn;
      var ok := Perform(env, env.prog.body(stage), Rejects(env.kernel, stage));
      runs := runs + [Run(stage, on, ok)];
      if !ok && env.ui {
        trace := trace + [Reported(Message(stage))];
      }
    }

    /** The body of a stage's `try` block, statement by statement, until one
        raises; `calls` counts the kernel calls made so far. */
    method Perform(env: Env, steps: seq<Step>, reject: Option<nat>) returns (ok: bool)
      modifies this
      ensures var o := ExecSteps(env, old(State()), steps, reject, 0); State() == o.state && ok == o.ok
      ensures unchanged(this`geometry, this`raised)
    {
      ghost var goal := ExecSteps(env, State(), steps, reject, 0);
      var i: nat, calls: nat := 0, 0;
      ok := true;
      while i < |steps| && ok
        invariant 0 <= i <= |steps|
        invariant ok ==> goal == ExecSteps(env, State(), steps[i..], reject, calls)
        invariant !ok ==> goal == Outcome(State(), false)
        invariant unchanged(this`geometry, this`raised)
        decreases |steps| - i, ok
      {
        var after;
        ok, after := PerformStep(env, steps, i, reject, calls, goal);
        if ok {
          i, calls := i + 1, after;
        }
      }
      if ok {
        assert steps[i..] == [];
      }
    }

    /** Statement `i` of a stage: a helper call, or an operation that may
        raise, which ends the `try` block with the component as it was.
        `goal` is what the rest of the block, from statement `i`, yields. */
    method PerformStep(env: Env, steps: seq<Step>, i: nat, reject: Option<nat>, calls: nat, ghost goal: Outcome)
      returns (done: bool, after: nat)
      requires i < |steps|
      requires goal == ExecSteps(env, State(), steps[i..], reject, calls)
      modifies this
      ensures done ==> goal == ExecSteps(env, State(), steps[i + 1..], reject, after)
      ensures !done ==> goal == Outcome(State(), false) && State() == old(State())
      ensures unchanged(this`geometry, this`raised)
    {
      assert steps[i..][0] == steps[i] && steps[i..][1..] == steps[i + 1..];
      ghost var before := State();
      match steps[i] {
        case Do(op) =>
          done := Step(op, reject, calls);
          after := calls + Cost(op);
        case Nested(sub) =>
          assert goal == ExecSteps(env, Stages.RunSub(env, before, sub), steps[i + 1..], reject, calls);
          RunSub(env, sub);
          done, after := true, calls;
      }
    }

    /** One statement: a kernel call the kernel may reject, the assignment
        of an attribute, the read of one, or an arithmetic error. On
        `false` the component is left as it was. */
    method Step(op: Op, reject: Option<nat>, calls: nat) returns (done: bool)
      modifies this
      ensures var next := Apply(old(State()), op, reject, calls);
        done == next.Some? && State() == if done then next.value else old(State())
      ensures unchanged(this`geometry, this`raised)
    {
      match op {
        case Call(e) =>
          if reject == Some(calls) {
            return false;
          }
          trace := trace + [e];
        case Bind(x) =>
          bound := bound + {x};
        case Need(x) =>
          if x !in bound {
            return false;
          }
        case Raise =>
          return false;
      }
      return true;
    }

    /** A helper called from a stage, with its own `try`/`except`. */
    method RunSub(env: Env, sub: SubStage)
      modifies this
      ensures State() == Stages.RunSub(env, old(State()), sub)
      ensures unchanged(this`geometry, this`raised)
    {
      var ops := env.prog.sub(sub);
      var reject := RejectsSub(env.kernel, sub);
      ghost var goal := ExecOps(State(), ops, reject, 0);
      var i: nat, calls: nat, ok := 0, 0, true;
      while i < |ops|
        invariant 0 <= i <= |ops|
        invariant goal == ExecOps(State(), ops[i..], reject, calls)
        invariant unchanged(this`geometry, this`raised)
      {
        assert ops[i..][0] == ops[i] && ops[i..][1..] == ops[i + 1..];
        var done := Step(ops[i], reject, calls);
        if !done {
          ok := false;
          break;
        }
        calls := calls + Cost(ops[i]);
        i := i + 1;
      }
      assert goal == Outcome(State(), ok);
      subRuns := subRuns + [SubRun(sub, ok)];
      if !ok && env.ui {
        trace := trace + [Reported(SubMessage(sub))];
      }
    }
  }
}
