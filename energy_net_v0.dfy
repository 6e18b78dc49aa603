/** The two-agent environment EnergyNetV0: it composes the controller's per-agent
    spaces, feeds the ISO action and then the PCS action into one controller tick,
    and splits the controller's positional results into dicts keyed by agent. */
module EnergyNetEnv {
  import opened Outcomes

  const ISO: string := "iso"
  const PCS: string := "pcs"

  type Observation = seq<real>
  type Action = seq<real>
  type Reward = real
  type Metrics = map<string, real>
  /** Keyword arguments forwarded verbatim to the controller's constructor. */
  type Kwargs = map<string, string>
  type ResetOptions = map<string, string>

  /** A space descriptor (bounds, shape, dtype) owned by the controller; opaque here. */
  datatype Space = Space(descriptor: string)

  /** The joint space: a `spaces.Dict` in single-agent mode, a plain dict otherwise. */
  datatype JointSpace = DictSpace(spaces: map<string, Space>) | PlainDict(spaces: map<string, Space>)

  /** What the controller's four space accessors return. */
  datatype ControllerSpaces = ControllerSpaces(
    isoObservation: Space, pcsObservation: Space, isoAction: Space, pcsAction: Space)

  /** A termination or truncation value: a Python bool or a numpy array of them. */
  datatype FlagValue = Bool(b: bool) | NdArray(elements: seq<bool>)

  /** The shape of the controller's terminated/truncated result: a list or tuple
      (indexed per agent), or anything else (copied to both agents). */
  datatype Flags = Sequence(items: seq<FlagValue>) | Single(value: FlagValue)

  datatype StepOutcome = StepOutcome(
    observations: seq<Observation>,
    rewards: seq<Reward>,
    terminated: Flags,
    truncated: Flags,
    info: InfoMap)

  datatype ResetOutcome = ResetOutcome(observations: seq<Observation>, info: InfoMap)

  datatype StepResult = StepResult(
    observations: map<string, Observation>,
    rewards: map<string, Reward>,
    terminated: map<string, FlagValue>,
    truncated: map<string, FlagValue>,
    info: InfoMap)

  datatype ResetResult = ResetResult(observations: map<string, Observation>, info: InfoMap)

  /** One call into the controller, as recorded in its ghost trace. */
  datatype ControllerCall =
    | ResetCall(seed: Option<int>, options: Option<ResetOptions>)
    | StepCall(isoAction: Action, pcsAction: Action)

  /** A controller class: its spaces and initial state for given keyword arguments,
      and its (opaque) reset, step and metrics dynamics. A dynamics result carries
      the state reached and either the outcome or the exception raised. */
  datatype ControllerClass<!S> = ControllerClass(
    spaces: Kwargs -> ControllerSpaces,
    init: Kwargs -> S,
    reset: (S, Option<int>, Option<ResetOptions>) -> (S, Result<ResetOutcome>),
    step: (S, Action, Action) -> (S, Result<StepOutcome>),
    metrics: S -> Metrics)

  /** The importable modules: module path, then attribute name, then class. */
  type Registry<!S> = map<string, map<string, ControllerClass<S>>>

  /** The controller: the simulation state that reset and step advance. */
  class Controller<S> {
    const spaces: ControllerSpaces
    const resetFn: (S, Option<int>, Option<ResetOptions>) -> (S, Result<ResetOutcome>)
    const stepFn: (S, Action, Action) -> (S, Result<StepOutcome>)
    const metricsFn: S -> Metrics
    var state: S
    ghost var calls: seq<ControllerCall>

    constructor (cls: ControllerClass<S>, kwargs: Kwargs)
      ensures spaces == cls.spaces(kwargs) && state == cls.init(kwargs)
      ensures resetFn == cls.reset && stepFn == cls.step && metricsFn == cls.metrics
      ensures calls == []
    {
      spaces := cls.spaces(kwargs);
      resetFn := cls.reset;
      stepFn := cls.step;
      metricsFn := cls.metrics;
      state := cls.init(kwargs);
      calls := [];
    }

    method Reset(seed: Option<int>, options: Option<ResetOptions>) returns (r: Result<ResetOutcome>)
      modifies this
      ensures (state, r) == resetFn(old(state), seed, options)
      ensures calls == old(calls) + [ResetCall(seed, options)]
    {
      var next := resetFn(state, seed, options);
      state, r := next.0, next.1;
      calls := calls + [ResetCall(seed, options)];
    }

    method Step(isoAction: Action, pcsAction: Action) returns (r: Result<StepOutcome>)
      modifies this
      ensures (state, r) == stepFn(old(state), isoAction, pcsAction)
      ensures calls == old(calls) + [StepCall(isoAction, pcsAction)]
    {
      var next := stepFn(state, isoAction, pcsAction);
      state, r := next.0, next.1;
      calls := calls + [StepCall(isoAction, pcsAction)];
    }

    function Metrics(): Metrics
      reads this
    {
      metricsFn(state)
    }
  }

  /** The constructor's default arguments. */
  const DEFAULT_CONTROLLER_NAME: string := "EnergyNetController"
  const DEFAULT_CONTROLLER_MODULE: string := "energy_net.controllers"
  const DEFAULT_SINGLE_AGENT: bool := true

  /** The message of the ValueError raised when the controller cannot be found. */
  function InitFailureMessage(controllerName: string, controllerModule: string, cause: string): string
  {
    "Failed to initialize controller " + controllerName + " from module "
      + controllerModule + ": " + cause
  }

  /** `getattr(importlib.import_module(module), name)`, with ImportError and
      AttributeError turned into the ValueError that construction raises. */
  function ResolveController<S>(registry: Registry<S>, controllerModule: string, controllerName: string)
    : (r: Result<ControllerClass<S>>)
    ensures r.Ok? <==> controllerModule in registry && controllerName in registry[controllerModule]
    ensures r.Ok? ==> r.value == registry[controllerModule][controllerName]
    ensures r.Err? ==> r.error.ValueError?
    ensures controllerModule !in registry ==>
      r == Err(ValueError(InitFailureMessage(controllerName, controllerModule,
                                             "No module named '" + controllerModule + "'")))
    ensures controllerModule in registry && controllerName !in registry[controllerModule] ==>
      r == Err(ValueError(InitFailureMessage(controllerName, controllerModule,
                                             "module '" + controllerModule + "' has no attribute '"
                                             + controllerName + "'")))
  {
    if controllerModule !in registry then
      Err(ValueError(InitFailureMessage(controllerName, controllerModule,
                                        "No module named '" + controllerModule + "'")))
    else if controllerName !in registry[controllerModule] then
      Err(ValueError(InitFailureMessage(controllerName, controllerModule,
                                        "module '" + controllerModule + "' has no attribute '"
                                        + controllerName + "'")))
    else
      Ok(registry[controllerModule][controllerName])
  }

  /** The joint space over the two agents, in the representation the mode selects. */
  function ComposeSpaces(singleAgent: bool, iso: Space, pcs: Space): (j: JointSpace)
    ensures j.spaces.Keys == {ISO, PCS} && j.spaces[ISO] == iso && j.spaces[PCS] == pcs
    ensures j.DictSpace? <==> singleAgent
  {
    var spaces := map[ISO := iso, PCS := pcs];
    if singleAgent then DictSpace(spaces) else PlainDict(spaces)
  }

  /** `action_dict["iso"]`, then `action_dict["pcs"]`: the first missing key raises. */
  function SelectActions(actions: map<string, Action>): (r: Result<(Action, Action)>)
    ensures ISO !in actions ==> r == Err(KeyError(ISO))
    ensures ISO in actions && PCS !in actions ==> r == Err(KeyError(PCS))
    ensures r.Ok? <==> ISO in actions && PCS in actions
    ensures r.Ok? ==> r.value.0 == actions[ISO] && r.value.1 == actions[PCS]
  {
    if ISO !in actions then Err(KeyError(ISO))
    else if PCS !in actions then Err(KeyError(PCS))
    else Ok((actions[ISO], actions[PCS]))
  }

  /** Positions 0 and 1 of a controller result, keyed by agent. */
  function PerAgent<T>(values: seq<T>): (r: Result<map<string, T>>)
    ensures r.Ok? <==> |values| >= 2
    ensures r.Err? ==> r.error == IndexError
    ensures r.Ok? ==>
      r.value.Keys == {ISO, PCS} && r.value[ISO] == values[0] && r.value[PCS] == values[1]
  {
    if |values| < 2 then Err(IndexError) else Ok(map[ISO := values[0], PCS := values[1]])
  }

  /** The two agents' entries of a per-agent dict, in agent order. */
  function AgentsInOrder<T>(m: map<string, T>): seq<T>
    requires ISO in m && PCS in m
  {
    [m[ISO], m[PCS]]
  }

  /** A terminated/truncated result as a per-agent dict: a list or tuple is indexed
      by position, any other value is given to both agents. */
  function SplitFlags(flags: Flags): (r: Result<map<string, FlagValue>>)
    ensures r.Ok? <==> (flags.Sequence? ==> |flags.items| >= 2)
    ensures r.Err? ==> r.error == IndexError
    ensures r.Ok? ==> r.value.Keys == {ISO, PCS}
    ensures r.Ok? && flags.Sequence? ==>
      r.value[ISO] == flags.items[0] && r.value[PCS] == flags.items[1]
    ensures flags.Single? ==> r.Ok? && r.value[ISO] == flags.value && r.value[PCS] == flags.value
  {
    match flags
    case Sequence(items) => PerAgent(items)
    case Single(v) => Ok(map[ISO := v, PCS := v])
  }

  /** The demultiplexing of one controller step, in the order the dicts are built:
      observations, rewards, terminated, truncated; info is passed through. */
  function DemuxStep(o: StepOutcome): (r: Result<StepResult>)
    ensures r.Ok? <==> |o.observations| >= 2 && |o.rewards| >= 2
                       && SplitFlags(o.terminated).Ok? && SplitFlags(o.truncated).Ok?
    ensures r.Err? ==> r.error == IndexError
    ensures r.Ok? ==>
      && r.value.observations == map[ISO := o.observations[0], PCS := o.observations[1]]
      && r.value.rewards == map[ISO := o.rewards[0], PCS := o.rewards[1]]
      && r.value.terminated == SplitFlags(o.terminated).value
      && r.value.truncated == SplitFlags(o.truncated).value
      && r.value.info == o.info
  {
    var observations :- PerAgent(o.observations);
    var rewards :- PerAgent(o.rewards);
    var terminated :- SplitFlags(o.terminated);
    var truncated :- SplitFlags(o.truncated);
    Ok(StepResult(observations, rewards, terminated, truncated, o.info))
  }

  /** The demultiplexing of a controller reset: observations by position, info unchanged. */
  function DemuxReset(o: ResetOutcome): (r: Result<ResetResult>)
    ensures r.Ok? <==> |o.observations| >= 2
    ensures r.Err? ==> r.error == IndexError
    ensures r.Ok? ==>
      r.value.observations == map[ISO := o.observations[0], PCS := o.observations[1]]
      && r.value.info == o.info
  {
    var observations :- PerAgent(o.observations);
    Ok(ResetResult(observations, o.info))
  }

  /** Keying by agent and reading back in agent order are inverse to each other. */
  lemma PerAgentRoundTrip<T>(values: seq<T>, m: map<string, T>)
    requires |values| == 2
    requires m.Keys == {ISO, PCS}
    ensures AgentsInOrder(PerAgent(values).value) == values
    ensures PerAgent(AgentsInOrder(m)) == Ok(m)
  {
    assert [values[0], values[1]] == values;
    assert map[ISO := m[ISO], PCS := m[PCS]] == m;
  }

  /** The truncated dict is decided by the truncated result alone, whatever the
      terminated result's shape; and symmetrically for terminated. */
  lemma FlagsDecidedIndependently(o1: StepOutcome, o2: StepOutcome)
    requires DemuxStep(o1).Ok? && DemuxStep(o2).Ok?
    ensures o1.truncated == o2.truncated ==> DemuxStep(o1).value.truncated == DemuxStep(o2).value.truncated
    ensures o1.terminated == o2.terminated ==> DemuxStep(o1).value.terminated == DemuxStep(o2).value.terminated
  {
  }

  /** A single flag value ends or truncates the episode for both agents at once. */
  lemma SingleFlagsAgree(o: StepOutcome)
    requires DemuxStep(o).Ok?
    ensures o.terminated.Single? ==> DemuxStep(o).value.terminated[ISO] == DemuxStep(o).value.terminated[PCS]
    ensures o.truncated.Single? ==> DemuxStep(o).value.truncated[ISO] == DemuxStep(o).value.truncated[PCS]
  {
  }

  /** The environment object. */
  class EnergyNetV0<S> {
    var singleAgent: bool
    var controller: Controller<S>
    var agents: seq<string>
    var observationSpace: JointSpace
    var actionSpace: JointSpace

    /** The fields as construction leaves them: the two agents in order, and
        joint spaces built from the controller's per-agent spaces. */
    predicate Valid()
      reads this
    {
      && agents == [ISO, PCS]
      && observationSpace == ComposeSpaces(singleAgent, controller.spaces.isoObservation,
                                           controller.spaces.pcsObservation)
      && actionSpace == ComposeSpaces(singleAgent, controller.spaces.isoAction,
                                      controller.spaces.pcsAction)
    }

    /** The field assignments of `__init__` once the controller exists. */
    constructor (singleAgent: bool, controller: Controller<S>)
      ensures Valid()
      ensures this.singleAgent == singleAgent && this.controller == controller
    {
      this.singleAgent := singleAgent;
      this.controller := controller;
      agents := [ISO, PCS];
      var spaces := controller.spaces;
      observationSpace := ComposeSpaces(singleAgent, spaces.isoObservation, spaces.pcsObservation);
      actionSpace := ComposeSpaces(singleAgent, spaces.isoAction, spaces.pcsAction);
    }

    /** `EnergyNetV0(controller_name, controller_module, single_agent, **kwargs)`:
        resolves the controller class, instantiates it with the keyword arguments
        and builds the environment around it; an unresolvable class raises ValueError. */
    static method Create(controllerName: string, controllerModule: string, singleAgent: bool,
                         kwargs: Kwargs, registry: Registry<S>)
      returns (r: Result<EnergyNetV0<S>>)
      ensures ResolveController(registry, controllerModule, controllerName).Err? ==>
        r == Err(ResolveController(registry, controllerModule, controllerName).error)
      ensures ResolveController(registry, controllerModule, controllerName).Ok? ==>
        var cls := ResolveController(registry, controllerModule, controllerName).value;
        && r.Ok? && fresh(r.value) && fresh(r.value.controller)
        && r.value.Valid() && r.value.singleAgent == singleAgent
        && r.value.controller.spaces == cls.spaces(kwargs)
        && r.value.controller.state == cls.init(kwargs)
        && r.value.controller.resetFn == cls.reset
        && r.value.controller.stepFn == cls.step
        && r.value.controller.metricsFn == cls.metrics
        && r.value.controller.calls == []
    {
      var resolved := ResolveController(registry, controllerModule, controllerName);
      if resolved.Err? {
        return Err(resolved.error);
      }
      var controller := new Controller(resolved.value, kwargs);
      var env := new EnergyNetV0(singleAgent, controller);
      r := Ok(env);
    }

    /** `EnergyNetV0(**kwargs)` with the defaults for the arguments left out: the
        default controller class from the default module, in single-agent mode,
        so that both joint spaces are Dict spaces. */
    static method CreateWithDefaults(kwargs: Kwargs, registry: Registry<S>)
      returns (r: Result<EnergyNetV0<S>>)
      ensures ResolveController(registry, DEFAULT_CONTROLLER_MODULE, DEFAULT_CONTROLLER_NAME).Err? ==>
        r == Err(ResolveController(registry, DEFAULT_CONTROLLER_MODULE, DEFAULT_CONTROLLER_NAME).error)
      ensures ResolveController(registry, DEFAULT_CONTROLLER_MODULE, DEFAULT_CONTROLLER_NAME).Ok? ==>
        var cls := ResolveController(registry, DEFAULT_CONTROLLER_MODULE, DEFAULT_CONTROLLER_NAME).value;
        && r.Ok? && fresh(r.value) && fresh(r.value.controller)
        && r.value.Valid() && r.value.singleAgent == DEFAULT_SINGLE_AGENT
        && r.value.observationSpace.DictSpace? && r.value.actionSpace.DictSpace?
        && r.value.controller.spaces == cls.spaces(kwargs)
        && r.value.controller.state == cls.init(kwargs)
        && r.value.controller.resetFn == cls.reset
        && r.value.controller.stepFn == cls.step
        && r.value.controller.metricsFn == cls.metrics
        && r.value.controller.calls == []
    {
      r := Create(DEFAULT_CONTROLLER_NAME, DEFAULT_CONTROLLER_MODULE, DEFAULT_SINGLE_AGENT,
                  kwargs, registry);
    }

    /** Resets the controller with the seed and options and keys its initial
        observations by agent; the info comes back unchanged. */
    method Reset(seed: Option<int>, options: Option<ResetOptions>) returns (r: Result<ResetResult>)
      requires Valid()
      modifies controller
      ensures Valid()
      ensures var (state, outcome) := controller.resetFn(old(controller.state), seed, options);
        && controller.state == state
        && r == (match outcome case Ok(o) => DemuxReset(o) case Err(e) => Err(e))
      ensures controller.calls == old(controller.calls) + [ResetCall(seed, options)]
    {
      var outcome := controller.Reset(seed, options);
      match outcome
      case Err(e) =>
        r := Err(e);
      case Ok(o) =>
        r := DemuxReset(o);
    }

    /** One tick: the ISO and PCS actions go to a single controller step in that
        order, and the results are keyed by agent. A missing action raises
        KeyError before the controller is called. */
    method Step(actions: map<string, Action>) returns (r: Result<StepResult>)
      requires Valid()
      modifies controller
      ensures Valid()
      ensures SelectActions(actions).Err? ==>
        && r == Err(SelectActions(actions).error)
        && controller.state == old(controller.state)
        && controller.calls == old(controller.calls)
      ensures ISO in actions && PCS in actions ==>
        var (state, outcome) := controller.stepFn(old(controller.state), actions[ISO], actions[PCS]);
        && controller.state == state
        && controller.calls == old(controller.calls) + [StepCall(actions[ISO], actions[PCS])]
        && r == (match outcome case Ok(o) => DemuxStep(o) case Err(e) => Err(e))
    {
      var selected := SelectActions(actions);
      if selected.Err? {
        return Err(selected.error);
      }
      var (isoAction, pcsAction) := selected.value;
      var outcome := controller.Step(isoAction, pcsAction);
      match outcome
      case Err(e) =>
        r := Err(e);
      case Ok(o) =>
        r := DemuxStep(o);
    }

    /** Pure delegation to the controller's cumulative metrics. */
    method GetMetrics() returns (m: Metrics)
      ensures m == controller.metricsFn(controller.state)
    {
      m := controller.Metrics();
    }

    /** Rendering is not supported: always raises NotImplementedError. */
    method Render() returns (r: Result<()>)
      ensures r == Err(NotImplementedError(
        "Rendering is not yet implemented for the EnergyNetV0 environment"))
    {
      r := Err(NotImplementedError("Rendering is not yet implemented for the EnergyNetV0 environment"));
    }

    /** Nothing to release: the environment and its controller are left as they are. */
    method Close()
      ensures unchanged(this) && unchanged(controller)
    {
    }
  }
}
