# EnergyNet core in Dafny

A model of the sequential core of the EnergyNet two-agent electricity-market
simulation. Three pieces are covered:

- **The environment adapter `EnergyNetV0`** (`energy_net_v0.dfy`, module `EnergyNetEnv`).
  It resolves a controller class by module and name. Failure raises ValueError.
  It composes the controller's four per-agent spaces into joint observation and action spaces:
  a `spaces.Dict` in single-agent mode and a plain dict otherwise.
  `step` reads the ISO and PCS actions from the action dict and passes them to one
  controller tick in that order. It then keys the positional observations and rewards
  by agent (0 → `iso`, 1 → `pcs`). A list/tuple of terminated or truncated flags is
  indexed the same way; any other value is copied to both agents. `reset` keys the
  initial observations the same way. `render` always raises NotImplementedError, and
  `close` does nothing.
  The controller is an external collaborator. It is modelled as a class `Controller<S>`
  over an abstract state `S`, whose reset, step and metrics dynamics are arbitrary
  function values taken from a `ControllerClass`. A ghost trace of the calls made to it
  records which actions reach it and in which order. Dynamic import is modelled as a
  `Registry`: a map from module path to attribute name to controller class.
- **The ISO mismatch reward** (`iso_mismatch_reward.dfy`, module `IsoMismatchReward`).
  The reward is `-|dispatch - realized_demand|` over an info map, and each missing entry
  counts as 0.
- **Utility helpers** (`utils.dfy`, module `Utils`):
  - the in-place key-wise sum of a list of dicts;
  - the hour parsed from `"HH:MM"`;
  - the two-ticks-per-hour clock;
  - the one-or-two-level dict lookup.

`outcomes.dfy` holds the `Result`/`Option` types. It also holds `Error`, which names the
Python exceptions the modelled code raises. It defines the info map type and the
`get(key, 0.0)` lookup once; the environment, the reward and the aggregation all use them.

Where a docstring and the code disagree, the model follows the code. The reward's
docstring (energy_net/model/rewards/iso_mismatch_reward.py:6-8, 30) describes a
reserve-cost/shortfall reward. The code (lines 33-38) computes only the
dispatch/realized-demand mismatch, and that is what the model computes.

## Model

| member | source | states |
|---|---|---|
| `EnergyNetEnv.Controller.Reset` | energy_net/env/energy_net_v0.py:120 | the controller's reset is called once with the seed and options; its state and result are those its dynamics give |
| `EnergyNetEnv.Controller.Step` | energy_net/env/energy_net_v0.py:152 | the controller's step is called once with the ISO action as first and the PCS action as second argument; the call is appended to the trace |
| `EnergyNetEnv.ResolveController` | energy_net/env/energy_net_v0.py:70-76 | lookup succeeds exactly when the module exists and has the named class, and then returns that class; otherwise a ValueError whose message names the controller and module and gives the cause: Python's message for the missing module, or for the module lacking the attribute |
| `EnergyNetEnv.ComposeSpaces` | energy_net/env/energy_net_v0.py:86-105 | the joint space has exactly the keys iso and pcs, holding the given per-agent spaces; it is a Dict space exactly in single-agent mode |
| `EnergyNetEnv.SelectActions` | energy_net/env/energy_net_v0.py:147-148 | a missing `iso` key raises KeyError("iso") first, then a missing `pcs` key KeyError("pcs"); otherwise the pair (iso action, pcs action) in that order |
| `EnergyNetEnv.PerAgent` | energy_net/env/energy_net_v0.py:155-163 | succeeds exactly when the result has at least two positions (else IndexError), giving {iso: position 0, pcs: position 1} with no other keys |
| `EnergyNetEnv.SplitFlags` | energy_net/env/energy_net_v0.py:165-174 | a list/tuple is indexed per agent (IndexError when shorter than two); any other value, numpy arrays included, goes to both agents unchanged |
| `EnergyNetEnv.DemuxStep` | energy_net/env/energy_net_v0.py:152-176 | observations and rewards keyed by position, terminated and truncated each split by its own shape, info passed through unchanged; IndexError exactly when some result is too short |
| `EnergyNetEnv.DemuxReset` | energy_net/env/energy_net_v0.py:120-128 | initial observations keyed by position (IndexError when fewer than two), info unchanged |
| `EnergyNetEnv.PerAgentRoundTrip` | energy_net/env/energy_net_v0.py:155-158 | keying a two-element result by agent and reading it back in agent order are mutually inverse |
| `EnergyNetEnv.FlagsDecidedIndependently` | energy_net/env/energy_net_v0.py:165-174 | the truncated dict depends only on the truncated result and the terminated dict only on the terminated result |
| `EnergyNetEnv.SingleFlagsAgree` | energy_net/env/energy_net_v0.py:165-174 | a non-list/tuple flag gives both agents the same entry |
| `EnergyNetEnv.EnergyNetV0.constructor` | energy_net/env/energy_net_v0.py:68-105 | sets the mode and controller; agents are ["iso", "pcs"]; both joint spaces are composed from the controller's per-agent spaces |
| `EnergyNetEnv.EnergyNetV0.Create` | energy_net/env/energy_net_v0.py:50-105 | an unresolvable controller gives the lookup's ValueError; otherwise a fresh environment around a fresh controller instantiated with the keyword arguments, whose spaces, initial state and reset/step/metrics dynamics are the resolved class's, with nothing yet called on it |
| `EnergyNetEnv.EnergyNetV0.CreateWithDefaults` | energy_net/env/energy_net_v0.py:50-56 | construction with the defaults: controller EnergyNetController from energy_net.controllers, in single-agent mode, so both joint spaces are Dict spaces |
| `EnergyNetEnv.EnergyNetV0.Reset` | energy_net/env/energy_net_v0.py:107-128 | one controller reset with the seed and options; the result is the reset outcome keyed by agent, or the controller's exception unchanged |
| `EnergyNetEnv.EnergyNetV0.Step` | energy_net/env/energy_net_v0.py:130-176 | a missing action raises KeyError and leaves the controller untouched and uncalled; otherwise exactly one controller step with (iso action, pcs action), whose outcome is demultiplexed or whose exception is propagated |
| `EnergyNetEnv.EnergyNetV0.GetMetrics` | energy_net/env/energy_net_v0.py:178-185 | returns the controller's metrics for its current state, changing nothing |
| `EnergyNetEnv.EnergyNetV0.Render` | energy_net/env/energy_net_v0.py:187-194 | always raises NotImplementedError with the source's message |
| `EnergyNetEnv.EnergyNetV0.Close` | energy_net/env/energy_net_v0.py:196-201 | leaves the environment and its controller unchanged, so calling it repeatedly is harmless |
| `IsoMismatchReward.ComputeReward` | energy_net/model/rewards/iso_mismatch_reward.py:33-38 | the reward is never positive, is ±(dispatch − realized demand) with missing entries read as 0, and is zero exactly when the two agree |
| `IsoMismatchReward.EmptyInfoGivesZero` | energy_net/model/rewards/iso_mismatch_reward.py:33-34 | an info map with neither entry gives reward 0 |
| `IsoMismatchReward.OverDispatchExample` | energy_net/model/rewards/iso_mismatch_reward.py:35-38 | dispatch 100 against realized demand 80 gives −20 |
| `IsoMismatchReward.SwapIsSymmetric` | energy_net/model/rewards/iso_mismatch_reward.py:35 | swapping the dispatch and realized-demand values leaves the reward unchanged |
| `IsoMismatchReward.DependsOnlyOnMismatchKeys` | energy_net/model/rewards/iso_mismatch_reward.py:33-38 | infos agreeing on the two consumed entries give equal rewards, whatever other keys they carry |
| `IsoMismatchReward.LargerMismatchLowerReward` | energy_net/model/rewards/iso_mismatch_reward.py:35-38 | a larger mismatch never yields a larger reward |
| `Utils.AggFuncSum` | energy_net/utils/utils.py:11-19 | the nested loops that add each record's entries into the running dict produce exactly the aggregate: the union of the keys, each holding the sum of its values |
| `Utils.AggregateKeys` | energy_net/utils/utils.py:11-19 | a key is in the aggregate exactly when some input record contains it |
| `Utils.AggregateEmpty` | energy_net/utils/utils.py:12-19 | an empty list aggregates to the empty dict |
| `Utils.AggregateSingleton` | energy_net/utils/utils.py:12-19 | a one-element list aggregates to that element |
| `Utils.AggregateSnoc` | energy_net/utils/utils.py:13-18 | processing one more record adds its keys and adds its values key by key |
| `Utils.AggregateOrderIndependent` | energy_net/utils/utils.py:13-18 | swapping two groups of records does not change the aggregate |
| `Utils.HourPart` | energy_net/utils/utils.py:24 | the hour part is the prefix of the string up to the first colon (all of it when there is none) and contains no colon |
| `Utils.ConvertHourToInt` | energy_net/utils/utils.py:22-26 | succeeds exactly when the hour part is a non-empty run of digits, with a non-negative value; otherwise ValueError |
| `Utils.ConvertHourToIntRoundTrip` | energy_net/utils/utils.py:22-26 | an hour written in decimal with any number of leading zeros, followed by nothing or by a colon and anything, parses back to that hour |
| `Utils.ConvertHourToIntFormatsBack` | energy_net/utils/utils.py:22-26 | a successfully parsed hour part is zero padding followed by the decimal text of the value returned |
| `Utils.ConvertHourToIntExample` | energy_net/utils/utils.py:22-26 | "13:00" parses to 13 and "07:30" to 7 |
| `Utils.MoveTimeTick` | energy_net/utils/utils.py:47-53 | the time advances by one; for an hour in 0..23 the new hour stays in 0..23, changes exactly when the new time is even, and then becomes (hour + 1) mod 24 |
| `Utils.TwoTicksOneHour` | energy_net/utils/utils.py:47-53 | from any time, two ticks advance the hour by one, wrapping at 24 |
| `Utils.EvenTicksAdvanceHours` | energy_net/utils/utils.py:47-53 | from any time, 2k ticks advance the time by 2k and the hour by k mod 24 |
| `Utils.DayIsFortyEightTicks` | energy_net/utils/utils.py:47-53 | from any time, 48 ticks bring the hour back to where it started |
| `Utils.DictLevelAlignment` | energy_net/utils/utils.py:85-86 | a missing first key raises KeyError; for a dict, returns `d[key1][key2]` when key2 is in it and `d[key1]` otherwise; for a string, a substring key2 raises TypeError and otherwise the string is returned; for a number, TypeError; so a successful lookup goes one or two levels deep and no further |

## Left out

- Controller internals (pricing, demand, battery physics) are not part of this model. Reset, step and metrics are arbitrary function values, and the spaces are opaque values. The controller always has the four space accessors; a controller without one, which makes Python raise AttributeError after the try block, is not modelled.
- ResolveController: the error message for an unregistered module names the whole module path. Python names the first missing package instead (`import_module("pkg.controllers")` without `pkg` reports "No module named 'pkg'"). An empty module name, which Python rejects with an unwrapped ValueError("Empty module name"), and a name starting with ".", which raises an uncaught TypeError, are treated as ordinary unregistered paths. The registry holds whole module paths, not a package hierarchy.
- The controller is deterministic in the model. Its initial state is a function of the keyword arguments, and reset depends only on the state, seed and options. Two identically created environments therefore reset identically even when no seed is given. A controller that draws fresh entropy when the seed is `None` is not captured.
- Module import is a registry lookup. Failures raised inside the controller's own constructor are not modelled, including an AttributeError that Python would also turn into ValueError and a TypeError from bad keyword arguments.
- `spaces.Dict` semantics such as sampling, containment and validation belong to gymnasium and are not modelled. Only the Dict-versus-plain-dict choice and the keys and values are kept.
- Action conformance is checked by the controller, if at all. Its exceptions are modelled as an `Err` outcome of the step dynamics and propagated unchanged; an exception outside the named ones is `Raised(name, message)`.
- `make_env` (energy_net/env/energy_net_v0.py:204-214) only unpacks a config dict into the constructor's keyword arguments and is not modelled separately.
- Observations, actions, rewards and info values are reals, not IEEE floats. Rounding in the reward and in the sums is not modelled.
- IsoMismatchReward.ComputeReward: Python returns -0.0 when dispatch equals realized demand. The model returns 0.0, which Python compares equal to it.
- The `print` in the reward and the other logging side effects are omitted.
- `AggFuncSum` models values as reals under `+`. Python's `+=` on other types (string or list concatenation) is not modelled. Keys within one record are visited in an arbitrary order rather than insertion order; over reals the result is the same.
- ConvertHourToInt: hour parts that Python's `int` accepts beyond plain ASCII digits give ValueError in the model. These are surrounding whitespace, a sign, underscores and non-ASCII digits. The quoting in the error message ignores Python's repr escaping.
- Utils.DictLevelAlignment: only numbers, strings and dicts are modelled as values. Lists and other containers, where `in` means membership, are left out.
- `load_config`, `get_value_by_type`, `get_predicted_state` and `condition` in utils.py are not part of this model. They do file and YAML I/O, runtime type introspection with printing, or depend on a `State` class that is not part of this model.
- The PCS training factory (energy_net/env/pcs_env.py), the registration module, the demo script and the registration test are not part of this model. They are I/O, foreign-library glue or demo code.
