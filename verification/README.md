# Homeostatic conductance controllers

This project models, in Dafny, the three homeostatic feedback controllers of a
conductance-based neuron simulator and proves properties about them. Each controller
regulates either an ion channel's maximal conductance density (`gbar`) or a
synapse's maximal conductance (`gmax`). It does so through an internal
"mRNA" state `m`, which is driven by a calcium error:

- **Integral** (`IntegralCurrentController.hpp`): `m` integrates the
  concentration error `Ca_target - Ca_prev`.
- **Bang-bang** (`liu/BangBangController.hpp`): `m` moves by `±dt/tau_m`,
  according only to the sign of that error.
- **Current-integral** (`prinz/CurrentIntegralController.hpp`): on a channel,
  the compartment's calcium current is low-pass filtered, and `m` integrates
  the error `i_Ca_smooth - i_Ca_target`. On a synapse it falls back to the
  concentration law.

After the law, all three share the same downstream stage. `m` is clamped at
zero. Then `gdot = (dt/tau_g)(m - value * scale)` is computed. For a channel,
`gdot` goes into the deferred buffer `gbar_next`, divided by the container
area. For a synapse, it goes into `gmax` immediately, times 1e3. Both writes
have a zero clamp.

The three source classes differ only in the law, so the model has one
controller record (`Controllers.Controller`) whose `law` field says which
class it is. Everything is a pure function over `real`:

- `values.dfy`: doubles with a NaN case (`Double`), time constants that may
  be infinite (`Timescale`), the fatal errors (`Fatal`), and `Result`.
- `targets.dfy`: the compartment, conductance and synapse fields the
  controllers read and write, and `addMechanism` registration.
- `laws.dfy`: the per-law update of `m`, the current filter, and the two
  write stages, with lemmas about each of them.
- `controller.dfy`: construction, `connect` (three overloads), `integrate`
  (`Step`), a run of several steps (`Run`), `checkSolvers`, `getState`,
  `getFullStateSize` and `getFullState`.
- `properties.dfy`: properties of whole steps and runs. These cover which NaN
  set-point disables which path, the per-law and write-stage updates,
  equilibria, monotonicity, sign-only response, the synapse fallback,
  non-negativity over runs, convergence of the filter, and the state export.

Each fatal `mexErrMsgTxt` becomes an `Err` result. The NaN "disabled"
set-point is the `NaN` case of `Double`. `tau = +infinity` is
`Timescale.Infinite`, and its per-step rate `dt/tau` is 0. The host's `dt`
is a parameter of `Step`.

The model follows the code as written, including in these places:

- A second `connect` is not an error. It rebinds the controller, and the
  previously bound target pointer stays set.
- `getState(2)` reads the channel pointer unconditionally, so the model
  requires a bound channel. It does not return NaN for a synapse.
- `tau_g = +infinity` is accepted, because the only check is `tau_g <= 0`.
- The channel clamp does not keep `gbar_next` non-negative in general. It
  compares `gbar_next + gdot` with zero but then adds `gdot / A`. For any
  container area `A` below 1, `Laws.ChannelWriteCanGoNegative` gives inputs
  that pass the test and still write a negative value. Non-negativity of
  `gbar_next` (`Laws.ChannelWriteNonNegative`,
  `ControllerProperties.StepKeepsHealthy`, `ControllerProperties.RunKeepsHealthy`)
  is proved only for areas of at least 1.

## Model

| member | source | states |
|---|---|---|
| Values.Rate | IntegralCurrentController.hpp:170-176 | the per-step rate is 0 for an infinite time constant, and otherwise the value r with r * tau = dt |
| Values.ClampAtZero | IntegralCurrentController.hpp:173 | the clamp gives the least non-negative value not below its argument: the argument itself when it is non-negative, 0 otherwise |
| Targets.AddMechanism | IntegralCurrentController.hpp:107-108 | registering with a compartment adds exactly one mechanism and changes nothing else about the compartment |
| Laws.ProportionalLaw | IntegralCurrentController.hpp:169-173 | the integral update of m is max(0, m + rate * error): m + rate * error when that is non-negative, 0 otherwise |
| Laws.ChannelWrite | IntegralCurrentController.hpp:175-183 | with gdot = (dt/tau_g)(m - gbar * A): gbar_next becomes 0 exactly when gbar_next + gdot < 0; otherwise it grows by an amount that, multiplied by the area, is exactly gdot |
| Laws.SignLaw | liu/BangBangController.hpp:169-177 | the bang-bang update of m is max(0, m + rate) for a positive error and max(0, m - rate) otherwise; with rate >= 0 a positive error never lowers m and a non-positive one never raises a non-negative m |
| Laws.SynapseWrite | IntegralCurrentController.hpp:205-213 | the synapse write is max(0, gmax + 1e3 * (dt/tau_g) * (m - 1e-3 gmax)): never negative, never below the unclamped update, and equal to one of the two |
| Laws.FilterStep | prinz/CurrentIntegralController.hpp:177 | one filter step leaves the distance to the input equal to (1 - dt/tau_filter) times the old distance |
| Laws.ProportionalMonotone | IntegralCurrentController.hpp:167-173 | with dt/tau_m >= 0, the integral update of m is monotone non-decreasing in the error |
| Laws.ProportionalRestsAtZeroError | IntegralCurrentController.hpp:170-173 | a zero error leaves a non-negative m unchanged, whatever the rate |
| Laws.ProportionalExample | IntegralCurrentController.hpp:170 | dt = 1, tau_m = 4 and an error of 2 raise m by exactly 0.5 |
| Laws.SignIgnoresMagnitude | liu/BangBangController.hpp:170-174 | two errors that are both positive, or both non-positive, give the same new m |
| Laws.SignExample | liu/BangBangController.hpp:170-177 | dt = 1 and tau_m = 10: error +5 raises m by 0.1; error -5 lowers it by 0.1, clamped at 0; error 0 acts like -5 |
| Laws.FilterBetween | prinz/CurrentIntegralController.hpp:177 | for 0 < dt/tau_filter <= 1, the filtered value lands between its old value and the input |
| Laws.FilterIterateGap | prinz/CurrentIntegralController.hpp:177 | after n steps on a constant input, the distance to it is (1 - dt/tau_filter)^n times the initial distance |
| Laws.FilterApproaches | prinz/CurrentIntegralController.hpp:177 | for 0 < dt/tau_filter <= 1, successive filter values approach a constant input monotonically and never cross it |
| Laws.ChannelWriteEquilibrium | IntegralCurrentController.hpp:175-183 | when m = gbar * A, gdot is 0 and a non-negative gbar_next is left unchanged |
| Laws.ChannelWriteNonNegative | IntegralCurrentController.hpp:178-183 | with area >= 1 and gbar_next >= 0, the channel write never yields a negative gbar_next |
| Laws.ChannelWriteCanGoNegative | IntegralCurrentController.hpp:178-183 | for every area strictly between 0 and 1, some inputs pass the clamp test and still write a negative gbar_next |
| Laws.SynapseWriteEquilibrium | IntegralCurrentController.hpp:205-213 | when m = 1e-3 gmax (m >= 0), gmax is left unchanged |
| Controllers.Construct | IntegralCurrentController.hpp:38-48 | construction succeeds iff tau_g is not <= 0, whatever tau_m is; on success all parameters are stored, the controller is unset, and no target is bound; on failure the error is TauGNotPositive |
| Controllers.NewIntegral | IntegralCurrentController.hpp:38-48 | the integral controller is built iff tau_g is accepted; it stores tau_m, tau_g and m, is unset and has no target bound |
| Controllers.NewBangBang | liu/BangBangController.hpp:38-48 | the bang-bang controller is built iff tau_g is accepted; it stores tau_m, tau_g and m, is unset and has no target bound |
| Controllers.NewCurrentIntegral | prinz/CurrentIntegralController.hpp:44-57 | the current-integral controller is built iff tau_g is accepted; tau_m, tau_g, m, tau_filter, i_Ca_smooth and i_Ca_target are stored unchecked, the stored current error starts as NaN, and it is unset with no target bound |
| Controllers.ConnectChannel | IntegralCurrentController.hpp:100-121 | connect(channel) sets the control type to channel and copies the container's area; it binds the channel with its gbar, gbar_next and compartment as given, except that the compartment has registered one more mechanism; a previously bound synapse, the law, m and the time constants stay as they were; validity is preserved |
| Controllers.ConnectSynapse | IntegralCurrentController.hpp:128-145 | connect(synapse) sets the control type to synapse and copies the post-synaptic area; it binds the synapse with its gmax and post-synaptic compartment as given, except that the compartment has registered one more mechanism; a bound channel, the law, m and the time constants stay as they were; validity is preserved |
| Controllers.ConnectCompartment | prinz/CurrentIntegralController.hpp:132-135 | connect(compartment) always fails with CannotConnectToCompartment |
| Controllers.Step | prinz/CurrentIntegralController.hpp:157-238 | integrate fails with Misconfigured exactly when unset; a disabled step returns the controller unchanged; an enabled step leaves m >= 0 and never makes gmax negative; it keeps the law, its parameters, the time constants, binding, area and compartments, and touches only the bound path's target |
| Controllers.Run | IntegralCurrentController.hpp:148-227 | the host calling integrate once per dt: the run fails exactly when the controller is unset and at least one step is taken; a disabled controller comes back unchanged; otherwise validity and every setting are kept |
| Controllers.CheckSolvers | prinz/CurrentIntegralController.hpp:242-248 | checkSolvers succeeds iff the order is 0, and otherwise fails with UnsupportedSolverOrder |
| Controllers.GetState | IntegralCurrentController.hpp:66-72 | slot 1 is m, slot 2 is the bound channel's gbar, and exactly the other slots give NaN |
| Controllers.GetFullStateSize | IntegralCurrentController.hpp:75 | every controller exports exactly two values, the width by which getFullState advances the offset |
| Controllers.GetFullState | prinz/CurrentIntegralController.hpp:87-106 | getFullState writes m at idx, then the channel's gbar, else the synapse's gmax, else nothing, at idx + 1; it leaves every other cell and the length unchanged and returns idx + 2 |
| ControllerProperties.IntegrateBeforeConnectFails | IntegralCurrentController.hpp:152-156 | a freshly constructed controller of any law fails with Misconfigured when integrated before connect |
| ControllerProperties.ConnectChannelEnablesStep | liu/BangBangController.hpp:100-121 | after connect(channel) to a compartment of non-zero area, integrate always succeeds for a non-zero tau_m (and, for the current-integral controller, a non-zero tau_filter) |
| ControllerProperties.ConnectSynapseEnablesStep | liu/BangBangController.hpp:128-145 | after connect(synapse), integrate always succeeds for a non-zero tau_m, whatever tau_filter and the area are |
| ControllerProperties.CompartmentTargetDisables | liu/BangBangController.hpp:159-199 | a NaN calcium target in the bound compartment makes the step a no-op, for integral and bang-bang on a channel and for every law on a synapse |
| ControllerProperties.CurrentIntegralChannelDisabling | prinz/CurrentIntegralController.hpp:170-178 | on a channel the current-integral controller is disabled by its own NaN i_Ca_target (m, filter and gbar_next unchanged) and runs even when the compartment's Ca_target is NaN |
| ControllerProperties.IntegralLaw | IntegralCurrentController.hpp:165-203 | on either path the integral controller sets m' = max(0, m + (dt/tau_m)(Ca_target - Ca_prev)) of the bound compartment |
| ControllerProperties.IntegralMonotoneInError | IntegralCurrentController.hpp:167-173 | with dt/tau_m >= 0, a compartment with a larger concentration error gives a larger or equal m' |
| ControllerProperties.IntegralRestsAtZeroError | IntegralCurrentController.hpp:167-173 | a zero concentration error leaves a non-negative m unchanged across a step |
| ControllerProperties.BangBangLaw | liu/BangBangController.hpp:165-211 | on either path m' = max(0, m + dt/tau_m) when Ca_target - Ca_prev > 0 and max(0, m - dt/tau_m) otherwise, so a zero error decreases m |
| ControllerProperties.BangBangIgnoresMagnitude | liu/BangBangController.hpp:167-221 | rebinding to a compartment whose error has the same sign changes neither m' nor the written gbar_next or gmax |
| ControllerProperties.CurrentIntegralChannelLaw | prinz/CurrentIntegralController.hpp:174-184 | the filter moves first; the stored error is i_Ca_smooth' - i_Ca_target; m integrates that error, computed from the updated filter value |
| ControllerProperties.CurrentIntegralSynapseFallsBack | prinz/CurrentIntegralController.hpp:200-224 | on a synapse the current-integral controller steps exactly as the integral controller does, and its filter state is untouched |
| ControllerProperties.ChannelWriteLaw | prinz/CurrentIntegralController.hpp:186-194 | for every law the channel path writes gbar_next' from the updated m: 0 if gbar_next + gdot < 0, else gbar_next + gdot / A; gbar and the compartment are unchanged |
| ControllerProperties.SynapseWriteLaw | liu/BangBangController.hpp:213-221 | for every law the synapse path writes gmax' from the updated m: 0 if gmax + 1e3 gdot < 0, else gmax + 1e3 gdot; the compartment is unchanged |
| ControllerProperties.ChannelEquilibrium | IntegralCurrentController.hpp:175-183 | if the updated m equals gbar * A, a non-negative gbar_next is unchanged by the step |
| ControllerProperties.SynapseEquilibrium | IntegralCurrentController.hpp:205-213 | if the updated m equals 1e-3 gmax, gmax is unchanged by the step |
| ControllerProperties.StepKeepsHealthy | liu/BangBangController.hpp:159-221 | a step keeps m, a synapse's gmax, and (for area >= 1) a channel's gbar_next non-negative |
| ControllerProperties.RunKeepsHealthy | IntegralCurrentController.hpp:148-227 | every sequence of steps of a connected controller succeeds and keeps m and the written value non-negative (area >= 1 on a channel) |
| ControllerProperties.RunComposes | IntegralCurrentController.hpp:148-227 | running a then b from a bound controller is the same as running a + b |
| ControllerProperties.RunFiltersCurrent | prinz/CurrentIntegralController.hpp:176-178 | n steps with fixed dt and fixed i_Ca_prev leave i_Ca_smooth equal to the n-fold filter iterate, one filter step per call |
| ControllerProperties.ExportAgreesWithGetState | IntegralCurrentController.hpp:66-97 | with a channel bound, the two exported cells equal getState(1) and getState(2), and the offset advances by getFullStateSize() = 2 |
| ControllerProperties.ExportFollowsBinding | liu/BangBangController.hpp:78-145 | after connect(synapse) the second exported cell is gmax; after a later connect(channel) it is the channel's gbar |

## Left out

- IEEE-754 arithmetic is not modelled: rounding, signed zeros, infinities
  inside arithmetic, and `isnan` on computed values. Values are `real`, so
  1e-3 and 1e3 are exact. Only the NaN set-point and the infinite time
  constant are modelled.
- Controllers.Step: for an enabled step of a bound controller only (the
  unset and disabled cases return before any division), requires `tau_m`
  not to be exactly 0 and, on the channel path, the container area not to
  be 0 and the current-integral controller's `tau_filter` not to be exactly
  0. The source would divide by zero there and carry on with infinities or
  NaN, which a `real` model cannot represent. An area of 0 is excluded even
  when the `gbar_next` clamp fires and the source skips the division by the
  area. `tau_m <= 0` is otherwise accepted, giving a non-positive rate.
  `Controllers.Run` has the same precondition.
- Controllers.GetState: requires a bound channel for slot 2. The source
  dereferences the channel pointer without a check, which is undefined when
  only a synapse is bound.
- `mexErrMsgTxt` aborts the host. Here it is an `Err` result carrying the
  kind of failure, not the message text.
- The `default:` branch of `integrate`'s switch is unreachable, because
  `control_type` is only ever set to 0, 1 or 2, so it has no counterpart.
- `getClass()` / `controlling_class` (a diagnostic string) are not modelled.
- Raw pointers and aliasing are not modelled: the controller holds its own
  copy of each bound target. Other mechanisms writing the same target, and
  the host committing `gbar_next` into `gbar` between steps, are outside the
  model. `Run` therefore keeps the compartment inputs fixed across its steps.
- `container_A` is indeterminate before the first connect. It is modelled as
  0 and is never read while the controller is unset.
- `Timescale.Infinite` is +infinity only; a time constant of -infinity is not
  modelled.
- The compartment's registry of mechanisms (`addMechanism`) is reduced
  to a count of registered mechanisms.
