/** Properties of `integrate` (Step), `connect` and the state export, stated
    over whole controllers: which set-point disables which path, the closed
    form of each law and of the shared write stage, equilibria, the
    invariants a run keeps, and the convergence of the current filter. */
module ControllerProperties {
  import opened Values
  import opened Targets
  import opened Laws
  import opened Controllers

  /** The compartment whose calcium drives the bound path. */
  function BoundCompartment(c: Controller): Compartment
    requires Valid(c) && c.controlType != Unset
  {
    if c.controlType == ChannelControl then c.channel.value.container else c.syn.value.postSyn
  }

  /** The same controller bound to a target housed in another compartment
      of the same area. */
  function WithCompartment(c: Controller, comp: Compartment): (r: Controller)
    requires Valid(c) && c.controlType != Unset && comp.area == BoundCompartment(c).area
    ensures Valid(r) && r.controlType == c.controlType && BoundCompartment(r) == comp
    ensures Steppable(c) && !Disabled(c) ==> Steppable(r)
  {
    if c.controlType == ChannelControl then c.(channel := Some(c.channel.value.(container := comp)))
    else c.(syn := Some(c.syn.value.(postSyn := comp)))
  }

  /** The value a step writes: gbar_next of a channel, gmax of a synapse. */
  function WrittenValue(c: Controller): real
    requires Valid(c) && c.controlType != Unset
  {
    if c.controlType == ChannelControl then c.channel.value.gbarNext else c.syn.value.gmax
  }

  /** m and every regulated value the controller writes are non-negative. */
  predicate Healthy(c: Controller)
    requires Valid(c)
  {
    && c.m >= 0.0
    && (c.controlType == ChannelControl ==> c.channel.value.gbarNext >= 0.0)
    && (c.controlType == SynapseControl ==> c.syn.value.gmax >= 0.0)
  }

  // ---------------------------------------------------------------------
  // Lifecycle errors

  /** A freshly constructed controller of any law cannot integrate before
      it is connected. */
  lemma IntegrateBeforeConnectFails(law: Law, tauM: Timescale, tauG: Timescale, m: real, dt: real)
    requires Construct(law, tauM, tauG, m).Ok?
    ensures Step(Construct(law, tauM, tauG, m).value, dt) == Err(Misconfigured)
  {
  }

  /** After connecting a controller to a channel in a compartment of
      non-zero area, every step succeeds, provided tau_m and, for the
      current-integral controller, tau_filter are not 0. */
  lemma ConnectChannelEnablesStep(c: Controller, ch: Conductance, dt: real)
    requires Valid(c) && c.tauM != Finite(0.0)
    requires c.law.CurrentIntegral? ==> c.law.filter.tauFilter != Finite(0.0)
    requires ch.container.area != 0.0
    ensures Steppable(ConnectChannel(c, ch)) && Step(ConnectChannel(c, ch), dt).Ok?
  {
  }

  /** After connecting a controller to a synapse, every step succeeds,
      provided tau_m is not 0; the synapse path never reads tau_filter or
      divides by the area. */
  lemma ConnectSynapseEnablesStep(c: Controller, s: Synapse, dt: real)
    requires Valid(c) && c.tauM != Finite(0.0)
    ensures Steppable(ConnectSynapse(c, s)) && Step(ConnectSynapse(c, s), dt).Ok?
  {
  }

  // ---------------------------------------------------------------------
  // Disabling

  /** The integral and bang-bang controllers on a channel, and every
      controller on a synapse, do nothing in a step when the bound
      compartment's calcium target is NaN. */
  lemma CompartmentTargetDisables(c: Controller, dt: real)
    requires Valid(c) && c.controlType != Unset
    requires c.controlType == ChannelControl ==> !c.law.CurrentIntegral?
    requires BoundCompartment(c).caTarget.NaN?
    ensures Steppable(c) && Step(c, dt) == Ok(c)
  {
  }

  /** The current-integral controller on a channel is disabled by its own
      current target alone: a NaN current target changes nothing (not m,
      not the filter, not gbar_next) whatever the compartment's target, and
      a numeric one runs the step even when the compartment's target is NaN. */
  lemma CurrentIntegralChannelDisabling(c: Controller, dt: real)
    requires Valid(c) && Steppable(c) && c.controlType == ChannelControl && c.law.CurrentIntegral?
    ensures c.law.filter.iCaTarget.NaN? ==> Step(c, dt) == Ok(c)
    ensures c.law.filter.iCaTarget.Num? ==>
      Step(c, dt).value.law.filter.iCaError == Num(Step(c, dt).value.law.filter.iCaSmooth - c.law.filter.iCaTarget.value)
  {
  }

  // ---------------------------------------------------------------------
  // The three laws

  /** Integral law on either path: m' = max(0, m + (dt/tau_m)(Ca_target - Ca_prev)). */
  lemma IntegralLaw(c: Controller, dt: real)
    requires Valid(c) && Steppable(c) && c.controlType != Unset && c.law.Integral?
    requires BoundCompartment(c).caTarget.Num?
    ensures var x := c.m + Rate(dt, c.tauM) * (BoundCompartment(c).caTarget.value - BoundCompartment(c).caPrev);
      Step(c, dt).value.m == (if x < 0.0 then 0.0 else x)
  {
    if c.controlType == ChannelControl {
      assert Step(c, dt).value == ChannelStep(c, dt);
    } else {
      assert Step(c, dt).value == SynapseStep(c, dt);
    }
    assert Step(c, dt).value.m == ProportionalLaw(c.m, Rate(dt, c.tauM), CaError(BoundCompartment(c)));
  }

  /** With dt/tau_m >= 0 the integral law is monotone in the error: a
      compartment with a larger concentration error gives a larger m'. */
  lemma IntegralMonotoneInError(c: Controller, comp: Compartment, dt: real)
    requires Valid(c) && Steppable(c) && c.controlType != Unset && c.law.Integral?
    requires comp.area == BoundCompartment(c).area
    requires comp.caTarget.Num? && BoundCompartment(c).caTarget.Num?
    requires Rate(dt, c.tauM) >= 0.0
    requires CaError(BoundCompartment(c)) <= CaError(comp)
    ensures Step(c, dt).value.m <= Step(WithCompartment(c, comp), dt).value.m
  {
    ProportionalMonotone(c.m, Rate(dt, c.tauM), CaError(BoundCompartment(c)), CaError(comp));
  }

  /** A zero concentration error leaves a non-negative m unchanged. */
  lemma IntegralRestsAtZeroError(c: Controller, dt: real)
    requires Valid(c) && Steppable(c) && c.controlType != Unset && c.law.Integral?
    requires BoundCompartment(c).caTarget.Num? && CaError(BoundCompartment(c)) == 0.0
    requires c.m >= 0.0
    ensures Step(c, dt).value.m == c.m
  {
    ProportionalRestsAtZeroError(c.m, Rate(dt, c.tauM));
  }

  /** Bang-bang law on either path: m' = max(0, m + dt/tau_m) when
      Ca_target - Ca_prev > 0, and max(0, m - dt/tau_m) otherwise. */
  lemma BangBangLaw(c: Controller, dt: real)
    requires Valid(c) && Steppable(c) && c.controlType != Unset && c.law.BangBang?
    requires BoundCompartment(c).caTarget.Num?
    ensures var e := BoundCompartment(c).caTarget.value - BoundCompartment(c).caPrev;
      var x := if e > 0.0 then c.m + Rate(dt, c.tauM) else c.m - Rate(dt, c.tauM);
      Step(c, dt).value.m == (if x < 0.0 then 0.0 else x)
  {
  }

  /** The bang-bang controller sees only the sign of the error: moving the
      bound target to a compartment whose error has the same sign changes
      neither m' nor the written value. */
  lemma BangBangIgnoresMagnitude(c: Controller, comp: Compartment, dt: real)
    requires Valid(c) && Steppable(c) && c.controlType != Unset && c.law.BangBang?
    requires comp.area == BoundCompartment(c).area
    requires comp.caTarget.Num? && BoundCompartment(c).caTarget.Num?
    requires (CaError(comp) > 0.0) == (CaError(BoundCompartment(c)) > 0.0)
    ensures Step(c, dt).value.m == Step(WithCompartment(c, comp), dt).value.m
    ensures WrittenValue(Step(c, dt).value) == WrittenValue(Step(WithCompartment(c, comp), dt).value)
  {
    SignIgnoresMagnitude(c.m, Rate(dt, c.tauM), CaError(BoundCompartment(c)), CaError(comp));
  }

  /** Current-integral law on a channel: the filter moves first,
      i_Ca_smooth' = i_Ca_smooth + (dt/tau_filter)(i_Ca_prev - i_Ca_smooth),
      the stored error becomes i_Ca_smooth' - i_Ca_target, and m integrates
      that error computed from the updated filter value. */
  lemma CurrentIntegralChannelLaw(c: Controller, dt: real)
    requires Valid(c) && Steppable(c) && c.controlType == ChannelControl
    requires c.law.CurrentIntegral? && c.law.filter.iCaTarget.Num?
    ensures var f, r := c.law.filter, Step(c, dt).value;
      && r.law.CurrentIntegral?
      && r.law.filter.iCaSmooth == FilterStep(f.iCaSmooth, c.channel.value.container.iCaPrev, Rate(dt, f.tauFilter))
      && r.law.filter.iCaError == Num(r.law.filter.iCaSmooth - f.iCaTarget.value)
      && r.m == ProportionalLaw(c.m, Rate(dt, c.tauM), r.law.filter.iCaSmooth - f.iCaTarget.value)
  {
    assert Step(c, dt).value == ChannelStep(c, dt);
  }

  /** On a synapse the current-integral controller behaves exactly like the
      integral controller and leaves its filter untouched. */
  lemma CurrentIntegralSynapseFallsBack(c: Controller, dt: real)
    requires Valid(c) && Steppable(c) && c.controlType == SynapseControl && c.law.CurrentIntegral?
    ensures Step(c, dt).value == Step(c.(law := Integral), dt).value.(law := c.law)
  {
  }

  // ---------------------------------------------------------------------
  // The shared write stage

  /** Channel write for every law: gbar_next' is ChannelWrite of the
      updated m, that is with gdot = (dt/tau_g)(m' - gbar * A), 0 when
      gbar_next + gdot < 0 and gbar_next + gdot / A otherwise; gbar itself
      and the compartment are not touched. */
  lemma ChannelWriteLaw(c: Controller, dt: real)
    requires Valid(c) && Steppable(c) && c.controlType == ChannelControl && !Disabled(c)
    ensures var r, ch := Step(c, dt).value, c.channel.value;
      && r.channel.value.gbar == ch.gbar
      && r.channel.value.container == ch.container
      && r.channel.value.gbarNext == ChannelWrite(ch.gbar, ch.gbarNext, c.containerArea, r.m, Rate(dt, c.tauG))
  {
    assert Step(c, dt).value == ChannelStep(c, dt);
  }

  /** Synapse write for every law: gmax' is SynapseWrite of the updated m,
      that is with gdot = (dt/tau_g)(m' - 1e-3 gmax), 0 when
      gmax + 1e3 gdot < 0 and gmax + 1e3 gdot otherwise. */
  lemma SynapseWriteLaw(c: Controller, dt: real)
    requires Valid(c) && Steppable(c) && c.controlType == SynapseControl && !Disabled(c)
    ensures var r, s := Step(c, dt).value, c.syn.value;
      && r.syn.value.postSyn == s.postSyn
      && r.syn.value.gmax == SynapseWrite(s.gmax, r.m, Rate(dt, c.tauG))
  {
    assert Step(c, dt).value == SynapseStep(c, dt);
  }

  /** At equilibrium, m' = gbar * A on a channel, a non-negative gbar_next
      is left as it is. */
  lemma ChannelEquilibrium(c: Controller, dt: real)
    requires Valid(c) && Steppable(c) && c.controlType == ChannelControl
    requires Step(c, dt).value.m == c.channel.value.gbar * c.containerArea
    requires c.channel.value.gbarNext >= 0.0
    ensures Step(c, dt).value.channel.value.gbarNext == c.channel.value.gbarNext
  {
    if !Disabled(c) {
      var ch := c.channel.value;
      ChannelWriteLaw(c, dt);
      ChannelWriteEquilibrium(ch.gbar, ch.gbarNext, c.containerArea, Step(c, dt).value.m, Rate(dt, c.tauG));
    }
  }

  /** At equilibrium, m' = 1e-3 gmax on a synapse, gmax is left as it is. */
  lemma SynapseEquilibrium(c: Controller, dt: real)
    requires Valid(c) && Steppable(c) && c.controlType == SynapseControl
    requires Step(c, dt).value.m == SynapseScale * c.syn.value.gmax
    ensures Step(c, dt).value.syn.value.gmax == c.syn.value.gmax
  {
    if !Disabled(c) {
      SynapseWriteEquilibrium(c.syn.value.gmax, Step(c, dt).value.m, Rate(dt, c.tauG));
    }
  }

  // ---------------------------------------------------------------------
  // Invariants over runs

  /** One step keeps m and the written value non-negative; on a channel this
      needs the container area to be at least 1 (ChannelWriteCanGoNegative
      shows why). */
  lemma StepKeepsHealthy(c: Controller, dt: real)
    requires Valid(c) && Steppable(c) && c.controlType != Unset && Healthy(c)
    requires c.controlType == ChannelControl ==> c.containerArea >= 1.0
    ensures Healthy(Step(c, dt).value)
  {
    if c.controlType == ChannelControl && !Disabled(c) {
      var ch := c.channel.value;
      ChannelWriteNonNegative(ch.gbar, ch.gbarNext, c.containerArea, Step(c, dt).value.m, Rate(dt, c.tauG));
    }
  }

  /** Every run of a connected, healthy controller stays healthy. */
  lemma {:induction false} RunKeepsHealthy(c: Controller, dts: seq<real>)
    requires Valid(c) && Steppable(c) && c.controlType != Unset && Healthy(c)
    requires c.controlType == ChannelControl ==> c.containerArea >= 1.0
    ensures Run(c, dts).Ok? && Healthy(Run(c, dts).value)
    decreases |dts|
  {
    if |dts| > 0 {
      var prefix := dts[..|dts| - 1];
      RunKeepsHealthy(c, prefix);
      StepKeepsHealthy(Run(c, prefix).value, dts[|dts| - 1]);
    }
  }

  /** Running two sequences of steps one after the other is the same as
      running their concatenation: the host's loop has no state of its own. */
  lemma {:induction false} RunComposes(c: Controller, a: seq<real>, b: seq<real>)
    requires Valid(c) && Steppable(c) && c.controlType != Unset
    ensures Run(c, a).Ok? && Run(c, a + b) == Run(Run(c, a).value, b)
    decreases |b|
  {
    if |b| > 0 {
      var b' := b[..|b| - 1];
      assert (a + b)[..|a + b| - 1] == a + b';
      assert (a + b)[|a + b| - 1] == b[|b| - 1];
      RunComposes(c, a, b');
    } else {
      assert a + b == a;
    }
  }

  /** Run with a fixed dt and a fixed calcium current, the current-integral
      controller's filter follows FilterIterate, one filter step per call;
      so FilterIterateGap and FilterApproaches describe how i_Ca_smooth
      converges to i_Ca_prev over a run. */
  lemma {:induction false} RunFiltersCurrent(c: Controller, dts: seq<real>, dt: real)
    requires Valid(c) && Steppable(c) && c.controlType == ChannelControl
    requires c.law.CurrentIntegral? && c.law.filter.iCaTarget.Num?
    requires forall i :: 0 <= i < |dts| ==> dts[i] == dt
    ensures Run(c, dts).Ok? && Run(c, dts).value.law.CurrentIntegral?
    ensures Run(c, dts).value.law.filter.iCaSmooth
      == FilterIterate(c.law.filter.iCaSmooth, c.channel.value.container.iCaPrev,
                       Rate(dt, c.law.filter.tauFilter), |dts|)
    decreases |dts|
  {
    if |dts| > 0 {
      var prefix := dts[..|dts| - 1];
      assert forall i :: 0 <= i < |prefix| ==> prefix[i] == dt;
      RunFiltersCurrent(c, prefix, dt);
      var c' := Run(c, prefix).value;
      assert Run(c, dts) == Step(c', dt);
      assert c'.law.filter.tauFilter == c.law.filter.tauFilter;
      assert c'.law.filter.iCaTarget == c.law.filter.iCaTarget;
      assert c'.channel.value.container == c.channel.value.container;
      CurrentIntegralChannelLaw(c', dt);
    }
  }

  // ---------------------------------------------------------------------
  // State export

  /** The exported pair agrees with `getState`: the cell at idx is slot 1,
      the cell after it slot 2 when a channel is bound; and the offset
      advances by exactly the reserved width. */
  lemma ExportAgreesWithGetState(c: Controller, buf: seq<real>, idx: int)
    requires 0 <= idx && idx + 2 <= |buf| && c.channel.Some?
    ensures GetFullState(c, buf, idx).0[idx] == GetState(c, 1).value
    ensures GetFullState(c, buf, idx).0[idx + 1] == GetState(c, 2).value
    ensures GetFullState(c, buf, idx).1 - idx == GetFullStateSize() == 2
  {
  }

  /** After connect(synapse) on a fresh controller the export's second cell
      is the synapse's gmax, and after a later connect(channel) it is the
      channel's gbar, which the source prefers whenever both are bound. */
  lemma ExportFollowsBinding(c: Controller, s: Synapse, ch: Conductance, buf: seq<real>, idx: int)
    requires c.channel.None? && 0 <= idx && idx + 2 <= |buf|
    ensures GetFullState(ConnectSynapse(c, s), buf, idx).0[idx + 1] == s.gmax
    ensures GetFullState(ConnectChannel(ConnectSynapse(c, s), ch), buf, idx).0[idx + 1] == ch.gbar
  {
  }
}
