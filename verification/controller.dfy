/** The controller record shared by the three controllers (integral on the
    calcium concentration, bang-bang, integral on the filtered calcium
    current) and the operations the simulation host calls on it:
    construction, `connect`, `integrate`, `checkSolvers`, `getState`,
    `getFullStateSize` and `getFullState`. The three source classes differ
    only in their control law, so the law is a parameter of one record. */
module Controllers {
  import opened Values
  import opened Targets
  import opened Laws

  /** State of the current-integral controller's calcium-current filter:
      its time constant, the current set-point (NaN disables the channel
      path), the last current error and the filtered current. */
  datatype Filter = Filter(
    tauFilter: Timescale,
    iCaTarget: Double,
    iCaError: Double,
    iCaSmooth: real)

  /** The control law, one per source class. */
  datatype Law =
    | Integral                        // IntegralCurrentController
    | BangBang                        // BangBangController
    | CurrentIntegral(filter: Filter) // CurrentIntegralController

  /** `control_type`: 0 unset, 1 channel, 2 synapse. */
  datatype ControlType = Unset | ChannelControl | SynapseControl

  /** A controller. `channel` and `syn` stand for the two pointers the
      source keeps; each `connect` sets one of them and leaves the other as
      it was, so both can be bound after two connects. */
  datatype Controller = Controller(
    law: Law,
    tauM: Timescale,
    tauG: Timescale,
    m: real,
    controlType: ControlType,
    containerArea: real,
    channel: Option<Conductance>,
    syn: Option<Synapse>)

  /** The constructor's only check: tau_g must not be <= 0. */
  predicate TauGAccepted(tauG: Timescale)
  {
    tauG.Infinite? || tauG.seconds > 0.0
  }

  /** What construction and `connect` guarantee: an accepted tau_g, and a
      bound target, whose compartment area was copied, for the control type. */
  predicate Valid(c: Controller)
  {
    && TauGAccepted(c.tauG)
    && (c.controlType == ChannelControl ==>
          c.channel.Some? && c.containerArea == c.channel.value.container.area)
    && (c.controlType == SynapseControl ==>
          c.syn.Some? && c.containerArea == c.syn.value.postSyn.area)
  }

  /** The divisions of a step are by non-zero values. Only an enabled step
      of a bound controller divides: by tau_m on either path and, on the
      channel path, by the container area and (current-integral only) by
      tau_filter. An unset or disabled controller returns before dividing. */
  predicate Steppable(c: Controller)
    requires Valid(c)
  {
    c.controlType != Unset && !Disabled(c) ==>
      && c.tauM != Finite(0.0)
      && (c.controlType == ChannelControl ==> c.containerArea != 0.0)
      && (c.controlType == ChannelControl && c.law.CurrentIntegral? ==>
            c.law.filter.tauFilter != Finite(0.0))
  }

  /** What a step never changes: the law and its parameters, the time
      constants, the binding, the area, and every field of the targets
      except the regulated value. */
  predicate SameSettings(a: Controller, b: Controller)
  {
    && a.law.Integral? == b.law.Integral?
    && a.law.BangBang? == b.law.BangBang?
    && a.law.CurrentIntegral? == b.law.CurrentIntegral?
    && (a.law.CurrentIntegral? && b.law.CurrentIntegral? ==>
          a.law.filter.tauFilter == b.law.filter.tauFilter
          && a.law.filter.iCaTarget == b.law.filter.iCaTarget)
    && a.tauM == b.tauM && a.tauG == b.tauG
    && a.controlType == b.controlType && a.containerArea == b.containerArea
    && a.channel.Some? == b.channel.Some?
    && (a.channel.Some? && b.channel.Some? ==>
          a.channel.value.gbar == b.channel.value.gbar
          && a.channel.value.container == b.channel.value.container)
    && a.syn.Some? == b.syn.Some?
    && (a.syn.Some? && b.syn.Some? ==> a.syn.value.postSyn == b.syn.value.postSyn)
  }

  // ---------------------------------------------------------------------
  // Construction

  /** Stores the parameters verbatim and fails iff tau_g <= 0; tau_m is not
      checked. The area is 0 until a `connect` copies one in. */
  function Construct(law: Law, tauM: Timescale, tauG: Timescale, m: real): (r: Result<Controller>)
    ensures r.Ok? <==> !(tauG.Finite? && tauG.seconds <= 0.0)
    ensures r.Err? ==> r.error == TauGNotPositive
    ensures r.Ok? ==> Valid(r.value) && r.value.controlType == Unset
    ensures r.Ok? ==> r.value.law == law && r.value.tauM == tauM && r.value.tauG == tauG && r.value.m == m
    ensures r.Ok? ==> r.value.channel.None? && r.value.syn.None?
  {
    if tauG.Finite? && tauG.seconds <= 0.0 then Err(TauGNotPositive)
    else Ok(Controller(law, tauM, tauG, m, Unset, 0.0, None, None))
  }

  function NewIntegral(tauM: Timescale, tauG: Timescale, m: real): (r: Result<Controller>)
    ensures r.Ok? <==> TauGAccepted(tauG)
    ensures r.Ok? ==> r.value.law == Integral && r.value.m == m && r.value.controlType == Unset
    ensures r.Ok? ==> r.value.tauM == tauM && r.value.tauG == tauG
    ensures r.Ok? ==> r.value.channel.None? && r.value.syn.None?
  {
    Construct(Integral, tauM, tauG, m)
  }

  function NewBangBang(tauM: Timescale, tauG: Timescale, m: real): (r: Result<Controller>)
    ensures r.Ok? <==> TauGAccepted(tauG)
    ensures r.Ok? ==> r.value.law == BangBang && r.value.m == m && r.value.controlType == Unset
    ensures r.Ok? ==> r.value.tauM == tauM && r.value.tauG == tauG
    ensures r.Ok? ==> r.value.channel.None? && r.value.syn.None?
  {
    Construct(BangBang, tauM, tauG, m)
  }

  /** The filter's error starts as NaN; its other fields are stored unchecked. */
  function NewCurrentIntegral(tauM: Timescale, tauG: Timescale, tauFilter: Timescale,
                              m: real, iCaSmooth: real, iCaTarget: Double): (r: Result<Controller>)
    ensures r.Ok? <==> TauGAccepted(tauG)
    ensures r.Ok? ==> r.value.law == CurrentIntegral(Filter(tauFilter, iCaTarget, NaN, iCaSmooth))
    ensures r.Ok? ==> r.value.m == m && r.value.controlType == Unset
    ensures r.Ok? ==> r.value.tauM == tauM && r.value.tauG == tauG
    ensures r.Ok? ==> r.value.channel.None? && r.value.syn.None?
  {
    Construct(CurrentIntegral(Filter(tauFilter, iCaTarget, NaN, iCaSmooth)), tauM, tauG, m)
  }

  // ---------------------------------------------------------------------
  // Connection

  /** Binds a channel: registers with its compartment, copies the area and
      sets the control type to channel. A bound synapse stays bound. */
  function ConnectChannel(c: Controller, ch: Conductance): (r: Controller)
    ensures r.controlType == ChannelControl && r.containerArea == ch.container.area
    ensures r.channel.Some? && r.channel.value.gbar == ch.gbar && r.channel.value.gbarNext == ch.gbarNext
    ensures r.channel.value.container.mechanisms == ch.container.mechanisms + 1
    ensures r.channel.value.container.(mechanisms := ch.container.mechanisms) == ch.container
    ensures r.syn == c.syn && r.law == c.law && r.m == c.m && r.tauM == c.tauM && r.tauG == c.tauG
    ensures Valid(c) ==> Valid(r)
  {
    var ch' := ch.(container := AddMechanism(ch.container));
    c.(channel := Some(ch'), containerArea := ch.container.area, controlType := ChannelControl)
  }

  /** Binds a synapse: registers with its post-synaptic compartment, copies
      that compartment's area and sets the control type to synapse. */
  function ConnectSynapse(c: Controller, s: Synapse): (r: Controller)
    ensures r.controlType == SynapseControl && r.containerArea == s.postSyn.area
    ensures r.syn.Some? && r.syn.value.gmax == s.gmax
    ensures r.syn.value.postSyn.mechanisms == s.postSyn.mechanisms + 1
    ensures r.syn.value.postSyn.(mechanisms := s.postSyn.mechanisms) == s.postSyn
    ensures r.channel == c.channel && r.law == c.law && r.m == c.m && r.tauM == c.tauM && r.tauG == c.tauG
    ensures Valid(c) ==> Valid(r)
  {
    var s' := s.(postSyn := AddMechanism(s.postSyn));
    c.(syn := Some(s'), containerArea := s.postSyn.area, controlType := SynapseControl)
  }

  /** A controller cannot regulate a compartment: always fatal. */
  function ConnectCompartment(c: Controller, comp: Compartment): (r: Result<Controller>)
    ensures r.Err? && r.error == CannotConnectToCompartment
  {
    Err(CannotConnectToCompartment)
  }

  // ---------------------------------------------------------------------
  // Integration

  /** The NaN set-point that turns the controller off for a step: on the
      channel path the current-integral controller looks at its own current
      target, the others at the compartment's calcium target; on the synapse
      path all three look at the post-synaptic calcium target. */
  predicate Disabled(c: Controller)
    requires Valid(c)
  {
    match c.controlType
    case Unset => false
    case ChannelControl =>
      if c.law.CurrentIntegral? then c.law.filter.iCaTarget.NaN?
      else c.channel.value.container.caTarget.NaN?
    case SynapseControl => c.syn.value.postSyn.caTarget.NaN?
  }

  /** The concentration error of a compartment whose target is a number. */
  function CaError(comp: Compartment): real
    requires comp.caTarget.Num?
  {
    comp.caTarget.value - comp.caPrev
  }

  /** The law's update of m from a concentration error (bang-bang takes the
      sign, the two integral controllers the value). */
  function ConcentrationLaw(law: Law, m: real, rate: real, error: real): real
  {
    if law.BangBang? then SignLaw(m, rate, error) else ProportionalLaw(m, rate, error)
  }

  /** The channel path of one step; a disabled controller is returned as is. */
  function ChannelStep(c: Controller, dt: real): (r: Controller)
    requires Valid(c) && Steppable(c) && c.controlType == ChannelControl
  {
    if Disabled(c) then c
    else
      var ch := c.channel.value;
      var rateM := Rate(dt, c.tauM);
      var (law', m') :=
        match c.law
        case CurrentIntegral(f) =>
          var smooth := FilterStep(f.iCaSmooth, ch.container.iCaPrev, Rate(dt, f.tauFilter));
          var error := smooth - f.iCaTarget.value;
          (CurrentIntegral(f.(iCaSmooth := smooth, iCaError := Num(error))),
           ProportionalLaw(c.m, rateM, error))
        case _ =>
          (c.law, ConcentrationLaw(c.law, c.m, rateM, CaError(ch.container)));
      var next := ChannelWrite(ch.gbar, ch.gbarNext, c.containerArea, m', Rate(dt, c.tauG));
      c.(law := law', m := m', channel := Some(ch.(gbarNext := next)))
  }

  /** The synapse path of one step. The current-integral controller uses the
      concentration law here too and leaves its filter alone. */
  function SynapseStep(c: Controller, dt: real): (r: Controller)
    requires Valid(c) && Steppable(c) && c.controlType == SynapseControl
  {
    if Disabled(c) then c
    else
      var s := c.syn.value;
      var m' := ConcentrationLaw(c.law, c.m, Rate(dt, c.tauM), CaError(s.postSyn));
      var gmax := SynapseWrite(s.gmax, m', Rate(dt, c.tauG));
      c.(m := m', syn := Some(s.(gmax := gmax)))
  }

  /** `integrate`: one explicit-Euler step of length dt. Fatal while unset;
      otherwise a disabled step changes nothing, and an enabled one leaves m
      non-negative, changes only m, the filter state and the regulated value
      of the bound target, and never makes a synapse's gmax negative. */
  function Step(c: Controller, dt: real): (r: Result<Controller>)
    requires Valid(c) && Steppable(c)
    ensures r.Err? <==> c.controlType == Unset
    ensures r.Err? ==> r.error == Misconfigured
    ensures r.Ok? ==> Valid(r.value) && Steppable(r.value) && SameSettings(c, r.value)
    ensures r.Ok? && Disabled(c) ==> r.value == c
    ensures r.Ok? && !Disabled(c) ==> r.value.m >= 0.0
    ensures r.Ok? && c.controlType == ChannelControl ==> r.value.syn == c.syn
    ensures r.Ok? && c.controlType == SynapseControl ==>
      r.value.channel == c.channel && r.value.law == c.law
    ensures r.Ok? && c.controlType == SynapseControl && !Disabled(c) ==> r.value.syn.value.gmax >= 0.0
  {
    match c.controlType
    case Unset => Err(Misconfigured)
    case ChannelControl => Ok(ChannelStep(c, dt))
    case SynapseControl => Ok(SynapseStep(c, dt))
  }

  /** The host calling `integrate` once per entry of dts, in order; the
      first fatal error ends the run. */
  function Run(c: Controller, dts: seq<real>): (r: Result<Controller>)
    requires Valid(c) && Steppable(c)
    ensures r.Err? <==> c.controlType == Unset && |dts| > 0
    ensures r.Ok? ==> Valid(r.value) && Steppable(r.value) && SameSettings(c, r.value)
    ensures c.controlType != Unset && Disabled(c) ==> r == Ok(c)
    decreases |dts|
  {
    if |dts| == 0 then Ok(c)
    else
      match Run(c, dts[..|dts| - 1])
      case Err(e) => Err(e)
      case Ok(c') => Step(c', dts[|dts| - 1])
  }

  // ---------------------------------------------------------------------
  // Solver negotiation and state export

  /** Only solver order 0 (first-order explicit) is supported. */
  function CheckSolvers(order: int): (r: Result<()>)
    ensures r.Ok? <==> order == 0
    ensures r.Err? ==> r.error == UnsupportedSolverOrder
  {
    if order == 0 then Ok(()) else Err(UnsupportedSolverOrder)
  }

  /** `getState`: slot 1 is m, slot 2 the bound channel's gbar, any other
      slot NaN. Slot 2 reads through the channel pointer unconditionally, so
      the caller must have bound a channel. */
  function GetState(c: Controller, slot: int): (r: Double)
    requires slot == 2 ==> c.channel.Some?
    ensures slot == 1 ==> r == Num(c.m)
    ensures slot == 2 ==> r == Num(c.channel.value.gbar)
    ensures r.NaN? <==> slot != 1 && slot != 2
  {
    if slot == 1 then Num(c.m)
    else if slot == 2 then Num(c.channel.value.gbar)
    else NaN
  }

  /** Every controller exports two values: m and the regulated value. */
  function GetFullStateSize(): (r: nat)
    ensures r == 2
  {
    2
  }

  /** `getFullState`: writes m at idx and the regulated value at idx + 1
      (a bound channel's gbar, else a bound synapse's gmax, else nothing),
      leaves every other cell alone and returns the next free index. */
  function GetFullState(c: Controller, buf: seq<real>, idx: int): (r: (seq<real>, int))
    requires 0 <= idx && idx + 2 <= |buf|
    ensures |r.0| == |buf| && r.1 == idx + GetFullStateSize()
    ensures r.0[idx] == c.m
    ensures c.channel.Some? ==> r.0[idx + 1] == c.channel.value.gbar
    ensures c.channel.None? && c.syn.Some? ==> r.0[idx + 1] == c.syn.value.gmax
    ensures c.channel.None? && c.syn.None? ==> r.0[idx + 1] == buf[idx + 1]
    ensures forall j :: 0 <= j < |buf| && j != idx && j != idx + 1 ==> r.0[j] == buf[j]
  {
    var b := buf[idx := c.m];
    var b' :=
      if c.channel.Some? then b[idx + 1 := c.channel.value.gbar]
      else if c.syn.Some? then b[idx + 1 := c.syn.value.gmax]
      else b;
    (b', idx + GetFullStateSize())
  }
}
