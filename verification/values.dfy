/** Value types shared by every controller: doubles that may carry the NaN
    sentinel, time constants that may be infinite, and the fatal errors the
    controllers raise. */
module Values {

  /** A double as the controllers see it: either a number or the quiet NaN
      that they test with `isnan` to mean "disabled". Other IEEE values
      (signed zeros, infinities inside arithmetic) are not distinguished. */
  datatype Double = NaN | Num(value: real)

  datatype Option<+T> = None | Some(value: T)

  /** A time constant in seconds. `Infinite` stands for +infinity, the
      default of tau_m, for which the per-step rate dt/tau is 0. */
  datatype Timescale = Finite(seconds: real) | Infinite

  /** The conditions on which the source calls `mexErrMsgTxt` and aborts. */
  datatype Fatal =
    | TauGNotPositive
    | CannotConnectToCompartment
    | Misconfigured
    | UnsupportedSolverOrder

  datatype Result<+T> = Ok(value: T) | Err(error: Fatal)

  /** The per-step rate dt/tau. A finite tau of exactly 0 would divide by
      zero, which the model does not interpret. */
  function Rate(dt: real, tau: Timescale): (r: real)
    requires tau != Finite(0.0)
    ensures tau.Infinite? ==> r == 0.0
    ensures tau.Finite? ==> r * tau.seconds == dt
  {
    match tau
    case Infinite => 0.0
    case Finite(t) => dt / t
  }

  /** The clamp `if (x < 0) x = 0`: the least non-negative value not below x. */
  function ClampAtZero(x: real): (r: real)
    ensures r >= 0.0 && r >= x
    ensures r == x || r == 0.0
  {
    if x < 0.0 then 0.0 else x
  }
}
