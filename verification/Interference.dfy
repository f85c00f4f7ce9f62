/** What may get in the way of a call. */
module Interferences {

  /** Nothing; only crashes of the process; or anything, exceptions and other callers included. */
  datatype Interference = Calm | Crashes | Anything

  /** Whether the process is cut off at this point. */
  method Strikes(around: Interference) returns (strikes: bool)
    ensures around.Calm? ==> !strikes
  {
    if around.Calm? {
      return false;
    }
    strikes := *;
  }

  /** Whether another caller, or an exception, gets in at this point. */
  method Disturbs(around: Interference) returns (disturbs: bool)
    ensures !around.Anything? ==> !disturbs
  {
    if !around.Anything? {
      return false;
    }
    disturbs := *;
  }
}
