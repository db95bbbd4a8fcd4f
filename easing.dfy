/** The easing formula registry, in Robert Penner's `(t, b, c, d)` form:
    elapsed time, start value, change in value, duration. */
module Easing {

  /** An easing formula: defined for every non-zero duration. */
  type Formula = f: (real, real, real, real) --> real
    | forall t, b, c, d :: d != 0.0 ==> f.requires(t, b, c, d)
    witness Linear

  /** The registry of named formulas. */
  type Registry = map<string, Formula>

  /** `formula.linear`: no easing, no acceleration. */
  function Linear(t: real, b: real, c: real, d: real): (r: real)
    requires d != 0.0
    ensures t == 0.0 ==> r == b
    ensures t == d ==> r == b + c
    ensures t == d / 2.0 ==> r == b + c / 2.0
    ensures 0.0 < d && 0.0 <= t <= d && 0.0 <= c ==> b <= r <= b + c
    ensures 0.0 < d && 0.0 <= t <= d && c <= 0.0 ==> b + c <= r <= b
  {
    c * t / d + b
  }

  /** The easing lookup: the formula registered under `name`, or `linear`
      when no formula has that name. */
  function Resolve(registry: Registry, name: string): (f: Formula)
    requires "linear" in registry
    ensures name in registry ==> f == registry[name]
    ensures name !in registry ==> f == registry["linear"]
  {
    if name in registry then registry[name] else registry["linear"]
  }
}
