/** The namespace defaults and the reading of `tween`'s arguments into one
    canonical configuration. */
module Arguments {
  import opened Wrappers
  import opened Objects
  import Easing

  /** The process-wide settings a session reads when it is created: the
      default duration, the default easing name and the formula registry. */
  datatype Settings = Settings(duration: real, easing: string, formula: Easing.Registry)

  /** The namespace as the library ships it: 500 ms, `'linear'`, and a
      registry holding only `linear`. */
  const Shipped: Settings := Settings(500.0, "linear", map["linear" := Easing.Linear])

  /** A `step` or `callback` function. Its effects are not modelled; a
      session only counts how often it is invoked. */
  datatype Callback = NoOp | UserFunction(name: string)

  /** The properties the longhand form reads from its options object. */
  datatype Options = Options(
    from: Option<Props>,
    to: Option<Props>,
    duration: Option<real>,
    easing: Option<string>,
    step: Option<Callback>,
    callback: Option<Callback>)

  /** The first argument of `tween`: `undefined` or `null`; another falsy
      value (`0`, `''`, `false`); or an object. An object is one JavaScript
      value seen two ways: the shorthand form tweens its numeric properties
      (`subject`), the longhand form reads its options (`options`). The two
      parts may vary independently here because each form reads only one. */
  datatype First = Nullish | FalsyPrimitive | Given(subject: Props, options: Options)

  /** What the longhand form reads from a first argument that is not
      nullish: a primitive has none of the options. */
  function OptionsOf(first: First): Options
    requires !first.Nullish?
  {
    if first.Given? then first.options else Options(None, None, None, None, None, None)
  }

  /** The configuration a session is built from. `None` for `from` or `to`
      stands for the fresh empty object `{}` put in its place. */
  datatype Normalised = Normalised(
    from: Option<Props>,
    to: Option<Props>,
    duration: real,
    easing: string,
    step: Callback,
    callback: Callback)

  /** Reading an option of `undefined` or `null` raises a `TypeError`. */
  datatype Error = TypeError

  /** JavaScript truthiness of a number (`undefined` and `0` are falsy). */
  predicate TruthyNumber(x: Option<real>) {
    x.Some? && x.value != 0.0
  }

  /** JavaScript truthiness of a string (`undefined` and `''` are falsy). */
  predicate TruthyString(x: Option<string>) {
    x.Some? && x.value != ""
  }

  /** `x || default` for a number. */
  function NumberOr(x: Option<real>, default: real): real {
    if TruthyNumber(x) then x.value else default
  }

  /** `x || default` for a string. */
  function StringOr(x: Option<string>, default: string): string {
    if TruthyString(x) then x.value else default
  }

  /** The normalisation at the head of `tween(from, to, duration, easing)`.
      A truthy `to` selects the shorthand form; otherwise the first argument
      is read as an options object. */
  function Normalise(s: Settings, first: First, to: Option<Props>, duration: Option<real>, easing: Option<string>)
    : (r: Result<Normalised, Error>)
    // the only failure: longhand form with nothing to read the options from
    ensures r.Failure? <==> to.None? && first.Nullish?
    // shorthand: positional values, falsy ones replaced by the defaults, no-op callbacks
    ensures to.Some? ==>
      && r.Success?
      && r.value.from == (if first.Given? then Some(first.subject) else None)
      && r.value.to == to
      && r.value.duration == (if TruthyNumber(duration) then duration.value else s.duration)
      && r.value.easing == (if TruthyString(easing) then easing.value else s.easing)
      && r.value.step == NoOp && r.value.callback == NoOp
    // longhand: everything comes from the options object, the positional duration and easing are ignored
    ensures to.None? && !first.Nullish? ==>
      && r.Success?
      && var o := OptionsOf(first);
      && r.value.from == o.from
      && r.value.to == o.to
      && r.value.duration == (if TruthyNumber(o.duration) then o.duration.value else s.duration)
      && r.value.easing == (if TruthyString(o.easing) then o.easing.value else s.easing)
      && r.value.step == o.step.GetOr(NoOp)
      && r.value.callback == o.callback.GetOr(NoOp)
    // a non-zero default leaves no way to obtain a zero duration
    ensures r.Success? && s.duration != 0.0 ==> r.value.duration != 0.0
    ensures r.Success? && s.easing != "" ==> r.value.easing != ""
    // a falsy primitive in the longhand form tweens fresh objects with the defaults
    ensures to.None? && first.FalsyPrimitive? ==>
      r == Success(Normalised(None, None, s.duration, s.easing, NoOp, NoOp))
  {
    if to.Some? then
      var from := if first.Given? then Some(first.subject) else None;
      Success(Normalised(from, to, NumberOr(duration, s.duration), StringOr(easing, s.easing), NoOp, NoOp))
    else if first.Nullish? then
      Failure(TypeError)
    else
      var o := OptionsOf(first);
      Success(Normalised(o.from, o.to, NumberOr(o.duration, s.duration), StringOr(o.easing, s.easing),
                         o.step.GetOr(NoOp), o.callback.GetOr(NoOp)))
  }
}
