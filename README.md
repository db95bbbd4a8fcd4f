# Tweeny tween session, modelled in Dafny

Tweeny is a small property-tweening engine. `tweeny.tween(from, to, duration, easing)` takes an
object of numeric properties (the subject) and an object of target values. It writes the subject's
properties, in place, toward the targets on every timer tick until the duration has elapsed. Then it
snaps the subject onto the target and invokes a completion callback. The call returns a controller
with `stop(gotoEnd)` and `get()`.

The model follows the single source file `src/tweeny.core.js`:

- `objects.dfy`, module `Objects`: JavaScript objects with numeric properties, as the class `Props`
  (a reference holding a `map<string, real>`). Also `simpleCopy` as the in-place loop `SimpleCopy`,
  specified by the map function `Copied`.
- `easing.dfy`, module `Easing`: Penner's `(t, b, c, d)` formulas as the subset type `Formula`.
  A `Formula` is a partial function that is defined whenever `d != 0`. The module also holds
  `formula.linear` as `Linear` and the lookup `formula[easing] || formula.linear` as `Resolve`.
- `arguments.dfy`, module `Arguments`: the namespace defaults (`Settings`, with the shipped values
  500 and `'linear'` in `Shipped`) and the shorthand/longhand normalisation as the function `Normalise`.
- `tween.dfy`, module `Tween`: the closure state of one `tween` call as the class `Session`. Its
  methods are `TweenProps`, `Tick` (`timeoutHandler`), `Stop` and `Get`; the factory is `Start`.
  The module also has the specification function `Interpolated`, with lemmas about runs of ticks.
- `scenarios.dfy`, module `Scenarios`: concrete sessions whose outcomes follow from the contracts alone.

Timers are replaced by a `pending` flag: `Tick` may run only while a tick is pending, and `Stop`
clears the flag. The clock is replaced by time arguments: `Start` receives the reading of `now()`
taken at creation, and `Tick` receives the reading taken inside the handler. The user's `step` and
`callback` are counted (`stepCalls`, `callbackCalls`), not run.

JavaScript truthiness is modelled where the normalisation depends on it. Absent values are
`Option.None`. A number is falsy when it is absent or `0`. A string is falsy when it is absent or
`''`. Every object, including `{}`, is truthy, so `tween(obj, {})` takes the shorthand form. Only a
non-object falsy `to` (`undefined`, `null`, `0`, `''`) selects the longhand form (`if (to)`,
line 93). The model has `to: Option<Props>`.

The first argument is `Nullish` (`undefined` or `null`), a `FalsyPrimitive` (`0`, `''`, `false`)
or an object (`Given`). In the longhand form, reading `params.step` of `undefined` or `null` raises
a `TypeError`. `Normalise` and `Start` return `Failure(TypeError)` exactly then. A falsy primitive
has none of the options, so the longhand form builds a session over fresh `{}` objects with the
default duration and easing and no-op callbacks. In the shorthand form, both `Nullish` and
`FalsyPrimitive` become a fresh `{}`.

## Model

| member | source | states |
|---|---|---|
| `Objects.Copied` | src/tweeny.core.js:20-30 | after a shallow copy, the keys are the target's plus the source's. Every source key holds the source's value, and target keys not in the source keep theirs |
| `Objects.SimpleCopy` | src/tweeny.core.js:20-30 | the key-by-key loop leaves the target holding `Copied(old target, old source)`. It returns the target object itself and writes no other object. This holds also when target and source are the same object |
| `Objects.CopiedIdempotent` | src/tweeny.core.js:20-30 | copying the same source twice gives the same result as copying it once |
| `Easing.Linear` | src/tweeny.core.js:154-157 | `c*t/d + b` yields `b` at `t = 0`, `b + c` at `t = d` and `b + c/2` at `t = d/2` (over reals, `d != 0`). For `0 <= t <= d` with `d > 0`, it stays between `b` and `b + c` |
| `Easing.Resolve` | src/tweeny.core.js:114 | a registered easing name gives its own formula. Any other name gives the `linear` entry |
| `Arguments.Normalise` | src/tweeny.core.js:93-111 | the call fails (TypeError) exactly when `to` is falsy and the first argument is `undefined` or `null`. A truthy `to` selects the positional form: a falsy `duration`/`easing` takes the default, and `step` and `callback` are no-ops. Otherwise every value is read from the options object (a falsy primitive first argument has none, giving fresh `{}` objects and the defaults), and missing callbacks become no-ops. With a non-zero default the duration is never zero |
| `Tween.Interpolated` | src/tweeny.core.js:62-70 | one interpolation keeps the subject's key set, so no target key is added. Keys only in the subject keep their values. Each shared key becomes `easing(elapsed, snapshot[k], to[k] - snapshot[k], duration)`, with no dependence on its current value |
| `Tween.InterpolatedForgetsEarlierTick` | src/tweeny.core.js:67 | interpolating at one time and then at a second gives the same result as interpolating only at the second |
| `Tween.AfterTicks` | src/tweeny.core.js:76-90 | any run of running-branch ticks keeps the subject's key set |
| `Tween.AfterTicksIsLastTick` | src/tweeny.core.js:76-90 | after any non-empty run of ticks, the subject is what the last tick alone would make of the original subject |
| `Tween.ExpiryForgetsTicks` | src/tweeny.core.js:76-90 | whatever ticks ran before natural expiry, the final subject is the original subject with all of the target copied in |
| `Tween.Session.constructor` | src/tweeny.core.js:113-116 | a new session holds the subject, the target, the snapshot, the duration, the formula, the callbacks and the start time. It has one tick pending and no calls yet |
| `Tween.Session.TweenProps` | src/tweeny.core.js:62-70 | writes the subject in place to exactly `Interpolated(old subject, old target, snapshot, ...)` at `currentTime - timestamp` |
| `Tween.Session.Tick` | src/tweeny.core.js:76-90 | before `timestamp + duration`, the subject becomes the interpolation, `step` runs exactly once more, a tick stays pending and `callback` is not invoked. At or after that time, the tick does exactly what `Stop(true)` does |
| `Tween.Session.Stop` | src/tweeny.core.js:123-129 | always clears the pending tick. With `gotoEnd`, the subject becomes `Copied(subject, target)`, so every target key (also keys new to the subject) holds the target's value, and `callback` runs once more. Without it, the subject is unchanged and `callback` does not run |
| `Tween.Session.Get` | src/tweeny.core.js:135-137 | returns the subject object itself, not a copy |
| `Tween.StopAtEndTwice` | src/tweeny.core.js:123-129 | two `stop(true)` calls leave the subject as one does. The callback count rises by two, because nothing guards against a repeat |
| `Tween.TickUntilExpiry` | src/tweeny.core.js:76-90 | for any session with a tick pending, running ticks at times before its end and then one tick past it leave every target key holding the target's value and every other subject key at its old value. `step` runs once per running tick, `callback` exactly once, and nothing stays pending |
| `Tween.Start` | src/tweeny.core.js:93-116 | fails exactly as `Normalise` does. Otherwise it builds a fresh session from the normalised values: a falsy `from`/`to` is replaced by a fresh `{}`, the snapshot equals the subject at creation, the formula is `Resolve(registry, easing)` and the start time is the given clock reading |
| `Scenarios.StartLinear` | src/tweeny.core.js:93-116 | `tween(subject, target, 100, 'linear')` at time 1000 tweens the caller's own objects with `Linear` over 100 ms, and its snapshot equals the subject |
| `Scenarios.StopHalfway` | src/tweeny.core.js:123-129 | `{x: 0}` toward `{x: 100}` over 100 ms is at 50 halfway through. After `stop(false)` it stays at 50, and no callback has run |
| `Scenarios.RunToExpiry` | src/tweeny.core.js:76-90 | the same tween, ticked past its end, lands exactly on 100, calls back once and leaves nothing pending |
| `Scenarios.UnknownEasingAndZeroDuration` | src/tweeny.core.js:93-114 | easing name `'bogus'` eases exactly as `linear`, and a zero duration falls back to the default 500 |

## Left out

- Timers: `setTimeout`/`clearTimeout` and the host run loop are modelled by the `pending` flag. The tick interval `1000 / this.fps` (line 73) and the `fps` setting are not modelled.
- The clock `now()` (lines 10-12) is not modelled. Its readings are method arguments.
- Global namespace registration and the `if (global.tweeny) return;` guard (lines 3, 32-36, 161) are environment plumbing and are not modelled.
- What `step` and `callback` do, their `this` binding to the subject, and re-entrant calls from inside them are not modelled. The model only counts the calls.
- Numbers are Dafny `real`: there is no IEEE-754 rounding, no `NaN` (falsy in JavaScript), no `-0` and no infinities.
- Objects hold only numeric own properties. Prototype chains, `hasOwnProperty` and property enumeration order are not modelled: the loops take keys in an unspecified order.
- Tween.Session.TweenProps: reads the target's values once before its loop, where the source reads `to[prop]` inside the loop. The two agree even when the target is the subject itself, because each key is read before it is written.
- Tween.Session.Tick: requires that every key the subject shares with the target is in the snapshot. If a caller adds such a key to the subject after creation, the source computes with `undefined`, giving `NaN`.
- Tween.Start: requires a non-zero default duration and a `linear` entry in the registry, as the shipped namespace has. With a zero default, the source could divide by zero in the easing formula.
- Arguments.Normalise: a truthy non-object first argument (a number such as `5`, say) is not modelled. The first argument is nullish, a falsy primitive or an object.
- Formulas other than `linear` are not modelled. The registry is a parameter and accepts any formula that is defined for non-zero durations.
