/** Plain JavaScript objects whose own properties are numbers, and the
    shallow copy that writes one such object into another. */
module Objects {

  /** A mutable object of numeric properties, shared by reference: the
      subject being tweened, the target values, or a copy of either. */
  class Props {
    var values: map<string, real>

    constructor (values: map<string, real>)
      ensures this.values == values
    {
      this.values := values;
    }
  }

  /** The properties of `target` after every own property of `src` has been
      written into it. */
  function Copied(target: map<string, real>, src: map<string, real>): (r: map<string, real>)
    ensures r.Keys == target.Keys + src.Keys
    ensures forall k :: k in src ==> r[k] == src[k]
    ensures forall k :: k in target && k !in src ==> r[k] == target[k]
  {
    target + src
  }

  /** Copying the same source a second time changes nothing. */
  lemma CopiedIdempotent(target: map<string, real>, src: map<string, real>)
    ensures Copied(Copied(target, src), src) == Copied(target, src)
  {
  }

  /** `simpleCopy`: assigns every own property of `src` into `target`, one
      key at a time, and hands back `target` itself. `target` and `src` may
      be the same object. */
  method SimpleCopy(target: Props, src: Props) returns (r: Props)
    modifies target
    ensures r == target
    ensures target.values == Copied(old(target.values), old(src.values))
  {
    var source := src.values;
    var remaining := source.Keys;
    while remaining != {}
      invariant remaining <= source.Keys
      invariant target.values.Keys == old(target.values).Keys + (source.Keys - remaining)
      invariant forall k :: k in target.values ==>
                  target.values[k] == if k in source && k !in remaining then source[k] else old(target.values)[k]
      decreases remaining
    {
      var k :| k in remaining;
      target.values := target.values[k := source[k]];
      remaining := remaining - {k};
    }
    r := target;
  }
}
