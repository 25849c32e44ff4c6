/**
 * Option objects as plain dictionaries, and `angular.extend`, the shallow
 * merge the service uses to build stage and indicator options.
 */
module OptionObjects {
  import opened Wrappers
  import opened JsValues

  /** A value held in an options object. */
  datatype Value =
    | Prim(v: JsValue)
    | Dict(entries: map<string, Value>)   // a nested object, copied by reference
    | Window                              // the injected `$window`
    | Element(id: nat)                    // some other DOM element

  type Options = map<string, Value>

  /** JavaScript truthiness of an option value: every object is truthy. */
  predicate ValueTruthy(v: Value)
  {
    v.Prim? ==> JsValues.Truthy(v.v)
  }

  /** `a || b` on option values. */
  function Or(a: Value, b: Value): (r: Value)
    ensures ValueTruthy(a) ==> r == a
    ensures !ValueTruthy(a) ==> r == b
  {
    if ValueTruthy(a) then a else b
  }

  /**
   * `angular.extend({}, s1, ..., sn)`: copies every key of the sources `s1` to
   * `sn` into a new object, in order, so that a key takes its value from the last source
   * that has it. The merge is shallow: a nested object is replaced, not merged.
   */
  function Extend(sources: seq<Options>): (r: Options)
    ensures forall i, k :: 0 <= i < |sources| && k in sources[i] ==> k in r
    decreases |sources|
  {
    if sources == [] then map[]
    else
      var init, last := sources[..|sources| - 1], sources[|sources| - 1];
      var r := Extend(init) + last;
      assert forall i :: 0 <= i < |init| ==> init[i] == sources[i];
      r
  }

  /** Every key of a merged object comes from one of its sources. */
  lemma {:induction false} ExtendKeyFromSource(sources: seq<Options>, k: string)
    requires k in Extend(sources)
    ensures exists i :: 0 <= i < |sources| && k in sources[i]
    decreases |sources|
  {
    var n := |sources|;
    if k !in sources[n - 1] {
      var init := sources[..n - 1];
      ExtendKeyFromSource(init, k);
      var i :| 0 <= i < |init| && k in init[i];
      assert init[i] == sources[i];
    }
  }

  /** A key takes its value from the last source that has it. */
  lemma {:induction false} ExtendLastWins(sources: seq<Options>, i: nat, k: string)
    requires i < |sources| && k in sources[i]
    requires forall j :: i < j < |sources| ==> k !in sources[j]
    ensures k in Extend(sources) && Extend(sources)[k] == sources[i][k]
    decreases |sources|
  {
    var n := |sources|;
    if i < n - 1 {
      var init := sources[..n - 1];
      assert init[i] == sources[i];
      ExtendLastWins(init, i, k);
    }
  }

  /** Merging one more source overrides what the earlier sources gave. */
  lemma ExtendSnoc(sources: seq<Options>, m: Options)
    ensures Extend(sources + [m]) == Extend(sources) + m
  {
    assert (sources + [m])[..|sources|] == sources;
  }

  /** Merging two sources is their map union, the second overriding the first. */
  lemma ExtendPair(a: Options, b: Options)
    ensures Extend([a, b]) == a + b
  {
    var none: seq<Options> := [];
    ExtendSnoc(none, a);
    assert none + [a] == [a];
    ExtendSnoc([a], b);
    assert [a] + [b] == [a, b];
  }

  /** An `options` argument as a source of `angular.extend`, which skips `undefined`. */
  function Source(options: Option<Options>): (s: seq<Options>)
  {
    if options.Some? then [options.value] else []
  }
}
