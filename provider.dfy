/**
 * The configuration held by `MagicsProvider` and the pure rules that
 * `MagicsInstance` derives from it: the rate limiter, the merged options of a
 * new stage, the options of a debug indicator, the scroll-to animation
 * request, and how that animation settles the caller's promise.
 */
module Provider {
  import opened Wrappers
  import opened JsValues
  import opened OptionObjects

  /** `scrollOptions`: which axes to scroll, and the animation's duration and easing. */
  datatype ScrollOptions = ScrollOptions(x: bool, y: bool, duration: real, ease: string)

  /** `performanceOptions`: the rate limiter's name and its delay in milliseconds. */
  datatype PerformanceOptions = PerformanceOptions(brake: JsValue, delay: int)

  /** The provider's fields as the instance reads them; `container` is unset by default. */
  datatype Config = Config(
    scrollOptions: ScrollOptions,
    debug: bool,
    debugOptions: Options,
    sceneOptions: Options,
    stageOptions: Options,
    pinOptions: Options,
    performance: PerformanceOptions,
    container: Value)

  /** The provider as constructed, before the application configures it. */
  const DEFAULTS := Config(
    ScrollOptions(false, true, 0.75, "Power2.easeInOut"),
    false, map[], map[], map[], map[],
    PerformanceOptions(Str("debounce"), 50),
    Prim(Undefined))

  /** The two rate-limiting wrappers the instance can be injected with. */
  datatype Brake = Debounce | Throttle

  /** The instance rate-limits with `throttle` exactly when the brake is the string 'throttle'. */
  function ChooseBrake(p: PerformanceOptions): (b: Brake)
    ensures b == Throttle <==> p.brake == Str("throttle")
    ensures b == Debounce <==> p.brake != Str("throttle")
  {
    if p.brake == Str("throttle") then Throttle else Debounce
  }

  const GLOBAL_SCENE_OPTIONS := "globalSceneOptions"
  const CONTAINER := "container"

  /** Whether the caller's `options` object sets key `k`. */
  predicate Given(options: Option<Options>, k: string)
  {
    options.Some? && k in options.value
  }

  /**
   * The options a new stage's controller is created with: the provider's stage
   * options, overridden by the provider's scene options (as
   * `globalSceneOptions`) and the container (the provider's if set, else the
   * window), all overridden by the caller's `options`.
   */
  function StageOptions(c: Config, window: Value, options: Option<Options>): (r: Options)
    ensures forall k :: k in r <==>
      k in c.stageOptions || k == GLOBAL_SCENE_OPTIONS || k == CONTAINER || Given(options, k)
    ensures forall k :: Given(options, k) ==> r[k] == options.value[k]
    ensures !Given(options, GLOBAL_SCENE_OPTIONS) ==> r[GLOBAL_SCENE_OPTIONS] == Dict(c.sceneOptions)
    ensures !Given(options, CONTAINER) ==>
      r[CONTAINER] == (if ValueTruthy(c.container) then c.container else window)
    ensures forall k ::
      k in c.stageOptions && k != GLOBAL_SCENE_OPTIONS && k != CONTAINER && !Given(options, k) ==>
        r[k] == c.stageOptions[k]
  {
    var computed := map[GLOBAL_SCENE_OPTIONS := Dict(c.sceneOptions), CONTAINER := Or(c.container, window)];
    ExtendOverDefaults(c.stageOptions, computed, options);
    assert GLOBAL_SCENE_OPTIONS[0] != CONTAINER[0];
    Extend([c.stageOptions, computed] + Source(options))
  }

  /** `angular.extend({}, a, b, options)` is the union of the three, later entries winning. */
  lemma ExtendOverDefaults(a: Options, b: Options, options: Option<Options>)
    ensures Extend([a, b] + Source(options)) == a + b + (if options.Some? then options.value else map[])
  {
    ExtendPair(a, b);
    if options.Some? {
      ExtendSnoc([a, b], options.value);
    } else {
      assert [a, b] + Source(options) == [a, b];
    }
  }

  /** The options of a scene's debug indicator: the provider's, with the scene's `name`. */
  function IndicatorOptions(c: Config, name: JsValue): (r: Options)
    ensures r.Keys == c.debugOptions.Keys + {"name"}
    ensures r["name"] == Prim(name)
    ensures forall k :: k in c.debugOptions && k != "name" ==> r[k] == c.debugOptions[k]
  {
    ExtendPair(c.debugOptions, map["name" := Prim(name)]);
    Extend([c.debugOptions, map["name" := Prim(name)]])
  }

  /** The `scrollTo` options of the animation; `autoKill` lets a user scroll interrupt it. */
  datatype ScrollTo = ScrollTo(autoKill: bool, x: Option<int>, y: Option<int>)

  /** The call `Tween.to(container, duration, {scrollTo, ease, onComplete})`. */
  datatype TweenCall = TweenCall(container: Value, duration: real, scrollTo: ScrollTo, ease: string)

  /**
   * `_scrollHandler(target, [container, deferred])`: the animation every stage
   * scrolls with. It targets `target` on exactly the configured axes and can
   * be interrupted by the user.
   */
  function ScrollHandler(s: ScrollOptions, target: int, container: Value): (t: TweenCall)
    ensures t.scrollTo.autoKill
    ensures t.scrollTo.x == (if s.x then Some(target) else None)
    ensures t.scrollTo.y == (if s.y then Some(target) else None)
    ensures t.container == container && t.duration == s.duration && t.ease == s.ease
  {
    var scrollTo := ScrollTo(true, None, None);
    var scrollTo := if s.x then scrollTo.(x := Some(target)) else scrollTo;
    var scrollTo := if s.y then scrollTo.(y := Some(target)) else scrollTo;
    TweenCall(container, s.duration, scrollTo, s.ease)
  }

  /** `offset || 0` for an offset that is a number or missing. */
  function OffsetOrZero(offset: Option<int>): (d: int)
    ensures offset.Some? ==> d == offset.value
    ensures offset.None? ==> d == 0
  {
    if offset.Some? && offset.value != 0 then offset.value else 0
  }

  /** How an animation ends: it runs to completion, or a user scroll kills it. */
  datatype TweenEnd = Completed | AutoKilled

  /** The state of the promise `scrollToScene` returns. */
  datatype PromiseState = Pending | Resolved | Rejected

  /**
   * The effect of an animation's end on the deferred behind the promise:
   * completion resolves it, an interruption rejects it, and a deferred that
   * has already settled stays as it is.
   */
  function Settle(p: PromiseState, e: TweenEnd): (q: PromiseState)
    ensures p == Pending ==> (q == Resolved <==> e == Completed) && (q == Rejected <==> e == AutoKilled)
    ensures p != Pending ==> q == p
  {
    if p != Pending then p
    else match e
      case Completed => Resolved
      case AutoKilled => Rejected
  }

  /**
   * With the provider's defaults the instance debounces by 50 ms, scrolls
   * vertically only, and puts a new stage in the window.
   */
  lemma DefaultsBehaviour(target: int, container: Value, window: Value)
    ensures ChooseBrake(DEFAULTS.performance) == Debounce && DEFAULTS.performance.delay == 50
    ensures ScrollHandler(DEFAULTS.scrollOptions, target, container).scrollTo == ScrollTo(true, None, Some(target))
    ensures StageOptions(DEFAULTS, window, Some(map[]))[CONTAINER] == window
    ensures StageOptions(DEFAULTS, window, Some(map[]))[GLOBAL_SCENE_OPTIONS] == Dict(map[])
  {
  }
}
