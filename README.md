# ng-magics `magics` service, modelled in Dafny

`magics` is an AngularJS service that puts ScrollMagic stages (controllers)
and scenes behind names. Its instance, `MagicsInstance` in
`src/services/magics.ts`, keeps two registries, `_stages` and `_scenes`, that
map names to library objects. `stage(name, options)` and
`scene(name, options, stageName)` return the registered object, or create,
register and patch a new one. The instance creates the stage `'default'`
when it is built. `_patch` wraps an object's `destroy` once. The wrapped
`destroy` removes the object's name from its own registry and then runs the
library's `destroy`. The default stage is the exception: its wrapped
`destroy` does nothing and returns `true`. `scrollToScene` animates the
stage's container to a scene. The `onScene*` methods subscribe handlers to a
scene's events and return unsubscribe functions. Every scene rebroadcasts
its enter and leave events on the root scope.

The project has one module per concern:

- `JsValues` (`js_values.dfy`): the JavaScript primitives names can be, their truthiness, and `String()`, which is how a name becomes a property key.
- `OptionObjects` (`options.dfy`): option objects and `angular.extend`, a shallow merge in which later sources win.
- `Provider` (`provider.dfy`): the provider's configuration and defaults, and the pure rules the instance derives from it. These are the rate limiter choice, the merged options of a stage, the indicator options, the scroll-to animation and how it settles the promise.
- `Listeners` (`listeners.dfy`): event channels, registrations, removal by identity, and the effects of an event. The effects are the handler calls and the root-scope broadcasts, in order.
- `ScrollMagic` (`scroll_magic.dfy`): the library as opaque handles in a class `Engine`, which has a map of objects and an allocation counter. It is changed only by the calls the service makes. A `destroy` on this side sets a flag.
- `Registry` (`registry.dfy`): name normalisation and registry keys, plus the lookup as written (see Findings).
- `MagicsService` (`magics.dfy`): the class `MagicsInstance`, whose fields are the two registries, a counter of rate-limited wrappers and a log of effects. Its invariant `Valid` says four things. The registries hold live patched objects of their own kind, each under the key of the name it was patched with. The default stage is registered. Every wrapper identity is below the counter. Every controller scrolls with `_scrollHandler`.

Rate-limited wrappers (`debounce`/`throttle`) get a fresh identity each, so
removing one removes exactly the function that was registered. Scroll
positions and offsets are integers. The page position of a scene is a
parameter of `scrollToScene`.

## Model

| member | source | states |
|---|---|---|
| JsValues.ToJsString | src/services/magics.ts:112 | `String()` of a name: a string is its own key, and an integer is written as decimal digits that denote it (`Digits`); the result is `"default"` exactly for the string `'default'`, and empty exactly for `''`; so `String()` of no number, `null` or `undefined` is `"default"` |
| Registry.IsEmpty | src/services/magics.ts:94-96 | a value is empty exactly when it is falsy and is neither `false` nor `0`, so `false` and `0` name stages of their own |
| Registry.StageName | src/services/magics.ts:162-164 | `null`, `undefined` and `''` become `'default'` and every other name is kept (for `stage`, and likewise for the `stageName` of `scene` at lines 197-199); the result is never empty |
| Registry.StageKey | src/services/magics.ts:162-168 | a stage name designates the key `"default"` exactly when it is empty or `'default'`; no stage key is `""` |
| Registry.SceneKey | src/services/magics.ts:193-194 | scene names are not normalised: `''` is its own key `""`, `null` is `"null"`, `undefined` is `"undefined"`, and only `'default'` is `"default"` |
| Registry.Lookup | src/services/magics.ts:167-168 | an own-key lookup: it finds a value exactly when the key is one of the registry's own, and that value is the registered one |
| Registry.LookupAsWritten | src/services/magics.ts:167-168 | `registry[key]` on a plain object: an own value when the key is the registry's own, an inherited member when the key is not its own but inherited, missing otherwise |
| Registry.EarlyReturnAsWritten | src/services/magics.ts:167-169 | the `in` test as written: it succeeds when the key is in the registry or is a member every object inherits, and then yields that own or inherited value |
| Registry.InheritedNamesShadow | src/services/magics.ts:193-195 | on a fresh instance `stage('toString')` and `scene('constructor')` return inherited functions, while an own-key lookup finds nothing |
| OptionObjects.Or | src/services/magics.ts:177 | the logical or of two option values: the first when it is truthy, otherwise the second |
| OptionObjects.Extend | src/services/magics.ts:171-180 | every key of every source is in the merge |
| OptionObjects.ExtendKeyFromSource | src/services/magics.ts:171-180 | every key of the merge comes from some source |
| OptionObjects.ExtendLastWins | src/services/magics.ts:171-180 | a key takes its value from the last source that sets it |
| OptionObjects.ExtendSnoc | src/services/magics.ts:171-180 | extending with one more source is a map union in which that source wins |
| OptionObjects.ExtendPair | src/services/magics.ts:206-208 | `angular.extend({}, a, b)` is `a` overridden by `b` |
| Provider.ChooseBrake | src/services/magics.ts:80-82 | the instance throttles exactly when `performanceOptions.brake` is the string `'throttle'`, and debounces otherwise |
| Provider.StageOptions | src/services/magics.ts:171-180 | a stage's options: its keys are the provider's stage options, `globalSceneOptions`, `container` and the caller's keys; the caller's values win; otherwise `globalSceneOptions` is the provider's scene options and `container` is the provider's container if truthy, else the window; every other stage option is kept |
| Provider.ExtendOverDefaults | src/services/magics.ts:171-180 | the three-source merge of a stage's options is the union of the provider's stage options, the computed defaults and the caller's options, later winning |
| Provider.IndicatorOptions | src/services/magics.ts:205-209 | indicator options are the provider's debug options plus `name`, and `name` is the scene's name |
| Provider.ScrollHandler | src/services/magics.ts:139-156 | the animation can be interrupted by a user scroll, targets `target` on exactly the configured axes, and uses the configured duration, easing and the given container |
| Provider.OffsetOrZero | src/services/magics.ts:227 | a missing offset counts as 0 and a given one counts as itself |
| Provider.Settle | src/services/magics.ts:129-137 | completion resolves the pending promise, an interruption rejects it, and a settled promise stays as it is |
| Provider.DefaultsBehaviour | src/services/magics.ts:25-44 | with the defaults, the instance debounces by 50 ms, scrolls on the y axis only, and a stage gets the window as container and empty global scene options |
| Listeners.Without | src/services/magics.ts:262 | `off` keeps exactly the registrations other than the given one, and never adds any |
| Listeners.WithoutAbsent | src/services/magics.ts:258-264 | removing a registration that is not there changes nothing |
| Listeners.WithoutAppend | src/services/magics.ts:258-264 | removal distributes over concatenation |
| Listeners.UnsubscribeRestores | src/services/magics.ts:253-264 | subscribing a fresh registration and then unsubscribing it restores the listener list exactly |
| Listeners.FireAppend | src/services/magics.ts:256 | handlers registered earlier run earlier: the effects of a concatenation are the concatenation of the effects |
| Listeners.HandlerCalled | src/services/magics.ts:253-256 | a caller's handler registered on a channel, directly or rate-limited, is called when the scene emits that channel |
| Listeners.SceneRelays | src/services/magics.ts:211-219 | `scene` registers two rate-limited wrappers with the instance's brake and delay and distinct fresh identities: the enter relay on enter, then the leave relay on leave |
| Listeners.RelayEffects | src/services/magics.ts:211-219 | a relay broadcasts twice: first on the generic channel followed by `':'` and the name, with the event alone, then on the generic channel (`sceneEnter` or `sceneLeave`) with the name and the event |
| Listeners.FireRelays | src/services/magics.ts:211-219 | on their own, a scene's two relays broadcast on enter and on leave, and do nothing on progress or destroy |
| Listeners.RelaysBroadcast | src/services/magics.ts:211-219 | on enter a scene broadcasts `'sceneEnter:' + name` with the event, then `'sceneEnter'` with the name and the event, before any later handler runs; leave does the same on the `sceneLeave` channels; progress and destroy are not relayed |
| ScrollMagic.Patched | src/services/magics.ts:98-120 | patching marks the object and records its kind and name, and leaves an already patched object as it is |
| ScrollMagic.PatchIdempotent | src/services/magics.ts:99-101 | patching twice is patching once, whatever the second name and kind |
| ScrollMagic.Container | src/services/magics.ts:240 | `info('container')`: the container in the controller's options, or the window when it has none |
| ScrollMagic.Engine.NewController | src/services/magics.ts:182 | `new Controller(options)` allocates a fresh unpatched stage with those options |
| ScrollMagic.Engine.ScrollWith | src/services/magics.ts:184 | `scrollTo(fn)` makes the service's handler the controller's scroll function and changes nothing else |
| ScrollMagic.Engine.AddTo | src/services/magics.ts:203 | a scene is attached exactly when the stage it is given is a controller |
| ScrollMagic.Engine.NewScene | src/services/magics.ts:203 | `new Scene(options).addTo(stage)` allocates a fresh scene attached as `AddTo` says |
| ScrollMagic.Engine.AddIndicators | src/services/magics.ts:206 | only the scene's indicator options change |
| ScrollMagic.Engine.On | src/services/magics.ts:256 | the registration is appended to the object's listeners |
| ScrollMagic.Engine.Off | src/services/magics.ts:262 | the object's listeners become `Without` the registration |
| ScrollMagic.Engine.Destroy | src/services/magics.ts:114 | the library's `destroy` marks the object destroyed and returns `null` |
| MagicsService.Protected | src/services/magics.ts:105 | the `destroy` that does nothing is exactly the one patched onto a stage whose name has the key `"default"` |
| MagicsService.StageContainer | src/services/magics.ts:171-180 | the container a stage reports is the one in the options given to `stage`, else the provider's container when truthy, else the window |
| MagicsService.MagicsInstance.constructor | src/services/magics.ts:67-92 | starting from a library with no objects: the brake follows `ChooseBrake`, the scene registry is empty, and the stage registry holds just `'default'`, the only object, a new stage created with options `{}` |
| MagicsService.MagicsInstance.Patch | src/services/magics.ts:98-120 | only the patched object changes, as `Patched` says |
| MagicsService.MagicsInstance.CreateStage | src/services/magics.ts:182-186 | the creating path of `stage`: one fresh controller with the given options, scrolling with `_scrollHandler` and patched under the name |
| MagicsService.MagicsInstance.Stage | src/services/magics.ts:159-187 | get-or-create: a registered key returns its stage and changes nothing; otherwise exactly one new stage is allocated with `StageOptions`, made to scroll with `_scrollHandler`, patched under the normalised name and registered under its key; scenes are untouched and the invariant (which includes that every controller scrolls with `_scrollHandler`) is kept |
| MagicsService.MagicsInstance.Destroy | src/services/magics.ts:103-115 | the default stage's `destroy` returns `true` and changes nothing; any other patched object leaves its own registry under the key of its patch name and is destroyed, and the call returns `null`; a registered object loses exactly its own key; the invariant is kept |
| MagicsService.MagicsInstance.Subscribe | src/services/magics.ts:256 | the registration is appended to the named scene's listeners and returned with the name in the unsubscriber |
| MagicsService.MagicsInstance.OnSceneEnter | src/services/magics.ts:253-265 | a new rate-limited wrapper, distinct from every registration already on the scene, is appended to the scene's enter listeners; the registries are unchanged |
| MagicsService.MagicsInstance.OnSceneLeave | src/services/magics.ts:267-280 | the same on the leave channel |
| MagicsService.MagicsInstance.OnSceneProgress | src/services/magics.ts:284-296 | the handler itself, not rate-limited, is appended to the progress listeners |
| MagicsService.MagicsInstance.OnSceneDestroy | src/services/magics.ts:298-310 | the handler itself, not rate-limited, is appended to the destroy listeners |
| MagicsService.MagicsInstance.Unsubscribe | src/services/magics.ts:258-264 | the name is looked up again: if no scene is registered under it nothing changes, otherwise exactly that registration is removed from that scene |
| MagicsService.MagicsInstance.EnterRoundTrip | src/services/magics.ts:253-264 | subscribing to enter and calling the returned function leaves every library object as it was |
| MagicsService.MagicsInstance.AddScene | src/services/magics.ts:197-209 | a fresh scene, attached to the given stage, registered under the key of its name and given indicator options in debug mode |
| MagicsService.MagicsInstance.Decorate | src/services/magics.ts:205-209 | in debug mode the scene's indicator options become `IndicatorOptions`; otherwise the scene is left as it is |
| MagicsService.MagicsInstance.RelaySceneEvents | src/services/magics.ts:211-219 | the scene gains the enter relay and then the leave relay, as two new rate-limited wrappers |
| MagicsService.MagicsInstance.FinishScene | src/services/magics.ts:211-221 | the new scene gains its relays and is patched under its name |
| MagicsService.MagicsInstance.CreateScene | src/services/magics.ts:197-221 | the whole new scene: fresh handle, attached, decorated in debug mode, two relays, patched, registered; stages untouched |
| MagicsService.MagicsInstance.Scene | src/services/magics.ts:189-222 | get-or-create: a registered name returns its scene and changes nothing, ignoring options and stage name; otherwise a new scene is created on the stage that `stageName` designates (the default stage when `stageName` is empty), and the invariant is kept |
| MagicsService.MagicsInstance.SceneOf | src/services/magics.ts:229-235 | a string is looked up among the scenes; any other value counts only if it is a scene itself; anything else is not a scene; the scene found is the argument itself, or the one registered under the string |
| MagicsService.MagicsInstance.ScrollToScene | src/services/magics.ts:224-248 | returns `false` exactly when the argument is not a scene; an unattached scene fails at `stage.info`; a scene whose controller scrolls with `_scrollHandler` starts exactly the animation `ScrollHandler` builds for the controller's container and the scene's position plus the offset; a controller without it moves to that position at once |
| MagicsService.MagicsInstance.ScrollsWithHandler | src/services/magics.ts:184 | every controller of the service was given `_scrollHandler` by `stage`, so `scrollToScene` on an attached scene always starts the animation |
| MagicsService.MagicsInstance.Trigger | src/services/magics.ts:211-219 | an event on a scene appends the effects of its listeners on that channel to the log, in registration order |
| MagicsService.MagicsInstance.SceneEnterBroadcasts | src/services/magics.ts:211-214 | after `scene` creates a scene, entering it broadcasts `'sceneEnter:' + name` and then `'sceneEnter'`, and nothing else |
| MagicsService.MagicsInstance.StageLifecycle | src/services/magics.ts:104-113 | after destroying a stage other than the default one, asking for it again creates a new controller; the default stage survives its `destroy` and is returned again |

## Left out

- The Tween animation itself: frames, easing curves and timing. `ScrollHandler` stops at the call it makes.
- The easing is modelled as the name `"Power2.easeInOut"`, not as the function the provider reads from `tweenEasing`.
- Floating point: scroll positions and offsets are integers. A `NaN`, a non-numeric offset or a numeric string offset is not modelled.
- Rate-limiter timing: `debounce` and `throttle` are modelled as wrappers with an identity, a kind and a delay. `Fire` counts a rate-limited wrapper as calling its handler once for an isolated event. Coalescing of bursts is not modelled.
- `$rootScope.$apply`, `$q` scheduling, `$cacheFactory` and the dependency-injection loops are not modelled. The registries are the two maps the cache would hold.
- ScrollMagic internals are not modelled: the library's `destroy` only sets a flag. There is no cascade from a controller to its scenes, no `off('*.*')` and no removal from the controller. `stage.info('container')` is read from the controller's options, defaulting to the window. Namespaced event names (`enter.ngMagics`) are reduced to their channel.
- The arguments passed through the wrapped `destroy` are not modelled.
- MagicsService.MagicsInstance.OnSceneEnter: subscribing to a name with no registered scene throws a TypeError in the source. The model makes a registered name a precondition instead of modelling the exception. The same holds for `OnSceneLeave`, `OnSceneProgress` and `OnSceneDestroy`.
- MagicsService.MagicsInstance.ScrollToScene: the TypeError an unattached scene raises is the outcome `Unattached`; the promise is represented by the animation request, and `Settle` describes how it settles. A controller created outside the service keeps the library's own scroll function, modelled as the outcome `Jumped`, whose promise never settles; how the library moves the container then is not modelled.
- JsValues.ToJsString: numeric names are integers below 1e21, written in full decimal. JavaScript's exponent form for larger magnitudes, fractions, `NaN` and `Infinity` are not modelled.
- Names are JavaScript primitives. Objects used as names, and their `toString`, are not modelled.
- `pinOptions` is part of the configuration but the instance never reads it.
- The provider's `$get`, the Angular module registration and `constants` are not part of this model.

## Findings

| source | as written | input that shows it | evidently intended | confidence | as-written member | corrected member |
|---|---|---|---|---|---|---|
| src/services/magics.ts:167-169 | `name in this._stages` and `name in this._scenes` also match what every plain object inherits from `Object.prototype`, and the inherited value is returned | `stage('toString')` returns `Object.prototype.toString` and creates no stage; `scene('constructor')` returns `Object` | only the registry's own keys count, so these names create and register a stage or a scene like any other | high; not executed | Registry.InheritedNamesShadow | MagicsService.MagicsInstance.Stage |

The model uses own-key lookup (`Registry.Lookup`) throughout, for both
registries.

The wrapped `destroy` deletes by name, not by identity. If a destroyed
object's `destroy` is called again after a new object has been registered
under the same name, the new registration is removed. `Destroy` states this
as the source does: the key of the patch name leaves the registry, whatever
it maps to.
