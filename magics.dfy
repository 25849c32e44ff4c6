/**
 * `MagicsInstance`, the runtime side of the `magics` service: two registries
 * mapping names to stages and scenes, get-or-create operations on them, the
 * teardown patch that keeps the registries in step with `destroy`, the
 * scroll-to-scene helper and the scene event subscriptions.
 */
module MagicsService {
  import opened Wrappers
  import opened JsValues
  import opened OptionObjects
  import opened Provider
  import opened Listeners
  import opened ScrollMagic
  import opened Registry

  /** The closure `onScene*` returns, with what it captured: the scene name and the function it registered. */
  datatype Unsubscriber = Unsubscriber(name: JsValue, reg: Registration)

  /** The first argument of `scrollToScene`: a value, looked up by name when it is a string, or an object. */
  datatype SceneArg = Named(v: JsValue) | Object(h: Handle)

  /** What `scrollToScene` does. */
  datatype ScrollOutcome =
    | NotAScene             // it returns `false`
    | Unattached            // the scene has no controller: `stage.info` throws a TypeError
    | Started(call: TweenCall)  // it starts this animation and returns the promise its end settles
    | Jumped(target: int)   // a controller without `_scrollHandler` sets the position at once; the promise never settles

  /** A stage as `stage` leaves it: a patched controller that scrolls with `_scrollHandler`. */
  function NewStage(options: Options, name: JsValue): Obj
  {
    Obj(StageKind, Some(options), None, None, [], Some(PatchedDestroy(StageKind, name)), false, true)
  }

  /** A scene as `scene` leaves it: attached, decorated, relayed and patched. */
  function CreatedScene(options: Option<Options>, controller: Option<Handle>, indicators: Option<Options>,
                    relays: seq<Registration>, name: JsValue): Obj
  {
    Obj(SceneKind, options, controller, indicators, relays, Some(PatchedDestroy(SceneKind, name)), false, false)
  }

  /**
   * The container a stage reports through `info('container')`: the one given
   * in the options of `stage`, else the provider's, else the window.
   */
  lemma StageContainer(c: Config, window: Value, options: Option<Options>, name: JsValue)
    ensures Container(NewStage(StageOptions(c, window, options), name)) ==
      if Given(options, CONTAINER) then options.value[CONTAINER]
      else if ValueTruthy(c.container) then c.container else window
  {
  }

  /**
   * The patched `destroy` of the default stage does nothing: exactly the
   * `destroy` patched onto a stage whose name converts to the key "default".
   */
  predicate Protected(p: PatchedDestroy)
    ensures Protected(p) <==> p.kind == StageKind && ToJsString(p.name) == "default"
  {
    p.kind == StageKind && p.name == Str("default")
  }

  /** `h` is a live object of kind `kind`, patched under a name whose key is `key`. */
  ghost predicate RegisteredIn(objs: map<Handle, Obj>, kind: Kind, key: string, h: Handle)
  {
    && h in objs
    && objs[h].kind == kind && !objs[h].destroyed
    && objs[h].patch.Some? && objs[h].patch.value.kind == kind && ToJsString(objs[h].patch.value.name) == key
  }

  /** Both registries hold live objects of their kind, each patched under the name it is registered by. */
  ghost predicate RegistriesIn(objs: map<Handle, Obj>, stages: map<string, Handle>, scenes: map<string, Handle>)
  {
    && (forall k :: k in stages ==> RegisteredIn(objs, StageKind, k, stages[k]))
    && (forall k :: k in scenes ==> RegisteredIn(objs, SceneKind, k, scenes[k]))
  }

  /** Every rate-limited wrapper registered on an object has an identity below `n`. */
  ghost predicate WrappersBelow(objs: map<Handle, Obj>, n: nat)
  {
    forall h, r :: h in objs && r in objs[h].listeners && r.listener.Braked? ==> r.listener.id < n
  }

  /** Every controller scrolls with `_scrollHandler`: the service creates controllers only in `stage`. */
  ghost predicate ControllersScroll(objs: map<Handle, Obj>)
  {
    forall h :: h in objs && objs[h].kind == StageKind ==> objs[h].scrollHandler
  }

  /** An object is registered under one name at most: the key of the name it was patched with. */
  lemma RegisteredOnce(objs: map<Handle, Obj>, stages: map<string, Handle>, scenes: map<string, Handle>, h: Handle)
    requires RegistriesIn(objs, stages, scenes) && h in objs
    ensures forall k :: k in stages && stages[k] == h ==>
      objs[h].patch.Some? && objs[h].patch.value.kind == StageKind && k == ToJsString(objs[h].patch.value.name)
    ensures forall k :: k in scenes && scenes[k] == h ==>
      objs[h].patch.Some? && objs[h].patch.value.kind == SceneKind && k == ToJsString(objs[h].patch.value.name)
  {
  }

  /** Changing an unregistered object, or changing no more than listeners, keeps the registries consistent. */
  lemma UpdateKeepsRegistries(objs: map<Handle, Obj>, stages: map<string, Handle>, scenes: map<string, Handle>,
                              h: Handle, o: Obj)
    requires RegistriesIn(objs, stages, scenes) && h in objs
    requires (h !in stages.Values && h !in scenes.Values) || o == objs[h].(listeners := o.listeners)
    ensures RegistriesIn(objs[h := o], stages, scenes)
  {
  }

  /** The second of two updates of the same key wins. */
  lemma UpdateTwice(objs: map<Handle, Obj>, h: Handle, a: Obj, b: Obj)
    ensures objs[h := a][h := b] == objs[h := b]
  {
  }

  /** Registering a new stage under the key of its patch keeps the registries consistent. */
  lemma AddStageKeepsRegistries(objs: map<Handle, Obj>, stages: map<string, Handle>, scenes: map<string, Handle>,
                                h: Handle, o: Obj, key: string)
    requires RegistriesIn(objs, stages, scenes) && h !in objs
    requires RegisteredIn(objs[h := o], StageKind, key, h)
    ensures RegistriesIn(objs[h := o], stages[key := h], scenes)
  {
  }

  /** Registering a new scene under the key of its patch keeps the registries consistent. */
  lemma AddKeepsRegistries(objs: map<Handle, Obj>, stages: map<string, Handle>, scenes: map<string, Handle>,
                           h: Handle, o: Obj, key: string)
    requires RegistriesIn(objs, stages, scenes) && h !in objs
    requires RegisteredIn(objs[h := o], SceneKind, key, h)
    ensures RegistriesIn(objs[h := o], stages, scenes[key := h])
  {
  }

  /** Adding an object whose rate-limited wrappers are below `n` keeps them all below `n`. */
  lemma AddKeepsWrappers(objs: map<Handle, Obj>, n: nat, h: Handle, o: Obj)
    requires WrappersBelow(objs, n)
    requires forall r :: r in o.listeners && r.listener.Braked? ==> r.listener.id < n
    ensures WrappersBelow(objs[h := o], n)
  {
  }

  /** Changing an object without adding rate-limited wrappers keeps them below `n`. */
  lemma UpdateKeepsWrappers(objs: map<Handle, Obj>, n: nat, h: Handle, o: Obj)
    requires WrappersBelow(objs, n) && h in objs
    requires forall r :: r in o.listeners && r.listener.Braked? ==> r in objs[h].listeners || r.listener.id < n
    ensures WrappersBelow(objs[h := o], n)
  {
  }

  class MagicsInstance {
    const provider: Config
    const window: Value
    const scrollMagic: Engine
    const brake: Brake
    const delay: int
    var stages: map<string, Handle>   // `_stages`
    var scenes: map<string, Handle>   // `_scenes`
    var wrappers: nat                 // rate-limited wrappers created so far
    var log: seq<Effect>              // broadcasts and handler calls, in order

    ghost predicate Consistent()
      reads this, scrollMagic
    {
      && scrollMagic.Valid()
      && WrappersBelow(scrollMagic.objects, wrappers)
      && RegistriesIn(scrollMagic.objects, stages, scenes)
      && ControllersScroll(scrollMagic.objects)
    }

    /** The invariant: the registries hold live patched objects, and the default stage is always there. */
    ghost predicate Valid()
      reads this, scrollMagic
    {
      Consistent() && "default" in stages
    }

    /**
     * The instance built by `$get`: it chooses the rate limiter, starts with
     * empty registries and creates the default stage.
     */
    constructor (provider: Config, window: Value, scrollMagic: Engine)
      requires scrollMagic.objects == map[]
      modifies scrollMagic
      ensures Valid()
      ensures this.provider == provider && this.window == window && this.scrollMagic == scrollMagic
      ensures brake == ChooseBrake(provider.performance) && delay == provider.performance.delay
      ensures stages == map["default" := old(scrollMagic.next)] && scenes == map[]
      ensures scrollMagic.objects == map[old(scrollMagic.next) := NewStage(StageOptions(provider, window, Some(map[])), Str("default"))]
      ensures wrappers == 0 && log == []
    {
      this.provider := provider;
      this.window := window;
      this.scrollMagic := scrollMagic;
      brake := ChooseBrake(provider.performance);
      delay := provider.performance.delay;
      stages, scenes := map[], map[];
      wrappers, log := 0, [];
      new;
      var _ := Stage(Str("default"), Some(map[]));
    }

    /**
     * `_patch(name, type, instance)`: marks the object and wraps its `destroy`,
     * unless it is already marked.
     */
    method Patch(name: JsValue, kind: Kind, h: Handle) returns (r: Handle)
      requires scrollMagic.Valid() && h in scrollMagic.objects
      modifies scrollMagic
      ensures scrollMagic.Valid() && scrollMagic.next == old(scrollMagic.next)
      ensures r == h
      ensures scrollMagic.objects == old(scrollMagic.objects)[h := Patched(old(scrollMagic.objects[h]), kind, name)]
    {
      if scrollMagic.objects[h].patch.None? {
        scrollMagic.objects := scrollMagic.objects[h := scrollMagic.objects[h].(patch := Some(PatchedDestroy(kind, name)))];
      }
      r := h;
    }

    /** The creating path of `stage`: a new controller that scrolls with `_scrollHandler`, patched under `n`. */
    method CreateStage(n: JsValue, options: Option<Options>) returns (h: Handle)
      requires scrollMagic.Valid()
      modifies scrollMagic
      ensures scrollMagic.Valid()
      ensures h == old(scrollMagic.next) && h !in old(scrollMagic.objects) && scrollMagic.next == h + 1
      ensures scrollMagic.objects == old(scrollMagic.objects)[h := NewStage(StageOptions(provider, window, options), n)]
    {
      ghost var objs := scrollMagic.objects;
      h := scrollMagic.NewController(StageOptions(provider, window, options));
      ghost var created := scrollMagic.objects[h];
      scrollMagic.ScrollWith(h);
      ghost var scrolling := created.(scrollHandler := true);
      UpdateTwice(objs, h, created, scrolling);
      h := Patch(n, StageKind, h);
      UpdateTwice(objs, h, scrolling, NewStage(StageOptions(provider, window, options), n));
    }

    /**
     * `stage(name, options)`: returns the stage registered under the name,
     * ignoring `options`, or creates, registers and patches a new one.
     */
    method Stage(name: JsValue, options: Option<Options>) returns (h: Handle)
      requires Consistent()
      modifies this, scrollMagic
      ensures Consistent()
      ensures StageKey(name) in stages && h == stages[StageKey(name)] && RegisteredIn(scrollMagic.objects, StageKind, StageKey(name), h)
      ensures StageKey(name) in old(stages) ==>
        && h == old(stages[StageKey(name)])
        && stages == old(stages)
        && scrollMagic.objects == old(scrollMagic.objects) && scrollMagic.next == old(scrollMagic.next)
      ensures StageKey(name) !in old(stages) ==>
        && h == old(scrollMagic.next) && h !in old(scrollMagic.objects) && scrollMagic.next == h + 1
        && stages == old(stages)[StageKey(name) := h]
        && scrollMagic.objects == old(scrollMagic.objects)[h := NewStage(StageOptions(provider, window, options), StageName(name))]
      ensures scenes == old(scenes) && wrappers == old(wrappers) && log == old(log)
    {
      var n := StageName(name);
      var key := ToJsString(n);
      if key in stages {
        h := stages[key];
        return;
      }
      ghost var objs := scrollMagic.objects;
      h := CreateStage(n, options);
      stages := stages[key := h];
      ghost var o := NewStage(StageOptions(provider, window, options), n);
      AddStageKeepsRegistries(objs, old(stages), scenes, h, o, key);
      AddKeepsWrappers(objs, wrappers, h, o);
    }

    /**
     * `instance.destroy(...args)` on a library object. Once patched, the
     * default stage's `destroy` only returns `true`; any other patched object
     * first leaves its own registry under the name it was patched with, then
     * runs the library's `destroy`. An unpatched object runs only the latter.
     * For a registered object this means: the default stage stays, and any
     * other stage or scene loses exactly its own name from its own registry.
     */
    method Destroy(h: Handle) returns (r: JsValue)
      requires Valid() && h in scrollMagic.objects
      modifies this, scrollMagic
      ensures Valid()
      ensures var o := old(scrollMagic.objects[h]);
        o.patch.Some? && Protected(o.patch.value) ==>
          && r == Bool(true)
          && stages == old(stages) && scenes == old(scenes)
          && scrollMagic.objects == old(scrollMagic.objects)
      ensures var o := old(scrollMagic.objects[h]);
        !(o.patch.Some? && Protected(o.patch.value)) ==>
          && r == Null
          && scrollMagic.objects == old(scrollMagic.objects)[h := o.(destroyed := true)]
      ensures var o := old(scrollMagic.objects[h]);
        o.patch.None? ==> stages == old(stages) && scenes == old(scenes)
      ensures var o := old(scrollMagic.objects[h]);
        o.patch.Some? && !Protected(o.patch.value) && o.patch.value.kind == StageKind ==>
          stages == old(stages) - {ToJsString(o.patch.value.name)} && scenes == old(scenes)
      ensures var o := old(scrollMagic.objects[h]);
        o.patch.Some? && !Protected(o.patch.value) && o.patch.value.kind == SceneKind ==>
          scenes == old(scenes) - {ToJsString(o.patch.value.name)} && stages == old(stages)
      ensures stages["default"] == old(stages["default"])
      ensures h == old(stages["default"]) ==>
        r == Bool(true) && stages == old(stages) && scenes == old(scenes) && scrollMagic.objects == old(scrollMagic.objects)
      ensures forall k :: k in old(stages) && k != "default" && old(stages[k]) == h ==>
        stages == old(stages) - {k} && scenes == old(scenes) && r == Null
      ensures forall k :: k in old(scenes) && old(scenes[k]) == h ==>
        scenes == old(scenes) - {k} && stages == old(stages) && r == Null
      ensures wrappers == old(wrappers) && log == old(log) && scrollMagic.next == old(scrollMagic.next)
    {
      var o := scrollMagic.objects[h];
      RegisteredOnce(scrollMagic.objects, stages, scenes, h);
      if o.patch.Some? {
        var p := o.patch.value;
        if p.kind == StageKind && p.name == Str("default") {
          return Bool(true);
        }
        var key := ToJsString(p.name);
        if p.kind == StageKind {
          stages := stages - {key};
        } else {
          scenes := scenes - {key};
        }
      }
      ghost var objs := scrollMagic.objects;
      assert h !in stages.Values && h !in scenes.Values;
      r := scrollMagic.Destroy(h);
      UpdateKeepsRegistries(objs, stages, scenes, h, scrollMagic.objects[h]);
      UpdateKeepsWrappers(objs, wrappers, h, scrollMagic.objects[h]);
    }

    /** What `onScene*` needs: the name is registered (otherwise `_scenes[name].on` throws a TypeError). */
    ghost predicate Subscribable(name: JsValue)
      reads this, scrollMagic
    {
      && scrollMagic.Valid()
      && WrappersBelow(scrollMagic.objects, wrappers)
      && SceneKey(name) in scenes && scenes[SceneKey(name)] in scrollMagic.objects
    }

    /** Registers `reg` on the scene registered under `name` and returns the closure that removes it. */
    method Subscribe(name: JsValue, reg: Registration) returns (u: Unsubscriber)
      requires Subscribable(name)
      requires reg.listener.Braked? ==> reg.listener.id < wrappers
      modifies scrollMagic
      ensures scrollMagic.Valid() && WrappersBelow(scrollMagic.objects, wrappers)
      ensures old(Consistent()) ==> Consistent()
      ensures u == Unsubscriber(name, reg)
      ensures var h := scenes[SceneKey(name)];
        scrollMagic.objects ==
          old(scrollMagic.objects)[h := old(scrollMagic.objects[h]).(listeners := old(scrollMagic.objects[h].listeners) + [reg])]
      ensures scrollMagic.next == old(scrollMagic.next)
    {
      var h := scenes[SceneKey(name)];
      ghost var objs := scrollMagic.objects;
      scrollMagic.On(h, reg);
      UpdateKeepsWrappers(objs, wrappers, h, scrollMagic.objects[h]);
      if RegistriesIn(objs, stages, scenes) {
        UpdateKeepsRegistries(objs, stages, scenes, h, scrollMagic.objects[h]);
      }
      u := Unsubscriber(name, reg);
    }

    /**
     * `onSceneEnter(name, handler)`: registers a new rate-limited wrapper of
     * `handler` on the scene's enter events.
     */
    method OnSceneEnter(name: JsValue, handler: Handler) returns (u: Unsubscriber)
      requires Subscribable(name)
      modifies this, scrollMagic
      ensures scrollMagic.Valid() && WrappersBelow(scrollMagic.objects, wrappers)
      ensures old(Consistent()) ==> Consistent()
      ensures stages == old(stages) && scenes == old(scenes) && log == old(log) && scrollMagic.next == old(scrollMagic.next)
      ensures wrappers == old(wrappers) + 1
      ensures u == Unsubscriber(name, Registration(Enter, Braked(old(wrappers), brake, delay, handler)))
      ensures var h := scenes[SceneKey(name)];
        && u.reg !in old(scrollMagic.objects[h].listeners)
        && scrollMagic.objects ==
          old(scrollMagic.objects)[h := old(scrollMagic.objects[h]).(listeners := old(scrollMagic.objects[h].listeners) + [u.reg])]
    {
      var braked := Braked(wrappers, brake, delay, handler);
      wrappers := wrappers + 1;
      u := Subscribe(name, Registration(Enter, braked));
    }

    /**
     * `onSceneLeave(name, handler)`: registers a new rate-limited wrapper of
     * `handler` on the scene's leave events.
     */
    method OnSceneLeave(name: JsValue, handler: Handler) returns (u: Unsubscriber)
      requires Subscribable(name)
      modifies this, scrollMagic
      ensures scrollMagic.Valid() && WrappersBelow(scrollMagic.objects, wrappers)
      ensures old(Consistent()) ==> Consistent()
      ensures stages == old(stages) && scenes == old(scenes) && log == old(log) && scrollMagic.next == old(scrollMagic.next)
      ensures wrappers == old(wrappers) + 1
      ensures u == Unsubscriber(name, Registration(Leave, Braked(old(wrappers), brake, delay, handler)))
      ensures var h := scenes[SceneKey(name)];
        && u.reg !in old(scrollMagic.objects[h].listeners)
        && scrollMagic.objects ==
          old(scrollMagic.objects)[h := old(scrollMagic.objects[h]).(listeners := old(scrollMagic.objects[h].listeners) + [u.reg])]
    {
      var braked := Braked(wrappers, brake, delay, handler);
      wrappers := wrappers + 1;
      u := Subscribe(name, Registration(Leave, braked));
    }

    /** `onSceneProgress(name, handler)`: registers `handler` itself on the scene's progress events. */
    method OnSceneProgress(name: JsValue, handler: Handler) returns (u: Unsubscriber)
      requires Subscribable(name)
      modifies scrollMagic
      ensures scrollMagic.Valid() && WrappersBelow(scrollMagic.objects, wrappers)
      ensures old(Consistent()) ==> Consistent()
      ensures u == Unsubscriber(name, Registration(Progress, Plain(handler)))
      ensures var h := scenes[SceneKey(name)];
        scrollMagic.objects ==
          old(scrollMagic.objects)[h := old(scrollMagic.objects[h]).(listeners := old(scrollMagic.objects[h].listeners) + [u.reg])]
      ensures scrollMagic.next == old(scrollMagic.next)
    {
      u := Subscribe(name, Registration(Progress, Plain(handler)));
    }

    /** `onSceneDestroy(name, handler)`: registers `handler` itself on the scene's destroy event. */
    method OnSceneDestroy(name: JsValue, handler: Handler) returns (u: Unsubscriber)
      requires Subscribable(name)
      modifies scrollMagic
      ensures scrollMagic.Valid() && WrappersBelow(scrollMagic.objects, wrappers)
      ensures old(Consistent()) ==> Consistent()
      ensures u == Unsubscriber(name, Registration(Destroyed, Plain(handler)))
      ensures var h := scenes[SceneKey(name)];
        scrollMagic.objects ==
          old(scrollMagic.objects)[h := old(scrollMagic.objects[h]).(listeners := old(scrollMagic.objects[h].listeners) + [u.reg])]
      ensures scrollMagic.next == old(scrollMagic.next)
    {
      u := Subscribe(name, Registration(Destroyed, Plain(handler)));
    }

    /**
     * Calling a closure returned by `onScene*`: it looks the name up again and,
     * if a scene is registered under it now, removes the function it
     * registered from that scene; otherwise it does nothing.
     */
    method Unsubscribe(u: Unsubscriber)
      requires Valid()
      modifies scrollMagic
      ensures Valid()
      ensures SceneKey(u.name) !in scenes ==> scrollMagic.objects == old(scrollMagic.objects)
      ensures SceneKey(u.name) in scenes ==>
        var h := scenes[SceneKey(u.name)];
        scrollMagic.objects ==
          old(scrollMagic.objects)[h := old(scrollMagic.objects[h]).(listeners := Without(old(scrollMagic.objects[h].listeners), u.reg))]
      ensures scrollMagic.next == old(scrollMagic.next)
    {
      var key := SceneKey(u.name);
      if key in scenes {
        var h := scenes[key];
        ghost var objs := scrollMagic.objects;
        scrollMagic.Off(h, u.reg);
        UpdateKeepsWrappers(objs, wrappers, h, scrollMagic.objects[h]);
        UpdateKeepsRegistries(objs, stages, scenes, h, scrollMagic.objects[h]);
      }
    }

    /**
     * Subscribing to a scene's enter events and calling the returned closure
     * straight away leaves every library object as it was: the closure removes
     * only the wrapper it registered.
     */
    method EnterRoundTrip(name: JsValue, handler: Handler)
      requires Valid() && SceneKey(name) in scenes
      modifies this, scrollMagic
      ensures Valid()
      ensures scrollMagic.objects == old(scrollMagic.objects)
      ensures stages == old(stages) && scenes == old(scenes)
    {
      var u := OnSceneEnter(name, handler);
      Unsubscribe(u);
      UnsubscribeRestores(old(scrollMagic.objects[scenes[SceneKey(name)]].listeners), u.reg);
    }

    /** The head of `scene`: a new scene, added to `stage`, registered under its name and decorated in debug mode. */
    method AddScene(name: JsValue, options: Option<Options>, stage: Option<Handle>) returns (h: Handle)
      requires scrollMagic.Valid() && WrappersBelow(scrollMagic.objects, wrappers) && SceneKey(name) !in scenes
      requires stage.Some? ==> stage.value in scrollMagic.objects && scrollMagic.objects[stage.value].kind == StageKind
      modifies this, scrollMagic
      ensures Subscribable(name) && h == scenes[SceneKey(name)]
      ensures h == old(scrollMagic.next) && h !in old(scrollMagic.objects)
      ensures scenes == old(scenes)[SceneKey(name) := h]
      ensures stages == old(stages) && log == old(log) && wrappers == old(wrappers)
      ensures scrollMagic.next == old(scrollMagic.next) + 1
      ensures scrollMagic.objects == old(scrollMagic.objects)[h := Obj(SceneKind, options, stage,
        if provider.debug then Some(IndicatorOptions(provider, name)) else None, [], None, false, false)]
    {
      assert scrollMagic.AddTo(stage) == stage;
      ghost var objs := scrollMagic.objects;
      h := scrollMagic.NewScene(options, stage);
      scenes := scenes[SceneKey(name) := h];
      Decorate(name, h);
      AddKeepsWrappers(objs, wrappers, h, scrollMagic.objects[h]);
    }

    /** In debug mode, a new scene gets an indicator labelled with its name. */
    method Decorate(name: JsValue, h: Handle)
      requires scrollMagic.Valid() && h in scrollMagic.objects
      modifies scrollMagic
      ensures scrollMagic.Valid() && scrollMagic.next == old(scrollMagic.next)
      ensures scrollMagic.objects == old(scrollMagic.objects)[h := old(scrollMagic.objects[h]).(indicators :=
        if provider.debug then Some(IndicatorOptions(provider, name)) else old(scrollMagic.objects[h].indicators))]
    {
      if provider.debug {
        scrollMagic.AddIndicators(h, IndicatorOptions(provider, name));
      }
    }

    /**
     * The tail of `scene`: rebroadcast the scene's enter and leave events on
     * the root scope, through `onSceneEnter` and `onSceneLeave`.
     */
    method RelaySceneEvents(name: JsValue)
      requires Subscribable(name)
      modifies this, scrollMagic
      ensures scrollMagic.Valid() && WrappersBelow(scrollMagic.objects, wrappers)
      ensures stages == old(stages) && scenes == old(scenes) && log == old(log) && scrollMagic.next == old(scrollMagic.next)
      ensures wrappers == old(wrappers) + 2
      ensures var h := scenes[SceneKey(name)];
        scrollMagic.objects == old(scrollMagic.objects)[h := old(scrollMagic.objects[h]).(
          listeners := old(scrollMagic.objects[h].listeners) + SceneRelays(old(wrappers), brake, delay, name))]
    {
      ghost var before := scrollMagic.objects[scenes[SceneKey(name)]].listeners;
      var enter := OnSceneEnter(name, Relay(EnterRelay, name));
      var leave := OnSceneLeave(name, Relay(LeaveRelay, name));
      assert before + [enter.reg] + [leave.reg] == before + SceneRelays(old(wrappers), brake, delay, name);
    }

    /** The tail of `scene` on a new, unpatched scene: relay its events, then patch it. */
    method FinishScene(name: JsValue)
      requires Subscribable(name) && scrollMagic.objects[scenes[SceneKey(name)]].patch.None?
      modifies this, scrollMagic
      ensures scrollMagic.Valid() && WrappersBelow(scrollMagic.objects, wrappers)
      ensures stages == old(stages) && scenes == old(scenes) && log == old(log) && scrollMagic.next == old(scrollMagic.next)
      ensures wrappers == old(wrappers) + 2
      ensures var h := scenes[SceneKey(name)];
        scrollMagic.objects == old(scrollMagic.objects)[h := old(scrollMagic.objects[h]).(
          listeners := old(scrollMagic.objects[h].listeners) + SceneRelays(old(wrappers), brake, delay, name),
          patch := Some(PatchedDestroy(SceneKind, name)))]
    {
      var h := scenes[SceneKey(name)];
      RelaySceneEvents(name);
      ghost var relayed := scrollMagic.objects;
      h := Patch(name, SceneKind, h);
      UpdateKeepsWrappers(relayed, wrappers, h, scrollMagic.objects[h]);
    }

    /** The creating path of `scene`, for a name not registered yet: add, relay, patch. */
    method CreateScene(name: JsValue, options: Option<Options>, stage: Option<Handle>) returns (h: Handle)
      requires Valid() && SceneKey(name) !in scenes
      requires stage.Some? ==> stage.value in scrollMagic.objects && scrollMagic.objects[stage.value].kind == StageKind
      modifies this, scrollMagic
      ensures scrollMagic.Valid() && WrappersBelow(scrollMagic.objects, wrappers)
      ensures stages == old(stages) && log == old(log)
      ensures h == old(scrollMagic.next) && h !in old(scrollMagic.objects) && scrollMagic.next == h + 1
      ensures scenes == old(scenes)[SceneKey(name) := h]
      ensures wrappers == old(wrappers) + 2
      ensures scrollMagic.objects == old(scrollMagic.objects)[h := CreatedScene(
        options, stage, if provider.debug then Some(IndicatorOptions(provider, name)) else None,
        SceneRelays(old(wrappers), brake, delay, name), name)]
    {
      ghost var objs := scrollMagic.objects;
      ghost var first := wrappers;
      ghost var indicators := if provider.debug then Some(IndicatorOptions(provider, name)) else None;
      ghost var relays := SceneRelays(first, brake, delay, name);
      ghost var bare := Obj(SceneKind, options, stage, indicators, [], None, false, false);
      ghost var o := CreatedScene(options, stage, indicators, relays, name);
      h := AddScene(name, options, stage);
      ghost var added := scrollMagic.objects;
      assert added == objs[h := bare];
      FinishScene(name);
      assert [] + relays == relays;
      assert bare.(listeners := [] + relays, patch := Some(PatchedDestroy(SceneKind, name))) == o;
      assert scrollMagic.objects == added[h := o];
      UpdateTwice(objs, h, bare, o);
    }

    /**
     * `scene(name, options, stageName)`: returns the scene registered under
     * the name, ignoring the other arguments, or creates a scene, adds it to
     * the stage named `stageName` (the default stage when that is empty),
     * gives it a debug indicator in debug mode, relays its enter and leave
     * events, patches it and registers it.
     */
    method Scene(name: JsValue, options: Option<Options>, stageName: JsValue) returns (h: Handle)
      requires Valid()
      modifies this, scrollMagic
      ensures Valid()
      ensures stages == old(stages) && log == old(log)
      ensures SceneKey(name) in scenes && h == scenes[SceneKey(name)]
      ensures RegisteredIn(scrollMagic.objects, SceneKind, SceneKey(name), h)
      ensures SceneKey(name) in old(scenes) ==>
        && h == old(scenes[SceneKey(name)])
        && scenes == old(scenes)
        && scrollMagic.objects == old(scrollMagic.objects) && scrollMagic.next == old(scrollMagic.next)
        && wrappers == old(wrappers)
      ensures SceneKey(name) !in old(scenes) ==>
        && h == old(scrollMagic.next) && h !in old(scrollMagic.objects) && scrollMagic.next == h + 1
        && scenes == old(scenes)[SceneKey(name) := h]
        && wrappers == old(wrappers) + 2
        && scrollMagic.objects == old(scrollMagic.objects)[h := CreatedScene(
             options,
             Lookup(stages, StageKey(stageName)),
             if provider.debug then Some(IndicatorOptions(provider, name)) else None,
             SceneRelays(old(wrappers), brake, delay, name),
             name)]
    {
      var key := SceneKey(name);
      if key in scenes {
        h := scenes[key];
        return;
      }
      ghost var objs := scrollMagic.objects;
      h := CreateScene(name, options, Lookup(stages, StageKey(stageName)));
      AddKeepsRegistries(objs, stages, old(scenes), h, scrollMagic.objects[h], key);
    }

    /** The scene `scrollToScene` works on: a string is looked up among the scenes; anything else must be a scene itself. */
    function SceneOf(arg: SceneArg): (r: Option<Handle>)
      reads this, scrollMagic
      ensures r.Some? ==> r.value in scrollMagic.objects && scrollMagic.objects[r.value].kind == SceneKind
      ensures arg.Named? && arg.v.Str? && arg.v.s in scenes && scenes[arg.v.s] in scrollMagic.objects
              && scrollMagic.objects[scenes[arg.v.s]].kind == SceneKind ==>
        r == Some(scenes[arg.v.s])
      ensures arg.Named? && !(arg.v.Str? && arg.v.s in scenes) ==> r == None
      ensures arg.Object? ==>
        (r.Some? <==> arg.h in scrollMagic.objects && scrollMagic.objects[arg.h].kind == SceneKind)
      ensures arg.Object? && r.Some? ==> r.value == arg.h
      ensures arg.Named? && r.Some? ==> arg.v.Str? && arg.v.s in scenes && r.value == scenes[arg.v.s]
    {
      var target := match arg
        case Named(Str(s)) => if s in scenes then Some(scenes[s]) else None
        case Named(_) => None
        case Object(h) => Some(h);
      if target.Some? && target.value in scrollMagic.objects && scrollMagic.objects[target.value].kind == SceneKind
      then target else None
    }

    /**
     * `scrollToScene(scene, offset)`: returns `false` unless `scene` resolves
     * to a scene; otherwise asks the scene's stage to scroll its container to
     * the scene's position plus the offset (0 when missing), which starts the
     * animation built by `_scrollHandler`. `scrollOffset` gives each scene's
     * position on the page.
     */
    function ScrollToScene(arg: SceneArg, offset: Option<int>, scrollOffset: Handle -> int): (r: ScrollOutcome)
      requires scrollMagic.Valid()
      reads this, scrollMagic
      ensures r == NotAScene <==> SceneOf(arg).None?
      ensures r == Unattached <==> SceneOf(arg).Some? && scrollMagic.objects[SceneOf(arg).value].controller.None?
      ensures r.Jumped? <==>
        && SceneOf(arg).Some? && scrollMagic.objects[SceneOf(arg).value].controller.Some?
        && !scrollMagic.objects[scrollMagic.objects[SceneOf(arg).value].controller.value].scrollHandler
      ensures r.Jumped? || r.Started? ==>
        var h := SceneOf(arg).value;
        var target := scrollOffset(h) + OffsetOrZero(offset);
        var stage := scrollMagic.objects[h].controller.value;
        && scrollMagic.objects[h].controller.Some?
        && (r.Jumped? ==> r.target == target)
        && (r.Started? ==> r.call == ScrollHandler(provider.scrollOptions, target, Container(scrollMagic.objects[stage])))
    {
      match SceneOf(arg)
      case None => NotAScene
      case Some(h) =>
        var target := scrollOffset(h) + OffsetOrZero(offset);
        match scrollMagic.objects[h].controller
        case None => Unattached
        case Some(stage) =>
          if scrollMagic.objects[stage].scrollHandler
          then Started(ScrollHandler(provider.scrollOptions, target, Container(scrollMagic.objects[stage])))
          else Jumped(target)
    }

    /**
     * Every controller the service knows was created by `stage`, so a scene
     * attached to one is scrolled by `_scrollHandler`: `scrollToScene` never
     * falls back to the library's own scrolling.
     */
    lemma ScrollsWithHandler(arg: SceneArg, offset: Option<int>, scrollOffset: Handle -> int)
      requires Valid()
      ensures !ScrollToScene(arg, offset, scrollOffset).Jumped?
      ensures SceneOf(arg).Some? && scrollMagic.objects[SceneOf(arg).value].controller.Some? ==>
        ScrollToScene(arg, offset, scrollOffset).Started?
    {
    }

    /**
     * The library emitting `ch` on object `h` with payload `e`: every function
     * registered on `ch` runs, and what they broadcast or call is appended to
     * the log.
     */
    method Trigger(h: Handle, ch: Channel, e: Payload)
      requires Valid() && h in scrollMagic.objects
      modifies this
      ensures Valid()
      ensures log == old(log) + Fire(scrollMagic.objects[h].listeners, ch, e)
      ensures stages == old(stages) && scenes == old(scenes) && wrappers == old(wrappers)
    {
      log := log + Fire(scrollMagic.objects[h].listeners, ch, e);
    }

    /**
     * A scene created by `scene` rebroadcasts its enter events on the root
     * scope: first `'sceneEnter:' + name` with the event, then `'sceneEnter'`
     * with the name and the event.
     */
    method SceneEnterBroadcasts(name: JsValue, options: Option<Options>, stageName: JsValue, e: Payload)
      returns (h: Handle)
      requires Valid() && SceneKey(name) !in scenes
      modifies this, scrollMagic
      ensures Valid()
      ensures log == old(log) + [
        Broadcast("sceneEnter:" + ToJsString(name), [EventArg(e)]),
        Broadcast("sceneEnter", [NameArg(name), EventArg(e)])]
    {
      h := Scene(name, options, stageName);
      FireRelays(old(wrappers), brake, delay, name, Enter, e);
      Trigger(h, Enter, e);
    }

    /**
     * Destroying a registered stage other than the default one frees its name:
     * asking for the stage again creates a new controller. The default stage
     * survives and is returned again.
     */
    method StageLifecycle(name: JsValue, options: Option<Options>) returns (first: Handle, r: JsValue, second: Handle)
      requires Valid()
      modifies this, scrollMagic
      ensures Valid()
      ensures StageKey(name) == "default" ==> r == Bool(true) && second == first
      ensures StageKey(name) != "default" ==>
        && r == Null && second != first
        && second == old(scrollMagic.next) + (if StageKey(name) in old(stages) then 0 else 1)
    {
      first := Stage(name, options);
      ghost var before := stages;
      r := Destroy(first);
      if StageKey(name) != "default" {
        assert StageKey(name) in before && before[StageKey(name)] == first;
        assert StageKey(name) !in stages;
      }
      second := Stage(name, options);
    }
  }
}
