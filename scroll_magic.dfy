/**
 * The ScrollMagic library as the service sees it: controllers (stages) and
 * scenes are opaque objects identified by handles, each carrying what the
 * service gave it or wrote on it. What the library computes from them
 * (trigger positions, intersection, pinning) is not part of the model.
 */
module ScrollMagic {
  import opened Wrappers
  import opened JsValues
  import opened OptionObjects
  import opened Provider
  import opened Listeners

  /** The identity of a library object. */
  type Handle = nat

  /** A controller, which the service calls a stage, or a scene; also the `type` argument of `_patch`. */
  datatype Kind = StageKind | SceneKind

  /**
   * What `_patch` leaves on an object: the `$$patched` marker and a `destroy`
   * that closes over the `type` and `name` it was patched with.
   */
  datatype PatchedDestroy = PatchedDestroy(kind: Kind, name: JsValue)

  /** A library object. */
  datatype Obj = Obj(
    kind: Kind,
    options: Option<Options>,     // what its constructor was given
    controller: Option<Handle>,   // for a scene, the controller it was added to
    indicators: Option<Options>,  // the options of its debug indicator, if it has one
    listeners: seq<Registration>,
    patch: Option<PatchedDestroy>,
    destroyed: bool,              // the library's own `destroy` has run on it
    scrollHandler: bool)          // `scrollTo(fn)` has made the service's `_scrollHandler` its scroll function

  /**
   * `_patch` applied to one object: an object that already carries the marker
   * is left as it is, so `destroy` is wrapped at most once.
   */
  function Patched(o: Obj, kind: Kind, name: JsValue): (p: Obj)
    ensures p.patch.Some?
    ensures o.patch.Some? ==> p == o
    ensures o.patch.None? ==> p == o.(patch := Some(PatchedDestroy(kind, name)))
  {
    if o.patch.Some? then o else o.(patch := Some(PatchedDestroy(kind, name)))
  }

  /** Patching twice, with any arguments, is patching once. */
  lemma PatchIdempotent(o: Obj, kind: Kind, name: JsValue, kind': Kind, name': JsValue)
    ensures Patched(Patched(o, kind, name), kind', name') == Patched(o, kind, name)
  {
  }

  /**
   * `controller.info('container')`: the container the controller was created
   * with, or the window, the library's default.
   */
  function Container(o: Obj): (c: Value)
    ensures o.options.None? ==> c == Window
    ensures o.options.Some? ==> c == (if CONTAINER in o.options.value then o.options.value[CONTAINER] else Window)
  {
    if o.options.Some? && CONTAINER in o.options.value then o.options.value[CONTAINER] else Window
  }

  /** The library's objects, created and changed through the calls the service makes. */
  class Engine {
    var objects: map<Handle, Obj>
    var next: Handle

    ghost predicate Valid()
      reads this
    {
      && (forall h :: h in objects ==> h < next)
      && (forall h :: h in objects && objects[h].controller.Some? ==>
            objects[h].controller.value in objects && objects[objects[h].controller.value].kind == StageKind)
    }

    constructor ()
      ensures Valid() && objects == map[]
    {
      objects, next := map[], 0;
    }

    /** `new scrollMagic.Controller(options)`. */
    method NewController(options: Options) returns (h: Handle)
      requires Valid()
      modifies this
      ensures Valid()
      ensures h == old(next) && h !in old(objects) && next == old(next) + 1
      ensures objects == old(objects)[h := Obj(StageKind, Some(options), None, None, [], None, false, false)]
    {
      h, next := next, next + 1;
      objects := objects[h := Obj(StageKind, Some(options), None, None, [], None, false, false)];
    }

    /**
     * `new scrollMagic.Scene(options).addTo(stage)`: the scene is attached only
     * when `stage` is a controller; otherwise the library refuses and the scene
     * stays unattached.
     */
    method NewScene(options: Option<Options>, stage: Option<Handle>) returns (h: Handle)
      requires Valid()
      modifies this
      ensures Valid()
      ensures h == old(next) && h !in old(objects) && next == old(next) + 1
      ensures objects == old(objects)[h := Obj(SceneKind, options, AddTo(stage), None, [], None, false, false)]
    {
      var controller := AddTo(stage);
      h, next := next, next + 1;
      objects := objects[h := Obj(SceneKind, options, controller, None, [], None, false, false)];
    }

    /** The controller a new scene ends up attached to. */
    function AddTo(stage: Option<Handle>): (c: Option<Handle>)
      reads this
      ensures c.Some? <==> stage.Some? && stage.value in objects && objects[stage.value].kind == StageKind
      ensures c.Some? ==> c == stage
    {
      if stage.Some? && stage.value in objects && objects[stage.value].kind == StageKind then stage else None
    }

    /** `controller.scrollTo(fn)` with a function: `fn` becomes the controller's scroll function. */
    method ScrollWith(h: Handle)
      requires Valid() && h in objects
      modifies this
      ensures Valid() && next == old(next)
      ensures objects == old(objects)[h := old(objects[h]).(scrollHandler := true)]
    {
      objects := objects[h := objects[h].(scrollHandler := true)];
    }

    /** `scene.addIndicators(options)`. */
    method AddIndicators(h: Handle, options: Options)
      requires Valid() && h in objects
      modifies this
      ensures Valid() && next == old(next)
      ensures objects == old(objects)[h := old(objects[h]).(indicators := Some(options))]
    {
      objects := objects[h := objects[h].(indicators := Some(options))];
    }

    /** `scene.on(channel, fn)`. */
    method On(h: Handle, r: Registration)
      requires Valid() && h in objects
      modifies this
      ensures Valid() && next == old(next)
      ensures objects == old(objects)[h := old(objects[h]).(listeners := old(objects[h].listeners) + [r])]
    {
      objects := objects[h := objects[h].(listeners := objects[h].listeners + [r])];
    }

    /** `scene.off(channel, fn)`. */
    method Off(h: Handle, r: Registration)
      requires Valid() && h in objects
      modifies this
      ensures Valid() && next == old(next)
      ensures objects == old(objects)[h := old(objects[h]).(listeners := Without(old(objects[h].listeners), r))]
    {
      objects := objects[h := objects[h].(listeners := Without(objects[h].listeners, r))];
    }

    /** The library's own `destroy`, which returns `null`. */
    method Destroy(h: Handle) returns (r: JsValue)
      requires Valid() && h in objects
      modifies this
      ensures Valid() && next == old(next)
      ensures r == Null
      ensures objects == old(objects)[h := old(objects[h]).(destroyed := true)]
    {
      objects := objects[h := objects[h].(destroyed := true)];
      r := Null;
    }
  }
}
