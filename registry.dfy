/**
 * The keys of the `_stages` and `_scenes` dictionaries: how a stage or scene
 * name becomes a key, and how a key is looked up.
 */
module Registry {
  import opened Wrappers
  import opened JsValues

  /** `_isEmpty`: the value is `null`, `undefined` or the empty string. */
  predicate IsEmpty(v: JsValue)
    ensures IsEmpty(v) <==> !Truthy(v) && v != Bool(false) && v != Number(0)
  {
    v == Null || v == Undefined || v == Str("")
  }

  /** A stage name as `stage` and `scene` use it: an empty one stands for 'default'. */
  function StageName(name: JsValue): (n: JsValue)
    ensures !IsEmpty(n)
    ensures IsEmpty(name) ==> n == Str("default")
    ensures !IsEmpty(name) ==> n == name
  {
    if IsEmpty(name) then Str("default") else name
  }

  /**
   * The key a stage name is stored under. Exactly the empty names and
   * 'default' itself designate the default stage.
   */
  function StageKey(name: JsValue): (key: string)
    ensures key == "default" <==> IsEmpty(name) || name == Str("default")
    ensures key != ""
  {
    ToJsString(StageName(name))
  }

  /**
   * The key a scene name is stored under. Scene names are not normalised: an
   * empty scene name is a key of its own and never designates 'default'.
   */
  function SceneKey(name: JsValue): (key: string)
    ensures key == "default" <==> name == Str("default")
    ensures key == "" <==> name == Str("")
    ensures name == Null ==> key == "null"
    ensures name == Undefined ==> key == "undefined"
  {
    ToJsString(name)
  }

  /** `registry[key]` read as an own property of the dictionary. */
  function Lookup<H>(registry: map<string, H>, key: string): (r: Option<H>)
    ensures r.Some? <==> key in registry
    ensures r.Some? ==> r.value == registry[key]
  {
    if key in registry then Some(registry[key]) else None
  }

  // The dictionaries are plain objects, so `key in registry` and `registry[key]`
  // also see what every object inherits.

  /** The properties every plain object inherits from `Object.prototype`. */
  const OBJECT_PROTOTYPE := {
    "constructor", "hasOwnProperty", "isPrototypeOf", "propertyIsEnumerable",
    "toLocaleString", "toString", "valueOf", "__proto__",
    "__defineGetter__", "__defineSetter__", "__lookupGetter__", "__lookupSetter__"}

  /** What `registry[key]` yields on a plain object. */
  datatype Slot<H> = Own(value: H) | Inherited(member: string) | Missing

  /** `key in registry` and `registry[key]` as written, on a plain object. */
  function LookupAsWritten<H>(registry: map<string, H>, key: string): (s: Slot<H>)
    ensures s.Own? <==> key in registry
    ensures s.Own? ==> s.value == registry[key]
    ensures s.Inherited? <==> key !in registry && key in OBJECT_PROTOTYPE
  {
    if key in registry then Own(registry[key])
    else if key in OBJECT_PROTOTYPE then Inherited(key)
    else Missing
  }

  /**
   * The early return of `stage` and `scene` as written, given the key the
   * name is stored under: the `in` test also passes for an inherited name, so
   * the inherited function is returned and nothing is created.
   */
  function EarlyReturnAsWritten<H>(registry: map<string, H>, key: string): (r: Option<Slot<H>>)
    ensures r.Some? <==> key in registry || key in OBJECT_PROTOTYPE
    ensures r.Some? ==> r.value == LookupAsWritten(registry, key)
  {
    var s := LookupAsWritten(registry, key);
    if s.Missing? then None else Some(s)
  }

  /**
   * On a fresh instance, `stage('toString')` returns `Object.prototype.toString`
   * and `scene('constructor')` returns `Object`, where an own-key lookup finds
   * nothing and creates a stage or a scene.
   */
  lemma InheritedNamesShadow<H>(stages: map<string, H>, scenes: map<string, H>)
    requires stages.Keys == {"default"} && scenes == map[]
    ensures EarlyReturnAsWritten(stages, StageKey(Str("toString"))) == Some(Inherited("toString"))
    ensures Lookup(stages, StageKey(Str("toString"))) == None
    ensures EarlyReturnAsWritten(scenes, SceneKey(Str("constructor"))) == Some(Inherited("constructor"))
    ensures Lookup(scenes, SceneKey(Str("constructor"))) == None
  {
  }
}
