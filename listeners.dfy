/**
 * Event listeners on a scene: what `onScene*` registers, what `off` removes,
 * and what a scene event causes once it reaches the registered functions,
 * including the relays every scene gets, which rebroadcast its enter and
 * leave events to the whole application.
 */
module Listeners {
  import opened JsValues
  import opened Provider

  /** The scene events the service listens to, each in the `ngMagics` namespace. */
  datatype Channel = Enter | Leave | Progress | Destroyed

  /** The relays `scene` registers on every new scene. */
  datatype RelayKind = EnterRelay | LeaveRelay

  /** A handler given to `onScene*`: a caller's function, or one of the service's relays. */
  datatype Handler = UserHandler(id: nat) | Relay(kind: RelayKind, name: JsValue)

  /**
   * The function actually registered on the scene: the handler itself, or a
   * new rate-limited wrapper around it, told apart from every other wrapper by `id`.
   */
  datatype Listener =
    | Plain(handler: Handler)
    | Braked(id: nat, brake: Brake, delay: int, handler: Handler)

  datatype Registration = Registration(channel: Channel, listener: Listener)

  /**
   * `scene.off(channel, fn)`: every registration of `fn` on `channel` is removed.
   * The contract states which registrations remain; that the rest keep their
   * order is what `WithoutAbsent` and `WithoutAppend` below establish.
   */
  function Without(regs: seq<Registration>, r: Registration): (out: seq<Registration>)
    ensures forall x :: x in out <==> x in regs && x != r
    ensures |out| <= |regs|
  {
    if regs == [] then []
    else (if regs[0] == r then [] else [regs[0]]) + Without(regs[1..], r)
  }

  /** Removing a registration that is not there changes nothing. */
  lemma {:induction false} WithoutAbsent(regs: seq<Registration>, r: Registration)
    requires r !in regs
    ensures Without(regs, r) == regs
  {
    if regs != [] {
      WithoutAbsent(regs[1..], r);
    }
  }

  /** Removal works element by element, so it distributes over concatenation. */
  lemma {:induction false} WithoutAppend(a: seq<Registration>, b: seq<Registration>, r: Registration)
    ensures Without(a + b, r) == Without(a, r) + Without(b, r)
  {
    if a == [] {
      assert a + b == b;
    } else {
      var head := if a[0] == r then [] else [a[0]];
      assert (a + b)[0] == a[0] && (a + b)[1..] == a[1..] + b;
      assert Without(a + b, r) == head + Without(a[1..] + b, r);
      WithoutAppend(a[1..], b, r);
    }
  }

  /** Unsubscribing a registration that was new when it was added restores the listeners exactly. */
  lemma UnsubscribeRestores(regs: seq<Registration>, r: Registration)
    requires r !in regs
    ensures Without(regs + [r], r) == regs
  {
    WithoutAppend(regs, [r], r);
    WithoutAbsent(regs, r);
  }

  /** A scene event's payload, opaque to the service. */
  datatype Payload = Payload(id: nat)

  /** An argument of a broadcast. */
  datatype Arg = NameArg(name: JsValue) | EventArg(event: Payload)

  /** What the outside world observes: a `$rootScope.$broadcast`, or a caller's handler being called. */
  datatype Effect = Broadcast(channel: string, args: seq<Arg>) | Called(handler: nat, event: Payload)

  /** What a relay does with an event of the scene named `name`. */
  function RelayEffects(kind: RelayKind, name: JsValue, e: Payload): (fx: seq<Effect>)
    ensures |fx| == 2 && fx[0].Broadcast? && fx[1].Broadcast?
    ensures fx[1].channel == (if kind == EnterRelay then "sceneEnter" else "sceneLeave")
    ensures fx[0].channel == fx[1].channel + ":" + ToJsString(name)
    ensures fx[0].args == [EventArg(e)] && fx[1].args == [NameArg(name), EventArg(e)]
  {
    match kind
    case EnterRelay =>
      [Broadcast("sceneEnter:" + ToJsString(name), [EventArg(e)]), Broadcast("sceneEnter", [NameArg(name), EventArg(e)])]
    case LeaveRelay =>
      [Broadcast("sceneLeave:" + ToJsString(name), [EventArg(e)]), Broadcast("sceneLeave", [NameArg(name), EventArg(e)])]
  }

  /** What calling a handler with `e` does. */
  function HandlerEffects(h: Handler, e: Payload): (fx: seq<Effect>)
  {
    match h
    case UserHandler(id) => [Called(id, e)]
    case Relay(kind, name) => RelayEffects(kind, name, e)
  }

  /**
   * The effects of the scene emitting `ch` with payload `e`: the registrations
   * on `ch` are called in the order they were made. A rate-limited wrapper is
   * counted as calling its handler once for an isolated event.
   */
  function Fire(regs: seq<Registration>, ch: Channel, e: Payload): (fx: seq<Effect>)
  {
    if regs == [] then [] else Fired(regs[0], ch, e) + Fire(regs[1..], ch, e)
  }

  /** What one registration does when the scene emits `ch`: nothing unless it listens on `ch`. */
  function Fired(r: Registration, ch: Channel, e: Payload): seq<Effect>
  {
    if r.channel == ch then HandlerEffects(r.listener.handler, e) else []
  }

  /** Handlers registered earlier run earlier. */
  lemma {:induction false} FireAppend(a: seq<Registration>, b: seq<Registration>, ch: Channel, e: Payload)
    ensures Fire(a + b, ch, e) == Fire(a, ch, e) + Fire(b, ch, e)
  {
    if a == [] {
      assert a + b == b;
    } else {
      var ab := a + b;
      assert ab[0] == a[0] && ab[1..] == a[1..] + b;
      FireAppend(a[1..], b, ch, e);
    }
  }

  /** A caller's handler registered on `ch`, directly or rate-limited, is called when the scene emits `ch`. */
  lemma {:induction false} HandlerCalled(regs: seq<Registration>, ch: Channel, l: Listener, e: Payload)
    requires Registration(ch, l) in regs && l.handler.UserHandler?
    ensures Called(l.handler.id, e) in Fire(regs, ch, e)
  {
    if regs[0] != Registration(ch, l) {
      HandlerCalled(regs[1..], ch, l, e);
    }
  }

  /** The two registrations `scene` makes on a new scene, through `onSceneEnter` and `onSceneLeave`. */
  function SceneRelays(first: nat, brake: Brake, delay: int, name: JsValue): (rs: seq<Registration>)
    ensures |rs| == 2 && rs[0].channel == Enter && rs[1].channel == Leave
    ensures forall r :: r in rs ==>
      && r.listener.Braked? && first <= r.listener.id < first + 2
      && r.listener.brake == brake && r.listener.delay == delay
    ensures rs[0].listener.id != rs[1].listener.id
    ensures rs[0].listener.handler == Relay(EnterRelay, name) && rs[1].listener.handler == Relay(LeaveRelay, name)
  {
    [ Registration(Enter, Braked(first, brake, delay, Relay(EnterRelay, name))),
      Registration(Leave, Braked(first + 1, brake, delay, Relay(LeaveRelay, name))) ]
  }

  /** What the two relays of a scene do on their own, channel by channel. */
  lemma FireRelays(first: nat, brake: Brake, delay: int, name: JsValue, ch: Channel, e: Payload)
    ensures Fire(SceneRelays(first, brake, delay, name), ch, e) ==
      match ch
      case Enter => RelayEffects(EnterRelay, name, e)
      case Leave => RelayEffects(LeaveRelay, name, e)
      case _ => []
  {
    var relays := SceneRelays(first, brake, delay, name);
    var rest := relays[1..];
    assert rest[1..] == [];
    assert Fire(rest, ch, e) == (if ch == Leave then RelayEffects(LeaveRelay, name, e) else []);
  }

  /**
   * Entering a scene broadcasts `'sceneEnter:' + name` with the event and then
   * `'sceneEnter'` with the name and the event, before any handler subscribed
   * later runs; leaving does the same on the `sceneLeave` channels; progress
   * and destroy events are not relayed.
   */
  lemma RelaysBroadcast(first: nat, brake: Brake, delay: int, name: JsValue, later: seq<Registration>, e: Payload)
    ensures Fire(SceneRelays(first, brake, delay, name) + later, Enter, e) ==
      [Broadcast("sceneEnter:" + ToJsString(name), [EventArg(e)]), Broadcast("sceneEnter", [NameArg(name), EventArg(e)])]
      + Fire(later, Enter, e)
    ensures Fire(SceneRelays(first, brake, delay, name) + later, Leave, e) ==
      [Broadcast("sceneLeave:" + ToJsString(name), [EventArg(e)]), Broadcast("sceneLeave", [NameArg(name), EventArg(e)])]
      + Fire(later, Leave, e)
    ensures Fire(SceneRelays(first, brake, delay, name) + later, Progress, e) == Fire(later, Progress, e)
    ensures Fire(SceneRelays(first, brake, delay, name) + later, Destroyed, e) == Fire(later, Destroyed, e)
  {
    var relays := SceneRelays(first, brake, delay, name);
    assert Fire(relays + later, Enter, e) == Fire(relays, Enter, e) + Fire(later, Enter, e) == RelayEffects(EnterRelay, name, e) + Fire(later, Enter, e) by {
      FireAppend(relays, later, Enter, e);
      FireRelays(first, brake, delay, name, Enter, e);
    }
    assert Fire(relays + later, Leave, e) == Fire(relays, Leave, e) + Fire(later, Leave, e) == RelayEffects(LeaveRelay, name, e) + Fire(later, Leave, e) by {
      FireAppend(relays, later, Leave, e);
      FireRelays(first, brake, delay, name, Leave, e);
    }
    assert Fire(relays + later, Progress, e) == Fire(later, Progress, e) by {
      FireAppend(relays, later, Progress, e);
      FireRelays(first, brake, delay, name, Progress, e);
    }
    assert Fire(relays + later, Destroyed, e) == Fire(later, Destroyed, e) by {
      FireAppend(relays, later, Destroyed, e);
      FireRelays(first, brake, delay, name, Destroyed, e);
    }
  }
}
