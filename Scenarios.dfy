/**
 * The six scenarios of test/test.js, each run on a fresh router, a fresh
 * emitter and a handler whose call count starts at zero.
 *
 * The router records each call it makes into an emitter or a config in its
 * `binds` log. A scenario makes that call on the concrete fixture object right
 * after the router operation that logged it, which is when the router itself
 * makes it; nothing else happens in between. The handler's counter
 * `handlerCalled` grows by the number of times a fired event calls it.
 */
module Scenarios {
  import opened Wrappers
  import opened Descriptor
  import opened Routing
  import opened Fixtures

  /** The call a logged bind stands for, on the EventEmitter it names, by the default convention. */
  method DeliverToEventEmitter(b: Bind, emitter: EventEmitter)
    requires b.emitter == emitter.id && b.config == None
    modifies emitter`listeners
    ensures emitter.listeners == WithListener(old(emitter.listeners), b.eventName, b.handler)
  {
    emitter.On(b.eventName, b.handler);
  }

  /** The call a logged bind stands for, on the PropertySupport it names, through emitterConfig. */
  method DeliverToPropertySupport(b: Bind, emitter: PropertySupport)
    requires b.emitter == emitter.id && b.config == Some(EmitterConfig)
    modifies emitter`listeners
    ensures ConfigProperty(b.eventName).None? ==> emitter.listeners == old(emitter.listeners)
    ensures ConfigProperty(b.eventName).Some? ==>
              emitter.listeners == WithListener(old(emitter.listeners), ConfigProperty(b.eventName).value, b.handler)
  {
    EmitterConfigOn(emitter, b.eventName, b.handler);
  }

  /** An event name `on` reads back whole from `[name]eventName`. */
  predicate PlainEventName(eventName: string) {
    |eventName| > 0 && ']' !in eventName && forall c :: c in eventName ==> !IsLineTerminator(c)
  }

  predicate PlainEmitterName(name: string) {
    |name| > 0 && forall c :: c in name ==> !IsLineTerminator(c)
  }

  /** The descriptor the tests pass to `on`: "[objectA]testEvent" and "[objectA]change:testProperty". */
  function Routed(name: string, eventName: string): string {
    "[" + name + "]" + eventName
  }

  /**
   * The router calls of test/test.js:24-29 and 93-98: the emitter (with its
   * config) first, then `on`, which binds the one handler at once.
   */
  method SetEmitterThenOn(name: string, eventName: string, handler: HandlerId,
                          emitter: EmitterId, config: Option<ConfigId>)
    returns (router: EventRouter)
    requires PlainEmitterName(name) && PlainEventName(eventName)
    ensures fresh(router)
    ensures name in router.registry
    ensures router.registry[name] == EmitterRecord(Some(emitter), config, [Registration(eventName, handler)])
    ensures router.binds == [Bind(emitter, config, eventName, handler)]
  {
    router := new EventRouter();
    router.SetEmitter(name, Some(emitter), config);
    assert router.registry[name] == EmitterRecord(Some(emitter), config, []);
    ParseBracketed(name, eventName);
    var ok := router.On(Routed(name, eventName), handler);
  }

  /**
   * The router calls of test/test.js:31-36 and 100-105: `on` first, which
   * binds nothing, then the emitter (with its config), which binds the handler.
   */
  method OnThenSetEmitter(name: string, eventName: string, handler: HandlerId,
                          emitter: EmitterId, config: Option<ConfigId>)
    returns (router: EventRouter)
    requires PlainEmitterName(name) && PlainEventName(eventName)
    ensures fresh(router)
    ensures name in router.registry
    ensures router.registry[name] == EmitterRecord(Some(emitter), config, [Registration(eventName, handler)])
    ensures router.binds == [Bind(emitter, config, eventName, handler)]
  {
    router := new EventRouter();
    ParseBracketed(name, eventName);
    var ok := router.On(Routed(name, eventName), handler);
    assert router.binds == [];
    assert router.registry[name] == EmitterRecord(None, None, [Registration(eventName, handler)]);
    router.SetEmitter(name, Some(emitter), config);
  }

  /**
   * test/test.js:24-29: emitter first, then `on`; one emit calls the handler
   * once. The router and the emitter are returned as they are left, for the
   * replacement scenario that begins with the same steps.
   */
  method DefaultEmitterThenOn(name: string, eventName: string, handler: HandlerId)
    returns (router: EventRouter, emitter: EventEmitter, handlerCalled: nat)
    requires PlainEmitterName(name) && PlainEventName(eventName)
    ensures fresh(router)
    ensures name in router.registry
    ensures router.registry[name] == EmitterRecord(Some(emitter.id), None, [Registration(eventName, handler)])
    ensures handlerCalled == 1
  {
    emitter := new EventEmitter(EmitterId(1));
    router := SetEmitterThenOn(name, eventName, handler, emitter.id, None);
    DeliverToEventEmitter(router.binds[0], emitter);
    var called := emitter.Emit(eventName);
    handlerCalled := multiset(called)[handler];
  }

  /** test/test.js:31-36: `on` first, then the emitter; one emit calls the handler once. */
  method DefaultOnThenEmitter(name: string, eventName: string, handler: HandlerId) returns (handlerCalled: nat)
    requires PlainEmitterName(name) && PlainEventName(eventName)
    ensures handlerCalled == 1
  {
    var emitter := new EventEmitter(EmitterId(1));
    var router := OnThenSetEmitter(name, eventName, handler, emitter.id, None);
    DeliverToEventEmitter(router.binds[0], emitter);
    var called := emitter.Emit(eventName);
    handlerCalled := multiset(called)[handler];
  }

  /**
   * The router call of test/test.js:44 and 113: a new emitter for name, with
   * no config argument; it binds the one recorded handler to it under the
   * config already stored.
   */
  method ReplaceEmitter(router: EventRouter, name: string, eventName: string, handler: HandlerId, emitter: EmitterId)
    requires name in router.registry
    requires router.registry[name].handlers == [Registration(eventName, handler)]
    modifies router
    ensures router.binds == old(router.binds) + [Bind(emitter, old(router.registry[name].config), eventName, handler)]
  {
    router.SetEmitter(name, Some(emitter), None);
  }

  /**
   * test/test.js:44-46: a fresh emitter replaces whichever one name had, with
   * no new `on`; one emit on it calls the single recorded handler once.
   */
  method ReplaceEventEmitterThenEmit(router: EventRouter, name: string, eventName: string, handler: HandlerId)
    returns (handlerCalled: nat)
    requires name in router.registry
    requires router.registry[name].config == None
    requires router.registry[name].handlers == [Registration(eventName, handler)]
    modifies router
    ensures handlerCalled == 1
  {
    var emitter := new EventEmitter(EmitterId(2));
    var before := |router.binds|;
    ReplaceEmitter(router, name, eventName, handler, emitter.id);
    DeliverToEventEmitter(router.binds[before], emitter);
    var called := emitter.Emit(eventName);
    handlerCalled := multiset(called)[handler];
  }

  /**
   * test/test.js:38-48: the steps of DefaultEmitterThenOn, then a fresh
   * emitter without a new `on`; one emit on it brings the count to 2.
   */
  method DefaultReplaceEmitter(name: string, eventName: string, handler: HandlerId) returns (afterFirst: nat, afterSecond: nat)
    requires PlainEmitterName(name) && PlainEventName(eventName)
    ensures afterFirst == 1 && afterSecond == 2
  {
    var router, emitter, handlerCalled := DefaultEmitterThenOn(name, eventName, handler);
    afterFirst := handlerCalled;
    var more := ReplaceEventEmitterThenEmit(router, name, eventName, handler);
    afterSecond := handlerCalled + more;
  }

  /** test/test.js:93-98: as DefaultEmitterThenOn, through emitterConfig on a PropertySupport. */
  method CustomEmitterThenOn(name: string, property: string, handler: HandlerId) returns (handlerCalled: nat)
    requires PlainEmitterName(name) && PlainEventName(property) && ':' !in property
    ensures handlerCalled == 1
  {
    var emitter := new PropertySupport(EmitterId(1));
    var eventName := "change:" + property;
    ReadsAsProperty(property);
    var router := SetEmitterThenOn(name, eventName, handler, emitter.id, Some(EmitterConfig));
    DeliverToPropertySupport(router.binds[0], emitter);
    var called := emitter.ChangeProperty(property);
    handlerCalled := multiset(called)[handler];
  }

  /**
   * test/test.js:100-105: `on` first, then the emitter with emitterConfig; one
   * change calls the handler once. The router and the emitter are returned as
   * they are left, for the replacement scenario that begins with the same steps.
   */
  method CustomOnThenEmitter(name: string, property: string, handler: HandlerId)
    returns (router: EventRouter, emitter: PropertySupport, handlerCalled: nat)
    requires PlainEmitterName(name) && PlainEventName(property) && ':' !in property
    ensures fresh(router)
    ensures name in router.registry
    ensures router.registry[name] ==
            EmitterRecord(Some(emitter.id), Some(EmitterConfig), [Registration("change:" + property, handler)])
    ensures handlerCalled == 1
  {
    emitter := new PropertySupport(EmitterId(1));
    var eventName := "change:" + property;
    ReadsAsProperty(property);
    router := OnThenSetEmitter(name, eventName, handler, emitter.id, Some(EmitterConfig));
    DeliverToPropertySupport(router.binds[0], emitter);
    var called := emitter.ChangeProperty(property);
    handlerCalled := multiset(called)[handler];
  }

  /**
   * test/test.js:113-116: a fresh PropertySupport replaces whichever emitter
   * name had, with no config argument and no new `on`; the stored
   * emitterConfig still applies, and one change calls the handler once.
   */
  method ReplacePropertySupportThenChange(router: EventRouter, name: string, property: string, handler: HandlerId)
    returns (handlerCalled: nat)
    requires PlainEventName(property) && ':' !in property
    requires name in router.registry
    requires router.registry[name].config == Some(EmitterConfig)
    requires router.registry[name].handlers == [Registration("change:" + property, handler)]
    modifies router
    ensures handlerCalled == 1
  {
    var emitter := new PropertySupport(EmitterId(2));
    ReadsAsProperty(property);
    var before := |router.binds|;
    ReplaceEmitter(router, name, "change:" + property, handler, emitter.id);
    DeliverToPropertySupport(router.binds[before], emitter);
    var called := emitter.ChangeProperty(property);
    handlerCalled := multiset(called)[handler];
  }

  /**
   * test/test.js:107-118: the steps of CustomOnThenEmitter, then a fresh
   * PropertySupport without a config argument; one change on it brings the
   * count to 2.
   */
  method CustomReplaceEmitterKeepsConfig(name: string, property: string, handler: HandlerId)
    returns (afterFirst: nat, afterSecond: nat)
    requires PlainEmitterName(name) && PlainEventName(property) && ':' !in property
    ensures afterFirst == 1 && afterSecond == 2
  {
    var router, emitter, handlerCalled := CustomOnThenEmitter(name, property, handler);
    afterFirst := handlerCalled;
    var more := ReplacePropertySupportThenChange(router, name, property, handler);
    afterSecond := handlerCalled + more;
  }

  /** `change:<property>` is an event name `on` reads back whole, and emitterConfig subscribes it under property. */
  lemma ReadsAsProperty(property: string)
    requires PlainEventName(property) && ':' !in property
    ensures PlainEventName("change:" + property)
    ensures ConfigProperty("change:" + property) == Some(property)
  {
    assert "change:" + property == "change:" + property + "";
    ConfigPropertyNamed(property, "");
    forall c | c in "change:" + property ensures !IsLineTerminator(c) && c != ']' {
      assert c in "change:" || c in property;
    }
  }
}
