/**
 * The router of event-router.js: a registry from emitter name to a record
 * {emitter, config, handlers}, `on` to register a handler through a routed
 * descriptor, and `setEmitter` to supply (or replace) the concrete emitter and
 * replay every recorded handler against it.
 *
 * Emitters, configs (binding adapters) and handlers are objects the router
 * only passes along, so they are opaque ids here. Binding a handler is a call
 * into one of them, `config.on(emitter, eventName, handler)` when a config is
 * stored and `emitter.on(eventName, handler)` otherwise; the router's only
 * observable effect on the outside world is that call, so the model appends
 * it to the log `binds` instead of making it.
 */
module Routing {
  import opened Wrappers
  import opened Descriptor

  datatype EmitterId = EmitterId(id: nat)
  datatype ConfigId = ConfigId(id: nat)
  datatype HandlerId = HandlerId(id: nat)

  /** One entry of a record's `handlers` array: {eventName, handler}. */
  datatype Registration = Registration(eventName: string, handler: HandlerId)

  /** The record kept per emitter name; None stands for JavaScript's null. */
  datatype EmitterRecord = EmitterRecord(emitter: Option<EmitterId>, config: Option<ConfigId>, handlers: seq<Registration>)

  /** One call the bind step makes: through `config.on` when config is present, through `emitter.on` otherwise. */
  datatype Bind = Bind(emitter: EmitterId, config: Option<ConfigId>, eventName: string, handler: HandlerId)

  /** What `_registerEmitter` stores for a name it has not seen (event-router.js:51-55). */
  const EmptyRecord := EmitterRecord(None, None, [])

  /** The registry after `_registerEmitter(name)`: a record for name exists, and every existing record is untouched. */
  function Registered(registry: map<string, EmitterRecord>, name: string): (r: map<string, EmitterRecord>)
    ensures r.Keys == registry.Keys + {name}
    ensures forall n :: n in registry ==> r[n] == registry[n]
    ensures name !in registry ==> r[name] == EmptyRecord
  {
    if name in registry then registry else registry[name := EmptyRecord]
  }

  /** `_registerEmitter` is idempotent. */
  lemma RegisteredIdempotent(registry: map<string, EmitterRecord>, name: string)
    ensures Registered(Registered(registry, name), name) == Registered(registry, name)
  {
  }

  /** The calls `_setHandler` makes for one pair, given the record it reads. */
  function BindStep(rec: EmitterRecord, eventName: string, handler: HandlerId): (r: seq<Bind>)
    ensures |r| <= 1
    ensures r == [] <==> rec.emitter.None?
    ensures r != [] ==> r[0] == Bind(rec.emitter.value, rec.config, eventName, handler)
  {
    if rec.emitter.None? then [] else [Bind(rec.emitter.value, rec.config, eventName, handler)]
  }

  /** The calls `_setHandler` makes for each pair of hs in turn, given the record it reads. */
  function Replay(rec: EmitterRecord, hs: seq<Registration>): (r: seq<Bind>)
    ensures rec.emitter.None? ==> r == []
    ensures rec.emitter.Some? ==> |r| == |hs|
    ensures rec.emitter.Some? ==>
      forall k :: 0 <= k < |hs| ==> r[k] == Bind(rec.emitter.value, rec.config, hs[k].eventName, hs[k].handler)
  {
    if hs == [] then []
    else Replay(rec, hs[..|hs| - 1]) + BindStep(rec, hs[|hs| - 1].eventName, hs[|hs| - 1].handler)
  }

  /** Everything the router holds, and every call it has made into emitters and configs. */
  datatype RouterState = RouterState(registry: map<string, EmitterRecord>, binds: seq<Bind>)

  const Initial := RouterState(map[], [])

  /** The state after `on(desc, handler)`; None when `on` throws because `exec` returned null. */
  function OnSpec(st: RouterState, desc: string, handler: HandlerId): (r: Option<RouterState>)
    ensures r.Some? <==> Parse(desc).Some?
    ensures r.Some? ==> st.binds <= r.value.binds && |r.value.binds| <= |st.binds| + 1
    ensures r.Some? ==> st.registry.Keys <= r.value.registry.Keys
  {
    match Parse(desc)
    case None => None
    case Some(p) =>
      var registry := Registered(st.registry, p.emitterName);
      var rec := registry[p.emitterName];
      Some(RouterState(
        registry[p.emitterName := rec.(handlers := rec.handlers + [Registration(p.eventName, handler)])],
        st.binds + BindStep(rec, p.eventName, handler)))
  }

  /** The state after `setEmitter(name, emitter, config)`. */
  function SetEmitterSpec(st: RouterState, name: string, emitter: Option<EmitterId>, config: Option<ConfigId>): (r: RouterState)
    ensures name in r.registry && r.registry[name].emitter == emitter
    ensures config.Some? ==> r.registry[name].config == config
    ensures st.binds <= r.binds
  {
    var registry := Registered(st.registry, name);
    var rec := registry[name].(emitter := emitter, config := if config.Some? then config else registry[name].config);
    RouterState(registry[name := rec], st.binds + Replay(rec, rec.handlers))
  }

  /** The record for name before a call, as the call finds it after `_registerEmitter`. */
  function RecordOf(st: RouterState, name: string): EmitterRecord {
    Registered(st.registry, name)[name]
  }

  /**
   * A successful `on` appends exactly one pair to its name's handlers, keeps
   * that record's emitter and config, and leaves every other record as it was.
   */
  lemma OnAppendsOnePair(st: RouterState, desc: string, handler: HandlerId)
    requires Parse(desc).Some?
    ensures OnSpec(st, desc, handler).Some?
    ensures var p := Parse(desc).value;
            var st' := OnSpec(st, desc, handler).value;
            var before := RecordOf(st, p.emitterName);
            st'.registry.Keys == st.registry.Keys + {p.emitterName} &&
            (forall n :: n in st.registry && n != p.emitterName ==> st'.registry[n] == st.registry[n]) &&
            st'.registry[p.emitterName].emitter == before.emitter &&
            st'.registry[p.emitterName].config == before.config &&
            st'.registry[p.emitterName].handlers == before.handlers + [Registration(p.eventName, handler)]
  {
  }

  /**
   * A successful `on` binds the new pair exactly once when an emitter is
   * stored, through the stored config if there is one, and binds nothing
   * otherwise; earlier calls stay as they were.
   */
  lemma OnBindsOnceWhenEmitterStored(st: RouterState, desc: string, handler: HandlerId)
    requires Parse(desc).Some?
    ensures var p := Parse(desc).value;
            var st' := OnSpec(st, desc, handler).value;
            var before := RecordOf(st, p.emitterName);
            (before.emitter.None? ==> st'.binds == st.binds) &&
            (before.emitter.Some? ==>
               st'.binds == st.binds + [Bind(before.emitter.value, before.config, p.eventName, handler)])
  {
  }

  /** A descriptor `exec` cannot match makes `on` throw, and nothing is registered or bound. */
  lemma OnRejectsMalformed(st: RouterState, desc: string, handler: HandlerId)
    requires forall i, j, e :: !IsMatch(desc, i, j, e)
    ensures OnSpec(st, desc, handler) == None
    ensures Step(st, OnCall(desc, handler)) == st
  {
    ParseMeaning(desc);
  }

  /**
   * `setEmitter` stores the emitter, overwrites the config only when one is
   * given, keeps the handlers, leaves other records alone, and then binds every
   * recorded pair once, in registration order, against the new emitter.
   */
  lemma SetEmitterReplaysAll(st: RouterState, name: string, emitter: Option<EmitterId>, config: Option<ConfigId>)
    ensures var st' := SetEmitterSpec(st, name, emitter, config);
            var before := RecordOf(st, name);
            var after := st'.registry[name];
            st'.registry.Keys == st.registry.Keys + {name} &&
            (forall n :: n in st.registry && n != name ==> st'.registry[n] == st.registry[n]) &&
            after.emitter == emitter &&
            after.config == (if config.Some? then config else before.config) &&
            after.handlers == before.handlers &&
            |st'.binds| == |st.binds| + (if emitter.Some? then |before.handlers| else 0) &&
            st'.binds[..|st.binds|] == st.binds &&
            (emitter.Some? ==>
               forall k :: 0 <= k < |before.handlers| ==>
                 st'.binds[|st.binds| + k] ==
                 Bind(emitter.value, after.config, before.handlers[k].eventName, before.handlers[k].handler))
  {
    var st' := SetEmitterSpec(st, name, emitter, config);
    var after := st'.registry[name];
    var added := Replay(after, after.handlers);
    assert st'.binds == st.binds + added;
    assert st'.binds[..|st.binds|] == st.binds;
    if emitter.Some? {
      forall k | 0 <= k < |after.handlers| ensures st'.binds[|st.binds| + k] == added[k] {
      }
    }
  }

  /** The calls a client makes on a router. */
  datatype Call =
    | OnCall(desc: string, handler: HandlerId)
    | SetEmitterCall(name: string, emitter: Option<EmitterId>, config: Option<ConfigId>)

  /** One call; an `on` that throws leaves the state as it was. */
  function Step(st: RouterState, c: Call): RouterState {
    match c
    case OnCall(desc, handler) => (match OnSpec(st, desc, handler) case None => st case Some(st') => st')
    case SetEmitterCall(name, emitter, config) => SetEmitterSpec(st, name, emitter, config)
  }

  function Run(st: RouterState, calls: seq<Call>): RouterState {
    if calls == [] then st else Step(Run(st, calls[..|calls| - 1]), calls[|calls| - 1])
  }

  /** The pairs of the successful `on` calls for name, in the order they were made. */
  function OnsFor(calls: seq<Call>, name: string): seq<Registration> {
    if calls == [] then []
    else
      var last := calls[|calls| - 1];
      OnsFor(calls[..|calls| - 1], name) +
      (if last.OnCall? && Parse(last.desc).Some? && Parse(last.desc).value.emitterName == name
       then [Registration(Parse(last.desc).value.eventName, last.handler)]
       else [])
  }

  /**
   * From a fresh router, a name's handlers are exactly the pairs of every
   * successful `on` for that name, in order, whether or not an emitter was
   * stored when each was made; a name with no record has had none.
   */
  lemma {:induction false} HandlersRecordEveryOn(calls: seq<Call>, name: string)
    ensures var registry := Run(Initial, calls).registry;
            (name in registry ==> registry[name].handlers == OnsFor(calls, name)) &&
            (name !in registry ==> OnsFor(calls, name) == [])
  {
    if calls != [] {
      var prefix := calls[..|calls| - 1];
      var last := calls[|calls| - 1];
      HandlersRecordEveryOn(prefix, name);
      var st := Run(Initial, prefix);
      match last
      case OnCall(desc, handler) =>
        if Parse(desc).Some? {
          OnAppendsOnePair(st, desc, handler);
        }
      case SetEmitterCall(n, emitter, config) =>
        SetEmitterReplaysAll(st, n, emitter, config);
    }
  }

  /** No sequence of calls removes a record or shortens its handlers. */
  lemma {:induction false} HandlersOnlyGrow(st: RouterState, calls: seq<Call>, name: string)
    requires name in st.registry
    ensures name in Run(st, calls).registry
    ensures st.registry[name].handlers <= Run(st, calls).registry[name].handlers
  {
    if calls != [] {
      var prefix := calls[..|calls| - 1];
      HandlersOnlyGrow(st, prefix, name);
      var mid := Run(st, prefix);
      match calls[|calls| - 1]
      case OnCall(desc, handler) =>
        if Parse(desc).Some? {
          OnAppendsOnePair(mid, desc, handler);
        }
      case SetEmitterCall(n, emitter, config) =>
        SetEmitterReplaysAll(mid, n, emitter, config);
    }
  }

  /** The EventRouter object: `_emitter` is `registry`; `binds` logs the calls made into emitters and configs. */
  class EventRouter {
    var registry: map<string, EmitterRecord>
    var binds: seq<Bind>

    function State(): RouterState
      reads this
    {
      RouterState(registry, binds)
    }

    constructor ()
      ensures State() == Initial
    {
      registry := map[];
      binds := [];
    }

    /** `on(eventDesc, handler)`; ok is false where the source throws, before any state changes. */
    method On(desc: string, handler: HandlerId) returns (ok: bool)
      modifies this
      ensures ok == Parse(desc).Some?
      ensures ok ==> OnSpec(old(State()), desc, handler) == Some(State())
      ensures !ok ==> State() == old(State())
    {
      var parsed := Parse(desc);
      if parsed.None? {
        // exec returned null, and reading its length throws a TypeError; the
        // explicit length test never sees a match with other than three entries
        return false;
      }
      var emitterName := parsed.value.emitterName;
      var eventName := parsed.value.eventName;
      RegisterEmitter(emitterName);
      SetHandler(emitterName, eventName, handler);
      var rec := registry[emitterName];
      registry := registry[emitterName := rec.(handlers := rec.handlers + [Registration(eventName, handler)])];
      ok := true;
    }

    /** `setEmitter(name, emitter, config)`; a config of None leaves the stored one in place. */
    method SetEmitter(name: string, emitter: Option<EmitterId>, config: Option<ConfigId>)
      modifies this
      ensures State() == SetEmitterSpec(old(State()), name, emitter, config)
    {
      RegisterEmitter(name);
      registry := registry[name := registry[name].(emitter := emitter)];
      if config.Some? {
        registry := registry[name := registry[name].(config := config)];
      }
      SetAllHandlers(name);
    }

    method RegisterEmitter(name: string)
      modifies this`registry
      ensures registry == Registered(old(registry), name)
    {
      if name !in registry {
        registry := registry[name := EmptyRecord];
      }
    }

    method SetAllHandlers(name: string)
      requires name in registry
      modifies this`binds
      ensures binds == old(binds) + Replay(registry[name], registry[name].handlers)
    {
      var hs := registry[name].handlers;
      var i := 0;
      while i < |hs|
        invariant 0 <= i <= |hs|
        invariant binds == old(binds) + Replay(registry[name], hs[..i])
      {
        SetHandler(name, hs[i].eventName, hs[i].handler);
        assert hs[..i + 1][..i] == hs[..i];
        i := i + 1;
      }
      assert hs[..|hs|] == hs;
    }

    method SetHandler(name: string, eventName: string, handler: HandlerId)
      requires name in registry
      modifies this`binds
      ensures binds == old(binds) + BindStep(registry[name], eventName, handler)
    {
      var emitter := registry[name].emitter;
      var config := registry[name].config;
      if emitter.None? {
        // the emitter object is not available yet
        return;
      }
      binds := binds + [Bind(emitter.value, config, eventName, handler)];
    }
  }
}
