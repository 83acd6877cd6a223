/**
 * The concrete emitters of test/test.js and the binding adapter written for
 * one of them.
 *
 * PropertySupport (test/test.js:54-69) keeps a list of listeners per property
 * name and calls them, in the order they were added, when the property
 * changes. `emitterConfig` (test/test.js:72-79) is the adapter the router
 * binds through for such an emitter: it reads `change:<property>` event names.
 * Node's EventEmitter is not part of this model; EventEmitter below assumes it
 * keeps the same kind of per-event listener list.
 *
 * Calling a listener is modelled by reporting it: the methods that fire an
 * event return the listeners they call, in the order they call them.
 */
module Fixtures {
  import opened Wrappers
  import opened Routing

  /** Listener lists keyed by property or event name. */
  type ListenerTable = map<string, seq<HandlerId>>

  /** The listeners registered under key; a key never used has none. */
  function ListenersOf(table: ListenerTable, key: string): seq<HandlerId> {
    if key in table then table[key] else []
  }

  /** The table after pushing listener onto key's list, creating the list first if there is none. */
  function WithListener(table: ListenerTable, key: string, listener: HandlerId): (r: ListenerTable)
    ensures ListenersOf(r, key) == ListenersOf(table, key) + [listener]
    ensures forall k :: k != key ==> ListenersOf(r, k) == ListenersOf(table, k)
  {
    table[key := ListenersOf(table, key) + [listener]]
  }

  /** The custom emitter of the tests, with its own subscription API. */
  class PropertySupport {
    const id: EmitterId
    var listeners: ListenerTable

    constructor (id: EmitterId)
      ensures this.id == id && listeners == map[]
    {
      this.id := id;
      listeners := map[];
    }

    method AddPropertyListener(propertyName: string, listener: HandlerId)
      modifies this`listeners
      ensures listeners == WithListener(old(listeners), propertyName, listener)
    {
      if propertyName !in listeners {
        listeners := listeners[propertyName := []];
      }
      listeners := listeners[propertyName := listeners[propertyName] + [listener]];
    }

    /** Calls every listener of propertyName once, in registration order. */
    method ChangeProperty(propertyName: string) returns (called: seq<HandlerId>)
      ensures called == ListenersOf(listeners, propertyName)
    {
      called := [];
      if propertyName in listeners {
        var fns := listeners[propertyName];
        var i := 0;
        while i < |fns|
          invariant 0 <= i <= |fns|
          invariant called == fns[..i]
        {
          called := called + [fns[i]];
          i := i + 1;
        }
      }
    }
  }

  /**
   * Node's EventEmitter as the default-convention tests use it: `on` appends
   * a listener to the event's list and `emit` calls the list in order. This is
   * an assumption about a library that is not part of this model.
   */
  class EventEmitter {
    const id: EmitterId
    var listeners: ListenerTable

    constructor (id: EmitterId)
      ensures this.id == id && listeners == map[]
    {
      this.id := id;
      listeners := map[];
    }

    method On(eventName: string, listener: HandlerId)
      modifies this`listeners
      ensures listeners == WithListener(old(listeners), eventName, listener)
    {
      listeners := listeners[eventName := ListenersOf(listeners, eventName) + [listener]];
    }

    /** Calls every listener of eventName once, in registration order. */
    method Emit(eventName: string) returns (called: seq<HandlerId>)
      ensures called == ListenersOf(listeners, eventName)
    {
      called := [];
      var fns := ListenersOf(listeners, eventName);
      var i := 0;
      while i < |fns|
        invariant 0 <= i <= |fns|
        invariant called == fns[..i]
      {
        called := called + [fns[i]];
        i := i + 1;
      }
    }
  }

  /** `parts.join(sep)`. */
  function Join(parts: seq<string>, sep: char): string
    requires |parts| >= 1
  {
    if |parts| == 1 then parts[0] else parts[0] + [sep] + Join(parts[1..], sep)
  }

  /** `s.split(sep)` for a one-character separator: the segments between separators, empty ones included. */
  function Split(s: string, sep: char): (r: seq<string>)
    ensures |r| >= 1
    ensures forall k :: 0 <= k < |r| ==> sep !in r[k]
    ensures Join(r, sep) == s
  {
    if s == [] then [""]
    else if s[0] == sep then
      var rest := Split(s[1..], sep);
      assert [s[0]] + s[1..] == s;
      [""] + rest
    else
      var rest := Split(s[1..], sep);
      var r := [[s[0]] + rest[0]] + rest[1..];
      assert r[1..] == rest[1..];
      assert Join(r, sep) == [s[0]] + Join(rest, sep);
      assert [s[0]] + s[1..] == s;
      r
  }

  lemma {:induction false} SplitWithoutSeparator(a: string, sep: char)
    requires sep !in a
    ensures Split(a, sep) == [a]
  {
    if a != [] {
      assert a[0] in a;
      assert forall c :: c in a[1..] ==> c in a;
      SplitWithoutSeparator(a[1..], sep);
      assert [a[0]] + a[1..] == a;
    }
  }

  lemma {:induction false} SplitAfterSegment(a: string, t: string, sep: char)
    requires sep !in a
    ensures Split(a + [sep] + t, sep) == [a] + Split(t, sep)
  {
    var s := a + [sep] + t;
    if a == [] {
      assert s[1..] == t;
    } else {
      assert a[0] in a;
      assert forall c :: c in a[1..] ==> c in a;
      assert s[1..] == a[1..] + [sep] + t;
      SplitAfterSegment(a[1..], t, sep);
      assert [a[0]] + a[1..] == a;
    }
  }

  /** Splitting undoes joining segments that hold no separator. */
  lemma {:induction false} SplitJoin(parts: seq<string>, sep: char)
    requires |parts| >= 1
    requires forall k :: 0 <= k < |parts| ==> sep !in parts[k]
    ensures Split(Join(parts, sep), sep) == parts
  {
    if |parts| == 1 {
      SplitWithoutSeparator(parts[0], sep);
    } else {
      SplitJoin(parts[1..], sep);
      SplitAfterSegment(parts[0], Join(parts[1..], sep), sep);
      assert [parts[0]] + parts[1..] == parts;
    }
  }

  /** The object `emitterConfig` of the tests, as the router sees it. */
  const EmitterConfig := ConfigId(0)

  /**
   * The property `emitterConfig.on` subscribes under, or None when it binds
   * nothing. With no second segment `desc[1]` is undefined, which as a
   * property key is the string "undefined".
   */
  function ConfigProperty(eventDesc: string): (r: Option<string>)
    ensures r.Some? ==> ':' !in r.value
  {
    var desc := Split(eventDesc, ':');
    if desc[0] == "change" then Some(if |desc| > 1 then desc[1] else "undefined") else None
  }

  /** `emitterConfig.on` binds exactly the event names whose first `:`-segment is `change`. */
  lemma ConfigPropertyWhen(eventDesc: string)
    ensures ConfigProperty(eventDesc).Some? <==>
            eventDesc == "change" || (|eventDesc| >= 7 && eventDesc[..7] == "change:")
  {
    var desc := Split(eventDesc, ':');
    var head := desc[0];
    if |desc| == 1 {
      assert eventDesc == head;
      if |eventDesc| >= 7 {
        assert eventDesc[6] in head;
      }
    } else {
      assert eventDesc == head + [':'] + Join(desc[1..], ':');
      assert eventDesc[..|head|] == head && eventDesc[|head|] == ':';
      if |eventDesc| >= 7 && eventDesc[..7] == "change:" {
        assert eventDesc[6] == ':';
        assert forall k :: 0 <= k < |head| ==> head[k] == eventDesc[k];
        assert forall k :: 0 <= k < 6 ==> eventDesc[k] != ':';
        assert |head| == 6;
        assert head == eventDesc[..7][..6];
      }
      if head == "change" {
        assert eventDesc[..7] == head + [':'];
      }
    }
  }

  /** `change:<p>`, with anything after a further `:`, subscribes under p. */
  lemma ConfigPropertyNamed(p: string, tail: string)
    requires ':' !in p
    requires tail == [] || tail[0] == ':'
    ensures ConfigProperty("change:" + p + tail) == Some(p)
  {
    assert "change:" + p + tail == "change" + [':'] + (p + tail);
    assert ':' !in "change";
    SplitAfterSegment("change", p + tail, ':');
    if tail == [] {
      assert p + tail == p;
      SplitWithoutSeparator(p, ':');
    } else {
      assert p + tail == p + [':'] + tail[1..];
      SplitAfterSegment(p, tail[1..], ':');
    }
  }

  /** `emitterConfig.on(emitter, eventDesc, handler)`. */
  method EmitterConfigOn(emitter: PropertySupport, eventDesc: string, handler: HandlerId)
    modifies emitter`listeners
    ensures ConfigProperty(eventDesc).None? ==> emitter.listeners == old(emitter.listeners)
    ensures ConfigProperty(eventDesc).Some? ==>
              emitter.listeners == WithListener(old(emitter.listeners), ConfigProperty(eventDesc).value, handler)
  {
    var desc := Split(eventDesc, ':');
    if desc[0] == "change" {
      emitter.AddPropertyListener(if |desc| > 1 then desc[1] else "undefined", handler);
    }
  }
}
