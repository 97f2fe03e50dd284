/**
 * What a navigation controller can observe and do in the browser: the
 * section registry (a plain object held in a React ref), and the three
 * outside calls it makes, recorded in the order they happen.
 */
module Browser {
  import opened Options

  /** A rendered section heading, as handed to a React ref callback. */
  datatype Handle = Element(id: nat)

  /** The payload of one `track({category, label, action})` call. */
  datatype Event = Event(category: string, eventLabel: string, action: string)

  /** One outside call: `history.pushState`, `track` or `scrollIntoView`. */
  datatype Effect =
    | PushState(url: string)
    | Track(event: Event)
    | ScrollIntoView(target: Handle)

  /** The history entries a run of effects adds, in order. */
  function Pushes(t: seq<Effect>): (r: seq<string>)
    ensures |r| <= |t|
  {
    if t == [] then []
    else (if t[0].PushState? then [t[0].url] else []) + Pushes(t[1..])
  }

  /** The analytics events a run of effects reports, in order. */
  function Events(t: seq<Effect>): (r: seq<Event>)
    ensures |r| <= |t|
  {
    if t == [] then []
    else (if t[0].Track? then [t[0].event] else []) + Events(t[1..])
  }

  /** The scroll targets of a run of effects, in order. */
  function Scrolls(t: seq<Effect>): (r: seq<Handle>)
    ensures |r| <= |t|
  {
    if t == [] then []
    else (if t[0].ScrollIntoView? then [t[0].target] else []) + Scrolls(t[1..])
  }

  /** The history log of a longer run is that of its first part followed by that of the rest. */
  lemma {:induction false} PushesAppend(t: seq<Effect>, u: seq<Effect>)
    ensures Pushes(t + u) == Pushes(t) + Pushes(u)
  {
    if t == [] {
      assert t + u == u;
    } else {
      assert (t + u)[0] == t[0];
      assert (t + u)[1..] == t[1..] + u;
      PushesAppend(t[1..], u);
    }
  }

  /** The same for the analytics log. */
  lemma {:induction false} EventsAppend(t: seq<Effect>, u: seq<Effect>)
    ensures Events(t + u) == Events(t) + Events(u)
  {
    if t == [] {
      assert t + u == u;
    } else {
      assert (t + u)[0] == t[0];
      assert (t + u)[1..] == t[1..] + u;
      EventsAppend(t[1..], u);
    }
  }

  /** The same for the scroll log. */
  lemma {:induction false} ScrollsAppend(t: seq<Effect>, u: seq<Effect>)
    ensures Scrolls(t + u) == Scrolls(t) + Scrolls(u)
  {
    if t == [] {
      assert t + u == u;
    } else {
      assert (t + u)[0] == t[0];
      assert (t + u)[1..] == t[1..] + u;
      ScrollsAppend(t[1..], u);
    }
  }

  /**
   * The registry `ref.current`: own properties of a plain object, each
   * holding a section's element or `null` (before mount, after unmount).
   */
  type Registry = map<string, Option<Handle>>

  /**
   * Resolving a key: an own property holding an element. A missing key or a
   * `null` entry resolves to nothing, and resolving never fails.
   */
  function Resolve(registry: Registry, key: string): (r: Option<Handle>)
    ensures r.Some? <==> key in registry && registry[key].Some?
    ensures r.Some? ==> registry[key] == r
  {
    if key in registry then registry[key] else None
  }

  /** The scroll step of a click: one `scrollIntoView` when the key resolves, nothing otherwise. */
  function ScrollTo(registry: Registry, key: string): (r: seq<Effect>)
    ensures Pushes(r) == [] && Events(r) == []
    ensures Resolve(registry, key).Some? ==> Scrolls(r) == [Resolve(registry, key).value]
    ensures Resolve(registry, key).None? ==> r == []
  {
    match Resolve(registry, key)
    case Some(h) => [ScrollIntoView(h)]
    case None => []
  }

  /** The properties every plain object inherits from `Object.prototype`. */
  const ObjectPrototypeMembers: set<string> := {
    "constructor", "hasOwnProperty", "isPrototypeOf", "propertyIsEnumerable",
    "toLocaleString", "toString", "valueOf", "__proto__",
    "__defineGetter__", "__defineSetter__", "__lookupGetter__", "__lookupSetter__"
  }

  /** What `registry[key]` reads on a plain object. */
  datatype Property =
    | Own(value: Option<Handle>)   // a registry entry: an element or null
    | Inherited                    // a function or object from the prototype: truthy
    | Undefined

  /** What `if (ref.current[key]) ref.current[key].scrollIntoView(...)` does. */
  datatype ScrollOutcome = Scrolled(target: Handle) | NotScrolled | Threw

  /** Property access as JavaScript performs it: own properties first, then the prototype. */
  function GetProperty(registry: Registry, key: string): (r: Property)
    ensures r.Own? <==> key in registry
    ensures r.Inherited? <==> key !in registry && key in ObjectPrototypeMembers
  {
    if key in registry then Own(registry[key])
    else if key in ObjectPrototypeMembers then Inherited
    else Undefined
  }

  /**
   * The scroll step as written: any truthy property is called as an element,
   * so an inherited member reaches `scrollIntoView`, which it does not have,
   * and the call throws a TypeError.
   */
  function ScrollAsWritten(registry: Registry, key: string): (r: ScrollOutcome)
    ensures r.Threw? <==> key !in registry && key in ObjectPrototypeMembers
    ensures r.Scrolled? <==> Resolve(registry, key).Some?
  {
    match GetProperty(registry, key)
    case Own(Some(h)) => Scrolled(h)
    case Own(None) => NotScrolled
    case Inherited => Threw
    case Undefined => NotScrolled
  }

  /** A key the registry lacks but every object inherits makes the scroll step throw. */
  lemma ConstructorKeyThrows(registry: Registry)
    requires "constructor" !in registry
    ensures ScrollAsWritten(registry, "constructor") == Threw
    ensures Resolve(registry, "constructor") == None
  {
  }

  /**
   * Away from the inherited names the code as written and the own-property
   * lookup agree: the throw is the only difference.
   */
  lemma ScrollAsWrittenAgrees(registry: Registry, key: string)
    requires key in registry || key !in ObjectPrototypeMembers
    ensures ScrollAsWritten(registry, key)
         == match Resolve(registry, key)
            case Some(h) => Scrolled(h)
            case None => NotScrolled
  {
  }

}
