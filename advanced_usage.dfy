/**
 * The navigation controller of the "Advanced Usage" page: its side-menu
 * labels, the registry `pageContentRef` filled by the section headings' ref
 * callbacks, `goToSection`, and the mount effect that follows a deep link.
 */
module AdvancedUsage {
  import opened Options
  import opened Text
  import opened Address
  import opened Browser

  /**
   * The side-menu labels, in menu order. Each label is written as its words
   * joined by single spaces, which is the same string.
   */
  const Links: seq<string> := [
    "Accessibility",
    "Wizard" + " " + "Form",
    "Smart" + " " + "Form" + " " + "Component",
    "Field" + " " + "Arrays",
    "Schema" + " " + "Validation",
    "Connect" + " " + "Form",
    "FormContext" + " " + "Performance"
  ]

  /** The section headings that register themselves. */
  datatype Section =
    | Accessibility
    | WizardForm
    | SmartFormComponent
    | FieldArrays
    | SchemaValidation
    | ConnectForm
    | FormContextPerformance

  /** The sections in page order, which is also menu order. */
  const Sections: seq<Section> := [
    Accessibility, WizardForm, SmartFormComponent, FieldArrays,
    SchemaValidation, ConnectForm, FormContextPerformance
  ]

  /** The registry property a section's ref callback writes, written as its words run together. */
  function Key(s: Section): string {
    match s
    case Accessibility => "Accessibility"
    case WizardForm => "Wizard" + "Form"
    case SmartFormComponent => "Smart" + "Form" + "Component"
    case FieldArrays => "Field" + "Arrays"
    case SchemaValidation => "Schema" + "Validation"
    case ConnectForm => "Connect" + "Form"
    case FormContextPerformance => "FormContext" + "Performance"
  }

  /** The registry as `useRef` creates it: the seven keys, each `null`. */
  const InitialRegistry: Registry := map[
    Key(Accessibility) := None,
    Key(WizardForm) := None,
    Key(SmartFormComponent) := None,
    Key(FieldArrays) := None,
    Key(SchemaValidation) := None,
    Key(ConnectForm) := None,
    Key(FormContextPerformance) := None
  ]

  // The key of each menu label, one label at a time.

  lemma StripAccessibility()
    ensures StripSpaces("Accessibility") == "Accessibility"
  {
    StripSpacesKeepsSpaceFree("Accessibility");
  }

  lemma StripWizardForm()
    ensures StripSpaces("Wizard" + " " + "Form") == "Wizard" + "Form"
  {
    StripSpacesWords2("Wizard", "Form");
  }

  lemma StripSmartFormComponent()
    ensures StripSpaces("Smart" + " " + "Form" + " " + "Component") == "Smart" + "Form" + "Component"
  {
    StripSpacesWords3("Smart", "Form", "Component");
  }

  lemma StripFieldArrays()
    ensures StripSpaces("Field" + " " + "Arrays") == "Field" + "Arrays"
  {
    StripSpacesWords2("Field", "Arrays");
  }

  lemma StripSchemaValidation()
    ensures StripSpaces("Schema" + " " + "Validation") == "Schema" + "Validation"
  {
    StripSpacesWords2("Schema", "Validation");
  }

  lemma StripConnectForm()
    ensures StripSpaces("Connect" + " " + "Form") == "Connect" + "Form"
  {
    StripSpacesWords2("Connect", "Form");
  }

  lemma StripFormContextPerformance()
    ensures StripSpaces("FormContext" + " " + "Performance") == "FormContext" + "Performance"
  {
    StripSpacesWords2("FormContext", "Performance");
  }

  /**
   * Menu and registry agree: the i-th label normalises to the key of the
   * i-th section.
   */
  lemma LinkKeys()
    ensures |Links| == |Sections| == 7
    ensures forall i :: 0 <= i < |Links| ==> StripSpaces(Links[i]) == Key(Sections[i])
  {
    forall i | 0 <= i < |Links|
      ensures StripSpaces(Links[i]) == Key(Sections[i])
    {
      if i == 0 {
        StripAccessibility();
      } else if i == 1 {
        StripWizardForm();
      } else if i == 2 {
        StripSmartFormComponent();
      } else if i == 3 {
        StripFieldArrays();
      } else if i == 4 {
        StripSchemaValidation();
      } else if i == 5 {
        StripConnectForm();
      } else {
        StripFormContextPerformance();
      }
    }
  }

  /** Every section is in the page list, and no two sections share a key. */
  lemma SectionKeysDistinct()
    ensures forall s: Section :: s in Sections
    ensures forall s: Section, t: Section :: Key(s) == Key(t) ==> s == t
  {
    forall s: Section
      ensures s in Sections
    {
      match s
      case Accessibility => assert Sections[0] == s;
      case WizardForm => assert Sections[1] == s;
      case SmartFormComponent => assert Sections[2] == s;
      case FieldArrays => assert Sections[3] == s;
      case SchemaValidation => assert Sections[4] == s;
      case ConnectForm => assert Sections[5] == s;
      case FormContextPerformance => assert Sections[6] == s;
    }
    forall s: Section, t: Section | Key(s) == Key(t)
      ensures s == t
    {
      assert |Key(s)| == |Key(t)|;
      assert Key(s)[0] == Key(t)[0];
    }
  }

  /** The registry's initial keys are exactly the sections' keys. */
  lemma RegistryKeys()
    ensures forall s: Section :: Key(s) in InitialRegistry
    ensures forall k :: k in InitialRegistry ==> exists s: Section :: Key(s) == k
  {
  }

  /**
   * A click on a menu entry never reaches the throwing path: its key is an
   * own property of the registry.
   */
  lemma MenuClicksNeverThrow(registry: Registry, i: nat)
    requires registry.Keys == InitialRegistry.Keys
    requires i < |Links|
    ensures StripSpaces(Links[i]) in registry
    ensures ScrollAsWritten(registry, StripSpaces(Links[i]))
         == match Resolve(registry, StripSpaces(Links[i]))
            case Some(h) => Scrolled(h)
            case None => NotScrolled
  {
    LinkKeys();
    RegistryKeys();
    ScrollAsWrittenAgrees(registry, StripSpaces(Links[i]));
  }

  /** The analytics event of a click on the section with key `key`. */
  function LinkEvent(key: string): (e: Event)
    ensures e.category == "Link" && e.eventLabel == key
    ensures e.action == "Click - Go to " + key + " section"
  {
    Event("Link", key, "Click - Go to " + key + " section")
  }

  /**
   * The outside calls of `goToSection(name)` on address `url`: the history
   * push first, then the analytics event, then the scroll when the key resolves.
   */
  function ClickEffects(url: string, registry: Registry, name: string): (t: seq<Effect>)
    ensures 2 <= |t| <= 3
    ensures t[0] == PushState(Publish(url, StripSpaces(name)))
    ensures t[1] == Track(LinkEvent(StripSpaces(name)))
  {
    var key := StripSpaces(name);
    [PushState(Publish(url, key)), Track(LinkEvent(key))] + ScrollTo(registry, key)
  }

  /**
   * One click adds exactly one history entry, carrying the key as fragment,
   * exactly one event labelled with the key, and one scroll exactly when the
   * registry holds an element for the key.
   */
  lemma ClickLogs(url: string, registry: Registry, name: string)
    ensures Pushes(ClickEffects(url, registry, name)) == [Publish(url, StripSpaces(name))]
    ensures Events(ClickEffects(url, registry, name)) == [LinkEvent(StripSpaces(name))]
    ensures Scrolls(ClickEffects(url, registry, name))
         == match Resolve(registry, StripSpaces(name))
            case Some(h) => [h]
            case None => []
  {
    var key := StripSpaces(name);
    var head: seq<Effect> := [PushState(Publish(url, key)), Track(LinkEvent(key))];
    PushesAppend(head, ScrollTo(registry, key));
    EventsAppend(head, ScrollTo(registry, key));
    ScrollsAppend(head, ScrollTo(registry, key));
  }

  /** A click's calls made one at a time are the click's calls, and add one history entry. */
  lemma ClickSteps(before: seq<Effect>, url: string, registry: Registry, name: string)
    ensures before + [PushState(Publish(url, StripSpaces(name)))] + [Track(LinkEvent(StripSpaces(name)))]
              + ScrollTo(registry, StripSpaces(name))
         == before + ClickEffects(url, registry, name)
    ensures Pushes(before + ClickEffects(url, registry, name))
         == Pushes(before) + [Publish(url, StripSpaces(name))]
  {
    var first: seq<Effect> := [PushState(Publish(url, StripSpaces(name)))];
    var second: seq<Effect> := [Track(LinkEvent(StripSpaces(name)))];
    var rest := ScrollTo(registry, StripSpaces(name));
    assert first + second == [first[0], second[0]];
    assert before + first + second + rest == before + ((first + second) + rest);
    PushesAppend(before, first + second + rest);
    PushesAppend(first + second, rest);
    assert Pushes(first + second) == [first[0].url];
  }

  /**
   * Following a published address: its hash is non-empty exactly when the key
   * is, the mount call gets the key back, and that call pushes the very same
   * address and resolves the same registry entry.
   */
  lemma DeepLinkRoundTrip(url: string, name: string)
    ensures LocationHash(Publish(url, StripSpaces(name))) != "" <==> StripSpaces(name) != ""
    ensures StripSpaces(Substr1(LocationHash(Publish(url, StripSpaces(name))))) == StripSpaces(name)
    ensures Publish(Publish(url, StripSpaces(name)), StripSpaces(Substr1(LocationHash(Publish(url, StripSpaces(name))))))
         == Publish(url, StripSpaces(name))
  {
    var key := StripSpaces(name);
    HashRoundTrip(url, key);
    StripSpacesIdempotent(name);
    PublishSameFragment(Publish(url, key));
  }

  /** No section registers under the name of an inherited object member. */
  lemma ConstructorNotRegistered()
    ensures "constructor" !in InitialRegistry
  {
    forall s: Section
      ensures Key(s) != "constructor"
    {
      assert Key(s)[0] != 'c';
    }
    RegistryKeys();
  }

  /**
   * A deep link to `#constructor` reaches the scroll step with a key the
   * registry lacks but the object inherits: the code as written throws there.
   */
  lemma ConstructorDeepLinkThrows(url: string, registry: Registry)
    requires registry.Keys == InitialRegistry.Keys
    ensures LocationHash(Publish(url, "constructor")) != ""
    ensures ScrollAsWritten(registry, StripSpaces(Substr1(LocationHash(Publish(url, "constructor"))))) == Threw
  {
    HashRoundTrip(url, "constructor");
    StripSpacesKeepsSpaceFree("constructor");
    ConstructorNotRegistered();
    ConstructorKeyThrows(registry);
  }

  /**
   * The page's controller. `href` is `window.location.href`, `trace` the
   * outside calls made so far, `registry` the object `pageContentRef.current`,
   * and `pendingTimers` the deferred mount calls not yet run.
   */
  class Page {
    var href: string
    var trace: seq<Effect>
    var registry: Registry
    var pendingTimers: nat

    /** The registry keeps the seven keys it was created with. */
    ghost predicate Valid()
      reads this
    {
      registry.Keys == InitialRegistry.Keys
    }

    /** First render: the address is whatever the browser loaded. */
    constructor (url: string)
      ensures Valid()
      ensures href == url && trace == [] && registry == InitialRegistry && pendingTimers == 0
    {
      href := url;
      trace := [];
      registry := InitialRegistry;
      pendingTimers := 0;
    }

    /**
     * A section heading's ref callback: React passes the element when the
     * heading mounts and `null` when it unmounts; only that section's key changes.
     */
    method SetRef(s: Section, element: Option<Handle>)
      requires Valid()
      modifies this`registry
      ensures Valid()
      ensures registry == old(registry)[Key(s) := element]
    {
      RegistryKeys();
      registry := registry[Key(s) := element];
    }

    /**
     * `goToSection(name)`: push the rewritten address, report the click, and
     * scroll when the registry holds an element for the key. The registry is
     * only read.
     */
    method GoToSection(name: string)
      modifies this`href, this`trace
      ensures href == Publish(old(href), StripSpaces(name))
      ensures trace == old(trace) + ClickEffects(old(href), registry, name)
      ensures Pushes(trace) == Pushes(old(trace)) + [href]
    {
      ghost var before := trace;
      var url := href;
      var hashIndex := IndexOf(url, '#');
      var filterName := StripSpaces(name);
      if hashIndex < 0 {
        href := url + "#" + filterName;
      } else {
        href := url[..hashIndex] + "#" + filterName;
      }
      assert href == Publish(url, filterName);
      trace := trace + [PushState(href)];
      trace := trace + [Track(LinkEvent(filterName))];
      ghost var tracked := trace;
      var element := Resolve(registry, filterName);
      if element.Some? {
        trace := trace + [ScrollIntoView(element.value)];
      }
      assert trace == tracked + ScrollTo(registry, filterName);
      ClickSteps(before, url, registry, name);
    }

    /**
     * The mount effect: when the address has a non-empty hash, one call is
     * scheduled for later; otherwise nothing happens.
     */
    method MountEffect()
      modifies this`pendingTimers
      ensures pendingTimers == old(pendingTimers) + (if LocationHash(href) != "" then 1 else 0)
    {
      if LocationHash(href) != "" {
        pendingTimers := pendingTimers + 1;
      }
    }

    /**
     * A scheduled mount call runs: it reads `location.hash` NOW, drops its
     * first character and navigates there like a click.
     */
    method FireTimer()
      requires pendingTimers > 0
      modifies this`href, this`trace, this`pendingTimers
      ensures pendingTimers == old(pendingTimers) - 1
      ensures href == Publish(old(href), StripSpaces(Substr1(LocationHash(old(href)))))
      ensures trace == old(trace) + ClickEffects(old(href), registry, Substr1(LocationHash(old(href))))
    {
      pendingTimers := pendingTimers - 1;
      GoToSection(Substr1(LocationHash(href)));
    }
  }

}
