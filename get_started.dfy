/**
 * The navigation controller of the "Get Started" page: the same side menu
 * and `goToSection` as the "Advanced Usage" page, except that the click is
 * reported before the address changes, the event carries the label as
 * typed, the registry `sectionsRef` is keyed by the lower-cased key, and the
 * mount effect reads the hash of the `location` prop of the first render.
 */
module GetStarted {
  import opened Options
  import opened Text
  import opened Address
  import opened Browser

  /**
   * The side-menu labels, in menu order. Each label is written as its words
   * joined by single spaces, which is the same string.
   */
  const Links: seq<string> := [
    "Quick" + " " + "start",
    "Video" + " " + "tutorial",
    "Register" + " " + "fields",
    "Apply" + " " + "validation",
    "Adapting" + " " + "existing" + " " + "form",
    "Work" + " " + "with" + " " + "UI" + " " + "library",
    "Integrate" + " " + "global" + " " + "state",
    "Handle" + " " + "errors"
  ]

  /** The sections that register themselves. */
  datatype Section =
    | QuickStart
    | VideoTutorial
    | RegisterFields
    | ApplyValidation
    | AdaptingExistingForm
    | WorkWithUiLibrary
    | IntegrateGlobalState
    | HandleErrors

  /** The sections in page order, which is also menu order. */
  const Sections: seq<Section> := [
    QuickStart, VideoTutorial, RegisterFields, ApplyValidation,
    AdaptingExistingForm, WorkWithUiLibrary, IntegrateGlobalState, HandleErrors
  ]

  /** The registry property a section's ref callback writes, written as its words run together. */
  function Key(s: Section): string {
    match s
    case QuickStart => "quick" + "start"
    case VideoTutorial => "video" + "tutorial"
    case RegisterFields => "register" + "fields"
    case ApplyValidation => "apply" + "validation"
    case AdaptingExistingForm => "adapting" + "existing" + "form"
    case WorkWithUiLibrary => "work" + "with" + "ui" + "library"
    case IntegrateGlobalState => "integrate" + "global" + "state"
    case HandleErrors => "handle" + "errors"
  }

  /** The registry as `useRef` creates it: the eight keys, each `null`. */
  const InitialRegistry: Registry := map[
    Key(QuickStart) := None,
    Key(VideoTutorial) := None,
    Key(AdaptingExistingForm) := None,
    Key(WorkWithUiLibrary) := None,
    Key(IntegrateGlobalState) := None,
    Key(HandleErrors) := None,
    Key(RegisterFields) := None,
    Key(ApplyValidation) := None
  ]

  // The registry key of each menu label, one label at a time.

  lemma RefNameQuickStart()
    ensures RefName("Quick" + " " + "start") == "quick" + "start"
  {
    StripSpacesWords2("Quick", "start");
  }

  lemma RefNameVideoTutorial()
    ensures RefName("Video" + " " + "tutorial") == "video" + "tutorial"
  {
    StripSpacesWords2("Video", "tutorial");
  }

  lemma RefNameRegisterFields()
    ensures RefName("Register" + " " + "fields") == "register" + "fields"
  {
    StripSpacesWords2("Register", "fields");
  }

  lemma RefNameApplyValidation()
    ensures RefName("Apply" + " " + "validation") == "apply" + "validation"
  {
    StripSpacesWords2("Apply", "validation");
  }

  lemma RefNameAdaptingExistingForm()
    ensures RefName("Adapting" + " " + "existing" + " " + "form") == "adapting" + "existing" + "form"
  {
    StripSpacesWords3("Adapting", "existing", "form");
  }

  lemma RefNameWorkWithUiLibrary()
    ensures RefName("Work" + " " + "with" + " " + "UI" + " " + "library") == "work" + "with" + "ui" + "library"
  {
    StripSpacesWords4("Work", "with", "UI", "library");
  }

  lemma RefNameIntegrateGlobalState()
    ensures RefName("Integrate" + " " + "global" + " " + "state") == "integrate" + "global" + "state"
  {
    StripSpacesWords3("Integrate", "global", "state");
  }

  lemma RefNameHandleErrors()
    ensures RefName("Handle" + " " + "errors") == "handle" + "errors"
  {
    StripSpacesWords2("Handle", "errors");
  }

  /**
   * Menu and registry agree: the registry key computed from the i-th label
   * is the key of the i-th section.
   */
  lemma LinkKeys()
    ensures |Links| == |Sections| == 8
    ensures forall i :: 0 <= i < |Links| ==> RefName(Links[i]) == Key(Sections[i])
  {
    forall i | 0 <= i < |Links|
      ensures RefName(Links[i]) == Key(Sections[i])
    {
      if i == 0 {
        RefNameQuickStart();
      } else if i == 1 {
        RefNameVideoTutorial();
      } else if i == 2 {
        RefNameRegisterFields();
      } else if i == 3 {
        RefNameApplyValidation();
      } else if i == 4 {
        RefNameAdaptingExistingForm();
      } else if i == 5 {
        RefNameWorkWithUiLibrary();
      } else if i == 6 {
        RefNameIntegrateGlobalState();
      } else {
        RefNameHandleErrors();
      }
    }
  }

  /** Every section is in the page list, and no two sections share a key. */
  lemma SectionKeysDistinct()
    ensures forall s: Section :: s in Sections
    ensures forall s: Section, t: Section :: Key(s) == Key(t) ==> s == t
  {
    forall s: Section
      ensures s in Sections
    {
      match s
      case QuickStart => assert Sections[0] == s;
      case VideoTutorial => assert Sections[1] == s;
      case RegisterFields => assert Sections[2] == s;
      case ApplyValidation => assert Sections[3] == s;
      case AdaptingExistingForm => assert Sections[4] == s;
      case WorkWithUiLibrary => assert Sections[5] == s;
      case IntegrateGlobalState => assert Sections[6] == s;
      case HandleErrors => assert Sections[7] == s;
    }
    forall s: Section, t: Section | Key(s) == Key(t)
      ensures s == t
    {
      assert |Key(s)| == |Key(t)|;
      assert Key(s)[0] == Key(t)[0];
    }
  }

  /** The registry's initial keys are exactly the sections' keys. */
  lemma RegistryKeys()
    ensures forall s: Section :: Key(s) in InitialRegistry
    ensures forall k :: k in InitialRegistry ==> exists s: Section :: Key(s) == k
  {
  }

  /**
   * A click on a menu entry never reaches the throwing path: its registry
   * key is an own property of the registry.
   */
  lemma MenuClicksNeverThrow(registry: Registry, i: nat)
    requires registry.Keys == InitialRegistry.Keys
    requires i < |Links|
    ensures RefName(Links[i]) in registry
    ensures ScrollAsWritten(registry, RefName(Links[i]))
         == match Resolve(registry, RefName(Links[i]))
            case Some(h) => Scrolled(h)
            case None => NotScrolled
  {
    LinkKeys();
    RegistryKeys();
    ScrollAsWrittenAgrees(registry, RefName(Links[i]));
  }

  /** The analytics event of a click on the label `name`, reported as typed. */
  function AnchorEvent(name: string): (e: Event)
    ensures e.category == "Anchors Link" && e.eventLabel == name
    ensures e.action == "Click - Go to section " + name
  {
    Event("Anchors Link", name, "Click - Go to section " + name)
  }

  /**
   * The outside calls of `goToSection(name)` on address `url`: the analytics
   * event first, then the history push with the space-free key, then the
   * scroll when the lower-cased key resolves.
   */
  function ClickEffects(url: string, registry: Registry, name: string): (t: seq<Effect>)
    ensures 2 <= |t| <= 3
    ensures t[0] == Track(AnchorEvent(name))
    ensures t[1] == PushState(Publish(url, StripSpaces(name)))
  {
    [Track(AnchorEvent(name)), PushState(Publish(url, StripSpaces(name)))]
      + ScrollTo(registry, RefName(name))
  }

  /**
   * One click reports exactly one event labelled with the label as typed,
   * adds exactly one history entry carrying the space-free key as fragment,
   * and scrolls once exactly when the registry holds an element under the
   * lower-cased key.
   */
  lemma ClickLogs(url: string, registry: Registry, name: string)
    ensures Events(ClickEffects(url, registry, name)) == [AnchorEvent(name)]
    ensures Pushes(ClickEffects(url, registry, name)) == [Publish(url, StripSpaces(name))]
    ensures Scrolls(ClickEffects(url, registry, name))
         == match Resolve(registry, RefName(name))
            case Some(h) => [h]
            case None => []
  {
    var head: seq<Effect> := [Track(AnchorEvent(name)), PushState(Publish(url, StripSpaces(name)))];
    PushesAppend(head, ScrollTo(registry, RefName(name)));
    EventsAppend(head, ScrollTo(registry, RefName(name)));
    ScrollsAppend(head, ScrollTo(registry, RefName(name)));
  }

  /** A click's calls made one at a time are the click's calls, and add one history entry. */
  lemma ClickSteps(before: seq<Effect>, url: string, registry: Registry, name: string)
    ensures before + [Track(AnchorEvent(name))] + [PushState(Publish(url, StripSpaces(name)))]
              + ScrollTo(registry, RefName(name))
         == before + ClickEffects(url, registry, name)
    ensures Pushes(before + ClickEffects(url, registry, name))
         == Pushes(before) + [Publish(url, StripSpaces(name))]
  {
    var first: seq<Effect> := [Track(AnchorEvent(name))];
    var second: seq<Effect> := [PushState(Publish(url, StripSpaces(name)))];
    var rest := ScrollTo(registry, RefName(name));
    assert first + second == [first[0], second[0]];
    assert before + first + second + rest == before + ((first + second) + rest);
    PushesAppend(before, first + second + rest);
    PushesAppend(first + second, rest);
    assert Pushes(first + second) == [second[0].url];
  }

  /**
   * Following a published address: the mount call gets the space-free key
   * back (in the label's case), which lower-cases to the same registry key
   * as the label and pushes the very same address again.
   */
  lemma DeepLinkRoundTrip(url: string, name: string)
    ensures LocationHash(Publish(url, StripSpaces(name))) != "" <==> StripSpaces(name) != ""
    ensures Substr1(LocationHash(Publish(url, StripSpaces(name)))) == StripSpaces(name)
    ensures RefName(Substr1(LocationHash(Publish(url, StripSpaces(name))))) == RefName(name)
    ensures Publish(Publish(url, StripSpaces(name)), StripSpaces(Substr1(LocationHash(Publish(url, StripSpaces(name))))))
         == Publish(url, StripSpaces(name))
  {
    var key := StripSpaces(name);
    HashRoundTrip(url, key);
    StripSpacesIdempotent(name);
    RefNameOfKey(name);
    PublishSameFragment(Publish(url, key));
  }

  /** The capitalised name of an inherited object member lower-cases onto it. */
  lemma LowerConstructor()
    ensures RefName("Constructor") == "constructor"
  {
    StripSpacesKeepsSpaceFree("Constructor");
  }

  /** No section registers under the name of an inherited object member. */
  lemma ConstructorNotRegistered()
    ensures "constructor" !in InitialRegistry
  {
    forall s: Section
      ensures Key(s) != "constructor"
    {
      assert Key(s)[0] != 'c';
    }
    RegistryKeys();
  }

  /**
   * A deep link to `#Constructor` reaches the scroll step with a key the
   * registry lacks but the object inherits: the code as written throws there.
   */
  lemma ConstructorDeepLinkThrows(url: string, registry: Registry)
    requires registry.Keys == InitialRegistry.Keys
    ensures LocationHash(Publish(url, "Constructor")) != ""
    ensures ScrollAsWritten(registry, RefName(Substr1(LocationHash(Publish(url, "Constructor"))))) == Threw
  {
    HashRoundTrip(url, "Constructor");
    LowerConstructor();
    ConstructorNotRegistered();
    ConstructorKeyThrows(registry);
  }

  /**
   * The page's controller. `href` is `window.location.href`; `locationHash`
   * is the hash of the `location` prop as the mount effect's closure saw it
   * on the first render; `trace` the outside calls made so far; `registry`
   * the object `sectionsRef.current`; `pendingTimers` the deferred mount
   * calls not yet run.
   */
  class Page {
    var href: string
    const locationHash: string
    var trace: seq<Effect>
    var registry: Registry
    var pendingTimers: nat

    /** The registry keeps the eight keys it was created with. */
    ghost predicate Valid()
      reads this
    {
      registry.Keys == InitialRegistry.Keys
    }

    /** First render: the router's `location` is the address the browser loaded. */
    constructor (url: string)
      ensures Valid()
      ensures href == url && locationHash == LocationHash(url)
      ensures trace == [] && registry == InitialRegistry && pendingTimers == 0
    {
      href := url;
      locationHash := LocationHash(url);
      trace := [];
      registry := InitialRegistry;
      pendingTimers := 0;
    }

    /**
     * A section's ref callback: React passes the element when it mounts and
     * `null` when it unmounts; only that section's key changes.
     */
    method SetRef(s: Section, element: Option<Handle>)
      requires Valid()
      modifies this`registry
      ensures Valid()
      ensures registry == old(registry)[Key(s) := element]
    {
      RegistryKeys();
      registry := registry[Key(s) := element];
    }

    /**
     * `goToSection(name)`: report the click, push the rewritten address, and
     * scroll when the registry holds an element for the lower-cased key. The
     * registry is only read.
     */
    method GoToSection(name: string)
      modifies this`href, this`trace
      ensures href == Publish(old(href), StripSpaces(name))
      ensures trace == old(trace) + ClickEffects(old(href), registry, name)
      ensures Pushes(trace) == Pushes(old(trace)) + [href]
    {
      ghost var before := trace;
      trace := trace + [Track(AnchorEvent(name))];
      var url := href;
      var hashIndex := IndexOf(url, '#');
      var filterName := StripSpaces(name);
      if hashIndex < 0 {
        href := url + "#" + filterName;
      } else {
        href := url[..hashIndex] + "#" + filterName;
      }
      assert href == Publish(url, filterName);
      trace := trace + [PushState(href)];
      ghost var pushed := trace;
      var refName := RefName(name);
      var element := Resolve(registry, refName);
      if element.Some? {
        trace := trace + [ScrollIntoView(element.value)];
      }
      assert trace == pushed + ScrollTo(registry, refName);
      ClickSteps(before, url, registry, name);
    }

    /**
     * The mount effect: when the first render's hash is non-empty, one call
     * is scheduled for later; otherwise nothing happens.
     */
    method MountEffect()
      modifies this`pendingTimers
      ensures pendingTimers == old(pendingTimers) + (if locationHash != "" then 1 else 0)
    {
      if locationHash != "" {
        pendingTimers := pendingTimers + 1;
      }
    }

    /**
     * A scheduled mount call runs: it navigates to the first render's hash
     * without its `#`, whatever clicks happened in between.
     */
    method FireTimer()
      requires pendingTimers > 0
      modifies this`href, this`trace, this`pendingTimers
      ensures pendingTimers == old(pendingTimers) - 1
      ensures href == Publish(old(href), StripSpaces(Substr1(locationHash)))
      ensures trace == old(trace) + ClickEffects(old(href), registry, Substr1(locationHash))
    {
      pendingTimers := pendingTimers - 1;
      GoToSection(Substr1(locationHash));
    }
  }

}
