# In-page anchor navigation of the documentation site

The documentation site's pages carry a side menu of section labels. Clicking a
label runs `goToSection(name)`:

1. The label becomes a section key by deleting every space.
2. The address is cut at its first `#` and `#key` is appended. The result is
   pushed as a new history entry.
3. An analytics event is reported.
4. The page scrolls to the section when the page's registry (a plain object in
   a React ref, filled by the sections' ref callbacks) holds an element for
   the key.

On mount, an address with a non-empty hash schedules one deferred
`goToSection` with the hash minus its `#`.

The controller exists twice, with differences:

- **"Advanced Usage"** (`src/components/AdvancedUsage.tsx`) pushes first, then
  reports the key.
- **"Get Started"** (`src/pages/get-started.tsx`) reports the label as typed,
  then pushes. It looks the section up under the lower-cased key.

The two mount effects also differ. "Advanced Usage" uses the global
`location`, so its deferred call reads the address when it runs. "Get Started"
uses its `location` prop, so its deferred call replays the hash of the first
render.

Modules:

- `Options`: the optional value.
- `Text`: label normalisation (`StripSpaces`, ASCII `AsciiLower`, `RefName`).
- `Address`: `indexOf`, the fragment, the published address, `location.hash`
  and `substr(1)`.
- `Browser`: the effect trace and the registry. A click's outside calls
  (`pushState`, `track`, `scrollIntoView`) are recorded in one ordered trace,
  so the order of push and report is part of every contract. `Pushes`,
  `Events` and `Scrolls` project the history, analytics and scroll logs out of
  the trace. This module also holds JavaScript property lookup.
- `AdvancedUsage`, `GetStarted`: each page's labels, registry and
  controller class `Page`. The class fields are `href`, `trace`, `registry`
  and the pending deferred calls.
- `Copies`: the two copies compared.

The code departs from the controller's intended design in three places, and
the model follows the code:

- The code pushes a new history entry per click (`pushState`). It does not
  replace the current entry.
- "Advanced Usage" reports the click after the address update, not before it.
- Neither copy cancels the deferred mount call when the user clicks first.
  `Copies.StartedClickDuringMountDelay` shows the consequence: on "Get
  Started" the deferred call undoes the click.

## Model

| member | source | states |
|---|---|---|
| Text.StripSpaces | src/components/AdvancedUsage.tsx:56 | the key is never longer than the label |
| Text.StripSpacesAppend | src/components/AdvancedUsage.tsx:56 | deleting spaces works piece by piece: the key of `a + b` is the key of `a` followed by the key of `b` |
| Text.StripSpacesHasNoSpace | src/components/AdvancedUsage.tsx:56 | a key contains no space |
| Text.StripSpacesKeepsSpaceFree | src/components/AdvancedUsage.tsx:56 | a label without spaces is its own key |
| Text.StripSpacesFixedPoint | src/components/AdvancedUsage.tsx:56 | a label equals its key exactly when it has no space (both directions) |
| Text.StripSpacesIdempotent | src/components/AdvancedUsage.tsx:56 | normalising a key again changes nothing |
| Text.StripSpacesMultiset | src/components/AdvancedUsage.tsx:56 | the key keeps every non-space character as often as the label has it, and no space |
| Text.StripSpacesJoin | src/components/AdvancedUsage.tsx:56 | the space between two parts of a label disappears and both parts' keys are kept in order |
| Text.StripSpacesWords2 | src/components/AdvancedUsage.tsx:56 | the key of two space-free words joined by a space is the words run together |
| Text.StripSpacesWords3 | src/components/AdvancedUsage.tsx:56 | the same for three words |
| Text.StripSpacesWords4 | src/pages/get-started.tsx:71 | the same for four words |
| Text.LowerChar | src/pages/get-started.tsx:79 | an ASCII capital moves 32 code points down to its small letter; other characters are unchanged; no capital remains |
| Text.AsciiLower | src/pages/get-started.tsx:79 | lower-casing keeps the length and lower-cases each character in place |
| Text.AsciiLowerIdempotent | src/pages/get-started.tsx:79 | no capital remains and lower-casing twice is lower-casing once |
| Text.AsciiLowerFixedPoint | src/pages/get-started.tsx:79 | lower-casing leaves a text unchanged exactly when it holds no ASCII capital |
| Text.StripSpacesAsciiLowerCommute | src/pages/get-started.tsx:79 | deleting spaces and lower-casing commute |
| Text.RefName | src/pages/get-started.tsx:79 | the registry key has the key's length, no space and no capital |
| Text.RefNameOfKey | src/pages/get-started.tsx:71-79 | the published fragment gives the same registry key as the label it came from |
| Address.IndexOf | src/components/AdvancedUsage.tsx:55 | `indexOf("#")` is -1 exactly when there is no `#`; otherwise it is a `#` with none before it |
| Address.IndexOfFirstHash | src/components/AdvancedUsage.tsx:55 | in `a#b` with `a` free of `#`, the first `#` is the one after `a` |
| Address.Base | src/components/AdvancedUsage.tsx:58-61 | the text kept from the old address is a prefix without `#`, and the whole address when it has no `#` |
| Address.Fragment | src/components/AdvancedUsage.tsx:55 | an address has a fragment exactly when it has a `#`, and it is the prefix, `#` and the fragment |
| Address.Publish | src/components/AdvancedUsage.tsx:54-62 | the pushed address is the text before the first `#`, then `#`, then the key |
| Address.PublishKeepsBase | src/components/AdvancedUsage.tsx:58-62 | origin, path and query are kept exactly, and the new fragment is the key alone |
| Address.PublishWithoutFragment | src/components/AdvancedUsage.tsx:58-59 | without an old `#` the key is appended to the whole address |
| Address.PublishReplacesFragment | src/components/AdvancedUsage.tsx:60-61 | an old fragment is replaced and never appended to: only the last key survives |
| Address.PublishSameFragment | src/components/AdvancedUsage.tsx:54-62 | publishing the fragment an address already carries leaves the address as it is |
| Address.LocationHash | src/components/AdvancedUsage.tsx:76 | `location.hash` is empty exactly when there is no fragment or an empty one; otherwise it is `#` and the fragment |
| Address.Substr1 | src/components/AdvancedUsage.tsx:77 | `substr(1)` drops exactly the first character |
| Address.HashRoundTrip | src/components/AdvancedUsage.tsx:76-77 | the published address has a non-empty hash exactly when the key is non-empty, and dropping the `#` gives the key back |
| Browser.Pushes | src/components/AdvancedUsage.tsx:59 | the history log has at most one entry per call |
| Browser.Events | src/components/AdvancedUsage.tsx:64-68 | the analytics log has at most one entry per call |
| Browser.Scrolls | src/components/AdvancedUsage.tsx:71 | the scroll log has at most one entry per call |
| Browser.PushesAppend | src/components/AdvancedUsage.tsx:58-62 | the history log of a run is that of its parts, in order |
| Browser.EventsAppend | src/components/AdvancedUsage.tsx:64-68 | the analytics log of a run is that of its parts, in order |
| Browser.ScrollsAppend | src/components/AdvancedUsage.tsx:70-72 | the scroll log of a run is that of its parts, in order |
| Browser.Resolve | src/components/AdvancedUsage.tsx:70 | a key resolves exactly when it is an own property holding an element, and to that element; a missing key or `null` resolves to nothing and nothing fails |
| Browser.ScrollTo | src/components/AdvancedUsage.tsx:70-72 | the scroll step pushes nothing and reports nothing; it scrolls to the resolved element and is empty when the key does not resolve |
| Browser.GetProperty | src/components/AdvancedUsage.tsx:70 | `obj[key]` reads an own property exactly when the key is one, and an inherited member exactly when the key is not own but names an `Object.prototype` member |
| Browser.ScrollAsWritten | src/components/AdvancedUsage.tsx:70-71 | the truthiness test and call as written throw exactly on inherited names, and scroll exactly when the key resolves |
| Browser.ConstructorKeyThrows | src/components/AdvancedUsage.tsx:70-71 | with no own `constructor` key, the scroll step on `constructor` throws, while own-property lookup finds nothing |
| Browser.ScrollAsWrittenAgrees | src/components/AdvancedUsage.tsx:70-72 | on own keys and non-inherited names the code as written scrolls exactly as own-property lookup says |
| AdvancedUsage.LinkKeys | src/components/AdvancedUsage.tsx:32-51 | seven labels and seven sections; the i-th label's key is the i-th section's registry key |
| AdvancedUsage.SectionKeysDistinct | src/components/AdvancedUsage.tsx:43-51 | every section is listed, and no two sections share a key |
| AdvancedUsage.RegistryKeys | src/components/AdvancedUsage.tsx:43-51 | the registry starts with exactly the sections' keys |
| AdvancedUsage.MenuClicksNeverThrow | src/components/AdvancedUsage.tsx:32-51 | a menu label's key is an own property of the registry, so the scroll step as written behaves as own-property lookup |
| AdvancedUsage.LinkEvent | src/components/AdvancedUsage.tsx:64-68 | the event has category `Link`, the key as label and the action `Click - Go to <key> section` |
| AdvancedUsage.ClickEffects | src/components/AdvancedUsage.tsx:53-73 | a click makes two or three calls: first the push of the published address, then the event for the key |
| AdvancedUsage.ClickLogs | src/components/AdvancedUsage.tsx:53-73 | a click adds exactly one history entry, one event, and one scroll exactly when the key resolves |
| AdvancedUsage.ClickSteps | src/components/AdvancedUsage.tsx:58-72 | the calls made one at a time are the click's calls, and the history log grows by the new address |
| AdvancedUsage.DeepLinkRoundTrip | src/components/AdvancedUsage.tsx:75-77 | a published address read back on mount has a hash exactly when the key is non-empty, yields the same key, and pushes the same address again |
| AdvancedUsage.ConstructorNotRegistered | src/components/AdvancedUsage.tsx:43-51 | no section registers under `constructor` |
| AdvancedUsage.ConstructorDeepLinkThrows | src/components/AdvancedUsage.tsx:70-71 | a deep link to `#constructor` reaches the scroll step as written, which throws |
| AdvancedUsage.Page.constructor | src/components/AdvancedUsage.tsx:43-51 | first render: the loaded address, an empty trace, the seven keys all `null`, nothing pending |
| AdvancedUsage.Page.SetRef | src/components/AdvancedUsage.tsx:92 | a ref callback writes its own section's key and nothing else; the registry keeps its seven keys |
| AdvancedUsage.Page.GoToSection | src/components/AdvancedUsage.tsx:53-73 | the address becomes the published address, the trace grows by the click's calls, the history log grows by one entry, and the registry is untouched |
| AdvancedUsage.Page.MountEffect | src/components/AdvancedUsage.tsx:75-78 | one deferred call is scheduled exactly when the hash is non-empty |
| AdvancedUsage.Page.FireTimer | src/components/AdvancedUsage.tsx:77 | a deferred call reads the hash when it runs and clicks on the hash minus its `#` |
| GetStarted.LinkKeys | src/pages/get-started.tsx:31-60 | eight labels and eight sections; the i-th label's lower-cased key is the i-th section's registry key |
| GetStarted.SectionKeysDistinct | src/pages/get-started.tsx:51-60 | every section is listed, and no two sections share a key |
| GetStarted.RegistryKeys | src/pages/get-started.tsx:51-60 | the registry starts with exactly the sections' keys |
| GetStarted.MenuClicksNeverThrow | src/pages/get-started.tsx:31-60 | a menu label's registry key is an own property, so the scroll step as written behaves as own-property lookup |
| GetStarted.AnchorEvent | src/pages/get-started.tsx:63-67 | the event has category `Anchors Link`, the label as typed and the action `Click - Go to section <label>` |
| GetStarted.ClickEffects | src/pages/get-started.tsx:62-84 | a click makes two or three calls: first the event for the label, then the push of the address with the space-free key |
| GetStarted.ClickLogs | src/pages/get-started.tsx:62-84 | a click adds one event, one history entry, and one scroll exactly when the lower-cased key resolves |
| GetStarted.ClickSteps | src/pages/get-started.tsx:63-83 | the calls made one at a time are the click's calls, and the history log grows by the new address |
| GetStarted.DeepLinkRoundTrip | src/pages/get-started.tsx:86-88 | a published address read back on mount yields the key, which gives the same registry key as the label and pushes the same address again |
| GetStarted.LowerConstructor | src/pages/get-started.tsx:79 | `Constructor` lower-cases onto the inherited name `constructor` |
| GetStarted.ConstructorNotRegistered | src/pages/get-started.tsx:51-60 | no section registers under `constructor` |
| GetStarted.ConstructorDeepLinkThrows | src/pages/get-started.tsx:79-82 | a deep link to `#Constructor` reaches the scroll step as written, which throws |
| GetStarted.Page.constructor | src/pages/get-started.tsx:51-60 | first render: the loaded address, its hash kept by the mount effect, an empty trace, the eight keys all `null` |
| GetStarted.Page.SetRef | src/pages/get-started.tsx:104 | a ref callback writes its own section's key and nothing else; the registry keeps its eight keys |
| GetStarted.Page.GoToSection | src/pages/get-started.tsx:62-84 | the address becomes the published address, the trace grows by the click's calls, the history log grows by one entry, and the registry is untouched |
| GetStarted.Page.MountEffect | src/pages/get-started.tsx:86-89 | one deferred call is scheduled exactly when the first render's hash is non-empty |
| GetStarted.Page.FireTimer | src/pages/get-started.tsx:88 | a deferred call clicks on the first render's hash minus its `#` |
| Copies.SameHistoryEntry | src/components/AdvancedUsage.tsx:54-62 | both pages push the same single history entry for the same label and address |
| Copies.SameEventLabel | src/pages/get-started.tsx:65 | the two pages' event labels agree exactly when the label has no space |
| Copies.SameRegistryKey | src/pages/get-started.tsx:79 | the two pages look a label up under the same key exactly when its key has no ASCII capital |
| Copies.AdvancedClickDuringMountDelay | src/components/AdvancedUsage.tsx:75-77 | with a hash loaded and a click before the deferred call, "Advanced Usage" ends on the clicked section's address |
| Copies.StartedClickDuringMountDelay | src/pages/get-started.tsx:86-88 | in the same situation "Get Started" ends on the loaded hash's address, undoing the click |

The ref callbacks of the other sections have the same form as the ones cited
for `SetRef`: src/components/AdvancedUsage.tsx lines 130, 187, 244, 270, 320
and 341, and src/pages/get-started.tsx lines 116, 136, 165, 222, 237, 262 and
276. The per-label lemmas `AdvancedUsage.Strip…` and `GetStarted.RefName…`
are the steps of the two `LinkKeys` proofs.

## Left out

- Rendering, layout, prose and code samples on both pages, the side menu's
  own markup, and src/components/ApiFormState.tsx: they have no behaviour.
- The internals of `track`, `scrollIntoView` and `history.pushState`. Each
  call is recorded in the trace with its argument. The pushed state object,
  the title argument and the smooth-scroll option are not recorded.
- The 10 ms delay of `setTimeout`. A scheduled call is a pending counter, and
  `FireTimer` runs one call at a moment the caller chooses.
- `console.log(refName)` in src/pages/get-started.tsx:80: it has no effect
  the page depends on.
- The copy-to-clipboard handler and its `alert` in
  src/components/AdvancedUsage.tsx: they are not part of navigation.
- Text.AsciiLower: lower-cases ASCII capitals only, not the full Unicode
  `toLowerCase` mapping. All labels of both pages are ASCII.
- Text.RefName: inherits that restriction.
- The browser's own serialisation of the address. Percent-encoding, and the
  normalisation `pushState` applies to a URL, are not modelled: an address is
  the text of `location.href`.
- Browser.ObjectPrototypeMembers: lists the standard members of
  `Object.prototype`. Engine-specific extras are not covered.
- Unmounting a page while a deferred call is pending. No such guard exists
  in the code, and the model does not follow the page's lifetime.

## Findings

| source | as written | input that shows it | evidently intended | confidence | as-written member | corrected member |
|---|---|---|---|---|---|---|
| src/components/AdvancedUsage.tsx:70-71 | `pageContentRef.current[filterName]` also reads members inherited from `Object.prototype`. Such a member is truthy and has no `scrollIntoView`, so the call throws a TypeError. | an address ending in `#constructor` (or `#toString`, `#valueOf`, …), followed on mount | a key that is not a section scrolls nowhere and raises nothing | high; not executed | AdvancedUsage.ConstructorDeepLinkThrows | Browser.ScrollAsWrittenAgrees |
| src/pages/get-started.tsx:81-82 | the same lookup on `sectionsRef.current[refName]`. Because of lower-casing, `#Constructor` reaches it too. | an address ending in `#Constructor` or `#constructor`, followed on mount | the same | high; not executed | GetStarted.ConstructorDeepLinkThrows | Browser.Resolve |

In both classes `GoToSection` uses the corrected own-property lookup
`Browser.Resolve`. `Browser.ScrollAsWrittenAgrees` proves it matches the code
as written away from inherited names. `MenuClicksNeverThrow` proves that menu
clicks never reach an inherited name, so the difference only arises for deep
links.
