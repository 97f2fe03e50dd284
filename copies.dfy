/**
 * The two copies of the navigation controller side by side: where they agree
 * and where they differ for the same click and the same address.
 */
module Copies {
  import opened Text
  import opened Address
  import opened Browser
  import AdvancedUsage
  import GetStarted

  /** Both pages push the same history entry for the same label on the same address. */
  lemma SameHistoryEntry(url: string, advanced: Registry, started: Registry, name: string)
    ensures Pushes(AdvancedUsage.ClickEffects(url, advanced, name))
         == Pushes(GetStarted.ClickEffects(url, started, name))
         == [Publish(url, StripSpaces(name))]
  {
    AdvancedUsage.ClickLogs(url, advanced, name);
    GetStarted.ClickLogs(url, started, name);
  }

  /**
   * The pages report a click under the same label exactly when the label has
   * no space: one reports the key, the other the label as typed.
   */
  lemma SameEventLabel(name: string)
    ensures AdvancedUsage.LinkEvent(StripSpaces(name)).eventLabel == GetStarted.AnchorEvent(name).eventLabel
        <==> ' ' !in name
  {
    StripSpacesFixedPoint(name);
  }

  /**
   * The pages look a label up under the same registry key exactly when its
   * key holds no ASCII capital.
   */
  lemma SameRegistryKey(name: string)
    ensures RefName(name) == StripSpaces(name)
        <==> forall i :: 0 <= i < |StripSpaces(name)| ==> !IsAsciiUpper(StripSpaces(name)[i])
  {
    AsciiLowerFixedPoint(StripSpaces(name));
  }

  /**
   * "Advanced Usage" loaded with a hash, a menu click before the deferred
   * mount call runs, then that call: it re-reads the address and stays on
   * the clicked section.
   */
  method AdvancedClickDuringMountDelay(url: string, name: string) returns (final: string)
    requires LocationHash(url) != ""
    ensures final == Publish(url, StripSpaces(name))
  {
    var page := new AdvancedUsage.Page(url);
    page.MountEffect();
    page.GoToSection(name);
    var key := StripSpaces(name);
    assert page.href == Publish(url, key);
    HashRoundTrip(url, key);
    StripSpacesIdempotent(name);
    assert StripSpaces(Substr1(LocationHash(page.href))) == key;
    PublishReplacesFragment(url, key, key);
    page.FireTimer();
    final := page.href;
  }

  /**
   * "Get Started" in the same situation: the deferred call replays the hash
   * the page loaded with and undoes the click.
   */
  method StartedClickDuringMountDelay(url: string, name: string) returns (final: string)
    requires LocationHash(url) != ""
    ensures final == Publish(url, StripSpaces(Substr1(LocationHash(url))))
  {
    var page := new GetStarted.Page(url);
    page.MountEffect();
    page.GoToSection(name);
    assert page.href == Publish(url, StripSpaces(name));
    PublishReplacesFragment(url, StripSpaces(name), StripSpaces(Substr1(LocationHash(url))));
    page.FireTimer();
    final := page.href;
  }
}
