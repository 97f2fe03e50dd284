/**
 * Label normalisation shared by both navigation controllers: the section key
 * `name.replace(/ /g, "")` and the registry key of the get-started page,
 * which is that key lower-cased.
 */
module Text {

  /**
   * A section key (`filterName`): the label with every U+0020 space deleted.
   * Defined on the last character so that concrete labels unfold cheaply.
   */
  function StripSpaces(s: string): (r: string)
    ensures |r| <= |s|
  {
    if s == [] then []
    else
      var c := s[|s| - 1];
      StripSpaces(s[..|s| - 1]) + (if c == ' ' then [] else [c])
  }

  /** Deleting spaces works piece by piece: it keeps the order of the other characters. */
  lemma {:induction false} StripSpacesAppend(a: string, b: string)
    ensures StripSpaces(a + b) == StripSpaces(a) + StripSpaces(b)
  {
    if b == [] {
      assert a + b == a;
    } else {
      assert (a + b)[|a + b| - 1] == b[|b| - 1];
      assert (a + b)[..|a + b| - 1] == a + b[..|b| - 1];
      StripSpacesAppend(a, b[..|b| - 1]);
    }
  }

  /** A key holds no space. */
  lemma {:induction false} StripSpacesHasNoSpace(s: string)
    ensures ' ' !in StripSpaces(s)
  {
    if s != [] {
      StripSpacesHasNoSpace(s[..|s| - 1]);
    }
  }

  /** A label without spaces is its own key. */
  lemma {:induction false} StripSpacesKeepsSpaceFree(s: string)
    requires ' ' !in s
    ensures StripSpaces(s) == s
  {
    if s != [] {
      assert s == s[..|s| - 1] + [s[|s| - 1]];
      StripSpacesKeepsSpaceFree(s[..|s| - 1]);
    }
  }

  /** A label is its own key exactly when it holds no space. */
  lemma StripSpacesFixedPoint(s: string)
    ensures StripSpaces(s) == s <==> ' ' !in s
  {
    StripSpacesHasNoSpace(s);
    if ' ' !in s {
      StripSpacesKeepsSpaceFree(s);
    }
  }

  /** Normalising a key again changes nothing. */
  lemma StripSpacesIdempotent(s: string)
    ensures StripSpaces(StripSpaces(s)) == StripSpaces(s)
  {
    StripSpacesHasNoSpace(s);
    StripSpacesKeepsSpaceFree(StripSpaces(s));
  }

  /** Deleting spaces keeps every other character, as often as it occurs. */
  lemma {:induction false} StripSpacesMultiset(s: string)
    ensures multiset(StripSpaces(s)) == multiset(s)[' ' := 0]
  {
    if s != [] {
      assert s == s[..|s| - 1] + [s[|s| - 1]];
      StripSpacesMultiset(s[..|s| - 1]);
    }
  }

  /** The space between two parts of a label disappears from the key. */
  lemma StripSpacesJoin(a: string, b: string)
    ensures StripSpaces(a + " " + b) == StripSpaces(a) + StripSpaces(b)
  {
    StripSpacesAppend(a + " ", b);
    StripSpacesAppend(a, " ");
  }

  /** The key of a two-word label is the words run together. */
  lemma StripSpacesWords2(a: string, b: string)
    requires ' ' !in a && ' ' !in b
    ensures StripSpaces(a + " " + b) == a + b
  {
    StripSpacesJoin(a, b);
    StripSpacesKeepsSpaceFree(a);
    StripSpacesKeepsSpaceFree(b);
  }

  /** The key of a three-word label is the words run together. */
  lemma StripSpacesWords3(a: string, b: string, c: string)
    requires ' ' !in a && ' ' !in b && ' ' !in c
    ensures StripSpaces(a + " " + b + " " + c) == a + b + c
  {
    StripSpacesJoin(a + " " + b, c);
    StripSpacesWords2(a, b);
    StripSpacesKeepsSpaceFree(c);
  }

  /** The key of a four-word label is the words run together. */
  lemma StripSpacesWords4(a: string, b: string, c: string, d: string)
    requires ' ' !in a && ' ' !in b && ' ' !in c && ' ' !in d
    ensures StripSpaces(a + " " + b + " " + c + " " + d) == a + b + c + d
  {
    StripSpacesJoin(a + " " + b + " " + c, d);
    StripSpacesWords3(a, b, c);
    StripSpacesKeepsSpaceFree(d);
  }

  predicate IsAsciiUpper(c: char) {
    'A' <= c <= 'Z'
  }

  /** ASCII part of `toLowerCase` on one character. */
  function LowerChar(c: char): (r: char)
    ensures !IsAsciiUpper(r)
    ensures IsAsciiUpper(c) ==> r as int == c as int + 32
    ensures !IsAsciiUpper(c) ==> r == c
  {
    if IsAsciiUpper(c) then (c as int + 32) as char else c
  }

  /** `s.toLowerCase()` restricted to ASCII letters. */
  function AsciiLower(s: string): (r: string)
    ensures |r| == |s|
    ensures forall i :: 0 <= i < |s| ==> r[i] == LowerChar(s[i])
  {
    seq(|s|, i requires 0 <= i < |s| => LowerChar(s[i]))
  }

  /** Lower-casing leaves no ASCII capital and doing it twice is doing it once. */
  lemma AsciiLowerIdempotent(s: string)
    ensures forall i :: 0 <= i < |s| ==> !IsAsciiUpper(AsciiLower(s)[i])
    ensures AsciiLower(AsciiLower(s)) == AsciiLower(s)
  {
  }

  /** Lower-casing changes a text exactly when it holds an ASCII capital. */
  lemma AsciiLowerFixedPoint(s: string)
    ensures AsciiLower(s) == s <==> forall i :: 0 <= i < |s| ==> !IsAsciiUpper(s[i])
  {
    if AsciiLower(s) == s {
      AsciiLowerIdempotent(s);
    } else {
      var i :| 0 <= i < |s| && AsciiLower(s)[i] != s[i];
      assert IsAsciiUpper(s[i]);
    }
  }

  /** A space is not a letter, so deleting spaces and lower-casing commute. */
  lemma {:induction false} StripSpacesAsciiLowerCommute(s: string)
    ensures AsciiLower(StripSpaces(s)) == StripSpaces(AsciiLower(s))
  {
    if s != [] {
      var init := s[..|s| - 1];
      var c := s[|s| - 1];
      StripSpacesAsciiLowerCommute(init);
      assert AsciiLower(s)[..|s| - 1] == AsciiLower(init);
      assert AsciiLower(s)[|s| - 1] == LowerChar(c);
      var tail: string := if c == ' ' then [] else [c];
      assert AsciiLower(StripSpaces(init) + tail) == AsciiLower(StripSpaces(init)) + AsciiLower(tail);
    }
  }

  /** The get-started registry key: `name.replace(/ /g, "").toLowerCase()`. */
  function RefName(name: string): (r: string)
    ensures |r| == |StripSpaces(name)|
    ensures ' ' !in r
    ensures forall i :: 0 <= i < |r| ==> !IsAsciiUpper(r[i])
  {
    StripSpacesAsciiLowerCommute(name);
    StripSpacesHasNoSpace(AsciiLower(name));
    AsciiLower(StripSpaces(name))
  }

  /**
   * A published key resolves like the label it came from: feeding the key
   * (space-free, original case) back in gives the same registry key.
   */
  lemma RefNameOfKey(name: string)
    ensures RefName(StripSpaces(name)) == RefName(name)
  {
    StripSpacesIdempotent(name);
  }

}
