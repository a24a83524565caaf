/** The interface language (Frontend/src/contexts/LanguageContext.jsx):
    English or Hindi, kept in the browser's storage, and `translate`, which
    looks a text up in the chosen language's dictionary after normalising
    its whitespace. The storage is the field `stored`; the dictionaries are
    a parameter. Texts are strings: the non-string keys `translate` also
    accepts are not modelled. */
module LanguageContext {
  import opened Common

  // ---------------------------------------------------------------------
  // Key normalisation
  // ---------------------------------------------------------------------

  /** Every whitespace character is a plain space and none follows
      another. */
  predicate Collapsed(s: string) {
    && (forall i :: 0 <= i < |s| && IsSpace(s[i]) ==> s[i] == ' ')
    && (forall i :: 0 <= i < |s| - 1 && IsSpace(s[i]) ==> !IsSpace(s[i + 1]))
  }

  /** `s.replace(/\s+/g, " ")`: each run of whitespace becomes one space. */
  function Collapse(s: string): (r: string)
    ensures Collapsed(r)
    ensures s != [] ==> r != [] && (IsSpace(r[0]) <==> IsSpace(s[0]))
    ensures s != [] && !IsSpace(s[0]) ==> r[0] == s[0]
    decreases |s|
  {
    if s == [] then []
    else if IsSpace(s[0]) then " " + Collapse(TrimStart(s[1..]))
    else [s[0]] + Collapse(s[1..])
  }

  function NotSpace(): char -> bool {
    c => !IsSpace(c)
  }

  /** Dropping leading whitespace keeps every other character. */
  lemma TrimStartKeepsText(s: string)
    ensures Filter(TrimStart(s), NotSpace()) == Filter(s, NotSpace())
  {
    var r := TrimStart(s);
    var blanks := s[..|s| - |r|];
    assert s == blanks + r;
    FilterAppend(blanks, r, NotSpace());
    assert forall i :: 0 <= i < |blanks| ==> !NotSpace()(blanks[i]);
    FilterNone(blanks, NotSpace());
  }

  lemma {:induction false} FilterNone(s: string, p: char -> bool)
    requires forall i :: 0 <= i < |s| ==> !p(s[i])
    ensures Filter(s, p) == []
  {
    if s != [] {
      FilterNone(s[1..], p);
    }
  }

  /** Collapsing changes whitespace only: the other characters stay, in
      order. */
  lemma {:induction false} CollapseKeepsText(s: string)
    ensures Filter(Collapse(s), NotSpace()) == Filter(s, NotSpace())
    decreases |s|
  {
    if s != [] {
      var r := Collapse(s);
      if IsSpace(s[0]) {
        CollapseKeepsText(TrimStart(s[1..]));
        TrimStartKeepsText(s[1..]);
        assert r == " " + Collapse(TrimStart(s[1..]));
        assert r[1..] == Collapse(TrimStart(s[1..]));
      } else {
        CollapseKeepsText(s[1..]);
        assert r[1..] == Collapse(s[1..]);
      }
    }
  }

  /** A collapsed string is left as it is. */
  lemma {:induction false} CollapseFixesCollapsed(s: string)
    requires Collapsed(s)
    ensures Collapse(s) == s
    decreases |s|
  {
    if s != [] {
      assert Collapsed(s[1..]);
      if IsSpace(s[0]) {
        assert TrimStart(s[1..]) == s[1..];
        CollapseFixesCollapsed(s[1..]);
      } else {
        CollapseFixesCollapsed(s[1..]);
      }
    }
  }

  /** `normalizeKey` on a string: runs of whitespace collapsed, the ends
      trimmed. */
  function NormalizeKey(s: string): (k: string)
    ensures Collapsed(k)
    ensures k == [] || (!IsSpace(k[0]) && !IsSpace(k[|k| - 1]))
  {
    var c := Collapse(s);
    TrimIsSlice(c);
    Trim(c)
  }

  /** `trim` returns a slice of its input, so trimming a collapsed
      string leaves it collapsed. */
  lemma TrimIsSlice(s: string)
    ensures Collapsed(s) ==> Collapsed(Trim(s))
  {
    var t := TrimStart(s);
    var r := TrimEnd(t);
    if Collapsed(s) {
      SliceCollapsed(s, |s| - |t|, |s|);
      SliceCollapsed(t, 0, |r|);
    }
  }

  lemma SliceCollapsed(s: string, a: nat, b: nat)
    requires a <= b <= |s| && Collapsed(s)
    ensures Collapsed(s[a..b])
  {
    var r := s[a..b];
    forall i | 0 <= i < |r| - 1 && IsSpace(r[i])
      ensures !IsSpace(r[i + 1])
    {
      assert r[i] == s[a + i] && r[i + 1] == s[a + i + 1];
    }
    forall i | 0 <= i < |r| && IsSpace(r[i])
      ensures r[i] == ' '
    {
      assert r[i] == s[a + i];
    }
  }

  /** Normalising twice is normalising once. */
  lemma NormalizeKeyIdempotent(s: string)
    ensures NormalizeKey(NormalizeKey(s)) == NormalizeKey(s)
  {
    var k := NormalizeKey(s);
    CollapseFixesCollapsed(k);
    TrimKeepsTrimmed(k);
  }

  /** Normalising keeps the text apart from whitespace. */
  lemma NormalizeKeyKeepsText(s: string)
    ensures Filter(NormalizeKey(s), NotSpace()) == Filter(s, NotSpace())
  {
    CollapseKeepsText(s);
    var c := Collapse(s);
    TrimStartKeepsText(c);
    TrimEndKeepsText(TrimStart(c));
  }

  /** Dropping trailing whitespace keeps every other character. */
  lemma TrimEndKeepsText(s: string)
    ensures Filter(TrimEnd(s), NotSpace()) == Filter(s, NotSpace())
  {
    var r := TrimEnd(s);
    var blanks := s[|r|..];
    assert s == r + blanks;
    FilterAppend(r, blanks, NotSpace());
    assert forall i :: 0 <= i < |blanks| ==> !NotSpace()(blanks[i]);
    FilterNone(blanks, NotSpace());
  }

  // ---------------------------------------------------------------------
  // translate
  // ---------------------------------------------------------------------

  /** `translate(text, fallback)` in `language`, with `translations` the
      dictionaries by language; `None` is an undefined fallback. */
  function Translate(translations: map<string, map<string, string>>, language: string,
                     text: string, fallback: Option<string>): (r: string)
    ensures r != (if fallback.Some? then fallback.value else text) ==>
      language != "en" && language in translations && r != "" && r in translations[language].Values
  {
    if language == "en" then (if fallback.Some? then fallback.value else text)
    else
      var key := NormalizeKey(text);
      var existing := if fallback.Some? then fallback.value else text;
      var dictionary := if language in translations then translations[language] else map[];
      if key == "" then existing
      else if key in dictionary && dictionary[key] != "" then dictionary[key]
      else existing
  }

  /** The three outcomes of `translate`: English shows the fallback or the
      text itself; another language shows the dictionary's non-empty entry
      for the normalised key, and otherwise the fallback or the text. */
  lemma TranslateCases(translations: map<string, map<string, string>>, language: string,
                       text: string, fallback: Option<string>)
    ensures var existing := if fallback.Some? then fallback.value else text;
      var key := NormalizeKey(text);
      var found := language != "en" && key != "" && language in translations
                   && key in translations[language] && translations[language][key] != "";
      && (found ==> Translate(translations, language, text, fallback) == translations[language][key])
      && (!found ==> Translate(translations, language, text, fallback) == existing)
  {
  }

  /** Texts differing only in whitespace are translated alike, once a
      fallback is given. */
  lemma TranslateIgnoresSpacing(translations: map<string, map<string, string>>, language: string,
                                a: string, b: string, fallback: string)
    requires NormalizeKey(a) == NormalizeKey(b)
    ensures Translate(translations, language, a, Some(fallback)) ==
      Translate(translations, language, b, Some(fallback))
  {
  }

  /** Without a fallback, a non-empty text never translates to "". */
  lemma TranslateNeverBlanks(translations: map<string, map<string, string>>, language: string, text: string)
    requires text != ""
    ensures Translate(translations, language, text, None) != ""
  {
  }

  // ---------------------------------------------------------------------
  // The chosen language
  // ---------------------------------------------------------------------

  const StorageKey: string := "satya-hospital-language"

  predicate Supported(language: string) {
    language == "en" || language == "hi"
  }

  /** The first language: the stored one when it is supported, else
      English. */
  function InitialLanguage(stored: Option<string>): (language: string)
    ensures Supported(language)
    ensures stored.Some? && Supported(stored.value) ==> language == stored.value
    ensures !(stored.Some? && Supported(stored.value)) ==> language == "en"
  {
    if stored.Some? && (stored.value == "hi" || stored.value == "en") then stored.value else "en"
  }

  /** `toggleLanguage`'s choice: Hindi after English, English after
      anything else. */
  function Toggled(language: string): (next: string)
    ensures Supported(next) && next != language
  {
    if language == "en" then "hi" else "en"
  }

  /** Toggling twice comes back to a supported language. */
  lemma ToggleTwice(language: string)
    requires Supported(language)
    ensures Toggled(Toggled(language)) == language
  {
  }

  /** The provider: the language and what the storage holds under
      `StorageKey`. */
  class LanguageProvider {
    var language: string
    var stored: Option<string>

    constructor (storedAtStart: Option<string>)
      ensures language == InitialLanguage(storedAtStart) && stored == storedAtStart
    {
      language := InitialLanguage(storedAtStart);
      stored := storedAtStart;
    }

    /** `setLanguage` (`commitLanguage`): the language is set and stored. */
    method SetLanguage(next: string)
      modifies this
      ensures language == next && stored == Some(next)
    {
      language := next;
      stored := Some(next);
    }

    /** `toggleLanguage`: the other language, set and stored; a reload
        starts in it. */
    method ToggleLanguage()
      modifies this
      ensures language == Toggled(old(language)) && stored == Some(language)
      ensures InitialLanguage(stored) == language
    {
      language := Toggled(language);
      stored := Some(language);
    }

  }
}
