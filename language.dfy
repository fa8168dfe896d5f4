/** The user's language preference and the two translation helpers:
    `SUPPORTED_LANGUAGES`, `detect_and_translate` and `translate_to_user_language`. */
module Language {
  import opened Wrappers
  import opened Collaborators

  /** The canonical processing language. */
  const Canonical: string := "en"

  /** `SUPPORTED_LANGUAGES`: display name and code, in declaration order. */
  const SupportedLanguages: seq<(string, string)> := [
    ("English", "en"),
    ("Spanish", "es"),
    ("French", "fr"),
    ("German", "de"),
    ("Chinese", "zh"),
    ("Japanese", "ja"),
    ("Russian", "ru"),
    ("Arabic", "ar"),
    ("Hindi", "hi"),
    ("Portuguese", "pt")
  ]

  /** `code in SUPPORTED_LANGUAGES.values()` */
  predicate IsSupportedCode(code: string) {
    exists k :: 0 <= k < |SupportedLanguages| && SupportedLanguages[k].1 == code
  }

  /** `SUPPORTED_LANGUAGES[name]`, `None` for a name that is not a key. */
  function CodeOf(name: string): (r: Option<string>)
    ensures r.Some? ==> exists k :: 0 <= k < |SupportedLanguages| && SupportedLanguages[k] == (name, r.value)
    ensures r.None? <==> forall k :: 0 <= k < |SupportedLanguages| ==> SupportedLanguages[k].0 != name
  {
    CodeIn(SupportedLanguages, name)
  }

  /** The code of the first entry of `langs` named `name`. */
  function CodeIn(langs: seq<(string, string)>, name: string): (r: Option<string>)
    ensures r.Some? ==> exists k :: 0 <= k < |langs| && langs[k] == (name, r.value)
    ensures r.None? <==> forall k :: 0 <= k < |langs| ==> langs[k].0 != name
  {
    if langs == [] then None
    else if langs[0].0 == name then Some(langs[0].1)
    else CodeIn(langs[1..], name)
  }

  /** The first display name declared with `code`. */
  function FirstNameFor(langs: seq<(string, string)>, code: string): (name: string)
    requires exists k :: 0 <= k < |langs| && langs[k].1 == code
    ensures exists k :: 0 <= k < |langs| && langs[k] == (name, code)
  {
    if langs[0].1 == code then langs[0].0
    else
      assert exists k :: 0 <= k < |langs[1..]| && langs[1..][k].1 == code by {
        var k :| 0 <= k < |langs| && langs[k].1 == code;
        assert langs[1..][k - 1] == langs[k];
      }
      FirstNameFor(langs[1..], code)
  }

  /** The name the preference loop settles on: the first entry whose code matches. */
  function NameOf(code: string): (name: string)
    requires IsSupportedCode(code)
    ensures exists k :: 0 <= k < |SupportedLanguages| && SupportedLanguages[k] == (name, code)
  {
    FirstNameFor(SupportedLanguages, code)
  }

  /** Once all entries before `k` have another code and entry `k` has `code`,
      entry `k` holds the first name for `code`. */
  lemma {:induction false} FirstNameAt(langs: seq<(string, string)>, code: string, k: nat)
    requires k < |langs| && langs[k].1 == code
    requires forall j :: 0 <= j < k ==> langs[j].1 != code
    ensures FirstNameFor(langs, code) == langs[k].0
  {
    if k > 0 {
      FirstNameAt(langs[1..], code, k - 1);
    }
  }

  /** No two entries share a name or a code. */
  lemma EntriesAreDistinct()
    ensures forall i, j :: 0 <= i < j < |SupportedLanguages| ==>
      SupportedLanguages[i].0 != SupportedLanguages[j].0 && SupportedLanguages[i].1 != SupportedLanguages[j].1
  {
  }

  /** Names and codes are both unique, so the name found for a supported code is
      the dictionary key whose value is that code. */
  lemma NameOfRoundTrip(code: string)
    requires IsSupportedCode(code)
    ensures CodeOf(NameOf(code)) == Some(code)
  {
    EntriesAreDistinct();
    var k :| 0 <= k < |SupportedLanguages| && SupportedLanguages[k].1 == code;
    FirstNameAt(SupportedLanguages, code, k);
    CodeInAt(SupportedLanguages, SupportedLanguages[k].0, k);
  }

  lemma {:induction false} CodeInAt(langs: seq<(string, string)>, name: string, k: nat)
    requires k < |langs| && langs[k].0 == name
    requires forall j :: 0 <= j < k ==> langs[j].0 != name
    ensures CodeIn(langs, name) == Some(langs[k].1)
  {
    if k > 0 {
      CodeInAt(langs[1..], name, k - 1);
    }
  }

  /** `detect_and_translate(text, target)`: the text to process and the detected code.
      A failed detection or translation gives the original text and the canonical code. */
  function DetectAndTranslate(svc: Services, text: string, target: string): (r: (string, string))
    ensures svc.detect(text).None? ==> r == (text, Canonical)
    ensures svc.detect(text) == Some(target) ==> r == (text, target)
    ensures r.1 != Canonical && r.1 != target ==>
      svc.detect(text) == Some(r.1) && svc.translate(text, "auto", target) == Some(r.0)
    ensures svc.detect(text).Some? && svc.detect(text).value != target && svc.translate(text, "auto", target).Some? ==>
      r == (svc.translate(text, "auto", target).value, svc.detect(text).value)
    ensures svc.detect(text).Some? && svc.detect(text).value != target && svc.translate(text, "auto", target).None? ==>
      r == (text, Canonical)
  {
    match svc.detect(text)
    case None => (text, Canonical)
    case Some(detected) =>
      if detected != target then
        match svc.translate(text, "auto", target)
        case Some(translated) => (translated, detected)
        case None => (text, Canonical)
      else (text, detected)
  }

  /** `translate_to_user_language(text, source)` towards the preferred language
      `target`: a failed translation keeps the text. */
  function TranslateToUser(svc: Services, text: string, source: string, target: string): (r: string)
    ensures source == target ==> r == text
    ensures source != target && svc.translate(text, source, target).Some? ==>
      r == svc.translate(text, source, target).value
    ensures source != target && svc.translate(text, source, target).None? ==> r == text
  {
    if source != target then
      match svc.translate(text, source, target)
      case Some(translated) => translated
      case None => text
    else text
  }
}
