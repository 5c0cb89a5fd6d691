/**
 * Floreboard/Localization.swift: the two languages, the choice made at start-up, and `t`, which looks a
 * key up in the table of the current language and fills in `{{name}}` placeholders. The error messages
 * of `AIError.errorDescription` (Floreboard/AIService.swift) are looked up through it.
 */
module Localization {
  import opened Prelude
  import opened AI

  datatype Language = En | Zh {
    function RawValue(): string {
      match this
      case En => "en"
      case Zh => "zh"
    }

    function DisplayName(): string {
      match this
      case En => "English"
      case Zh => "简体中文"
    }
  }

  /** `Language(rawValue:)`: only "en" and "zh" parse, each to the case whose raw value it is. */
  function FromRaw(raw: string): (r: Option<Language>)
    ensures r.Some? <==> raw == "en" || raw == "zh"
    ensures r.Some? ==> r.value.RawValue() == raw
  {
    if raw == "en" then Some(En) else if raw == "zh" then Some(Zh) else None
  }

  lemma RawValueRoundTrip(l: Language)
    ensures FromRaw(l.RawValue()) == Some(l)
  {
  }

  /**
   * `init`: the language saved under "app_language" when it parses; otherwise zh exactly when the device's
   * language code (defaulting to "en") contains "zh".
   */
  function InitialLanguage(saved: Option<string>, deviceCode: Option<string>): (l: Language)
    ensures saved.Some? && FromRaw(saved.value).Some? ==> l == FromRaw(saved.value).value
    ensures !(saved.Some? && FromRaw(saved.value).Some?) ==> (l == Zh <==> Contains(deviceCode.GetOr("en"), "zh"))
  {
    if saved.Some? && FromRaw(saved.value).Some? then FromRaw(saved.value).value
    else if Contains(deviceCode.GetOr("en"), "zh") then Zh
    else En
  }

  /** A device with no language code starts in English. */
  lemma NoDeviceCodeMeansEnglish()
    ensures InitialLanguage(None, None) == En
  {
    NotContainsWithoutHead("en", "zh");
  }

  /** A device code such as "zh-Hans" starts in Chinese. */
  lemma ChineseDeviceCode()
    ensures InitialLanguage(None, Some("zh-Hans")) == Zh
  {
    assert IsPrefix("zh", "zh-Hans"[0..]);
  }

  /** `placeholder`: "{{" + name + "}}" */
  function Placeholder(name: string): (r: string)
    ensures |r| == |name| + 4
    ensures r[..2] == "{{" && r[2..|r| - 2] == name && r[|r| - 2..] == "}}"
  {
    "{{" + name + "}}"
  }

  /** `dict[key] ?? key` */
  function Lookup(table: map<string, string>, key: string): (r: string)
    ensures key !in table ==> r == key
    ensures key in table ==> r == table[key]
  {
    if key in table then table[key] else key
  }

  /**
   * The substitution loop, over the arguments in the order the dictionary yields them: each pair replaces
   * every occurrence of its placeholder in the value as it stands after the earlier pairs.
   */
  function Substitute(value: string, args: seq<(string, string)>): string
    decreases |args|
  {
    if |args| == 0 then value
    else Substitute(ReplaceAll(value, Placeholder(args[0].0), args[0].1), args[1..])
  }

  /** `t` on values: table by language, fallback to the key, then substitution. */
  function Translate(lang: Language, en: map<string, string>, zh: map<string, string>, key: string,
                     args: seq<(string, string)>): string
  {
    Substitute(Lookup(if lang == Zh then zh else en, key), args)
  }

  /** A missing key, with no arguments, comes back as itself. */
  lemma MissingKeyIsItself(lang: Language, en: map<string, string>, zh: map<string, string>, key: string)
    requires key !in (if lang == Zh then zh else en)
    ensures Translate(lang, en, zh, key, []) == key
  {
  }

  /** The zh table is read exactly in Chinese, the en table otherwise. */
  lemma TableChoice(en: map<string, string>, zh: map<string, string>, key: string)
    requires key in en && key in zh
    ensures Translate(Zh, en, zh, key, []) == zh[key]
    ensures Translate(En, en, zh, key, []) == en[key]
  {
  }

  /** A value none of whose placeholders is named comes through unchanged. */
  lemma {:induction false} SubstituteUntouched(value: string, args: seq<(string, string)>)
    requires forall i :: 0 <= i < |args| ==> !Contains(value, Placeholder(args[i].0))
    ensures Substitute(value, args) == value
    decreases |args|
  {
    if |args| > 0 {
      ReplaceAbsent(value, Placeholder(args[0].0), args[0].1);
      assert forall i :: 0 <= i < |args[1..]| ==> args[1..][i] == args[i + 1];
      SubstituteUntouched(value, args[1..]);
    }
  }

  /** One placeholder after text without '{', and one argument naming it: the argument takes its place. */
  lemma SubstituteSingle(before: string, name: string, v: string, after: string)
    requires forall i :: 0 <= i < |before| ==> before[i] != '{'
    requires !Contains(after, Placeholder(name))
    ensures Substitute(before + Placeholder(name) + after, [(name, v)]) == before + v + after
  {
    ReplaceAfterPlainPrefix(before, Placeholder(name), v, after);
    ReplaceAbsent(after, Placeholder(name), v);
    assert [(name, v)][1..] == [];
  }

  /** The error-message entries of the two tables. */
  const ErrorEntriesEn: map<string, string> := map[
    "error.missingApiKey" := "API Key is missing. Please configure it in Settings.",
    "error.invalidURL" := "Invalid API Endpoint URL.",
    "error.apiError" := "API Request failed with status code: {{code}}",
    "error.imageEncodingFailed" := "Failed to process image."]

  const ErrorEntriesZh: map<string, string> := map[
    "error.missingApiKey" := "未配置 API Key，请前往设置页面配置。",
    "error.invalidURL" := "API 接口地址无效。",
    "error.apiError" := "API 请求失败，状态码: {{code}}",
    "error.imageEncodingFailed" := "图片处理失败。"]

  /** The tables agree with the error entries. */
  predicate HasErrorEntries(en: map<string, string>, zh: map<string, string>) {
    && (forall k :: k in ErrorEntriesEn ==> k in en && en[k] == ErrorEntriesEn[k])
    && (forall k :: k in ErrorEntriesZh ==> k in zh && zh[k] == ErrorEntriesZh[k])
  }

  /**
   * `AIError.errorDescription`; None for the failures that are not `AIError`s, whose descriptions come
   * from elsewhere.
   */
  function ErrorDescription(f: Failure, lang: Language, en: map<string, string>, zh: map<string, string>)
    : (r: Option<string>)
    ensures r.Some? <==> !f.DecodingFailed? && !f.TransportFailed?
  {
    match f
    case MissingApiKey => Some(Translate(lang, en, zh, "error.missingApiKey", []))
    case InvalidURL => Some(Translate(lang, en, zh, "error.invalidURL", []))
    case ApiError(code) => Some(Translate(lang, en, zh, "error.apiError", [("code", IntToString(code))]))
    case ImageEncodingFailed => Some(Translate(lang, en, zh, "error.imageEncodingFailed", []))
    case DecodingFailed => None
    case TransportFailed => None
  }

  /** An entry of the form `before` + "{{code}}", `before` free of '{', gives `before` and the code. */
  lemma ApiErrorFillsCode(code: int, lang: Language, en: map<string, string>, zh: map<string, string>, before: string)
    requires '{' !in before
    requires Lookup(if lang == Zh then zh else en, "error.apiError") == before + Placeholder("code")
    ensures ErrorDescription(ApiError(code), lang, en, zh) == Some(before + IntToString(code))
  {
    assert forall i :: 0 <= i < |before| ==> before[i] != '{';
    var v := IntToString(code);
    var t := before + Placeholder("code");
    assert t + "" == t;
    assert before + v + "" == before + v;
    ContainsSelf("");
    SubstituteSingle(before, "code", v, "");
    assert Substitute(t, [("code", v)]) == before + v;
    assert Translate(lang, en, zh, "error.apiError", [("code", v)]) == Substitute(t, [("code", v)]);
  }

  /** The status code is spelled into the message: `code` reads "...status code: <code>" in English. */
  lemma ApiErrorMessageEn(code: int, en: map<string, string>, zh: map<string, string>)
    requires HasErrorEntries(en, zh)
    ensures ErrorDescription(ApiError(code), En, en, zh) == Some("API Request failed with status code: " + IntToString(code))
  {
    var before := "API Request failed with status code: ";
    assert "error.apiError" in ErrorEntriesEn;
    assert en["error.apiError"] == before + Placeholder("code");
    ApiErrorFillsCode(code, En, en, zh, before);
  }

  /** The same in Chinese. */
  lemma ApiErrorMessageZh(code: int, en: map<string, string>, zh: map<string, string>)
    requires HasErrorEntries(en, zh)
    ensures ErrorDescription(ApiError(code), Zh, en, zh) == Some("API 请求失败，状态码: " + IntToString(code))
  {
    var before := "API 请求失败，状态码: ";
    assert "error.apiError" in ErrorEntriesZh;
    assert zh["error.apiError"] == before + Placeholder("code");
    ApiErrorFillsCode(code, Zh, en, zh, before);
  }

  /** `LocalizationManager`: the current language, its storage slot, and the two tables. */
  class LocalizationManager {
    var currentLanguage: Language
    /** UserDefaults "app_language" */
    var saved: Option<string>
    const en: map<string, string>
    const zh: map<string, string>

    constructor(saved: Option<string>, deviceCode: Option<string>, en: map<string, string>, zh: map<string, string>)
      ensures currentLanguage == InitialLanguage(saved, deviceCode)
      ensures this.saved == saved && this.en == en && this.zh == zh
    {
      this.saved := saved;
      this.en := en;
      this.zh := zh;
      if saved.Some? && FromRaw(saved.value).Some? {
        currentLanguage := FromRaw(saved.value).value;
      } else if Contains(deviceCode.GetOr("en"), "zh") {
        currentLanguage := Zh;
      } else {
        currentLanguage := En;
      }
    }

    /** Setting `currentLanguage`; its `didSet` stores the raw value. */
    method SetLanguage(lang: Language)
      modifies this
      ensures currentLanguage == lang && saved == Some(lang.RawValue())
    {
      currentLanguage := lang;
      saved := Some(lang.RawValue());
    }

    /** `t(_:_:)` */
    method T(key: string, args: seq<(string, string)>) returns (value: string)
      ensures value == Translate(currentLanguage, en, zh, key, args)
    {
      var dict := if currentLanguage == Zh then zh else en;
      value := if key in dict then dict[key] else key;
      for i := 0 to |args|
        invariant Substitute(value, args[i..]) == Translate(currentLanguage, en, zh, key, args)
      {
        var (k, v) := args[i];
        assert args[i..][1..] == args[i + 1..];
        value := ReplaceAll(value, "{{" + k + "}}", v);
      }
      assert args[|args|..] == [];
    }
  }

  /** A language that was set is the one a later start-up restores, whatever the device says. */
  lemma SetLanguagePersists(lang: Language, deviceCode: Option<string>)
    ensures InitialLanguage(Some(lang.RawValue()), deviceCode) == lang
  {
  }
}
