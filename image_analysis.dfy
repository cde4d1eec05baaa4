/**
 * What the editor makes of the model's answer about one image: the reply's
 * text is taken from whichever field carries it, markdown code fences are
 * removed, the rest is parsed as JSON and normalised into a theme, a text and
 * a position zone. A reply that does not parse is read for the words "light"
 * and "black text"; a failed request gives fixed defaults, so analysing never
 * fails. The request itself, and the JSON parser, are parameters.
 */
module ImageAnalysis {
  import opened Text
  import opened CarouselTypes

  /** Where the model suggests placing the text. */
  datatype Zone = Top | Center | Bottom

  datatype Analysis = Analysis(theme: Theme, content: string, contentPosition: Zone)

  // ---------------------------------------------------------------- the reply

  /** `response.text`: a method, a string property, or neither. */
  datatype TextAccessor = TextMethod(result: string) | TextProperty(value: string) | NoTextAccessor

  datatype Part = Part(text: Option<string>)

  /** A candidate whose `content.parts` is `None` when either `content` or `parts` is absent. */
  datatype Candidate = Candidate(parts: Option<seq<Part>>)

  datatype Response = Response(accessor: TextAccessor, candidates: seq<Candidate>)

  /** The reply's text: from `response.text`, else from the first part of the first candidate, else "". */
  function ResponseText(r: Response): (text: string)
    ensures r.accessor.TextMethod? ==> text == r.accessor.result
    ensures r.accessor.TextProperty? ==> text == r.accessor.value
    ensures r.accessor.NoTextAccessor? && text != "" ==>
              |r.candidates| > 0 && r.candidates[0].parts.Some? && |r.candidates[0].parts.value| > 0
              && r.candidates[0].parts.value[0].text == Some(text)
  {
    match r.accessor
    case TextMethod(t) => t
    case TextProperty(t) => t
    case NoTextAccessor =>
      if |r.candidates| > 0 && r.candidates[0].parts.Some? && |r.candidates[0].parts.value| > 0
      then OrElse(r.candidates[0].parts.value[0].text, "")
      else ""
  }

  // ---------------------------------------------------------------- fences

  const JsonFence: string := "```json"
  const Fence: string := "```"

  /** Drops one line break at the start, as the `\n?` after a fence does. */
  function SkipNewline(s: string): (r: string)
    ensures r == s || (s != [] && s[0] == '\n' && r == s[1..])
  {
    if s != [] && s[0] == '\n' then s[1..] else s
  }

  /**
   * `s.replace(/<token>\n?/g, '')`: scanning from the left, every occurrence of
   * `token` is removed together with one line break right after it.
   */
  function RemoveAll(s: string, token: string): (r: string)
    requires |token| >= 1
    ensures |r| <= |s|
    decreases |s|
  {
    if StartsWith(s, token) then RemoveAll(SkipNewline(s[|token|..]), token)
    else if s == [] then []
    else [s[0]] + RemoveAll(s[1..], token)
  }

  /** The cleaned reply: both fence kinds removed, then trimmed. */
  function StripFences(text: string): string {
    Trim(RemoveAll(RemoveAll(text, JsonFence), Fence))
  }

  /** Removing fences leaves a backtick at the front only where the input had one, and two only where it had two. */
  lemma {:induction false} RemoveFenceFront(s: string)
    ensures var r := RemoveAll(s, Fence);
            (|r| >= 1 && r[0] == '`' ==> |s| >= 1 && s[0] == '`')
            && (|r| >= 2 && r[0] == '`' && r[1] == '`' ==> |s| >= 2 && s[0] == '`' && s[1] == '`')
    decreases |s|
  {
    if !StartsWith(s, Fence) && s != [] {
      RemoveFenceFront(s[1..]);
    }
  }

  /** After the second pass no three backticks are left in a row. */
  lemma {:induction false} RemoveAllFences(s: string)
    ensures !Contains(RemoveAll(s, Fence), Fence)
    decreases |s|
  {
    if StartsWith(s, Fence) {
      RemoveAllFences(SkipNewline(s[|Fence|..]));
    } else if s != [] {
      var rest := RemoveAll(s[1..], Fence);
      RemoveAllFences(s[1..]);
      RemoveFenceFront(s[1..]);
      var r := [s[0]] + rest;
      assert r[1..] == rest;
    }
  }

  /** An occurrence in a suffix is an occurrence in the whole string. */
  lemma {:induction false} ContainsSuffix(s: string, k: nat, sub: string)
    requires k <= |s|
    requires Contains(s[k..], sub)
    ensures Contains(s, sub)
    decreases k
  {
    if k > 0 {
      assert s[1..][k - 1..] == s[k..];
      ContainsSuffix(s[1..], k - 1, sub);
    }
  }

  /** The cleaned reply holds no code fence at all. */
  lemma StrippedHasNoFence(text: string)
    ensures !Contains(StripFences(text), Fence)
  {
    var s := RemoveAll(RemoveAll(text, JsonFence), Fence);
    RemoveAllFences(RemoveAll(text, JsonFence));
    var t := TrimStart(s);
    if Contains(TrimEnd(t), Fence) {
      ContainsPrefix(t, |TrimEnd(t)|, Fence);
      ContainsSuffix(s, |s| - |t|, Fence);
    }
  }

  /** A string with no backtick is left alone by either pass. */
  lemma {:induction false} RemoveAllWithoutBacktick(s: string, token: string)
    requires |token| >= 1 && token[0] == '`'
    requires '`' !in s
    ensures RemoveAll(s, token) == s
    decreases |s|
  {
    if s != [] {
      RemoveAllWithoutBacktick(s[1..], token);
    }
  }

  /** A reply without fences is only trimmed. */
  lemma PlainReplyIsTrimmed(text: string)
    requires '`' !in text
    ensures StripFences(text) == Trim(text)
  {
    RemoveAllWithoutBacktick(text, JsonFence);
    RemoveAllWithoutBacktick(text, Fence);
  }

  // ---------------------------------------------------------------- the parsed object

  /** A property of the parsed object: absent, a string, or some other value (`truthy` says how `&&` sees it). */
  datatype FieldValue = Missing | Str(s: string) | NonString(truthy: bool)

  /**
   * What `JSON.parse` gave: `null`, whose properties cannot be read, or a value
   * with the three properties the code reads (any other value has them all
   * absent). `content` is the string the model wrote, `None` when it is absent
   * or a falsy non-string.
   */
  datatype JsonDoc = NullDoc | Doc(theme: FieldValue, content: Option<string>, contentPosition: FieldValue)

  /** `toLowerCase` gives the same answer twice. */
  lemma ToLowerIdempotent(s: string)
    ensures ToLower(ToLower(s)) == ToLower(s)
  {
    var once := ToLower(s);
    assert forall i :: 0 <= i < |once| ==> ToLower(once)[i] == once[i];
  }

  /** The theme read from a string: light when it says "light" or mentions "black", in any case. */
  function ThemeNamed(s: string): (t: Theme)
    ensures t == Light <==> ToLower(s) == "light" || Contains(ToLower(s), "black")
  {
    var lower := ToLower(s);
    if lower == "light" || Contains(lower, "black") then Light else Dark
  }

  /** The theme ignores case. */
  lemma ThemeIgnoresCase(s: string)
    ensures ThemeNamed(ToLower(s)) == ThemeNamed(s)
  {
    ToLowerIdempotent(s);
  }

  /** The zone a string names, in any case. */
  function ZoneNamed(s: string): (z: Option<Zone>)
    ensures z == Some(Top) <==> ToLower(s) == "top"
    ensures z == Some(Center) <==> ToLower(s) == "center"
    ensures z == Some(Bottom) <==> ToLower(s) == "bottom"
  {
    var lower := ToLower(s);
    if lower == "top" then Some(Top)
    else if lower == "center" then Some(Center)
    else if lower == "bottom" then Some(Bottom)
    else None
  }

  /** `json.theme`, normalised; `None` when it is a truthy non-string, whose `toLowerCase` call throws. */
  function ThemeOf(f: FieldValue): (t: Option<Theme>)
    ensures t.None? <==> f == NonString(true)
    ensures t == Some(Light) <==> f.Str? && f.s != "" && ThemeNamed(f.s) == Light
  {
    match f
    case Missing => Some(Dark)
    case Str(s) => if s == "" then Some(Dark) else Some(ThemeNamed(s))
    case NonString(truthy) => if truthy then None else Some(Dark)
  }

  /** `json.contentPosition`, normalised to a zone, `Top` by default; `None` when `toLowerCase` throws. */
  function ZoneOf(f: FieldValue): (z: Option<Zone>)
    ensures z.None? <==> f == NonString(true)
    ensures z == Some(Center) <==> f.Str? && ZoneNamed(f.s) == Some(Center)
    ensures z == Some(Bottom) <==> f.Str? && ZoneNamed(f.s) == Some(Bottom)
  {
    match f
    case Missing => Some(Top)
    case Str(s) =>
      if s == "" then Some(Top)
      else if ZoneNamed(s).Some? then ZoneNamed(s)
      else Some(Top)
    case NonString(truthy) => if truthy then None else Some(Top)
  }

  /** The normalised object; `None` when reading it throws, which sends the reply to the fallback. */
  function Normalized(doc: JsonDoc): (a: Option<Analysis>)
    ensures a.Some? <==> doc.Doc? && ThemeOf(doc.theme).Some? && ZoneOf(doc.contentPosition).Some?
    ensures a.Some? ==> a.value.theme == ThemeOf(doc.theme).value
                        && a.value.contentPosition == ZoneOf(doc.contentPosition).value
                        && a.value.content == OrElse(doc.content, "")
  {
    match doc
    case NullDoc => None
    case Doc(theme, content, position) =>
      match ThemeOf(theme)
      case None => None
      case Some(t) =>
        match ZoneOf(position)
        case None => None
        case Some(z) => Some(Analysis(t, OrElse(content, ""), z))
  }

  /** A reply that could not be read as JSON: light when it mentions "light" or "black text", no text, top zone. */
  function TextFallback(text: string): (a: Analysis)
    ensures a.content == "" && a.contentPosition == Top
    ensures a.theme == Light <==> Contains(ToLower(text), "light") || Contains(ToLower(text), "black text")
  {
    var lower := ToLower(text);
    Analysis(if Contains(lower, "light") || Contains(lower, "black text") then Light else Dark, "", Top)
  }

  /** What the cleaned reply gives once `parse` has been applied to it. */
  function Reading(cleaned: string, parsed: Option<JsonDoc>): Analysis {
    match parsed
    case None => TextFallback(cleaned)
    case Some(doc) =>
      match Normalized(doc)
      case None => TextFallback(cleaned)
      case Some(a) => a
  }

  /** The reply's text, cleaned and parsed with `parse` (`None` where `JSON.parse` throws). */
  function AnalyzeText(text: string, parse: string -> Option<JsonDoc>): Analysis {
    var cleaned := StripFences(text);
    Reading(cleaned, parse(cleaned))
  }

  /** A nonempty text in a reading is the `content` of the parsed object. */
  lemma ReadContent(cleaned: string, parsed: Option<JsonDoc>)
    ensures var a := Reading(cleaned, parsed);
            a.content != "" ==> parsed.Some? && parsed.value.Doc? && parsed.value.content == Some(a.content)
  {
    if parsed.Some? && Normalized(parsed.value).Some? {
      assert Reading(cleaned, parsed) == Normalized(parsed.value).value;
    }
  }

  /** The request: it failed (the client threw), or the model answered. */
  datatype Outcome = RequestFailed | Answered(response: Response)

  /** `analyzeImage`: every outcome gives an analysis, the fixed defaults when the request failed. */
  function AnalyzeImage(outcome: Outcome, parse: string -> Option<JsonDoc>): (a: Analysis)
    ensures outcome.RequestFailed? ==> a == Analysis(Dark, "", Top)
  {
    match outcome
    case RequestFailed => Analysis(Dark, "", Top)
    case Answered(response) => AnalyzeText(ResponseText(response), parse)
  }

  /** A readable object's theme: light exactly when it says "light" or mentions "black". */
  lemma ReadTheme(cleaned: string, doc: JsonDoc)
    requires Normalized(doc).Some?
    ensures Reading(cleaned, Some(doc)).theme == Light <==>
              doc.theme.Str? && doc.theme.s != ""
              && (ToLower(doc.theme.s) == "light" || Contains(ToLower(doc.theme.s), "black"))
  {
    assert Reading(cleaned, Some(doc)).theme == ThemeOf(doc.theme).value;
  }

  /** A readable object's zone: the one it names, in any case, else `Top`. */
  lemma ReadZone(cleaned: string, doc: JsonDoc)
    requires Normalized(doc).Some?
    ensures var z := Reading(cleaned, Some(doc)).contentPosition;
            && (doc.contentPosition.Str? && ZoneNamed(doc.contentPosition.s).Some? ==> z == ZoneNamed(doc.contentPosition.s).value)
            && (!doc.contentPosition.Str? || ZoneNamed(doc.contentPosition.s).None? ==> z == Top)
  {
    var z := ZoneOf(doc.contentPosition).value;
    assert Reading(cleaned, Some(doc)).contentPosition == z;
    match doc.contentPosition
    case Str(s) =>
      if ZoneNamed(s).Some? {
        assert z == ZoneNamed(s).value;
      } else {
        assert z == Top;
      }
    case _ =>
      assert z == Top;
  }

  /** A reply that parses to a readable object gives its theme: light exactly when the theme says "light" or mentions "black". */
  lemma ParsedTheme(text: string, parse: string -> Option<JsonDoc>, doc: JsonDoc)
    requires parse(StripFences(text)) == Some(doc) && Normalized(doc).Some?
    ensures AnalyzeText(text, parse).theme == Light <==>
              doc.theme.Str? && doc.theme.s != ""
              && (ToLower(doc.theme.s) == "light" || Contains(ToLower(doc.theme.s), "black"))
  {
    ReadTheme(StripFences(text), doc);
  }

  /** A readable object's zone is the one it names, in any case, and `Top` when it names none. */
  lemma ParsedZone(text: string, parse: string -> Option<JsonDoc>, doc: JsonDoc)
    requires parse(StripFences(text)) == Some(doc) && Normalized(doc).Some?
    ensures var z := AnalyzeText(text, parse).contentPosition;
            && (doc.contentPosition.Str? && ZoneNamed(doc.contentPosition.s).Some? ==> z == ZoneNamed(doc.contentPosition.s).value)
            && (!doc.contentPosition.Str? || ZoneNamed(doc.contentPosition.s).None? ==> z == Top)
  {
    ReadZone(StripFences(text), doc);
  }

  /** Text that is not JSON, or an object whose fields throw, falls back to reading the cleaned reply. */
  lemma UnreadableReplyFallsBack(text: string, parse: string -> Option<JsonDoc>)
    requires parse(StripFences(text)).None? || Normalized(parse(StripFences(text)).value).None?
    ensures var a := AnalyzeText(text, parse);
            a.content == "" && a.contentPosition == Top
            && (a.theme == Light <==>
                  (Contains(ToLower(StripFences(text)), "light") || Contains(ToLower(StripFences(text)), "black text")))
  {
    var cleaned := StripFences(text);
    assert AnalyzeText(text, parse) == TextFallback(cleaned);
  }

  /** Whatever happens, the slide's text is either empty or exactly what the model wrote in `content`. */
  lemma ContentComesFromTheModel(outcome: Outcome, parse: string -> Option<JsonDoc>)
    ensures var a := AnalyzeImage(outcome, parse);
            a.content != "" ==>
              outcome.Answered? && parse(StripFences(ResponseText(outcome.response))).Some?
              && parse(StripFences(ResponseText(outcome.response))).value.Doc?
              && parse(StripFences(ResponseText(outcome.response))).value.content == Some(a.content)
  {
    if outcome.Answered? {
      var cleaned := StripFences(ResponseText(outcome.response));
      ReadContent(cleaned, parse(cleaned));
    }
  }
}
