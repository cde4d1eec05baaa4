/**
 * The draft generator's service layer: the API key check made before every
 * request, the formatting of the user's insights, the mapping of the model's
 * reply into a draft with defaults, the filtering of search-grounding
 * sources, and the data URIs of generated and edited images. The requests
 * themselves are inputs: each is either a reply or a thrown error's message.
 */
module DraftService {
  import opened Text

  datatype Tone = Professional | Casual | Inspirational | ThoughtLeader | Controversial

  /** One carousel point; an absent prompt or image is `None`, and an absent `isGenerating` is `false`. */
  datatype PostPoint = PostPoint(
    id: string,
    title: string,
    content: string,
    suggestedPrompt: Option<string>,
    imageUrl: Option<string>,
    isGenerating: bool)

  datatype SearchResultItem = SearchResultItem(title: string, url: string)

  datatype LinkedInDraft = LinkedInDraft(
    fullPost: string,
    points: seq<PostPoint>,
    searchResults: seq<SearchResultItem>,
    searchEntryPointHtml: Option<string>)

  /** A request's outcome: the thrown error's `message` (absent when it had none), or the reply. */
  datatype Reply<T> = Failed(message: Option<string>) | Replied(value: T)

  // ---------------------------------------------------------------- the key

  const KeyNotFound: string := "API Key not found"
  const KeyMissingMessage: string := KeyNotFound + ". Please enter your Gemini API Key."

  /** `getAi`: the stored key, else the environment's; neither (or both empty) is an error. */
  function GetAi(stored: Option<string>, env: Option<string>): (r: Result<string, string>)
    ensures r.Ok? <==> (stored.Some? && stored.value != "") || (env.Some? && env.value != "")
    ensures r.Ok? && stored.Some? && stored.value != "" ==> r.value == stored.value
    ensures r.Ok? && OrElse(stored, "") == "" ==> env.Some? && r.value == env.value
    ensures r.Err? ==> r.error == KeyMissingMessage
  {
    var key := OrElse(stored, OrElse(env, ""));
    if key == "" then Err(KeyMissingMessage) else Ok(key)
  }

  // ---------------------------------------------------------------- insights

  /** "Point <i + 1>: <text>". */
  function InsightLine(i: nat, text: string): string {
    "Point " + NatToString(i + 1) + ": " + text
  }

  function InsightLines(texts: seq<string>): (lines: seq<string>)
    ensures |lines| == |texts|
    ensures forall i :: 0 <= i < |texts| ==> lines[i] == InsightLine(i, texts[i])
  {
    if texts == [] then []
    else InsightLines(texts[..|texts| - 1]) + [InsightLine(|texts| - 1, texts[|texts| - 1])]
  }

  /** The insights as the prompt lists them, one numbered line each. */
  function FormatInsights(texts: seq<string>): string {
    Join(InsightLines(texts), '\n')
  }

  /** An insight line holds a line break only where its text does. */
  lemma InsightLineBreaks(i: nat, text: string)
    ensures '\n' in InsightLine(i, text) <==> '\n' in text
  {
    var prefix := "Point " + NatToString(i + 1) + ": ";
    assert InsightLine(i, text) == prefix + text;
    var digits := NatToString(i + 1);
    assert '\n' !in digits by {
      assert forall k :: 0 <= k < |digits| ==> '0' <= digits[k] <= '9';
    }
    assert prefix == "Point " + digits + ": ";
  }

  /** Single-line insights can be read back from the prompt: its lines are exactly the numbered insights, in order. */
  lemma FormattedInsightsReadBack(texts: seq<string>)
    requires |texts| >= 1
    requires forall i :: 0 <= i < |texts| ==> '\n' !in texts[i]
    ensures Split(FormatInsights(texts), '\n') == InsightLines(texts)
    ensures forall i :: 0 <= i < |texts| ==>
              StartsWith(Split(FormatInsights(texts), '\n')[i], "Point " + NatToString(i + 1) + ": ")
  {
    var lines := InsightLines(texts);
    forall k | 0 <= k < |lines|
      ensures '\n' !in lines[k]
    {
      InsightLineBreaks(k, texts[k]);
    }
    SplitJoin(lines, '\n');
  }

  // ---------------------------------------------------------------- the draft

  /** A point of the model's reply; an absent or empty string is `None` or "" alike. */
  datatype RawPoint = RawPoint(title: Option<string>, suggestedPrompt: Option<string>)

  /** The parsed reply: `fullPost` and `points`, each possibly absent. */
  datatype RawDraft = RawDraft(fullPost: Option<string>, points: Option<seq<RawPoint>>)

  /** A grounding source: its `web` record, with a uri and a title each possibly absent. */
  datatype WebSource = WebSource(uri: Option<string>, title: Option<string>)
  datatype GroundingChunk = GroundingChunk(web: Option<WebSource>)

  /** The text reply, its grounding chunks (empty when absent) and the search entry point's HTML. */
  datatype DraftReply = DraftReply(
    text: Option<string>,
    chunks: seq<GroundingChunk>,
    entryPointHtml: Option<string>)

  const FormatErrorMessage: string :=
    "The AI model returned an unexpected format. This usually happens if the content was filtered or the topic is too complex."

  /** A chunk is kept when its source has both a non-empty uri and a non-empty title. */
  predicate Cited(c: GroundingChunk) {
    c.web.Some? && OrElse(c.web.value.uri, "") != "" && OrElse(c.web.value.title, "") != ""
  }

  function SourceOf(c: GroundingChunk): SearchResultItem
    requires Cited(c)
  {
    SearchResultItem(c.web.value.title.value, c.web.value.uri.value)
  }

  /** The search results: the cited chunks, in order. */
  function Grounded(chunks: seq<GroundingChunk>): (r: seq<SearchResultItem>)
    ensures |r| <= |chunks|
  {
    if chunks == [] then []
    else
      var last := chunks[|chunks| - 1];
      Grounded(chunks[..|chunks| - 1]) + (if Cited(last) then [SourceOf(last)] else [])
  }

  /** Filtering works piece by piece, so it keeps the chunks' order. */
  lemma {:induction false} GroundedSplits(a: seq<GroundingChunk>, b: seq<GroundingChunk>)
    ensures Grounded(a + b) == Grounded(a) + Grounded(b)
    decreases |b|
  {
    if b == [] {
      assert a + b == a;
    } else {
      assert (a + b)[..|a + b| - 1] == a + b[..|b| - 1];
      GroundedSplits(a, b[..|b| - 1]);
    }
  }

  /** Every result comes from a cited chunk, and every cited chunk gives a result. */
  lemma {:induction false} GroundedSources(chunks: seq<GroundingChunk>, item: SearchResultItem)
    ensures item in Grounded(chunks) <==> exists i :: 0 <= i < |chunks| && Cited(chunks[i]) && SourceOf(chunks[i]) == item
    decreases |chunks|
  {
    if chunks != [] {
      var init := chunks[..|chunks| - 1];
      GroundedSources(init, item);
      if exists i :: 0 <= i < |chunks| && Cited(chunks[i]) && SourceOf(chunks[i]) == item {
        var i :| 0 <= i < |chunks| && Cited(chunks[i]) && SourceOf(chunks[i]) == item;
        if i < |init| {
          assert init[i] == chunks[i];
        }
      }
    }
  }

  /** The `forEach` that collects the search results. */
  method SearchResults(chunks: seq<GroundingChunk>) returns (results: seq<SearchResultItem>)
    ensures results == Grounded(chunks)
  {
    results := [];
    var k := 0;
    while k < |chunks|
      invariant 0 <= k <= |chunks|
      invariant results == Grounded(chunks[..k])
    {
      assert chunks[..k + 1][..k] == chunks[..k];
      var c := chunks[k];
      if c.web.Some? && OrElse(c.web.value.uri, "") != "" && OrElse(c.web.value.title, "") != "" {
        results := results + [SearchResultItem(c.web.value.title.value, c.web.value.uri.value)];
      }
      k := k + 1;
    }
    assert chunks[..k] == chunks;
  }

  /** The point the model's `i`-th point becomes. */
  function MappedPoint(p: RawPoint, i: nat, pointTexts: seq<string>, topic: string): PostPoint {
    PostPoint(
      "p-" + NatToString(i),
      OrElse(p.title, "Insight " + NatToString(i + 1)),
      if i < |pointTexts| then pointTexts[i] else "",
      Some(OrElse(p.suggestedPrompt, "Professional visual for " + topic)),
      None,
      false)
  }

  /** `(data.points || []).map(...)`. */
  function MappedPoints(raw: seq<RawPoint>, pointTexts: seq<string>, topic: string): (r: seq<PostPoint>)
    ensures |r| == |raw|
  {
    seq(|raw|, i requires 0 <= i < |raw| => MappedPoint(raw[i], i, pointTexts, topic))
  }

  /** No two points share an id. */
  predicate DistinctIds(points: seq<PostPoint>) {
    forall i, j :: 0 <= i < |points| && 0 <= j < |points| && points[i].id == points[j].id ==> i == j
  }

  /**
   * The `i`-th mapped point: id "p-<i>", its insight's text (or "" past the
   * last insight), the model's title or "Insight <i + 1>", the model's prompt
   * or "Professional visual for <topic>", so neither is ever empty.
   */
  lemma MappedPointShape(raw: seq<RawPoint>, pointTexts: seq<string>, topic: string, i: nat)
    requires i < |raw|
    ensures var p := MappedPoints(raw, pointTexts, topic)[i];
            && p.id == "p-" + NatToString(i)
            && p.content == (if i < |pointTexts| then pointTexts[i] else "")
            && p.title == OrElse(raw[i].title, "Insight " + NatToString(i + 1)) && p.title != ""
            && p.suggestedPrompt == Some(OrElse(raw[i].suggestedPrompt, "Professional visual for " + topic))
            && p.suggestedPrompt.value != ""
            && p.imageUrl.None? && !p.isGenerating
  {
  }

  /** The mapped points have distinct ids. */
  lemma MappedIdsDistinct(raw: seq<RawPoint>, pointTexts: seq<string>, topic: string)
    ensures DistinctIds(MappedPoints(raw, pointTexts, topic))
  {
    var r := MappedPoints(raw, pointTexts, topic);
    forall i, j | 0 <= i < |r| && 0 <= j < |r| && r[i].id == r[j].id
      ensures i == j
    {
      var a, b := NatToString(i), NatToString(j);
      assert r[i].id == "p-" + a && r[j].id == "p-" + b;
      assert a == r[i].id[2..] && b == r[j].id[2..];
      NatToStringInjective(i, j);
    }
  }

  /** `generateLinkedInDraft`: the key check, the request, the parse, then the draft with its defaults. */
  function GenerateDraft(topic: string, pointTexts: seq<string>, stored: Option<string>, env: Option<string>,
                         reply: Reply<DraftReply>, parse: string -> Option<RawDraft>): (r: Result<LinkedInDraft, Option<string>>)
    ensures GetAi(stored, env).Err? ==> r == Err(Some(KeyMissingMessage))
    ensures GetAi(stored, env).Ok? && reply.Failed? ==> r == Err(reply.message)
    ensures GetAi(stored, env).Ok? && reply.Replied? && parse(OrElse(reply.value.text, "{}")).None? ==>
              r == Err(Some(FormatErrorMessage))
    ensures r.Ok? <==> GetAi(stored, env).Ok? && reply.Replied? && parse(OrElse(reply.value.text, "{}")).Some?
  {
    match GetAi(stored, env)
    case Err(m) => Err(Some(m))
    case Ok(_) =>
      match reply
      case Failed(m) => Err(m)
      case Replied(answer) =>
        match parse(OrElse(answer.text, "{}"))
        case None => Err(Some(FormatErrorMessage))
        case Some(data) =>
          Ok(LinkedInDraft(
            OrElse(data.fullPost, ""),
            MappedPoints(if data.points.Some? then data.points.value else [], pointTexts, topic),
            Grounded(answer.chunks),
            answer.entryPointHtml))
  }

  /**
   * A draft is the model's points mapped with their defaults (one per point
   * returned, distinct ids, a prompt each), only the cited sources, the post
   * or "" in its place, and the search entry point's HTML as it came.
   */
  lemma GeneratedDraftShape(topic: string, pointTexts: seq<string>, stored: Option<string>, env: Option<string>,
                            reply: Reply<DraftReply>, parse: string -> Option<RawDraft>)
    requires GenerateDraft(topic, pointTexts, stored, env, reply, parse).Ok?
    ensures var d := GenerateDraft(topic, pointTexts, stored, env, reply, parse).value;
            && reply.Replied? && parse(OrElse(reply.value.text, "{}")).Some?
            && var data := parse(OrElse(reply.value.text, "{}")).value;
            && d.points == MappedPoints(if data.points.Some? then data.points.value else [], pointTexts, topic)
            && |d.points| == (if data.points.Some? then |data.points.value| else 0)
            && DistinctIds(d.points)
            && (forall i :: 0 <= i < |d.points| ==> d.points[i].suggestedPrompt.Some? && d.points[i].suggestedPrompt.value != "")
            && d.searchResults == Grounded(reply.value.chunks)
            && d.fullPost == OrElse(data.fullPost, "")
            && d.searchEntryPointHtml == reply.value.entryPointHtml
  {
    var data := parse(OrElse(reply.value.text, "{}")).value;
    var raw := if data.points.Some? then data.points.value else [];
    MappedIdsDistinct(raw, pointTexts, topic);
    forall i | 0 <= i < |raw|
      ensures MappedPoints(raw, pointTexts, topic)[i].suggestedPrompt.Some?
              && MappedPoints(raw, pointTexts, topic)[i].suggestedPrompt.value != ""
    {
      MappedPointShape(raw, pointTexts, topic, i);
    }
  }

  // ---------------------------------------------------------------- images

  /** The media type part of a PNG data URI, before its comma. */
  const DataUriHead: string := "data:image/png;base64"
  const DataUriPrefix: string := DataUriHead + ","
  const NoImageMessage: string := "No image data returned. The prompt might have triggered a safety filter."
  const EditFailedMessage: string := "Failed to edit image. The AI could not modify the existing asset."

  /** A part of the image reply; `inlineData` present with its `data` possibly absent. */
  datatype ImagePart = ImagePart(inlineData: Option<Option<string>>)

  function DataUri(data: string): (uri: string)
    ensures StartsWith(uri, DataUriPrefix) && uri[|DataUriPrefix|..] == data
  {
    DataUriPrefix + data
  }

  /** `parts.find(p => !!p.inlineData)`: the first part that carries inline data. */
  function FirstInline(parts: seq<ImagePart>): (r: Option<Option<string>>)
    ensures r.Some? <==> exists i :: 0 <= i < |parts| && parts[i].inlineData.Some?
    ensures r.Some? ==> exists i :: 0 <= i < |parts| && parts[i].inlineData == r
                                    && forall k :: 0 <= k < i ==> parts[k].inlineData.None?
  {
    if parts == [] then None
    else if parts[0].inlineData.Some? then parts[0].inlineData
    else
      var r := FirstInline(parts[1..]);
      assert forall i :: 0 < i < |parts| ==> parts[i] == parts[1..][i - 1];
      r
  }

  /** The image a reply's parts give: a data URI of the first inline part's data, or the error `failure`. */
  function ImageFrom(parts: seq<ImagePart>, failure: string): (r: Result<string, string>)
    ensures r.Err? ==> r.error == failure
    ensures r.Ok? ==> exists data :: data != "" && FirstInline(parts) == Some(Some(data)) && r.value == DataUri(data)
    ensures FirstInline(parts).Some? && OrElse(FirstInline(parts).value, "") != "" ==> r.Ok?
  {
    match FirstInline(parts)
    case Some(Some(data)) => if data != "" then Ok(DataUri(data)) else Err(failure)
    case _ => Err(failure)
  }

  /** `generatePointImage`: the key check, the request, then the first inline image as a data URI, or the safety-filter error. */
  function GeneratePointImage(stored: Option<string>, env: Option<string>, reply: Reply<seq<ImagePart>>): (r: Result<string, Option<string>>)
    ensures GetAi(stored, env).Err? ==> r == Err(Some(KeyMissingMessage))
    ensures GetAi(stored, env).Ok? && reply.Failed? ==> r == Err(reply.message)
    ensures r.Ok? ==> reply.Replied? && exists data :: data != "" && FirstInline(reply.value) == Some(Some(data)) && r.value == DataUri(data)
    ensures GetAi(stored, env).Ok? && reply.Replied? && r.Err? ==> r.error == Some(NoImageMessage)
    ensures GetAi(stored, env).Ok? && reply.Replied? && FirstInline(reply.value).Some? && OrElse(FirstInline(reply.value).value, "") != "" ==>
              r == Ok(DataUri(FirstInline(reply.value).value.value))
  {
    match GetAi(stored, env)
    case Err(m) => Err(Some(m))
    case Ok(_) =>
      match reply
      case Failed(m) => Err(m)
      case Replied(parts) =>
        match ImageFrom(parts, NoImageMessage)
        case Ok(uri) => Ok(uri)
        case Err(m) => Err(Some(m))
  }

  /** `base64Image.split(',')[1] || base64Image`: the field after the first comma, or the whole string when that is missing or empty. */
  function StripPrefix(image: string): (r: string)
    ensures var fields := Split(image, ',');
            (|fields| >= 2 && fields[1] != "" ==> r == fields[1])
            && (|fields| < 2 || fields[1] == "" ==> r == image)
  {
    var fields := Split(image, ',');
    if |fields| >= 2 && fields[1] != "" then fields[1] else image
  }

  /** The image data of a data URI is what stripping its prefix recovers. */
  lemma StripPrefixOfDataUri(data: string)
    requires data != "" && ',' !in data
    ensures StripPrefix(DataUri(data)) == data
  {
    HeadIsOneField();
    assert DataUri(data) == DataUriHead + [','] + data;
    SplitAroundSeparator(DataUriHead, data, ',');
    SplitWithoutSeparator(data, ',');
  }

  /** The media type part holds no comma. */
  lemma HeadIsOneField()
    ensures Split(DataUriHead, ',') == [DataUriHead]
  {
    assert forall i :: 0 <= i < |DataUriHead| ==> DataUriHead[i] != ',';
    SplitWithoutSeparator(DataUriHead, ',');
  }

  /** An image that is not a data URI (no comma) is sent as it is. */
  lemma StripPrefixWithoutComma(image: string)
    requires ',' !in image
    ensures StripPrefix(image) == image
  {
    SplitWithoutSeparator(image, ',');
  }

  /** `editPointImage`: the same steps as `generatePointImage`, with its own error when no image comes back. */
  function EditPointImage(stored: Option<string>, env: Option<string>, reply: Reply<seq<ImagePart>>): (r: Result<string, Option<string>>)
    ensures GetAi(stored, env).Err? ==> r == Err(Some(KeyMissingMessage))
    ensures GetAi(stored, env).Ok? && reply.Failed? ==> r == Err(reply.message)
    ensures r.Ok? ==> reply.Replied? && exists data :: data != "" && FirstInline(reply.value) == Some(Some(data)) && r.value == DataUri(data)
    ensures GetAi(stored, env).Ok? && reply.Replied? && r.Err? ==> r.error == Some(EditFailedMessage)
    ensures GetAi(stored, env).Ok? && reply.Replied? && FirstInline(reply.value).Some? && OrElse(FirstInline(reply.value).value, "") != "" ==>
              r == Ok(DataUri(FirstInline(reply.value).value.value))
  {
    match GetAi(stored, env)
    case Err(m) => Err(Some(m))
    case Ok(_) =>
      match reply
      case Failed(m) => Err(m)
      case Replied(parts) =>
        match ImageFrom(parts, EditFailedMessage)
        case Ok(uri) => Ok(uri)
        case Err(m) => Err(Some(m))
  }

  /** Both image calls give a data URI or an error: never anything else. */
  lemma ImageCallsGiveDataUris(stored: Option<string>, env: Option<string>, reply: Reply<seq<ImagePart>>)
    ensures var r := GeneratePointImage(stored, env, reply);
            r.Ok? ==> StartsWith(r.value, DataUriPrefix) && |r.value| > |DataUriPrefix|
    ensures var r := EditPointImage(stored, env, reply);
            r.Ok? ==> StartsWith(r.value, DataUriPrefix) && |r.value| > |DataUriPrefix|
    ensures GetAi(stored, env).Ok? && reply.Replied? && FirstInline(reply.value).None? ==>
              GeneratePointImage(stored, env, reply) == Err(Some(NoImageMessage))
              && EditPointImage(stored, env, reply) == Err(Some(EditFailedMessage))
  {
  }
}
