/**
 * The draft studio's state: how many insights the user is writing and their
 * texts, the validation before a draft is requested, the per-point image
 * generation and edit flags, the reaction to a thrown error, and clearing
 * the stored key. Each request's completion is a separate step, so any
 * interleaving of completions can be expressed as a sequence of calls.
 */
module Studio {
  import opened Text
  import opened DraftService

  datatype Stage = Input | Editing | Visuals | Final

  const MinPoints: int := 1
  const MaxPoints: int := 6

  /** `Math.max(1, Math.min(6, val))`. */
  function ClampCount(val: int): (n: int)
    ensures MinPoints <= n <= MaxPoints
    ensures MinPoints <= val <= MaxPoints ==> n == val
    ensures val < MinPoints ==> n == MinPoints
    ensures val > MaxPoints ==> n == MaxPoints
  {
    if val < MinPoints then MinPoints else if val > MaxPoints then MaxPoints else val
  }

  /** The insight list resized to `n`: the first entries kept, new ones blank. */
  function Resized(inputs: seq<string>, n: nat): (r: seq<string>)
    ensures |r| == n
    ensures forall i :: 0 <= i < n && i < |inputs| ==> r[i] == inputs[i]
    ensures forall i :: |inputs| <= i < n ==> r[i] == ""
  {
    if n > |inputs| then inputs + seq(n - |inputs|, _ => "") else inputs[..n]
  }

  /** Resizing never loses an entry that stays within the new count. */
  lemma ResizeRoundTrip(inputs: seq<string>, n: nat)
    requires n >= |inputs|
    ensures Resized(Resized(inputs, n), |inputs|) == inputs
  {
  }

  /** `pointInputs.filter(p => p.trim())`: the insights that are not blank, in order. */
  function ActivePoints(inputs: seq<string>): (r: seq<string>)
    ensures |r| <= |inputs|
    ensures forall k :: 0 <= k < |r| ==> !Blank(r[k])
  {
    if inputs == [] then []
    else
      var last := inputs[|inputs| - 1];
      ActivePoints(inputs[..|inputs| - 1]) + (if Blank(last) then [] else [last])
  }

  /** Filtering works piece by piece, so the kept insights keep their order. */
  lemma {:induction false} ActivePointsSplit(a: seq<string>, b: seq<string>)
    ensures ActivePoints(a + b) == ActivePoints(a) + ActivePoints(b)
    decreases |b|
  {
    if b == [] {
      assert a + b == a;
    } else {
      assert (a + b)[..|a + b| - 1] == a + b[..|b| - 1];
      ActivePointsSplit(a, b[..|b| - 1]);
    }
  }

  /** An insight is sent exactly when it is one of the inputs and not blank. */
  lemma {:induction false} ActivePointsMembers(inputs: seq<string>, s: string)
    ensures s in ActivePoints(inputs) <==> s in inputs && !Blank(s)
    decreases |inputs|
  {
    if inputs != [] {
      var init := inputs[..|inputs| - 1];
      ActivePointsMembers(init, s);
      assert inputs == init + [inputs[|inputs| - 1]];
    }
  }

  /** No blank inputs means every input is sent. */
  lemma {:induction false} ActivePointsAllKept(inputs: seq<string>)
    requires forall k :: 0 <= k < |inputs| ==> !Blank(inputs[k])
    ensures ActivePoints(inputs) == inputs
    decreases |inputs|
  {
    if inputs != [] {
      ActivePointsAllKept(inputs[..|inputs| - 1]);
      assert inputs == inputs[..|inputs| - 1] + [inputs[|inputs| - 1]];
    }
  }

  /** What `generateLinkedInDraft` is asked for. */
  datatype DraftRequest = DraftRequest(topic: string, insights: seq<string>, tone: Tone)

  const MissingInputMessage: string := "Please provide a topic and at least one core insight."

  /** The request a draft creation makes, or none when the topic is blank or no insight is written. */
  function RequestFor(topic: string, inputs: seq<string>, tone: Tone): (r: Option<DraftRequest>)
    ensures r.None? <==> Blank(topic) || forall k :: 0 <= k < |inputs| ==> Blank(inputs[k])
    ensures r.Some? ==> r.value.topic == topic && r.value.tone == tone && r.value.insights == ActivePoints(inputs)
                        && |r.value.insights| >= 1
  {
    var active := ActivePoints(inputs);
    ActivePointsEmpty(inputs);
    if Blank(topic) || active == [] then None else Some(DraftRequest(topic, active, tone))
  }

  /** No insight survives the filter exactly when every input is blank. */
  lemma {:induction false} ActivePointsEmpty(inputs: seq<string>)
    ensures ActivePoints(inputs) == [] <==> forall k :: 0 <= k < |inputs| ==> Blank(inputs[k])
  {
    if ActivePoints(inputs) == [] {
      forall k | 0 <= k < |inputs|
        ensures Blank(inputs[k])
      {
        ActivePointsMembers(inputs, inputs[k]);
      }
    } else {
      var s := ActivePoints(inputs)[0];
      ActivePointsMembers(inputs, s);
    }
  }

  // ---------------------------------------------------------------- errors

  const KeyCheckMessage: string := "Please check your API key."
  const BillingMessage: string := "This high-quality model requires a paid API key from a billing-enabled GCP project."
  const GenericMessage: string := "Something went wrong. Please check your topic and try again."

  /** How a thrown error is handled: a key problem (the key modal opens), a billing problem, or its own text. */
  datatype ErrorReaction = KeyProblem | BillingProblem | Shown(text: string)

  predicate MentionsKey(message: string) {
    Contains(message, "API Key not found") || Contains(message, "API_KEY_INVALID")
  }

  predicate MentionsBilling(message: string) {
    Contains(message, "Requested entity was not found.")
  }

  /** `handleApiError`'s classification of an error with the given message (absent when it had none). */
  function ClassifyError(message: Option<string>): (r: ErrorReaction)
    ensures r == KeyProblem <==> message.Some? && MentionsKey(message.value)
    ensures r == BillingProblem <==> message.Some? && !MentionsKey(message.value) && MentionsBilling(message.value)
    ensures r.Shown? ==> r.text != "" && (message.Some? && message.value != "" ==> r.text == message.value)
  {
    if message.Some? && MentionsKey(message.value) then KeyProblem
    else if message.Some? && MentionsBilling(message.value) then BillingProblem
    else Shown(OrElse(message, GenericMessage))
  }

  /** The message shown for a reaction. */
  function ErrorText(reaction: ErrorReaction): string {
    match reaction
    case KeyProblem => KeyCheckMessage
    case BillingProblem => BillingMessage
    case Shown(text) => text
  }

  /** The error a missing key raises is the one the studio recognises as a key problem. */
  lemma MissingKeyIsKeyProblem()
    ensures ClassifyError(Some(KeyMissingMessage)) == KeyProblem
  {
    assert KeyMissingMessage[0..|KeyNotFound|] == KeyNotFound;
    ContainsAt(KeyMissingMessage, 0, "API Key not found");
  }

  /** A failed request with no key at all always sends the user back to the key modal. */
  lemma NoKeyReopensModal(topic: string, pointTexts: seq<string>, reply: Reply<DraftReply>, parse: string -> Option<RawDraft>)
    ensures var r := GenerateDraft(topic, pointTexts, None, None, reply, parse);
            r.Err? && ClassifyError(r.error) == KeyProblem
  {
    MissingKeyIsKeyProblem();
  }

  // ---------------------------------------------------------------- points

  /** A step of a point's image request: it starts, it delivers an image, or it fails. */
  datatype PointEdit = StartGenerating | Generated(url: string) | GenerationFailed

  function EditPoint(p: PostPoint, e: PointEdit): (q: PostPoint)
    ensures q.id == p.id && q.title == p.title && q.content == p.content && q.suggestedPrompt == p.suggestedPrompt
    ensures q.isGenerating <==> e.StartGenerating?
    ensures q.imageUrl == (if e.Generated? then Some(e.url) else p.imageUrl)
  {
    match e
    case StartGenerating => p.(isGenerating := true)
    case Generated(url) => p.(imageUrl := Some(url), isGenerating := false)
    case GenerationFailed => p.(isGenerating := false)
  }

  /** `points.map(p => p.id === pointId ? ... : p)`. */
  function UpdatePoints(points: seq<PostPoint>, id: string, e: PointEdit): (r: seq<PostPoint>)
    ensures |r| == |points|
    ensures forall i :: 0 <= i < |points| ==> r[i] == (if points[i].id == id then EditPoint(points[i], e) else points[i])
  {
    if points == [] then []
    else
      var k := |points| - 1;
      UpdatePoints(points[..k], id, e) + [if points[k].id == id then EditPoint(points[k], e) else points[k]]
  }

  /** `setDraft(prev => prev ? {...prev, points: ...} : null)`. */
  function OnDraft(d: Option<LinkedInDraft>, id: string, e: PointEdit): (r: Option<LinkedInDraft>)
    ensures r.None? <==> d.None?
    ensures r.Some? ==> r.value == d.value.(points := UpdatePoints(d.value.points, id, e))
  {
    if d.Some? then Some(d.value.(points := UpdatePoints(d.value.points, id, e))) else None
  }

  /** `points.find(p => p.id === pointId)`: a point with that id, if there is one. */
  function FindPoint(points: seq<PostPoint>, id: string): (r: Option<PostPoint>)
    ensures r.None? <==> forall i :: 0 <= i < |points| ==> points[i].id != id
    ensures r.Some? ==> r.value.id == id && r.value in points
  {
    if points == [] then None
    else if points[0].id == id then Some(points[0])
    else
      var r := FindPoint(points[1..], id);
      assert forall i :: 0 < i < |points| ==> points[i] == points[1..][i - 1];
      r
  }

  /** The point found is the first with that id. */
  lemma {:induction false} FindFirst(points: seq<PostPoint>, i: nat)
    requires i < |points|
    requires forall k :: 0 <= k < i ==> points[k].id != points[i].id
    ensures FindPoint(points, points[i].id) == Some(points[i])
    decreases i
  {
    if i > 0 {
      var tail := points[1..];
      assert tail[i - 1] == points[i];
      assert forall k :: 0 <= k < i - 1 ==> tail[k] == points[k + 1];
      FindFirst(tail, i - 1);
    }
  }

  /** With distinct ids, the point found is the one with that id. */
  lemma FindDistinct(points: seq<PostPoint>, i: nat)
    requires DistinctIds(points) && i < |points|
    ensures FindPoint(points, points[i].id) == Some(points[i])
  {
    FindFirst(points, i);
  }

  /** A step on a point keeps the ids, so distinct ids stay distinct. */
  lemma UpdateKeepsIds(points: seq<PostPoint>, id: string, e: PointEdit)
    ensures forall i :: 0 <= i < |points| ==> UpdatePoints(points, id, e)[i].id == points[i].id
    ensures DistinctIds(points) ==> DistinctIds(UpdatePoints(points, id, e))
  {
  }

  /** With distinct ids, a step by a point's id changes that point alone. */
  lemma UpdateOnlyTarget(points: seq<PostPoint>, i: nat, e: PointEdit)
    requires DistinctIds(points) && i < |points|
    ensures UpdatePoints(points, points[i].id, e)[i] == EditPoint(points[i], e)
    ensures forall j :: 0 <= j < |points| && j != i ==> UpdatePoints(points, points[i].id, e)[j] == points[j]
  {
  }

  /** A request's life on the point with id `points[i].id`: success sets the image and clears the flag, failure clears the flag and keeps the old image, and other points never change. */
  lemma GenerationLifecycle(points: seq<PostPoint>, i: nat, url: string)
    requires DistinctIds(points) && i < |points|
    ensures var id := points[i].id;
            var started := UpdatePoints(points, id, StartGenerating);
            && started[i].isGenerating
            && UpdatePoints(started, id, Generated(url))[i] == points[i].(imageUrl := Some(url), isGenerating := false)
            && UpdatePoints(started, id, GenerationFailed)[i] == points[i].(isGenerating := false)
            && forall j :: 0 <= j < |points| && j != i ==>
                 started[j] == points[j]
                 && UpdatePoints(started, id, Generated(url))[j] == points[j]
                 && UpdatePoints(started, id, GenerationFailed)[j] == points[j]
  {
    var id := points[i].id;
    var started := UpdatePoints(points, id, StartGenerating);
    UpdateOnlyTarget(points, i, StartGenerating);
    UpdateKeepsIds(points, id, StartGenerating);
    assert started[i].id == id;
    UpdateOnlyTarget(started, i, Generated(url));
    UpdateOnlyTarget(started, i, GenerationFailed);
  }

  /** The prompt an image request for `id` sends, when `target` has such a point with a prompt. */
  function StartRequest(target: LinkedInDraft, id: string): Option<string> {
    match FindPoint(target.points, id)
    case None => None
    case Some(p) => if OrElse(p.suggestedPrompt, "") != "" then Some(p.suggestedPrompt.value) else None
  }

  /** The points after the image requests for the first `k` points of `res` have started. */
  function StartedPoints(res: LinkedInDraft, k: nat): (ps: seq<PostPoint>)
    requires k <= |res.points|
    ensures |ps| == |res.points|
  {
    if k == 0 then res.points
    else
      var ps := StartedPoints(res, k - 1);
      var id := res.points[k - 1].id;
      if StartRequest(res, id).Some? then UpdatePoints(ps, id, StartGenerating) else ps
  }

  /** The prompts those first `k` requests send, in order. */
  function StartedPrompts(res: LinkedInDraft, k: nat): seq<string>
    requires k <= |res.points|
  {
    if k == 0 then []
    else
      var request := StartRequest(res, res.points[k - 1].id);
      StartedPrompts(res, k - 1) + (if request.Some? then [request.value] else [])
  }

  /** One more point's request: it starts when that point has a prompt, and nothing changes otherwise. */
  lemma StartedStep(res: LinkedInDraft, k: nat)
    requires k < |res.points|
    ensures var id := res.points[k].id;
            var request := StartRequest(res, id);
            && StartedPoints(res, k + 1) == (if request.Some? then UpdatePoints(StartedPoints(res, k), id, StartGenerating) else StartedPoints(res, k))
            && StartedPrompts(res, k + 1) == StartedPrompts(res, k) + (if request.Some? then [request.value] else [])
  {
  }

  /** With distinct ids and a prompt on every point, the request for point `k` starts, with that point's prompt. */
  lemma FreshPointStarts(res: LinkedInDraft, k: nat)
    requires k < |res.points|
    requires DistinctIds(res.points)
    requires forall i :: 0 <= i < |res.points| ==>
               res.points[i].suggestedPrompt.Some? && res.points[i].suggestedPrompt.value != ""
    ensures StartRequest(res, res.points[k].id) == Some(res.points[k].suggestedPrompt.value)
  {
    FindDistinct(res.points, k);
  }

  /** In a fresh draft the request for point `k - 1` always starts, with that point's prompt. */
  lemma FreshStep(res: LinkedInDraft, k: nat)
    requires 0 < k <= |res.points|
    requires DistinctIds(res.points)
    requires forall i :: 0 <= i < |res.points| ==>
               res.points[i].suggestedPrompt.Some? && res.points[i].suggestedPrompt.value != ""
    ensures StartedPoints(res, k) == UpdatePoints(StartedPoints(res, k - 1), res.points[k - 1].id, StartGenerating)
    ensures StartedPrompts(res, k) == StartedPrompts(res, k - 1) + [res.points[k - 1].suggestedPrompt.value]
  {
    FreshPointStarts(res, k - 1);
    StartedStep(res, k - 1);
  }

  /** `points` with the first `k` marked as generating and the rest untouched. */
  function MarkedGenerating(points: seq<PostPoint>, k: nat): (ps: seq<PostPoint>)
    ensures |ps| == |points|
  {
    seq(|points|, i requires 0 <= i < |points| => if i < k then points[i].(isGenerating := true) else points[i])
  }

  /** With no point marked, the points are unchanged. */
  lemma NoneMarked(points: seq<PostPoint>)
    ensures MarkedGenerating(points, 0) == points
  {
    assert forall i :: 0 <= i < |points| ==> MarkedGenerating(points, 0)[i] == points[i];
  }

  /** Marking the next point, among distinct ids, extends the marked prefix by one. */
  lemma MarkNext(points: seq<PostPoint>, k: nat)
    requires 0 < k <= |points| && DistinctIds(points)
    ensures UpdatePoints(MarkedGenerating(points, k - 1), points[k - 1].id, StartGenerating) == MarkedGenerating(points, k)
  {
    var ps := MarkedGenerating(points, k - 1);
    var after := UpdatePoints(ps, points[k - 1].id, StartGenerating);
    forall i | 0 <= i < |points|
      ensures after[i] == MarkedGenerating(points, k)[i]
    {
      assert ps[i].id == points[i].id;
      if i != k - 1 {
        assert ps[i].id != points[k - 1].id;
      }
    }
  }

  /** A fresh draft, whose ids are distinct and whose points all have prompts, marks every point as generating, one request at a time. */
  lemma {:induction false} FreshDraftStartsEveryPoint(res: LinkedInDraft, k: nat)
    requires k <= |res.points|
    requires DistinctIds(res.points)
    requires forall i :: 0 <= i < |res.points| ==>
               res.points[i].suggestedPrompt.Some? && res.points[i].suggestedPrompt.value != ""
    ensures StartedPoints(res, k) == MarkedGenerating(res.points, k)
    decreases k
  {
    if k == 0 {
      NoneMarked(res.points);
    } else {
      FreshDraftStartsEveryPoint(res, k - 1);
      FreshStep(res, k);
      MarkNext(res.points, k);
    }
  }

  /** The prompts of the first `k` points, "" standing for a missing one. */
  function FirstPrompts(points: seq<PostPoint>, k: nat): (r: seq<string>)
    requires k <= |points|
    ensures |r| == k
  {
    seq(k, i requires 0 <= i < k => OrElse(points[i].suggestedPrompt, ""))
  }

  /** ... and sends every point's prompt, in order. */
  lemma {:induction false} FreshDraftSendsEveryPrompt(res: LinkedInDraft, k: nat)
    requires k <= |res.points|
    requires DistinctIds(res.points)
    requires forall i :: 0 <= i < |res.points| ==>
               res.points[i].suggestedPrompt.Some? && res.points[i].suggestedPrompt.value != ""
    ensures StartedPrompts(res, k) == FirstPrompts(res.points, k)
    decreases k
  {
    if k > 0 {
      FreshDraftSendsEveryPrompt(res, k - 1);
      FreshStep(res, k);
      assert FirstPrompts(res.points, k) == FirstPrompts(res.points, k - 1) + [res.points[k - 1].suggestedPrompt.value];
    }
  }

  /** A draft fresh from the generator satisfies what `FreshDraftStartsEveryPoint` needs. */
  lemma GeneratedDraftStartsEveryPoint(topic: string, pointTexts: seq<string>, stored: Option<string>, env: Option<string>,
                                       reply: Reply<DraftReply>, parse: string -> Option<RawDraft>)
    requires GenerateDraft(topic, pointTexts, stored, env, reply, parse).Ok?
    ensures var res := GenerateDraft(topic, pointTexts, stored, env, reply, parse).value;
            forall i :: 0 <= i < |res.points| ==> StartedPoints(res, |res.points|)[i] == res.points[i].(isGenerating := true)
  {
    var res := GenerateDraft(topic, pointTexts, stored, env, reply, parse).value;
    GeneratedDraftShape(topic, pointTexts, stored, env, reply, parse);
    FreshDraftStartsEveryPoint(res, |res.points|);
  }

  // ---------------------------------------------------------------- the studio

  class Studio {
    var storedKey: Option<string>
    var hasApiKey: bool
    var showKeyModal: bool
    var stage: Stage
    var topic: string
    var numPoints: int
    var pointInputs: seq<string>
    var tone: Tone
    var draft: Option<LinkedInDraft>
    var isLoading: bool
    var error: Option<string>

    /** The insight count is within bounds and there is one input per insight. */
    ghost predicate Valid()
      reads this
    {
      MinPoints <= numPoints <= MaxPoints && |pointInputs| == numPoints
    }

    /** The initial state; the key check on mount looks at the stored key. */
    constructor(stored: Option<string>)
      ensures Valid()
      ensures storedKey == stored && hasApiKey == (stored.Some? && stored.value != "") && !showKeyModal
      ensures stage == Input && topic == "" && numPoints == 3 && pointInputs == ["", "", ""] && tone == Professional
      ensures draft.None? && !isLoading && error.None?
    {
      storedKey := stored;
      hasApiKey := stored.Some? && stored.value != "";
      showKeyModal := false;
      stage := Input;
      topic := "";
      numPoints := 3;
      pointInputs := ["", "", ""];
      tone := Professional;
      draft := None;
      isLoading := false;
      error := None;
    }

    /** `handleClearKey`. */
    method ClearKey()
      modifies this`storedKey, this`hasApiKey, this`showKeyModal, this`draft, this`stage
      ensures storedKey.None? && !hasApiKey && showKeyModal && draft.None? && stage == Input
    {
      storedKey := None;
      hasApiKey := false;
      showKeyModal := true;
      draft := None;
      stage := Input;
    }

    /** `handleApiError`: a key problem also clears `hasApiKey` and opens the key modal. */
    method HandleApiError(message: Option<string>)
      modifies this`hasApiKey, this`showKeyModal, this`error
      ensures error == Some(ErrorText(ClassifyError(message)))
      ensures ClassifyError(message) == KeyProblem ==> !hasApiKey && showKeyModal
      ensures ClassifyError(message) != KeyProblem ==> hasApiKey == old(hasApiKey) && showKeyModal == old(showKeyModal)
    {
      var reaction := ClassifyError(message);
      if reaction == KeyProblem {
        hasApiKey := false;
        showKeyModal := true;
      }
      error := Some(ErrorText(reaction));
    }

    /** `updateNumPoints`: clamp the count, then pad with blanks or cut the list to it. */
    method UpdateNumPoints(val: int)
      modifies this`numPoints, this`pointInputs
      ensures Valid()
      ensures numPoints == ClampCount(val)
      ensures pointInputs == Resized(old(pointInputs), numPoints)
    {
      var newNum := ClampCount(val);
      numPoints := newNum;
      var newInputs := pointInputs;
      if newNum > |pointInputs| {
        var i := |pointInputs|;
        while i < newNum
          invariant |pointInputs| <= i <= newNum
          invariant newInputs == Resized(pointInputs, i)
        {
          newInputs := newInputs + [""];
          i := i + 1;
        }
      } else {
        newInputs := newInputs[..newNum];
      }
      pointInputs := newInputs;
    }

    /** `handlePointChange`: replace one insight. */
    method PointChange(index: nat, val: string)
      requires index < |pointInputs|
      modifies this`pointInputs
      ensures |pointInputs| == |old(pointInputs)| && pointInputs[index] == val
      ensures forall i :: 0 <= i < |pointInputs| && i != index ==> pointInputs[i] == old(pointInputs)[i]
      ensures old(Valid()) ==> Valid()
    {
      pointInputs := pointInputs[index := val];
    }

    /** `if (error) setError(null)`: a shown message is dismissed; an absent or empty one is left as it is. */
    method DismissError()
      modifies this`error
      ensures old(error).Some? && old(error).value != "" ==> error.None?
      ensures old(error).None? || old(error).value == "" ==> error == old(error)
      ensures OrElse(error, "") == ""
    {
      if error.Some? && error.value != "" {
        error := None;
      }
    }

    /** The topic field's `onChange`: the new topic, and a shown error dismissed. */
    method SetTopic(t: string)
      modifies this`topic, this`error
      ensures topic == t
      ensures error == (if old(error).Some? && old(error).value != "" then None else old(error))
    {
      topic := t;
      DismissError();
    }

    /** An insight field's `onChange`: `handlePointChange`, and a shown error dismissed. */
    method InsightTyped(index: nat, val: string)
      requires index < |pointInputs|
      modifies this`pointInputs, this`error
      ensures pointInputs == old(pointInputs)[index := val]
      ensures error == (if old(error).Some? && old(error).value != "" then None else old(error))
      ensures old(Valid()) ==> Valid()
    {
      PointChange(index, val);
      DismissError();
    }

    /** The "start new draft" and "edit inputs" buttons: back to the input form, the draft kept. */
    method BackToInput()
      modifies this`stage
      ensures stage == Input
    {
      stage := Input;
    }

    method SetTone(t: Tone)
      modifies this`tone
      ensures tone == t
    {
      tone := t;
    }

    /** `handleCreateDraft` up to the request: refused with a message, or loading with the request it makes. */
    method CreateDraft() returns (request: Option<DraftRequest>)
      modifies this`isLoading, this`error
      ensures request == RequestFor(topic, pointInputs, tone)
      ensures request.None? ==> error == Some(MissingInputMessage) && isLoading == old(isLoading)
      ensures request.Some? ==> isLoading && error.None?
    {
      var active := ActivePoints(pointInputs);
      ActivePointsEmpty(pointInputs);
      if Blank(topic) || active == [] {
        error := Some(MissingInputMessage);
        return None;
      }
      isLoading := true;
      error := None;
      request := Some(DraftRequest(topic, active, tone));
    }

    /** The request failed. */
    method DraftFailed(message: Option<string>)
      modifies this`hasApiKey, this`showKeyModal, this`error, this`isLoading
      ensures !isLoading && error == Some(ErrorText(ClassifyError(message)))
      ensures ClassifyError(message) == KeyProblem ==> !hasApiKey && showKeyModal
      ensures ClassifyError(message) != KeyProblem ==> hasApiKey == old(hasApiKey) && showKeyModal == old(showKeyModal)
    {
      HandleApiError(message);
      isLoading := false;
    }

    /** `handleGenerateImageForPoint` up to the request: the prompt it sends, or none when it does nothing. */
    method StartImage(id: string, current: Option<LinkedInDraft>) returns (prompt: Option<string>)
      modifies this`draft, this`error
      ensures var target := if current.Some? then current else old(draft);
              prompt == (if target.Some? then StartRequest(target.value, id) else None)
      ensures prompt.Some? ==> draft == OnDraft(old(draft), id, StartGenerating) && error.None?
      ensures prompt.None? ==> draft == old(draft) && error == old(error)
    {
      var target := if current.Some? then current else draft;
      if target.None? {
        return None;
      }
      var point := FindPoint(target.value.points, id);
      if point.None? || OrElse(point.value.suggestedPrompt, "") == "" {
        return None;
      }
      error := None;
      draft := OnDraft(draft, id, StartGenerating);
      prompt := Some(point.value.suggestedPrompt.value);
    }

    /** The draft arrived: show it, then start an image request for each of its points. */
    method DraftArrived(res: LinkedInDraft) returns (prompts: seq<string>)
      modifies this`draft, this`error, this`stage, this`isLoading
      ensures stage == Editing && !isLoading
      ensures draft == Some(res.(points := StartedPoints(res, |res.points|)))
      ensures prompts == StartedPrompts(res, |res.points|)
      ensures prompts != [] ==> error.None?
      ensures prompts == [] ==> error == old(error)
    {
      draft := Some(res);
      stage := Editing;
      isLoading := false;
      prompts := StartAllImages(res);
    }

    /** `res.points.forEach(p => handleGenerateImageForPoint(p.id, res))`, each call up to its request. */
    method StartAllImages(res: LinkedInDraft) returns (prompts: seq<string>)
      requires draft == Some(res)
      modifies this`draft, this`error
      ensures draft == Some(res.(points := StartedPoints(res, |res.points|)))
      ensures prompts == StartedPrompts(res, |res.points|)
      ensures prompts != [] ==> error.None?
      ensures prompts == [] ==> error == old(error)
    {
      prompts := [];
      var k := 0;
      while k < |res.points|
        invariant 0 <= k <= |res.points|
        invariant draft == Some(res.(points := StartedPoints(res, k)))
        invariant prompts == StartedPrompts(res, k)
        invariant prompts != [] ==> error.None?
        invariant prompts == [] ==> error == old(error)
      {
        var prompt := StartNext(res, k);
        if prompt.Some? {
          prompts := prompts + [prompt.value];
        }
        k := k + 1;
      }
    }

    /** `handleGenerateImageForPoint` for the draft's point `k`, while the points before it have started. */
    method StartNext(res: LinkedInDraft, k: nat) returns (prompt: Option<string>)
      requires k < |res.points| && draft == Some(res.(points := StartedPoints(res, k)))
      modifies this`draft, this`error
      ensures draft == Some(res.(points := StartedPoints(res, k + 1)))
      ensures prompt.Some? ==> StartedPrompts(res, k + 1) == StartedPrompts(res, k) + [prompt.value] && error.None?
      ensures prompt.None? ==> StartedPrompts(res, k + 1) == StartedPrompts(res, k) && error == old(error)
    {
      prompt := StartImage(res.points[k].id, Some(res));
      StartedStep(res, k);
      if prompt.None? {
        assert StartedPrompts(res, k) + [] == StartedPrompts(res, k);
      }
    }

    /** A generation or edit request delivered its image. */
    method ImageReady(id: string, url: string)
      modifies this`draft
      ensures draft == OnDraft(old(draft), id, Generated(url))
    {
      draft := OnDraft(draft, id, Generated(url));
    }

    /** A generation or edit request failed. */
    method ImageFailed(id: string, message: Option<string>)
      modifies this`draft, this`hasApiKey, this`showKeyModal, this`error
      ensures draft == OnDraft(old(draft), id, GenerationFailed)
      ensures error == Some(ErrorText(ClassifyError(message)))
      ensures ClassifyError(message) == KeyProblem ==> !hasApiKey && showKeyModal
      ensures ClassifyError(message) != KeyProblem ==> hasApiKey == old(hasApiKey) && showKeyModal == old(showKeyModal)
    {
      HandleApiError(message);
      draft := OnDraft(draft, id, GenerationFailed);
    }

    /** `handleEditPointImage` up to the request: the image it sends for editing, or none when it does nothing. */
    method StartEdit(id: string) returns (image: Option<string>)
      modifies this`draft, this`error
      ensures image.Some? <==> old(draft).Some? && FindPoint(old(draft).value.points, id).Some?
                               && OrElse(FindPoint(old(draft).value.points, id).value.imageUrl, "") != ""
      ensures image.Some? ==> image == FindPoint(old(draft).value.points, id).value.imageUrl
                              && draft == OnDraft(old(draft), id, StartGenerating) && error.None?
      ensures image.None? ==> draft == old(draft) && error == old(error)
    {
      if draft.None? {
        return None;
      }
      var point := FindPoint(draft.value.points, id);
      if point.None? || OrElse(point.value.imageUrl, "") == "" {
        return None;
      }
      error := None;
      draft := Some(draft.value.(points := UpdatePoints(draft.value.points, id, StartGenerating)));
      image := point.value.imageUrl;
    }
  }
}
