/**
 * The editor's list of slides and the sidebar that drives it: an uploaded
 * image is appended as a placeholder slide that waits for its analysis; the
 * analysis (or its failure) is merged into the slide with that id; slides are
 * updated by id with a partial record, removed by id, and moved one place up
 * or down; at most one slide is in edit mode at a time.
 */
module SlideBoard {
  import opened Text
  import opened CarouselTypes
  import opened ImageAnalysis
  import CanvasExport

  /** The layout every new slide starts with. */
  const DefaultPositions: Positions := Positions(
    content := ElementPosition(14.0, 35.0, Some(75.0), None),
    branding := ElementPosition(8.0, 88.0, None, None),
    navigation := ElementPosition(85.0, 88.0, None, None),
    pillar := ElementPosition(10.0, 35.0, None, Some(25.0)))

  /** Every element of the default layout lies inside the slide, and the pillar starts on the text's line. */
  lemma DefaultsAreInsideAndAligned()
    ensures forall e :: InPercentRange(Get(DefaultPositions, e).x) && InPercentRange(Get(DefaultPositions, e).y)
    ensures PillarAligned(DefaultPositions)
    ensures DefaultPositions.content.x - DefaultPositions.pillar.x == 4.0
  {
  }

  /** The slide shown while an uploaded image is being analysed. */
  function Placeholder(id: string, image: string): Slide {
    Slide(id, "", image, Analyzing, Dark, DefaultPositions)
  }

  /** The text's line for a zone: 15 for top, 35 for center, 65 for bottom. */
  function ZoneY(z: Zone): (y: real)
    ensures 0.0 < y < 100.0
  {
    match z
    case Top => 15.0
    case Center => 35.0
    case Bottom => 65.0
  }

  /** The zones sit top to bottom and never share a line. */
  lemma ZonesAreOrdered()
    ensures ZoneY(Top) < ZoneY(Center) < ZoneY(Bottom)
  {
  }

  /** `Partial<CarouselSlide>`: each field that is present replaces the slide's own. */
  datatype SlidePatch = SlidePatch(
    id: Option<string>,
    content: Option<string>,
    sourceImage: Option<string>,
    status: Option<Status>,
    theme: Option<Theme>,
    positions: Option<Positions>)

  const EmptyPatch: SlidePatch := SlidePatch(None, None, None, None, None, None)

  function Pick<T>(o: Option<T>, current: T): T {
    if o.Some? then o.value else current
  }

  /** `{ ...s, ...updates }`. */
  function Merged(s: Slide, p: SlidePatch): (r: Slide)
    ensures p.id.Some? ==> r.id == p.id.value
    ensures p.id.None? ==> r.id == s.id
    ensures p.content.Some? ==> r.content == p.content.value
    ensures p.content.None? ==> r.content == s.content
    ensures p.sourceImage.Some? ==> r.sourceImage == p.sourceImage.value
    ensures p.sourceImage.None? ==> r.sourceImage == s.sourceImage
    ensures p.status.Some? ==> r.status == p.status.value
    ensures p.status.None? ==> r.status == s.status
    ensures p.theme.Some? ==> r.theme == p.theme.value
    ensures p.theme.None? ==> r.theme == s.theme
    ensures p.positions.Some? ==> r.positions == p.positions.value
    ensures p.positions.None? ==> r.positions == s.positions
  {
    Slide(Pick(p.id, s.id), Pick(p.content, s.content), Pick(p.sourceImage, s.sourceImage),
          Pick(p.status, s.status), Pick(p.theme, s.theme), Pick(p.positions, s.positions))
  }

  /** An empty patch changes nothing, and applying a patch twice is applying it once. */
  lemma MergeIdentityAndIdempotence(s: Slide, p: SlidePatch)
    ensures Merged(s, EmptyPatch) == s
    ensures Merged(Merged(s, p), p) == Merged(s, p)
  {
  }

  /** What the board does to the slide with a given id. */
  datatype Edit =
    | ApplyAnalysis(analysis: Analysis)
    | AnalysisFailed
    | Patch(updates: SlidePatch)

  /** One slide after an edit. */
  function Edited(s: Slide, e: Edit): Slide {
    match e
    case ApplyAnalysis(a) =>
      var y := ZoneY(a.contentPosition);
      s.(theme := a.theme, content := a.content, status := Idle,
         positions := s.positions.(content := s.positions.content.(y := y),
                                   pillar := s.positions.pillar.(y := y)))
    case AnalysisFailed => s.(status := Idle)
    case Patch(p) => Merged(s, p)
  }

  /** A merged analysis sets theme and text, ends the wait, and puts text and pillar on the zone's line; nothing else changes. */
  lemma AnalysisMerge(s: Slide, a: Analysis)
    ensures var r := Edited(s, ApplyAnalysis(a));
            && r.id == s.id && r.sourceImage == s.sourceImage
            && r.theme == a.theme && r.content == a.content && r.status == Idle
            && PillarAligned(r.positions) && r.positions.content.y == ZoneY(a.contentPosition)
            && r.positions.content.(y := s.positions.content.y) == s.positions.content
            && r.positions.pillar.(y := s.positions.pillar.y) == s.positions.pillar
            && r.positions.branding == s.positions.branding && r.positions.navigation == s.positions.navigation
  {
  }

  /** A failed analysis only ends the wait. */
  lemma FailedAnalysisOnlyEndsWait(s: Slide)
    ensures var r := Edited(s, AnalysisFailed);
            r.status == Idle && r.(status := s.status) == s
  {
  }

  /** `prev.map(s => s.id === id ? edit(s) : s)`. */
  function MapById(slides: seq<Slide>, id: string, e: Edit): (r: seq<Slide>)
    ensures |r| == |slides|
    ensures forall i :: 0 <= i < |slides| ==>
              r[i] == if slides[i].id == id then Edited(slides[i], e) else slides[i]
  {
    if slides == [] then []
    else
      var last := slides[|slides| - 1];
      MapById(slides[..|slides| - 1], id, e) + [if last.id == id then Edited(last, e) else last]
  }

  /** `prev.filter(s => s.id !== id)`. */
  function RemoveById(slides: seq<Slide>, id: string): (r: seq<Slide>)
    ensures |r| <= |slides|
    ensures forall s :: s in r <==> s in slides && s.id != id
  {
    if slides == [] then []
    else
      var last := slides[|slides| - 1];
      RemoveById(slides[..|slides| - 1], id) + (if last.id == id then [] else [last])
  }

  /** Removing keeps the order of what stays: it works piece by piece. */
  lemma {:induction false} RemoveByIdSplits(a: seq<Slide>, b: seq<Slide>, id: string)
    ensures RemoveById(a + b, id) == RemoveById(a, id) + RemoveById(b, id)
    decreases |b|
  {
    if b == [] {
      assert a + b == a;
    } else {
      var b' := b[..|b| - 1];
      assert (a + b)[..|a + b| - 1] == a + b';
      RemoveByIdSplits(a, b', id);
    }
  }

  /** Removing an id no slide has changes nothing. */
  lemma {:induction false} RemoveAbsentId(slides: seq<Slide>, id: string)
    requires forall i :: 0 <= i < |slides| ==> slides[i].id != id
    ensures RemoveById(slides, id) == slides
    decreases |slides|
  {
    if slides != [] {
      var init := slides[..|slides| - 1];
      var last := slides[|slides| - 1];
      assert last.id != id;
      assert forall i :: 0 <= i < |init| ==> init[i] == slides[i];
      RemoveAbsentId(init, id);
      assert RemoveById(slides, id) == RemoveById(init, id) + [last];
      InitThenLast(slides);
    }
  }

  /** A nonempty list is its front followed by its last element. */
  lemma InitThenLast(slides: seq<Slide>)
    requires slides != []
    ensures slides[..|slides| - 1] + [slides[|slides| - 1]] == slides
  {
  }

  datatype Direction = Up | Down

  /** The list with the cells at `i` and `j` exchanged. */
  function Swapped(slides: seq<Slide>, i: nat, j: nat): (r: seq<Slide>)
    requires i < |slides| && j < |slides|
    ensures |r| == |slides| && multiset(r) == multiset(slides)
    ensures r[i] == slides[j] && r[j] == slides[i]
    ensures forall k :: 0 <= k < |slides| && k != i && k != j ==> r[k] == slides[k]
  {
    slides[i := slides[j]][j := slides[i]]
  }

  /** `moveSlide`: up swaps with the previous slide, down with the next; at either end it does nothing. */
  function Moved(slides: seq<Slide>, index: nat, direction: Direction): (r: seq<Slide>)
    requires index < |slides|
    ensures |r| == |slides| && multiset(r) == multiset(slides)
  {
    if direction == Up && index > 0 then Swapped(slides, index, index - 1)
    else if direction == Down && index < |slides| - 1 then Swapped(slides, index, index + 1)
    else slides
  }

  /** Moving a slide up and then the same slide back down restores the list. */
  lemma MoveUpThenDown(slides: seq<Slide>, index: nat)
    requires 0 < index < |slides|
    ensures Moved(Moved(slides, index, Up), index - 1, Down) == slides
  {
    var once := Moved(slides, index, Up);
    assert Moved(once, index - 1, Down) == Swapped(once, index - 1, index);
  }

  predicate UniqueIds(slides: seq<Slide>) {
    forall i, j :: 0 <= i < |slides| && 0 <= j < |slides| && slides[i].id == slides[j].id ==> i == j
  }

  /** The "up" button is greyed out on the first slide. */
  function UpDisabled(index: nat): bool {
    index == 0
  }

  /** The "down" button is greyed out on the last slide. */
  function DownDisabled(index: nat, count: nat): bool {
    index == count - 1
  }

  /** A button is greyed out exactly where its move would leave distinct slides as they are. */
  lemma MoveButtonsMatchMoves(slides: seq<Slide>, index: nat)
    requires index < |slides| && UniqueIds(slides)
    ensures UpDisabled(index) <==> Moved(slides, index, Up) == slides
    ensures DownDisabled(index, |slides|) <==> Moved(slides, index, Down) == slides
  {
    if index > 0 {
      assert Moved(slides, index, Up)[index] == slides[index - 1];
    }
    if index < |slides| - 1 {
      assert Moved(slides, index, Down)[index] == slides[index + 1];
    }
  }

  /** The sidebar's edit button: it starts editing this slide, or stops when it was the one being edited. */
  function ToggledEditing(editingId: Option<string>, id: string): (r: Option<string>)
    ensures r == Some(id) <==> editingId != Some(id)
    ensures r.None? <==> editingId == Some(id)
  {
    if editingId == Some(id) then None else Some(id)
  }

  /** The edit button's caption. */
  function EditButtonLabel(editingId: Option<string>, id: string): (caption: string)
    ensures caption == "FINISH EDIT" <==> editingId == Some(id)
    ensures caption == "DRAG ELEMENTS" <==> editingId != Some(id)
  {
    if editingId == Some(id) then "FINISH EDIT" else "DRAG ELEMENTS"
  }

  /** With distinct ids, the single `editingId` puts at most one slide in edit mode. */
  lemma AtMostOneSlideEditing(slides: seq<Slide>, editingId: Option<string>, i: nat, j: nat)
    requires UniqueIds(slides) && i < |slides| && j < |slides|
    requires editingId == Some(slides[i].id) && editingId == Some(slides[j].id)
    ensures i == j
  {
  }

  /** The theme button: light and dark swap. */
  function FlippedTheme(t: Theme): (r: Theme)
    ensures r != t
  {
    if t == Light then Dark else Light
  }

  /** Pressing the theme button twice restores the theme. */
  lemma FlipTwice(t: Theme)
    ensures FlippedTheme(FlippedTheme(t)) == t
  {
  }

  /** The theme button's caption names the text colour, and it agrees with the exported image's. */
  function ThemeLabel(t: Theme): (caption: string)
    ensures caption == "Black Text" <==> CanvasExport.TextColor(t) == "#000000"
    ensures caption == "White Text" <==> CanvasExport.TextColor(t) == "#FFFFFF"
  {
    if t == Light then "Black Text" else "White Text"
  }

  /** "PDF Export" appears once there is a slide, which is when the export does anything. */
  function PdfButtonShown(slides: seq<Slide>): (shown: bool)
    ensures shown <==> slides != []
  {
    |slides| > 0
  }

  /** A patch that only sets `content`, as the slide's text box sends. */
  function ContentPatch(text: string): SlidePatch {
    EmptyPatch.(content := Some(text))
  }

  /** A patch that only sets `theme`, as the theme button sends. */
  function ThemePatch(t: Theme): SlidePatch {
    EmptyPatch.(theme := Some(t))
  }

  /** Typing in a slide's text box changes only that slide's text. */
  lemma ContentEditChangesOnlyText(s: Slide, text: string)
    ensures Edited(s, Patch(ContentPatch(text))) == s.(content := text)
  {
  }

  /** The theme button changes only the slide's theme, and a second press restores the slide. */
  lemma ThemeButtonChangesOnlyTheme(s: Slide)
    ensures var once := Edited(s, Patch(ThemePatch(FlippedTheme(s.theme))));
            && once == s.(theme := FlippedTheme(s.theme)) && once.theme != s.theme
            && Edited(once, Patch(ThemePatch(FlippedTheme(once.theme)))) == s
  {
    FlipTwice(s.theme);
  }

  /** No edit the board applies through its own operations marks a slide as failed. */
  predicate KeepsStatusValid(e: Edit) {
    e.Patch? ==> e.updates.status != Some(Error) && e.updates.id.None?
  }

  /** The editor's slide list and which slide is in edit mode. */
  class Board {
    var slides: seq<Slide>
    var editingId: Option<string>

    /** Ids are distinct, and no slide is in the error state (no operation of the editor sets it). */
    ghost predicate Valid()
      reads this
    {
      UniqueIds(slides) && forall i :: 0 <= i < |slides| ==> slides[i].status != Error
    }

    constructor ()
      ensures slides == [] && editingId == None
      ensures Valid()
    {
      slides := [];
      editingId := None;
    }

    /** An uploaded image becomes a placeholder slide at the end; `id` is a fresh UUID. */
    method AddPlaceholder(id: string, image: string)
      requires Valid()
      requires forall i :: 0 <= i < |slides| ==> slides[i].id != id
      modifies this`slides
      ensures slides == old(slides) + [Placeholder(id, image)]
      ensures Valid()
    {
      slides := slides + [Placeholder(id, image)];
    }

    /** Applies `e` to the slide with that id (`updateSlide` and both ends of `handleFiles`). */
    method Apply(id: string, e: Edit)
      modifies this`slides
      ensures slides == MapById(old(slides), id, e)
      ensures old(Valid()) && KeepsStatusValid(e) ==> Valid()
    {
      slides := MapById(slides, id, e);
    }

    /** `removeSlide`. */
    method Remove(id: string)
      modifies this`slides
      ensures slides == RemoveById(old(slides), id)
      ensures old(Valid()) ==> Valid()
    {
      ghost var before, wasValid := slides, Valid();
      slides := RemoveById(slides, id);
      if wasValid {
        RemovePreservesValid(before, id);
      }
    }

    /** `moveSlide`: the list is copied into a fresh array, two cells swap, and the copy replaces the list. */
    method Move(index: nat, direction: Direction)
      requires index < |slides|
      modifies this`slides
      ensures slides == Moved(old(slides), index, direction)
      ensures old(Valid()) ==> Valid()
    {
      var prev := slides;
      ghost var wasValid := Valid();
      if direction == Up && index > 0 {
        var newSlides := new Slide[|prev|](k requires 0 <= k < |prev| => prev[k]);
        newSlides[index], newSlides[index - 1] := newSlides[index - 1], newSlides[index];
        slides := newSlides[..];
        assert slides == Swapped(prev, index, index - 1);
      } else if direction == Down && index < |prev| - 1 {
        var newSlides := new Slide[|prev|](k requires 0 <= k < |prev| => prev[k]);
        newSlides[index], newSlides[index + 1] := newSlides[index + 1], newSlides[index];
        slides := newSlides[..];
        assert slides == Swapped(prev, index, index + 1);
      }
      if wasValid {
        MovePreservesValid(prev, index, direction);
      }
    }

    /** The sidebar's edit button for the slide `id`. */
    method ToggleEditing(id: string)
      modifies this`editingId
      ensures editingId == ToggledEditing(old(editingId), id)
    {
      editingId := if editingId == Some(id) then None else Some(id);
    }
  }

  lemma RemovePreservesValid(slides: seq<Slide>, id: string)
    requires UniqueIds(slides) && forall i :: 0 <= i < |slides| ==> slides[i].status != Error
    ensures var r := RemoveById(slides, id);
            UniqueIds(r) && forall i :: 0 <= i < |r| ==> r[i].status != Error
  {
    var r := RemoveById(slides, id);
    forall i, j | 0 <= i < |r| && 0 <= j < |r| && r[i].id == r[j].id
      ensures i == j
    {
      RemoveIsSubsequence(slides, id, i, j);
    }
    forall i | 0 <= i < |r|
      ensures r[i].status != Error
    {
      assert r[i] in slides;
    }
  }

  /** Two kept slides come from two distinct cells, in the same order. */
  lemma {:induction false} RemoveIsSubsequence(slides: seq<Slide>, id: string, i: nat, j: nat)
    requires UniqueIds(slides)
    requires i < |RemoveById(slides, id)| && j < |RemoveById(slides, id)|
    requires RemoveById(slides, id)[i].id == RemoveById(slides, id)[j].id
    ensures i == j
    decreases |slides|
  {
    var r := RemoveById(slides, id);
    var init := slides[..|slides| - 1];
    var last := slides[|slides| - 1];
    var r' := RemoveById(init, id);
    assert UniqueIds(init);
    if i < |r'| && j < |r'| {
      RemoveIsSubsequence(init, id, i, j);
    }
  }

  lemma MovePreservesValid(slides: seq<Slide>, index: nat, direction: Direction)
    requires index < |slides|
    requires UniqueIds(slides) && forall i :: 0 <= i < |slides| ==> slides[i].status != Error
    ensures var r := Moved(slides, index, direction);
            UniqueIds(r) && forall i :: 0 <= i < |r| ==> r[i].status != Error
  {
    var r := Moved(slides, index, direction);
    var other := if direction == Up && index > 0 then index - 1
                 else if direction == Down && index < |slides| - 1 then index + 1
                 else index;
    assert forall k :: 0 <= k < |r| ==> r[k] == slides[SwapIndex(k, index, other)];
  }

  /** Where a cell of the swapped list came from. */
  function SwapIndex(k: nat, i: nat, j: nat): nat {
    if k == i then j else if k == j then i else k
  }
}
