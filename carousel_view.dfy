/**
 * The LinkedIn-style preview of a draft: the slide index that follows the
 * horizontal scroll, the previous/next buttons, the caption with its
 * `**bold**` runs, the footer, and "download all", which saves every slide
 * that has an image.
 */
module CarouselView {
  import opened Text
  import opened CarouselTypes
  import opened DraftService

  // ---------------------------------------------------------------- scrolling

  /** `Math.round`: the nearest integer, halves rounded up. */
  function Round(x: real): (r: int)
    ensures r as real - 0.5 <= x < r as real + 0.5
  {
    (x + 0.5).Floor
  }

  /** `Math.min(Math.max(index, 0), count - 1)`; with no slides this is -1. */
  function ClampIndex(index: int, count: nat): (r: int)
    ensures count >= 1 ==> 0 <= r < count
    ensures count >= 1 && 0 <= index < count ==> r == index
    ensures count == 0 ==> r == -1
  {
    var atLeastZero := if index < 0 then 0 else index;
    if atLeastZero < count - 1 then atLeastZero else count - 1
  }

  /** Clamping an index that is already clamped changes nothing. */
  lemma ClampIdempotent(index: int, count: nat)
    ensures ClampIndex(ClampIndex(index, count), count) == ClampIndex(index, count)
  {
  }

  predicate PrevDisabled(activeIndex: int) {
    activeIndex == 0
  }

  predicate NextDisabled(activeIndex: int, count: nat) {
    activeIndex == count - 1
  }

  /** After a scroll, "previous" is disabled exactly when the scroll is at or before the first slide, "next" exactly at or past the last; a single slide disables both. */
  lemma NavigationAfterScroll(index: int, count: nat)
    requires count >= 1
    ensures PrevDisabled(ClampIndex(index, count)) <==> index <= 0 || count == 1
    ensures NextDisabled(ClampIndex(index, count), count) <==> index >= count - 1 || count == 1
  {
  }

  /** A single slide disables both buttons. */
  lemma SingleSlideDisablesBoth(index: int)
    ensures PrevDisabled(ClampIndex(index, 1)) && NextDisabled(ClampIndex(index, 1), 1)
  {
  }

  /** The footer's "<activeIndex + 1> of <count>"; the export's page label for the same slide. */
  function FooterCounter(activeIndex: int, count: nat): (r: string)
    requires activeIndex >= -1
    ensures Split(r, ' ') == [NatToString((activeIndex + 1) as nat), "of", NatToString(count)]
    ensures activeIndex >= 0 ==> r == PageLabel(activeIndex, count)
  {
    CountLabelWords((activeIndex + 1) as nat, count);
    CountLabel((activeIndex + 1) as nat, count)
  }

  /** The footer title: the first slide's title, or "Carousel Document" when there is none or it is empty. */
  function FooterTitle(points: seq<PostPoint>): (t: string)
    ensures t != ""
    ensures |points| >= 1 && points[0].title != "" ==> t == points[0].title
  {
    if |points| >= 1 && points[0].title != "" then points[0].title else "Carousel Document"
  }

  /** The preview's scroll position over a fixed list of slides. */
  class Preview {
    const points: seq<PostPoint>
    var activeIndex: int

    /** The index is a slide's, or -1 when there are no slides; it starts at 0. */
    ghost predicate Valid()
      reads this
    {
      -1 <= activeIndex && (|points| >= 1 ==> activeIndex < |points|)
    }

    constructor(points: seq<PostPoint>)
      ensures this.points == points && activeIndex == 0 && Valid()
    {
      this.points := points;
      activeIndex := 0;
    }

    /** `handleScroll`: the slide nearest the scroll offset, clamped to the list. */
    method HandleScroll(scrollLeft: real, width: real)
      requires width > 0.0
      modifies this`activeIndex
      ensures activeIndex == ClampIndex(Round(scrollLeft / width), |points|)
      ensures Valid()
    {
      var index := Round(scrollLeft / width);
      activeIndex := ClampIndex(index, |points|);
    }

    function Counter(): (r: string)
      requires Valid()
      reads this
      ensures activeIndex >= 0 ==> r == PageLabel(activeIndex, |points|)
    {
      FooterCounter(activeIndex, |points|)
    }
  }

  // ---------------------------------------------------------------- caption

  /** The characters `.` does not match in a JavaScript regular expression. */
  predicate LineTerminator(c: char) {
    c == '\n' || c == '\r' || c == '\U{2028}' || c == '\U{2029}'
  }

  /** A `**` marker starts at `i`. */
  predicate MarkerAt(s: string, i: int) {
    0 <= i && i + 2 <= |s| && s[i] == '*' && s[i + 1] == '*'
  }

  /** No line terminator in `s[a..b]`. */
  predicate SingleLine(s: string, a: nat, b: nat)
    requires a <= b <= |s|
  {
    forall k :: a <= k < b ==> !LineTerminator(s[k])
  }

  /** `.*?\*\*` matched from `from`: the first marker at or after `from`, unless a line terminator comes first. */
  function CloseFrom(s: string, from: nat): (r: Option<nat>)
    requires from <= |s|
    ensures r.Some? ==> from <= r.value && MarkerAt(s, r.value) && SingleLine(s, from, r.value)
                        && forall j :: from <= j < r.value ==> !MarkerAt(s, j)
    ensures r.None? ==> forall j :: from <= j < |s| && MarkerAt(s, j) ==> !SingleLine(s, from, j)
    decreases |s| - from
  {
    if from + 2 > |s| then None
    else if MarkerAt(s, from) then Some(from)
    else if LineTerminator(s[from]) then None
    else CloseFrom(s, from + 1)
  }

  /** `\*\*.*?\*\*` matches at `i`. */
  predicate BoldAt(s: string, i: nat) {
    MarkerAt(s, i) && CloseFrom(s, i + 2).Some?
  }

  /** Where the match at `i` ends. */
  function MatchEnd(s: string, i: nat): (e: nat)
    requires BoldAt(s, i)
    ensures i + 4 <= e <= |s|
  {
    CloseFrom(s, i + 2).value + 2
  }

  /** The leftmost match at or after `p`. */
  function FindBold(s: string, p: nat): (r: Option<nat>)
    requires p <= |s|
    ensures r.Some? ==> p <= r.value < |s| && BoldAt(s, r.value) && forall i :: p <= i < r.value ==> !BoldAt(s, i)
    ensures r.None? ==> forall i :: p <= i < |s| ==> !BoldAt(s, i)
    decreases |s| - p
  {
    if p == |s| then None
    else if BoldAt(s, p) then Some(p)
    else FindBold(s, p + 1)
  }

  /** `s.slice(p).split(/(\*\*.*?\*\*)/g)`: the text between matches, with each match kept between them. */
  function Tokens(s: string, p: nat): (ts: seq<string>)
    requires p <= |s|
    decreases |s| - p
  {
    match FindBold(s, p)
    case None => [s[p..]]
    case Some(i) => [s[p..i], s[i..MatchEnd(s, i)]] + Tokens(s, MatchEnd(s, i))
  }

  /** A captured bold run: a marker, a single line without a marker in it, and the first marker after that. */
  predicate BoldToken(t: string) {
    && |t| >= 4 && StartsWith(t, "**") && EndsWith(t, "**")
    && (forall k :: 0 <= k < |t| ==> !LineTerminator(t[k]))
    && (forall j :: 2 <= j < |t| - 2 ==> !MarkerAt(t, j))
  }

  /** The pieces put together are the caption again. */
  lemma {:induction false} TokensConcat(s: string, p: nat)
    requires p <= |s|
    ensures Concat(Tokens(s, p)) == s[p..]
    decreases |s| - p
  {
    match FindBold(s, p)
    case None =>
      assert Concat([s[p..]]) == Concat([]) + s[p..];
    case Some(i) =>
      var e := MatchEnd(s, i);
      TokensConcat(s, e);
      ConcatPair(s[p..i], s[i..e], Tokens(s, e));
      SlicesJoin(s, p, i, e);
  }

  /** Three adjacent slices make up the suffix they start. */
  lemma SlicesJoin(s: string, p: nat, i: nat, e: nat)
    requires p <= i <= e <= |s|
    ensures s[p..i] + s[i..e] + s[e..] == s[p..]
  {
    assert s[p..i] + s[i..e] == s[p..e];
    assert s[p..e] + s[e..] == s[p..];
  }

  lemma ConcatPair(x: string, y: string, rest: seq<string>)
    ensures Concat([x, y] + rest) == x + y + Concat(rest)
  {
    ConcatAppend([x, y], rest);
    assert Concat([x]) == x by {
      assert [x][..0] == [];
    }
    assert Concat([x, y]) == Concat([x]) + y by {
      assert [x, y][..1] == [x];
    }
  }

  /** The match at `i` is a bold run. */
  lemma MatchIsBold(s: string, i: nat)
    requires BoldAt(s, i)
    ensures BoldToken(s[i..MatchEnd(s, i)])
  {
    var e := MatchEnd(s, i);
    var t := s[i..e];
    var j := CloseFrom(s, i + 2).value;
    forall k | 0 <= k < |t|
      ensures !LineTerminator(t[k])
    {
      assert t[k] == s[i + k];
    }
    forall m | 2 <= m < |t| - 2
      ensures !MarkerAt(t, m)
    {
      assert t[m] == s[i + m] && t[m + 1] == s[i + m + 1];
      assert !MarkerAt(s, i + m);
    }
    assert t[..2] == s[i..i + 2];
    assert t[|t| - 2..] == s[j..j + 2];
  }

  /** The split alternates: an odd number of pieces, and every odd-numbered one is a bold run. */
  lemma {:induction false} TokensAlternate(s: string, p: nat)
    requires p <= |s|
    ensures |Tokens(s, p)| % 2 == 1
    ensures forall k :: 0 <= k < |Tokens(s, p)| && k % 2 == 1 ==> BoldToken(Tokens(s, p)[k])
    decreases |s| - p
  {
    match FindBold(s, p)
    case None =>
    case Some(i) =>
      var e := MatchEnd(s, i);
      var rest := Tokens(s, e);
      TokensAlternate(s, e);
      MatchIsBold(s, i);
      var ts := [s[p..i], s[i..e]] + rest;
      assert Tokens(s, p) == ts;
      forall k | 0 <= k < |ts| && k % 2 == 1
        ensures BoldToken(ts[k])
      {
        if k >= 2 {
          assert ts[k] == rest[k - 2];
        }
      }
  }

  /** A caption without a marker is one plain piece. */
  lemma {:induction false} NoMarkerOnePiece(s: string, p: nat)
    requires p <= |s|
    requires forall i :: p <= i < |s| ==> !MarkerAt(s, i)
    ensures Tokens(s, p) == [s[p..]]
  {
  }

  /** What a piece renders as: bold text, or a plain span. */
  datatype Piece = Strong(text: string) | Span(text: string)

  /** `part.slice(2, -2)`. */
  function SliceInner(part: string): (r: string)
    ensures |part| >= 4 ==> r == part[2..|part| - 2]
    ensures |part| < 4 ==> r == ""
  {
    if |part| >= 4 then part[2..|part| - 2] else ""
  }

  /** A piece that starts and ends with `**` is bold without them; any other is plain. */
  function RenderPart(part: string): (r: Piece)
    ensures r.Strong? <==> StartsWith(part, "**") && EndsWith(part, "**")
    ensures r.Span? ==> r.text == part
    ensures r.Strong? ==> r.text == SliceInner(part)
  {
    if StartsWith(part, "**") && EndsWith(part, "**") then Strong(SliceInner(part)) else Span(part)
  }

  function RenderParts(parts: seq<string>): (r: seq<Piece>)
    ensures |r| == |parts|
    ensures forall k :: 0 <= k < |parts| ==> r[k] == RenderPart(parts[k])
  {
    if parts == [] then [] else RenderParts(parts[..|parts| - 1]) + [RenderPart(parts[|parts| - 1])]
  }

  /** `renderCaption`: nothing for an empty caption, otherwise one piece per part of the split. */
  function RenderCaption(text: string): (r: Option<seq<Piece>>)
    ensures r.None? <==> text == ""
    ensures r.Some? ==> r.value == RenderParts(Tokens(text, 0))
  {
    if text == "" then None else Some(RenderParts(Tokens(text, 0)))
  }

  /** Every bold run of the caption is shown in bold, without its markers. */
  lemma CaptionBoldRuns(text: string, k: nat)
    requires text != ""
    requires k < |Tokens(text, 0)| && k % 2 == 1
    ensures var t := Tokens(text, 0)[k];
            BoldToken(t) && RenderCaption(text).value[k] == Strong(SliceInner(t))
  {
    TokensAlternate(text, 0);
  }

  /**
   * Markers alone: "****" is one captured run with nothing inside, while
   * "***" has no closing marker and stays one plain piece, which still starts
   * and ends with "**" and so is shown as an empty bold run.
   */
  lemma MarkerOnlyCaptions()
    ensures Tokens("****", 0) == ["", "****", ""]
    ensures RenderCaption("****") == Some([Span(""), Strong(""), Span("")])
    ensures Tokens("***", 0) == ["***"]
    ensures RenderCaption("***") == Some([Strong("")])
  {
    FourMarkers();
    ThreeMarkers();
  }

  /** "****" is one captured run with nothing inside. */
  lemma FourMarkers()
    ensures Tokens("****", 0) == ["", "****", ""]
    ensures RenderCaption("****") == Some([Span(""), Strong(""), Span("")])
  {
    var four := "****";
    assert CloseFrom(four, 2) == Some(2);
    assert BoldAt(four, 0) && MatchEnd(four, 0) == 4;
    assert FindBold(four, 0) == Some(0);
    assert FindBold(four, 4) == None;
    assert four[4..] == "" && four[0..0] == "" && four[0..4] == four;
    assert Tokens(four, 4) == [""];
    assert StartsWith(four, "**") && EndsWith(four, "**") && !StartsWith("", "**");
    assert SliceInner(four) == "";
    assert Tokens(four, 0) == ["", four, ""];
    var shown := RenderParts(["", four, ""]);
    assert shown[0] == Span("") && shown[1] == Strong("") && shown[2] == Span("");
    assert shown == [Span(""), Strong(""), Span("")];
    assert RenderCaption(four).value == RenderParts(Tokens(four, 0));
  }

  /** "***" holds no run, yet its one piece starts and ends with the marker. */
  lemma ThreeMarkers()
    ensures Tokens("***", 0) == ["***"]
    ensures RenderCaption("***") == Some([Strong("")])
  {
    var three := "***";
    assert CloseFrom(three, 2) == None && CloseFrom(three, 3) == None;
    assert !BoldAt(three, 0) && !BoldAt(three, 1) && !BoldAt(three, 2);
    assert FindBold(three, 3) == None;
    assert FindBold(three, 0) == None;
    assert three[0..] == three;
    assert StartsWith(three, "**") && EndsWith(three, "**") && SliceInner(three) == "";
    assert Tokens(three, 0) == [three];
    assert RenderParts([three])[0] == Strong("");
    assert RenderParts([three]) == [Strong("")];
  }

  const CaptionFallback: string := "Check out this carousel..."

  /** The preview shows the caption, or the fallback when there is none: always something. */
  function ShownCaption(caption: Option<string>): (r: seq<Piece>)
    ensures caption.Some? && caption.value != "" ==> r == RenderCaption(caption.value).value
    ensures caption.None? || caption.value == "" ==> r == RenderCaption(CaptionFallback).value
  {
    RenderCaption(OrElse(caption, CaptionFallback)).value
  }

  // ---------------------------------------------------------------- download all

  /** A download link: the image and the file name it is saved under. */
  datatype Link = Link(href: string, fileName: string)

  predicate HasImage(p: PostPoint) {
    OrElse(p.imageUrl, "") != ""
  }

  /** The links "download all" clicks, for the points in `points`. */
  function DownloadLinks(points: seq<PostPoint>): (links: seq<Link>)
    ensures |links| <= |points|
  {
    if points == [] then []
    else
      var n := |points| - 1;
      var init := DownloadLinks(points[..n]);
      init + (if HasImage(points[n]) then [Link(points[n].imageUrl.value, SlideFileName(n))] else [])
  }

  /** Every link is a point's image, saved under that point's 1-based position. */
  lemma {:induction false} LinkSource(points: seq<PostPoint>, k: nat) returns (i: nat)
    requires k < |DownloadLinks(points)|
    ensures i < |points| && HasImage(points[i])
    ensures DownloadLinks(points)[k] == Link(points[i].imageUrl.value, SlideFileName(i))
    decreases |points|
  {
    var n := |points| - 1;
    var init := DownloadLinks(points[..n]);
    var last := if HasImage(points[n]) then [Link(points[n].imageUrl.value, SlideFileName(n))] else [];
    assert DownloadLinks(points) == init + last;
    if k < |init| {
      i := LinkSource(points[..n], k);
      assert (init + last)[k] == init[k];
      assert points[..n][i] == points[i];
    } else {
      assert last != [] && (init + last)[k] == last[0];
      i := n;
    }
  }

  /** Every point with an image gets its link. */
  lemma {:induction false} EveryImageDownloaded(points: seq<PostPoint>, i: nat)
    requires i < |points| && HasImage(points[i])
    ensures Link(points[i].imageUrl.value, SlideFileName(i)) in DownloadLinks(points)
    decreases |points|
  {
    var n := |points| - 1;
    var init := DownloadLinks(points[..n]);
    var last := if HasImage(points[n]) then [Link(points[n].imageUrl.value, SlideFileName(n))] else [];
    var link := Link(points[i].imageUrl.value, SlideFileName(i));
    assert DownloadLinks(points) == init + last;
    if i < n {
      assert points[..n][i] == points[i];
      EveryImageDownloaded(points[..n], i);
      assert link in init;
    } else {
      assert last == [link];
    }
  }

  predicate DistinctNames(links: seq<Link>) {
    forall a, b :: 0 <= a < |links| && 0 <= b < |links| && links[a].fileName == links[b].fileName ==> a == b
  }

  /** No two links share a file name, so no download overwrites another. */
  lemma {:induction false} DownloadNamesDistinct(points: seq<PostPoint>)
    ensures DistinctNames(DownloadLinks(points))
    decreases |points|
  {
    if points != [] {
      var n := |points| - 1;
      var init := DownloadLinks(points[..n]);
      DownloadNamesDistinct(points[..n]);
      if HasImage(points[n]) {
        var links := DownloadLinks(points);
        assert links == init + [Link(points[n].imageUrl.value, SlideFileName(n))];
        forall a | 0 <= a < |init|
          ensures init[a].fileName != SlideFileName(n)
        {
          var i := LinkSource(points[..n], a);
          SlideFileNamesDiffer(i, n);
        }
        forall a, b | 0 <= a < |links| && 0 <= b < |links| && a != b
          ensures links[a].fileName != links[b].fileName
        {
          if a < |init| && b < |init| {
            assert links[a] == init[a] && links[b] == init[b];
          } else if a < |init| {
            assert links[a] == init[a] && links[b].fileName == SlideFileName(n);
          } else if b < |init| {
            assert links[b] == init[b] && links[a].fileName == SlideFileName(n);
          }
        }
      } else {
        assert DownloadLinks(points) == init;
      }
    }
  }

  /** `handleDownloadAll`: the `forEach` that clicks a link per point with an image. */
  method DownloadAll(points: seq<PostPoint>) returns (links: seq<Link>)
    ensures links == DownloadLinks(points)
  {
    links := [];
    var index := 0;
    while index < |points|
      invariant 0 <= index <= |points|
      invariant links == DownloadLinks(points[..index])
    {
      assert points[..index + 1][..index] == points[..index];
      var point := points[index];
      if OrElse(point.imageUrl, "") != "" {
        links := links + [Link(point.imageUrl.value, "slide-" + NatToString(index + 1) + ".png")];
      }
      index := index + 1;
    }
    assert points[..index] == points;
  }
}
