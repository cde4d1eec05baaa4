/**
 * The exporter: a slide is drawn onto a 1080x1080 canvas (background image,
 * pillar, wrapped content text, avatar, user name, page label, navigation
 * pill), then saved as one PNG or as one page of a square PDF. Drawing is
 * modelled as the list of commands issued to the canvas, in order; the
 * canvas itself (whether it has a 2-D context, which images load, the width
 * the current font gives a string, whether `roundRect` exists) is a parameter.
 */
module CanvasExport {
  import opened Text
  import opened CarouselTypes
  import DragOverlay

  const CanvasSize: real := 1080.0
  const LineHeight: real := 52.0
  const PillarWidth: real := 12.0
  const AvatarSize: real := 80.0
  const Green: string := "#32cd32"
  const ContentFont: string := "500 40px Inter, sans-serif"
  const UsernameFont: string := "700 32px Inter, sans-serif"
  const LabelFont: string := "400 24px Inter, sans-serif"
  const GlyphFont: string := "700 42px Arial"
  const PdfName: string := "carousel.pdf"

  datatype Align = Left | Center

  /** One drawing call on the canvas. */
  datatype Command =
    | DrawImage(src: string, x: real, y: real, w: real, h: real)
    | FillRect(color: string, x: real, y: real, w: real, h: real)
    | FillText(text: string, x: real, y: real, color: string, font: string, align: Align)
      /** An image drawn at (x, y, size, size) inside the circle inscribed in that square. */
    | DrawCircularImage(src: string, x: real, y: real, size: real)
      /** A stroked rectangle; `radius` 0 when the canvas has no `roundRect`. */
    | StrokeRect(color: string, lineWidth: real, x: real, y: real, w: real, h: real, radius: real)

  /** The browser canvas the exporter draws on. */
  datatype Canvas = Canvas(
    hasContext: bool,
    loads: string -> bool,
    measure: string -> real,
    hasRoundRect: bool)

  /** What rendering one slide gives: `null`, a rejected image load, or a drawn PNG. */
  datatype Rendering = NoImage | LoadFailed | Image(commands: seq<Command>)

  /** A percentage of the slide in canvas pixels. */
  function PercentToPixels(p: real): real {
    p / 100.0 * CanvasSize
  }

  /** The pixel position is the same fraction of the canvas side as the percentage is of 100, and stays on the canvas. */
  lemma PixelsKeepFraction(p: real)
    ensures PercentToPixels(p) / CanvasSize == p / 100.0
    ensures InPercentRange(p) ==> 0.0 <= PercentToPixels(p) <= CanvasSize
  {
  }

  // ---------------------------------------------------------------- wrapping

  /** `width > maxWidth`; an absent content width makes the bound NaN, which no width exceeds. */
  predicate Exceeds(width: real, maxWidth: Option<real>) {
    maxWidth.Some? && width > maxWidth.value
  }

  /** The line a run of words makes: every word followed by one space. */
  function LineOf(words: seq<string>): string {
    if words == [] then "" else LineOf(words[..|words| - 1]) + words[|words| - 1] + " "
  }

  /** The lines joined back together. */
  function Flatten(groups: seq<seq<string>>): seq<string> {
    if groups == [] then [] else Flatten(groups[..|groups| - 1]) + groups[|groups| - 1]
  }

  /**
   * The greedy wrapper from word `n` on, with the finished `lines` and the open
   * `line`: a word starts a new line when the open line with it would be wider
   * than `maxWidth`, unless it is the first word of the text.
   */
  function WrapFrom(words: seq<string>, n: nat, lines: seq<string>, line: string,
                    measure: string -> real, maxWidth: Option<real>): seq<string>
    requires n <= |words|
    decreases |words| - n
  {
    if n == |words| then lines + [line]
    else
      var testLine := line + words[n] + " ";
      if Exceeds(measure(testLine), maxWidth) && n > 0 then
        WrapFrom(words, n + 1, lines + [line], words[n] + " ", measure, maxWidth)
      else
        WrapFrom(words, n + 1, lines, testLine, measure, maxWidth)
  }

  /** The lines `text` wraps into at `maxWidth` pixels. */
  function Wrap(text: string, measure: string -> real, maxWidth: Option<real>): seq<string> {
    WrapFrom(Split(text, ' '), 0, [], "", measure, maxWidth)
  }

  /** `getWrappedTextLines`: the loop over the words of `text`. */
  method GetWrappedTextLines(text: string, maxWidth: Option<real>, measure: string -> real)
    returns (lines: seq<string>)
    ensures lines == Wrap(text, measure, maxWidth)
  {
    var words := Split(text, ' ');
    lines := [];
    var line := "";
    var n := 0;
    while n < |words|
      invariant 0 <= n <= |words|
      invariant WrapFrom(words, n, lines, line, measure, maxWidth) == Wrap(text, measure, maxWidth)
    {
      var testLine := line + words[n] + " ";
      if Exceeds(measure(testLine), maxWidth) && n > 0 {
        lines := lines + [line];
        line := words[n] + " ";
      } else {
        line := testLine;
      }
      n := n + 1;
    }
    lines := lines + [line];
  }

  /** The line a group's first `j + 1` words make. */
  function PrefixLine(group: seq<string>, j: nat): string
    requires j < |group|
  {
    LineOf(group[..j + 1])
  }

  /** Every word after a line's first went in because the line with it still fit. */
  predicate GrewWithinWidth(group: seq<string>, measure: string -> real, maxWidth: Option<real>) {
    forall j :: 1 <= j < |group| ==> !Exceeds(measure(PrefixLine(group, j)), maxWidth)
  }

  /** The line has one more word than the break before it would allow. */
  predicate BreakForced(lines: seq<string>, groups: seq<seq<string>>, i: nat,
                        measure: string -> real, maxWidth: Option<real>)
    requires i + 1 < |groups| && i < |lines|
  {
    |groups[i + 1]| >= 1 && Exceeds(measure(lines[i] + groups[i + 1][0] + " "), maxWidth)
  }

  /** Each line is its group's words, and it grew within the width. */
  predicate LineOfGroup(lines: seq<string>, groups: seq<seq<string>>, i: nat,
                        measure: string -> real, maxWidth: Option<real>)
    requires i < |groups| && i < |lines|
  {
    |groups[i]| >= 1 && lines[i] == LineOf(groups[i]) && GrewWithinWidth(groups[i], measure, maxWidth)
  }

  /**
   * `lines` is a greedy wrap of `words` along `groups`: the groups partition the
   * words in order, each line is its group's words with their spaces, every
   * word a line took in kept it within the width, and every line break was
   * forced by the next line's first word not fitting.
   */
  ghost predicate GreedyLayout(words: seq<string>, lines: seq<string>, groups: seq<seq<string>>,
                               measure: string -> real, maxWidth: Option<real>) {
    && |groups| == |lines|
    && Flatten(groups) == words
    && (forall i :: 0 <= i < |groups| ==> LineOfGroup(lines, groups, i, measure, maxWidth))
    && (forall i :: 0 <= i < |groups| - 1 ==> BreakForced(lines, groups, i, measure, maxWidth))
  }

  /** Closing the open line adds one group to the layout. */
  lemma {:induction false} CloseLine(done: seq<seq<string>>, lines: seq<string>, cur: seq<string>, line: string,
                  measure: string -> real, maxWidth: Option<real>)
    requires GreedyLayout(Flatten(done), lines, done, measure, maxWidth)
    requires |cur| >= 1 && line == LineOf(cur) && GrewWithinWidth(cur, measure, maxWidth)
    requires |done| > 0 ==> Exceeds(measure(lines[|lines| - 1] + cur[0] + " "), maxWidth)
    ensures GreedyLayout(Flatten(done) + cur, lines + [line], done + [cur], measure, maxWidth)
  {
    var groups, lines' := done + [cur], lines + [line];
    assert groups[..|groups| - 1] == done;
    forall i | 0 <= i < |groups|
      ensures LineOfGroup(lines', groups, i, measure, maxWidth)
    {
      if i < |done| {
        assert LineOfGroup(lines, done, i, measure, maxWidth);
      }
    }
    forall i | 0 <= i < |groups| - 1
      ensures BreakForced(lines', groups, i, measure, maxWidth)
    {
      if i < |done| - 1 {
        assert BreakForced(lines, done, i, measure, maxWidth);
      }
    }
  }

  /** A word that fits stays on the open line. */
  lemma {:induction false} GrowLine(cur: seq<string>, w: string, measure: string -> real, maxWidth: Option<real>)
    requires GrewWithinWidth(cur, measure, maxWidth)
    requires |cur| >= 1 ==> !Exceeds(measure(LineOf(cur) + w + " "), maxWidth)
    ensures GrewWithinWidth(cur + [w], measure, maxWidth)
  {
    var cur' := cur + [w];
    assert cur'[..|cur'| - 1] == cur;
    forall j | 1 <= j < |cur'|
      ensures !Exceeds(measure(PrefixLine(cur', j)), maxWidth)
    {
      if j < |cur| {
        assert cur'[..j + 1] == cur[..j + 1];
        assert PrefixLine(cur', j) == PrefixLine(cur, j);
      } else {
        assert cur'[..j + 1] == cur';
      }
    }
  }

  /** The layout of the lines the wrapper has finished extends to the layout of all of them. */
  lemma {:induction false} WrapFromLayout(words: seq<string>, n: nat, lines: seq<string>, line: string,
                                          done: seq<seq<string>>, cur: seq<string>,
                                          measure: string -> real, maxWidth: Option<real>)
    returns (groups: seq<seq<string>>)
    requires 1 <= |words| && n <= |words|
    requires n == 0 ==> lines == [] && done == [] && cur == []
    requires n > 0 ==> |cur| >= 1
    requires line == LineOf(cur) && Flatten(done) + cur == words[..n]
    requires GreedyLayout(Flatten(done), lines, done, measure, maxWidth)
    requires GrewWithinWidth(cur, measure, maxWidth)
    requires |done| > 0 ==> Exceeds(measure(lines[|lines| - 1] + cur[0] + " "), maxWidth)
    ensures GreedyLayout(words, WrapFrom(words, n, lines, line, measure, maxWidth), groups, measure, maxWidth)
    ensures |groups| >= 1
    decreases |words| - n
  {
    if n == |words| {
      CloseLine(done, lines, cur, line, measure, maxWidth);
      groups := done + [cur];
      assert words[..n] == words;
      assert Flatten(done) + cur == words;
      assert WrapFrom(words, n, lines, line, measure, maxWidth) == lines + [line];
    } else {
      var w := words[n];
      var testLine := line + w + " ";
      assert words[..n + 1] == words[..n] + [w];
      if Exceeds(measure(testLine), maxWidth) && n > 0 {
        CloseLine(done, lines, cur, line, measure, maxWidth);
        assert Flatten(done + [cur]) == Flatten(done) + cur by {
          assert (done + [cur])[..|done|] == done;
        }
        assert [w][..0] == [];
        groups := WrapFromLayout(words, n + 1, lines + [line], w + " ", done + [cur], [w], measure, maxWidth);
        assert WrapFrom(words, n, lines, line, measure, maxWidth)
            == WrapFrom(words, n + 1, lines + [line], w + " ", measure, maxWidth);
      } else {
        GrowLine(cur, w, measure, maxWidth);
        var cur' := cur + [w];
        assert cur'[..|cur'| - 1] == cur;
        groups := WrapFromLayout(words, n + 1, lines, testLine, done, cur', measure, maxWidth);
        assert WrapFrom(words, n, lines, line, measure, maxWidth) == WrapFrom(words, n + 1, lines, testLine, measure, maxWidth);
      }
    }
  }

  /** The wrapper's lines are a greedy layout of the text's words. */
  lemma {:induction false} WrapLayout(text: string, measure: string -> real, maxWidth: Option<real>)
    returns (groups: seq<seq<string>>)
    ensures GreedyLayout(Split(text, ' '), Wrap(text, measure, maxWidth), groups, measure, maxWidth)
    ensures |groups| >= 1
  {
    groups := WrapFromLayout(Split(text, ' '), 0, [], "", [], [], measure, maxWidth);
  }

  lemma {:induction false} ConcatLines(groups: seq<seq<string>>, lines: seq<string>)
    requires |groups| == |lines|
    requires forall i :: 0 <= i < |groups| ==> lines[i] == LineOf(groups[i])
    ensures Concat(lines) == LineOf(Flatten(groups))
    decreases |groups|
  {
    if groups != [] {
      var g := groups[|groups| - 1];
      ConcatLines(groups[..|groups| - 1], lines[..|lines| - 1]);
      LineOfAppend(Flatten(groups[..|groups| - 1]), g);
    }
  }

  lemma {:induction false} LineOfAppend(a: seq<string>, b: seq<string>)
    ensures LineOf(a + b) == LineOf(a) + LineOf(b)
    decreases |b|
  {
    if b == [] {
      assert a + b == a;
    } else {
      var b', w := b[..|b| - 1], b[|b| - 1];
      assert (a + b)[..|a + b| - 1] == a + b';
      LineOfAppend(a, b');
    }
  }

  lemma {:induction false} LineOfIsJoin(words: seq<string>)
    requires |words| >= 1
    ensures LineOf(words) == Join(words, ' ') + " "
    decreases |words|
  {
    if |words| == 1 {
      assert words[..0] == [];
    } else {
      LineOfIsJoin(words[..|words| - 1]);
    }
  }

  /** No text is lost or added: the lines laid end to end are the text plus one trailing space. */
  lemma {:induction false} WrapKeepsText(text: string, measure: string -> real, maxWidth: Option<real>)
    ensures Concat(Wrap(text, measure, maxWidth)) == text + " "
  {
    var groups := WrapLayout(text, measure, maxWidth);
    var lines := Wrap(text, measure, maxWidth);
    forall i | 0 <= i < |groups|
      ensures lines[i] == LineOf(groups[i])
    {
      assert LineOfGroup(lines, groups, i, measure, maxWidth);
    }
    ConcatLines(groups, lines);
    LineOfIsJoin(Split(text, ' '));
    JoinSplit(text, ' ');
  }

  /** A line wider than the bound holds a single word: every line with a space before its end fits. */
  lemma {:induction false} WrappedLinesFit(text: string, measure: string -> real, maxWidth: Option<real>, i: nat)
    requires i < |Wrap(text, measure, maxWidth)|
    ensures var line := Wrap(text, measure, maxWidth)[i];
            |line| >= 1 && (' ' in line[..|line| - 1] ==> !Exceeds(measure(line), maxWidth))
  {
    var groups := WrapLayout(text, measure, maxWidth);
    var lines := Wrap(text, measure, maxWidth);
    assert LineOfGroup(lines, groups, i, measure, maxWidth);
    var g := groups[i];
    if |g| == 1 {
      assert g[..0] == [];
      assert lines[i] == LineOf(g) == LineOf(g[..0]) + g[0] + " ";
      FlattenMember(groups, i, 0);
      assert lines[i][..|lines[i]| - 1] == g[0];
    } else {
      assert g[..|g| - 1 + 1] == g;
      assert !Exceeds(measure(PrefixLine(g, |g| - 1)), maxWidth);
    }
  }

  /** A word of a group is a word of the flattened groups. */
  lemma {:induction false} FlattenMember(groups: seq<seq<string>>, i: nat, j: nat)
    requires i < |groups| && j < |groups[i]|
    ensures groups[i][j] in Flatten(groups)
    decreases |groups|
  {
    if i < |groups| - 1 {
      FlattenMember(groups[..|groups| - 1], i, j);
    }
  }

  /** Without a bound the wrapper never breaks: the rest of the words go on the open line. */
  lemma {:induction false} WrapFromUnbounded(words: seq<string>, n: nat, lines: seq<string>, line: string,
                                             measure: string -> real)
    requires n <= |words|
    ensures WrapFrom(words, n, lines, line, measure, None) == lines + [line + LineOf(words[n..])]
    decreases |words| - n
  {
    if n == |words| {
      assert words[n..] == [];
      assert line + LineOf(words[n..]) == line;
    } else {
      var w := words[n];
      WrapFromUnbounded(words, n + 1, lines, line + w + " ", measure);
      assert words[n..] == [w] + words[n + 1..];
      assert [w][..0] == [];
      assert LineOf([w]) == w + " ";
      LineOfAppend([w], words[n + 1..]);
      assert line + LineOf(words[n..]) == line + w + " " + LineOf(words[n + 1..]);
    }
  }

  /** Without a content width the whole text stays on one line. */
  lemma {:induction false} WrapWithoutWidth(text: string, measure: string -> real)
    ensures Wrap(text, measure, None) == [text + " "]
  {
    var words := Split(text, ' ');
    WrapFromUnbounded(words, 0, [], "", measure);
    assert words[0..] == words;
    LineOfIsJoin(words);
    JoinSplit(text, ' ');
    assert "" + LineOf(words) == text + " ";
  }

  // ---------------------------------------------------------------- one slide

  /** `#FFFFFF` text on a dark theme, `#000000` on a light one. */
  function TextColor(theme: Theme): string {
    if theme == Dark then "#FFFFFF" else "#000000"
  }

  /** The page label's colour: `#D1D5DB` on a dark theme, `#374151` on a light one. */
  function SubTextColor(theme: Theme): string {
    if theme == Dark then "#D1D5DB" else "#374151"
  }

  /**
   * The export and the live overlay agree on the theme: white means dark,
   * black means light, and the page label's grey is the overlay's
   * `gray-300` (#D1D5DB) or `gray-700` (#374151).
   */
  lemma {:induction false} ThemeColorsMatchOverlay(theme: Theme)
    ensures TextColor(theme) == "#FFFFFF" <==> DragOverlay.TextClass(theme) == "text-white"
    ensures TextColor(theme) == "#000000" <==> DragOverlay.TextClass(theme) == "text-black"
    ensures TextColor(theme) == "#000000" <==> theme == Light
    ensures SubTextColor(theme) == "#D1D5DB" <==> DragOverlay.SubTextClass(theme) == "text-gray-300"
    ensures SubTextColor(theme) == "#374151" <==> DragOverlay.SubTextClass(theme) == "text-gray-700"
  {
  }

  /** The content block's wrap width in pixels, when the block has a width. */
  function MaxWidth(slide: Slide): (m: Option<real>)
    ensures m.Some? <==> slide.positions.content.width.Some?
    ensures m.Some? ==> m.value == PercentToPixels(slide.positions.content.width.value)
  {
    match slide.positions.content.width
    case None => None
    case Some(w) => Some(PercentToPixels(w))
  }

  /** The text drawn for the content: an empty slide shows "Placeholder content". */
  function ExportText(slide: Slide): (t: string)
    ensures t != ""
    ensures slide.content != "" ==> t == slide.content
  {
    if slide.content != "" then slide.content else "Placeholder content"
  }

  function ContentLines(slide: Slide, measure: string -> real): seq<string> {
    Wrap(ExportText(slide), measure, MaxWidth(slide))
  }

  /** The content lines drawn from the top-left corner (x, y) down, one line height apart. */
  function TextRows(lines: seq<string>, x: real, y: real, color: string): (rows: seq<Command>)
    ensures |rows| == |lines|
    ensures forall k :: 0 <= k < |lines| ==>
              rows[k] == FillText(lines[k], x, y + k as real * LineHeight, color, ContentFont, Left)
  {
    if lines == [] then []
    else
      var k := |lines| - 1;
      TextRows(lines[..k], x, y, color) + [FillText(lines[k], x, y + k as real * LineHeight, color, ContentFont, Left)]
  }

  /** The background image, the pillar as tall as the text block plus 10 pixels, and the content lines. */
  function ContentLayer(slide: Slide, measure: string -> real): seq<Command> {
    var pos := slide.positions;
    var lines := ContentLines(slide, measure);
    [ DrawImage(slide.sourceImage, 0.0, 0.0, CanvasSize, CanvasSize),
      FillRect(Green, PercentToPixels(pos.pillar.x), PercentToPixels(pos.pillar.y), PillarWidth,
               |lines| as real * LineHeight + 10.0) ]
    + TextRows(lines, PercentToPixels(pos.content.x), PercentToPixels(pos.content.y), TextColor(slide.theme))
  }

  /** The avatar, the user name, the page label and the navigation pill. */
  function BrandingLayer(slide: Slide, index: nat, total: nat, profile: Profile, hasRoundRect: bool): seq<Command> {
    var pos := slide.positions;
    var brandX, brandY := PercentToPixels(pos.branding.x), PercentToPixels(pos.branding.y);
    var navX, navY := PercentToPixels(pos.navigation.x), PercentToPixels(pos.navigation.y);
    [ DrawCircularImage(profile.profilePic, brandX, brandY, AvatarSize),
      FillText(profile.username, brandX + 100.0, brandY + 24.0, TextColor(slide.theme), UsernameFont, Left),
      FillText(PageLabel(index, total), brandX + 100.0, brandY + 60.0, SubTextColor(slide.theme), LabelFont, Left),
      StrokeRect(Green, 6.0, navX, navY, 120.0, 80.0, if hasRoundRect then 40.0 else 0.0),
      FillText(NavGlyph(index, total), navX + 60.0, navY + 20.0, Green, GlyphFont, Center) ]
  }

  /** `renderSlideToDataURL`: nothing without a profile or a 2-D context, a rejection when an image fails to load. */
  function SlideRendering(slide: Slide, index: nat, total: nat, profile: Option<Profile>, canvas: Canvas): (r: Rendering)
    ensures r.NoImage? <==> profile.None? || !canvas.hasContext
    ensures r.LoadFailed? <==> profile.Some? && canvas.hasContext
                               && (!canvas.loads(slide.sourceImage) || !canvas.loads(profile.value.profilePic))
  {
    if profile.None? || !canvas.hasContext then NoImage
    else if !canvas.loads(slide.sourceImage) || !canvas.loads(profile.value.profilePic) then LoadFailed
    else Image(ContentLayer(slide, canvas.measure) + BrandingLayer(slide, index, total, profile.value, canvas.hasRoundRect))
  }

  /** The drawn slide, layer by layer: the image, the pillar the text's height, the lines, then the branding and the pill. */
  lemma {:induction false} RenderedLayout(slide: Slide, index: nat, total: nat, profile: Profile, canvas: Canvas)
    requires canvas.hasContext && canvas.loads(slide.sourceImage) && canvas.loads(profile.profilePic)
    ensures var r := SlideRendering(slide, index, total, Some(profile), canvas);
            var pos := slide.positions;
            var lines := ContentLines(slide, canvas.measure);
            var n := |lines|;
            var brandX, brandY := PercentToPixels(pos.branding.x), PercentToPixels(pos.branding.y);
            var navX, navY := PercentToPixels(pos.navigation.x), PercentToPixels(pos.navigation.y);
            r.Image? && |r.commands| == n + 7
            && r.commands[0] == DrawImage(slide.sourceImage, 0.0, 0.0, CanvasSize, CanvasSize)
            && r.commands[1] == FillRect(Green, PercentToPixels(pos.pillar.x), PercentToPixels(pos.pillar.y), PillarWidth,
                                         n as real * LineHeight + 10.0)
            && (forall k :: 0 <= k < n ==>
                  r.commands[2 + k] == FillText(lines[k], PercentToPixels(pos.content.x),
                                                PercentToPixels(pos.content.y) + k as real * LineHeight,
                                                TextColor(slide.theme), ContentFont, Left))
            && r.commands[n + 2] == DrawCircularImage(profile.profilePic, brandX, brandY, AvatarSize)
            && r.commands[n + 3] == FillText(profile.username, brandX + 100.0, brandY + 24.0, TextColor(slide.theme), UsernameFont, Left)
            && r.commands[n + 4] == FillText(PageLabel(index, total), brandX + 100.0, brandY + 60.0,
                                             SubTextColor(slide.theme), LabelFont, Left)
            && r.commands[n + 5].StrokeRect?
            && r.commands[n + 6] == FillText(NavGlyph(index, total), navX + 60.0, navY + 20.0, Green, GlyphFont, Center)
  {
    var cl := ContentLayer(slide, canvas.measure);
    var bl := BrandingLayer(slide, index, total, profile, canvas.hasRoundRect);
    var n := |ContentLines(slide, canvas.measure)|;
    ContentLayerShape(slide, canvas.measure);
    BrandingLayerShape(slide, index, total, profile, canvas.hasRoundRect);
    var all := cl + bl;
    assert SlideRendering(slide, index, total, Some(profile), canvas) == Image(all);
    assert forall k :: 0 <= k < n + 2 ==> all[k] == cl[k];
    assert all[n + 2] == bl[0] && all[n + 3] == bl[1] && all[n + 4] == bl[2];
    assert all[n + 5] == bl[3] && all[n + 6] == bl[4];
  }

  /** The branding layer: the avatar, the user name, the page label, the pill and its glyph. */
  lemma BrandingLayerShape(slide: Slide, index: nat, total: nat, profile: Profile, hasRoundRect: bool)
    ensures var b := BrandingLayer(slide, index, total, profile, hasRoundRect);
            var pos := slide.positions;
            var brandX, brandY := PercentToPixels(pos.branding.x), PercentToPixels(pos.branding.y);
            var navX, navY := PercentToPixels(pos.navigation.x), PercentToPixels(pos.navigation.y);
            |b| == 5
            && b[0] == DrawCircularImage(profile.profilePic, brandX, brandY, AvatarSize)
            && b[1] == FillText(profile.username, brandX + 100.0, brandY + 24.0, TextColor(slide.theme), UsernameFont, Left)
            && b[2] == FillText(PageLabel(index, total), brandX + 100.0, brandY + 60.0, SubTextColor(slide.theme), LabelFont, Left)
            && b[3] == StrokeRect(Green, 6.0, navX, navY, 120.0, 80.0, if hasRoundRect then 40.0 else 0.0)
            && b[4] == FillText(NavGlyph(index, total), navX + 60.0, navY + 20.0, Green, GlyphFont, Center)
  {
  }

  /** The content layer: the background, the pillar, then one row per wrapped line. */
  lemma ContentLayerShape(slide: Slide, measure: string -> real)
    ensures var c := ContentLayer(slide, measure);
            var pos := slide.positions;
            var lines := ContentLines(slide, measure);
            |c| == |lines| + 2
            && c[0] == DrawImage(slide.sourceImage, 0.0, 0.0, CanvasSize, CanvasSize)
            && c[1] == FillRect(Green, PercentToPixels(pos.pillar.x), PercentToPixels(pos.pillar.y), PillarWidth,
                                |lines| as real * LineHeight + 10.0)
            && forall k :: 0 <= k < |lines| ==>
                 c[2 + k] == FillText(lines[k], PercentToPixels(pos.content.x),
                                      PercentToPixels(pos.content.y) + k as real * LineHeight,
                                      TextColor(slide.theme), ContentFont, Left)
  {
  }

  /** The pillar is as tall as the text block plus 10 pixels, so it always covers at least one line. */
  lemma {:induction false} PillarCoversText(slide: Slide, index: nat, total: nat, profile: Profile, canvas: Canvas)
    requires canvas.hasContext && canvas.loads(slide.sourceImage) && canvas.loads(profile.profilePic)
    ensures var r := SlideRendering(slide, index, total, Some(profile), canvas);
            r.Image? && r.commands[1].FillRect? && r.commands[1].h >= LineHeight + 10.0
  {
    var groups := WrapLayout(ExportText(slide), canvas.measure, MaxWidth(slide));
  }

  /** The drawing up to the avatar: the background, the pillar, then the `forEach` over the wrapped lines. */
  method DrawContent(slide: Slide, canvas: Canvas) returns (commands: seq<Command>)
    ensures commands == ContentLayer(slide, canvas.measure)
  {
    var pos := slide.positions;
    commands := [DrawImage(slide.sourceImage, 0.0, 0.0, CanvasSize, CanvasSize)];
    var textColor := TextColor(slide.theme);
    var maxWidth := MaxWidth(slide);
    var startX := PercentToPixels(pos.content.x);
    var startY := PercentToPixels(pos.content.y);
    var wrapped := GetWrappedTextLines(ExportText(slide), maxWidth, canvas.measure);
    var textBlockHeight := |wrapped| as real * LineHeight;
    commands := commands + [FillRect(Green, PercentToPixels(pos.pillar.x), PercentToPixels(pos.pillar.y),
                                     PillarWidth, textBlockHeight + 10.0)];
    var base := commands;
    var currentY := startY;
    var k := 0;
    while k < |wrapped|
      invariant 0 <= k <= |wrapped|
      invariant currentY == startY + k as real * LineHeight
      invariant commands == base + TextRows(wrapped[..k], startX, startY, textColor)
    {
      assert wrapped[..k + 1][..k] == wrapped[..k];
      commands := commands + [FillText(wrapped[k], startX, currentY, textColor, ContentFont, Left)];
      currentY := currentY + LineHeight;
      k := k + 1;
    }
    assert wrapped[..k] == wrapped;
  }

  /** `renderSlideToDataURL` as the sequence of steps it takes on the canvas. */
  method RenderSlide(slide: Slide, index: nat, total: nat, profile: Option<Profile>, canvas: Canvas)
    returns (r: Rendering)
    ensures r == SlideRendering(slide, index, total, profile, canvas)
  {
    if profile.None? {
      return NoImage;
    }
    if !canvas.hasContext {
      return NoImage;
    }
    if !canvas.loads(slide.sourceImage) {
      return LoadFailed;
    }
    var commands := DrawContent(slide, canvas);
    if !canvas.loads(profile.value.profilePic) {
      return LoadFailed;
    }
    var branding := DrawBranding(slide, index, total, profile.value, canvas);
    r := Image(commands + branding);
  }

  /** The drawing after the avatar has loaded: avatar, user name, page label, then the navigation pill and its glyph. */
  method DrawBranding(slide: Slide, index: nat, total: nat, profile: Profile, canvas: Canvas) returns (commands: seq<Command>)
    ensures commands == BrandingLayer(slide, index, total, profile, canvas.hasRoundRect)
  {
    var pos := slide.positions;
    var textColor := TextColor(slide.theme);
    var subTextColor := SubTextColor(slide.theme);
    var brandX, brandY := PercentToPixels(pos.branding.x), PercentToPixels(pos.branding.y);
    var navX, navY := PercentToPixels(pos.navigation.x), PercentToPixels(pos.navigation.y);
    var isLast := index == total - 1;
    var radius := if canvas.hasRoundRect then 40.0 else 0.0;
    var glyph := if isLast then CheckMark else Arrow;
    assert glyph == NavGlyph(index, total);
    commands := [
      DrawCircularImage(profile.profilePic, brandX, brandY, AvatarSize),
      FillText(profile.username, brandX + 100.0, brandY + 24.0, textColor, UsernameFont, Left),
      FillText(PageLabel(index, total), brandX + 100.0, brandY + 60.0, subTextColor, LabelFont, Left),
      StrokeRect(Green, 6.0, navX, navY, 120.0, 80.0, radius),
      FillText(glyph, navX + 60.0, navY + 20.0, Green, GlyphFont, Center)];
  }

  // ---------------------------------------------------------------- downloads

  /** What downloading one slide does: nothing, a rejected promise, or a PNG saved under a file name. */
  datatype SlideDownload = NoDownload | DownloadFailed | Download(fileName: string, image: seq<Command>)

  /** `downloadSlide`: the rendered slide saved as "slide-<index + 1>.png"; nothing when rendering gave nothing. */
  method DownloadSlide(slide: Slide, index: nat, total: nat, profile: Option<Profile>, canvas: Canvas)
    returns (d: SlideDownload)
    ensures d.NoDownload? <==> SlideRendering(slide, index, total, profile, canvas).NoImage?
    ensures d.DownloadFailed? <==> SlideRendering(slide, index, total, profile, canvas).LoadFailed?
    ensures d.Download? ==> d.fileName == SlideFileName(index)
                            && Image(d.image) == SlideRendering(slide, index, total, profile, canvas)
  {
    var r := RenderSlide(slide, index, total, profile, canvas);
    match r {
      case NoImage => d := NoDownload;
      case LoadFailed => d := DownloadFailed;
      case Image(commands) => d := Download(SlideFileName(index), commands);
    }
  }

  /** A 210 mm square PDF page: blank, or a slide's image over the whole page. */
  datatype Page = BlankPage | FullBleed(image: seq<Command>)

  datatype PdfExport = NoExport | ExportFailed | SavedPdf(fileName: string, pages: seq<Page>)

  /** The page a rendering fills: a slide without an image leaves its page blank. */
  function PageOf(r: Rendering): (p: Page)
    ensures p.FullBleed? <==> r.Image?
    ensures r.Image? ==> p.image == r.commands
  {
    if r.Image? then FullBleed(r.commands) else BlankPage
  }

  /** No slide's image load is rejected. */
  predicate AllLoad(slides: seq<Slide>, profile: Option<Profile>, canvas: Canvas) {
    forall i :: 0 <= i < |slides| ==> !SlideRendering(slides[i], i, |slides|, profile, canvas).LoadFailed?
  }

  /**
   * `downloadAllAsPdf`: nothing without a profile or slides; a rejected image
   * load aborts before the file is saved; otherwise "carousel.pdf" with one
   * page per slide, in order.
   */
  method DownloadAllAsPdf(slides: seq<Slide>, profile: Option<Profile>, canvas: Canvas)
    returns (out: PdfExport)
    ensures profile.None? || |slides| == 0 ==> out == NoExport
    ensures profile.Some? && |slides| > 0 && !AllLoad(slides, profile, canvas) ==> out == ExportFailed
    ensures profile.Some? && |slides| > 0 && AllLoad(slides, profile, canvas) ==>
              out.SavedPdf? && out.fileName == PdfName && |out.pages| == |slides|
              && forall i :: 0 <= i < |slides| ==>
                   out.pages[i] == PageOf(SlideRendering(slides[i], i, |slides|, profile, canvas))
  {
    if profile.None? || |slides| == 0 {
      return NoExport;
    }
    var pages := [BlankPage];
    var i := 0;
    while i < |slides|
      invariant 0 <= i <= |slides|
      invariant |pages| == if i == 0 then 1 else i
      invariant i == 0 ==> pages == [BlankPage]
      invariant forall k :: 0 <= k < i ==> !SlideRendering(slides[k], k, |slides|, profile, canvas).LoadFailed?
      invariant forall k :: 0 <= k < i ==> pages[k] == PageOf(SlideRendering(slides[k], k, |slides|, profile, canvas))
    {
      ghost var before := pages;
      if i > 0 {
        pages := pages + [BlankPage];
      }
      var r := RenderSlide(slides[i], i, |slides|, profile, canvas);
      if r.LoadFailed? {
        return ExportFailed;
      }
      if r.Image? {
        pages := pages[i := FullBleed(r.commands)];
      }
      assert |pages| == i + 1 && pages[i] == PageOf(r);
      assert forall k :: 0 <= k < i ==> pages[k] == before[k];
      forall k | 0 <= k < i + 1
        ensures !SlideRendering(slides[k], k, |slides|, profile, canvas).LoadFailed?
      {
        if k == i {
          assert SlideRendering(slides[k], k, |slides|, profile, canvas) == r;
        }
      }
      i := i + 1;
    }
    out := SavedPdf(PdfName, pages);
  }
}
