/**
 * The carousel editor's records: a slide with its four percentage-positioned
 * overlay elements, and the user's profile.
 */
module CarouselTypes {
  import opened Text

  /**
   * A position as percentages of the square slide: `x` and `y` are meant to lie
   * in [0,100]; `width` is used by the content block and `height` by the pillar.
   */
  datatype ElementPosition = ElementPosition(x: real, y: real, width: Option<real>, height: Option<real>)

  /** The fixed record of the four overlay elements. */
  datatype Positions = Positions(
    content: ElementPosition,
    branding: ElementPosition,
    navigation: ElementPosition,
    pillar: ElementPosition)

  /** The four elements a slide positions, as the record's keys. */
  datatype Element = Content | Branding | Navigation | Pillar

  /** `light` means a light image under black text, `dark` a dark image under white text. */
  datatype Theme = Light | Dark

  datatype Status = Idle | Analyzing | Error

  datatype Slide = Slide(
    id: string,
    content: string,
    sourceImage: string,
    status: Status,
    theme: Theme,
    positions: Positions)

  datatype Profile = Profile(username: string, profilePic: string)

  /** `positions[e]`. */
  function Get(p: Positions, e: Element): ElementPosition {
    match e
    case Content => p.content
    case Branding => p.branding
    case Navigation => p.navigation
    case Pillar => p.pillar
  }

  /** `{ ...p, [e]: v }`: the record with one entry replaced. */
  function With(p: Positions, e: Element, v: ElementPosition): (r: Positions)
    ensures Get(r, e) == v
    ensures forall f :: f != e ==> Get(r, f) == Get(p, f)
  {
    match e
    case Content => p.(content := v)
    case Branding => p.(branding := v)
    case Navigation => p.(navigation := v)
    case Pillar => p.(pillar := v)
  }

  /** The record has exactly the four entries: replacing each one by itself leaves it as it was. */
  lemma {:induction false} PositionsHaveFourEntries(p: Positions, q: Positions)
    requires forall e: Element :: Get(p, e) == Get(q, e)
    ensures p == q
  {
    assert Get(p, Content) == Get(q, Content);
    assert Get(p, Branding) == Get(q, Branding);
    assert Get(p, Navigation) == Get(q, Navigation);
    assert Get(p, Pillar) == Get(q, Pillar);
  }

  predicate InPercentRange(v: real) {
    0.0 <= v <= 100.0
  }

  /** The content block and the pillar start on the same line. */
  predicate PillarAligned(p: Positions) {
    p.pillar.y == p.content.y
  }

  /** "<shown> of <total>". */
  function CountLabel(shown: nat, total: nat): string {
    NatToString(shown) + " of " + NatToString(total)
  }

  /** The three words of a count label give back both numbers. */
  lemma CountLabelWords(shown: nat, total: nat)
    ensures Split(CountLabel(shown, total), ' ') == [NatToString(shown), "of", NatToString(total)]
  {
    var a, b := NatToString(shown), NatToString(total);
    var words := [a, "of", b];
    assert words[..2] == [a, "of"] && words[..2][..1] == [a];
    assert Join(words[..2][..1], ' ') == a;
    assert Join(words[..2], ' ') == a + [' '] + "of";
    assert Join(words, ' ') == a + [' '] + "of" + [' '] + b;
    assert a + [' '] + "of" + [' '] + b == a + " of " + b;
    SplitJoin(words, ' ');
  }

  /** The label under the user name, "<index + 1> of <total>". */
  function PageLabel(index: nat, total: nat): string {
    CountLabel(index + 1, total)
  }

  /** The page label's words are the slide's number, "of" and the slide count. */
  lemma PageLabelWords(index: nat, total: nat)
    ensures Split(PageLabel(index, total), ' ') == [NatToString(index + 1), "of", NatToString(total)]
  {
    CountLabelWords(index + 1, total);
  }

  const CheckMark: string := "\U{2713}"
  const Arrow: string := "\U{2192}"

  /** The navigation pill shows a check mark on the last slide and an arrow on every other one. */
  function NavGlyph(index: nat, total: nat): (g: string)
    ensures g == CheckMark <==> index == total - 1
    ensures g == Arrow <==> index != total - 1
  {
    if index == total - 1 then CheckMark else Arrow
  }

  /** The file name both exporters give the image of the slide at `index`: "slide-<index + 1>.png". */
  function SlideFileName(index: nat): (name: string)
    ensures StartsWith(name, "slide-") && EndsWith(name, ".png")
    ensures |name| == |NatToString(index + 1)| + 10 && name[6..|name| - 4] == NatToString(index + 1)
  {
    "slide-" + NatToString(index + 1) + ".png"
  }

  /** Different slides get different file names. */
  lemma SlideFileNamesDiffer(i: nat, j: nat)
    requires i != j
    ensures SlideFileName(i) != SlideFileName(j)
  {
    var a, b := NatToString(i + 1), NatToString(j + 1);
    assert a != b by {
      assert DecimalValue(a) == i + 1 && DecimalValue(b) == j + 1;
    }
  }
}
