/**
 * The live overlay of one slide: a drag runs idle -> dragging(element) -> idle,
 * a drag starts only while the slide is in edit mode, and every pointer move
 * writes the clamped pointer percentage into the dragged element. Content
 * block and pillar move together: the partner takes the dragged element's y
 * and keeps the horizontal offset captured when the drag began.
 */
module DragOverlay {
  import opened Text
  import opened CarouselTypes

  /** `Math.max(0, Math.min(100, v))`: the pointer percentage kept inside the container. */
  function ClampPercent(v: real): (r: real)
    ensures InPercentRange(r)
    ensures InPercentRange(v) ==> r == v
    ensures v < 0.0 ==> r == 0.0
    ensures v > 100.0 ==> r == 100.0
  {
    var upper := if v < 100.0 then v else 100.0;
    if upper < 0.0 then 0.0 else upper
  }

  /**
   * The positions one pointer move produces while `dragged` is held and the
   * pointer is at (px, py) percent of the container. The dragged element gets
   * the clamped pointer and keeps its width and height; a content drag puts
   * the pillar `offset` to its left on the same line, a pillar drag puts the
   * content `offset` to its right; the partner's x is not clamped.
   */
  function Moved(p: Positions, dragged: Element, offset: real, px: real, py: real): (r: Positions)
    ensures Get(r, dragged).x == ClampPercent(px) && Get(r, dragged).y == ClampPercent(py)
    ensures Get(r, dragged).width == Get(p, dragged).width && Get(r, dragged).height == Get(p, dragged).height
    ensures dragged == Content ==> r.pillar == p.pillar.(x := ClampPercent(px) - offset, y := ClampPercent(py))
    ensures dragged == Pillar ==> r.content == p.content.(x := ClampPercent(px) + offset, y := ClampPercent(py))
    ensures (dragged == Content || dragged == Pillar) ==> PillarAligned(r) && r.content.x - r.pillar.x == offset
    ensures forall e :: e != dragged && (e == Branding || e == Navigation || dragged == Branding || dragged == Navigation)
              ==> Get(r, e) == Get(p, e)
  {
    var x, y := ClampPercent(px), ClampPercent(py);
    var q := With(p, dragged, Get(p, dragged).(x := x, y := y));
    if dragged == Content then q.(pillar := q.pillar.(y := y, x := x - offset))
    else if dragged == Pillar then q.(content := q.content.(y := y, x := x + offset))
    else q
  }

  /** The drag can push the partner's x out of [0,100]: a content drag to the left edge with the default 4-point gap. */
  lemma PartnerXIsNotClamped()
    ensures var p := Positions(
              ElementPosition(14.0, 35.0, Some(75.0), None), ElementPosition(8.0, 88.0, None, None),
              ElementPosition(85.0, 88.0, None, None), ElementPosition(10.0, 35.0, None, Some(25.0)));
            Moved(p, Content, 4.0, -20.0, 50.0).pillar.x == -4.0
  {
  }

  /** `contentHeight > 0 ? contentHeight : pillar.height`: the pillar spans the measured text when there is one. */
  function PillarHeight(contentHeight: real, pillar: ElementPosition): (h: Option<real>)
    ensures contentHeight > 0.0 ==> h == Some(contentHeight)
    ensures contentHeight <= 0.0 ==> h == pillar.height
  {
    if contentHeight > 0.0 then Some(contentHeight) else pillar.height
  }

  /** The pillar is drawn only when the slide has content. */
  predicate PillarShown(slide: Slide) {
    slide.content != ""
  }

  /** The content block's text: the slide's content, or a hint while editing an empty slide. */
  function ShownContent(slide: Slide, isEditing: bool): (t: string)
    ensures slide.content != "" ==> t == slide.content
    ensures slide.content == "" ==> t == (if isEditing then "Add your content here..." else "")
  {
    if slide.content != "" then slide.content else if isEditing then "Add your content here..." else ""
  }

  /** The text colour classes: white text on a dark theme, black on a light one. */
  function TextClass(theme: Theme): string {
    if theme == Dark then "text-white" else "text-black"
  }

  function SubTextClass(theme: Theme): string {
    if theme == Dark then "text-gray-300" else "text-gray-700"
  }

  /** The drag state of one slide's overlay. */
  class DragController {
    /** The slide's positions, as the overlay last handed them to `onUpdate`. */
    var positions: Positions
    var activeDrag: Option<Element>
    /** The x part of `dragOffset`; its y part is always 0 and never read. */
    var dragOffset: real
    /** The content block's measured height, as a percentage of the container's height. */
    var contentHeight: real

    /** While the content block or the pillar is held, the two keep the offset captured at mouse-down. */
    ghost predicate OffsetLocked()
      reads this
    {
      (activeDrag == Some(Content) || activeDrag == Some(Pillar)) ==>
        positions.content.x - positions.pillar.x == dragOffset
    }

    constructor (initial: Positions)
      ensures positions == initial && activeDrag == None
      ensures dragOffset == 0.0 && contentHeight == 0.0
    {
      positions := initial;
      activeDrag := None;
      dragOffset := 0.0;
      contentHeight := 0.0;
    }

    /** Pressing `element`: ignored outside edit mode; a content or pillar press records the content-to-pillar offset. */
    method MouseDown(element: Element, isEditing: bool)
      modifies this`activeDrag, this`dragOffset
      ensures activeDrag == (if isEditing then Some(element) else old(activeDrag))
      ensures dragOffset == (if isEditing && (element == Content || element == Pillar)
                             then positions.content.x - positions.pillar.x
                             else old(dragOffset))
      ensures isEditing && (element == Content || element == Pillar) ==> OffsetLocked()
    {
      if !isEditing {
        return;
      }
      activeDrag := Some(element);
      if element == Content {
        dragOffset := positions.content.x - positions.pillar.x;
      } else if element == Pillar {
        dragOffset := positions.content.x - positions.pillar.x;
      }
    }

    /** A pointer move to (px, py) percent of the container: applied only while a drag is active. */
    method MouseMove(px: real, py: real)
      modifies this`positions
      ensures activeDrag.None? ==> positions == old(positions)
      ensures activeDrag.Some? ==> positions == Moved(old(positions), activeDrag.value, dragOffset, px, py)
      ensures activeDrag.Some? ==>
                (InPercentRange(Get(positions, activeDrag.value).x) && InPercentRange(Get(positions, activeDrag.value).y))
      ensures OffsetLocked()
      ensures (activeDrag == Some(Content) || activeDrag == Some(Pillar)) ==> PillarAligned(positions)
    {
      match activeDrag {
        case None =>
        case Some(e) =>
          positions := Moved(positions, e, dragOffset, px, py);
      }
    }

    /** Releasing the button anywhere ends the drag. */
    method MouseUp()
      modifies this`activeDrag
      ensures activeDrag == None
    {
      activeDrag := None;
    }

    /** The content block was measured at `h` percent of the container's height. */
    method MeasureContent(h: real)
      modifies this`contentHeight
      ensures contentHeight == h
    {
      contentHeight := h;
    }
  }
}
