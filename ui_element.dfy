/** Container-relative placement of UI elements, their children and their
    listener lists (ui/ui_element.go). Drawing and the mouse are not
    modelled. */
module UiLayout {
  import opened Geometry

  /** The virtual screen every top-level element is placed in (ui/ui.go). */
  const VIRTUAL_WINDOW_WIDTH: real := 320.0
  const VIRTUAL_WINDOW_HEIGHT: real := 180.0

  /** The source's alignment tags are strings. Despite their names, the
      "horizontal" tag chooses the vertical placement (top, centred, bottom)
      and the "vertical" tag the horizontal one (left, centred, right). */
  type UiHorizontalPosition = string
  type UiVerticalPosition = string

  const HCentered: UiHorizontalPosition := "hcenter"
  const Top: UiHorizontalPosition := "top"
  const Bottom: UiHorizontalPosition := "bottom"
  const Right: UiVerticalPosition := "right"
  const VCentered: UiVerticalPosition := "vcenter"
  const Left: UiVerticalPosition := "left"

  datatype UiMargin = UiMargin(top: real, right: real, bottom: real, left: real)

  datatype Color = Color(r: int, g: int, b: int, a: int)

  /** An event listener is a closure in the source; here it is known only by
      its identity. */
  datatype EventListener = EventListener(id: nat)

  datatype NewUiElementInput = NewUiElementInput(
    width: real,
    height: real,
    backgroundColor: Color,
    borderColor: Color,
    borderWidth: int,
    hPosition: UiHorizontalPosition,
    vPosition: UiVerticalPosition,
    margin: UiMargin,
    text: string)

  /** The top-left corner of a width x height element placed in the container.
      Before the margin shift, the element's right edge meets the container's
      for Right, the centres meet for VCentered, and the left edges meet for any
      other tag; likewise bottom edges for Bottom, centres for HCentered, top
      edges otherwise. The margin then moves it by left - right and
      top - bottom. */
  function GetRectanglePosition(container: Rect, width: real, height: real,
                                hposition: UiHorizontalPosition, vposition: UiVerticalPosition,
                                margin: UiMargin): (p: Vec2)
    ensures var x := p.x - (margin.left - margin.right);
            (vposition == Right ==> x + width == container.x + container.width) &&
            (vposition == VCentered ==> x + width / 2.0 == container.x + container.width / 2.0) &&
            (vposition != Right && vposition != VCentered ==> x == container.x)
    ensures var y := p.y - (margin.top - margin.bottom);
            (hposition == Bottom ==> y + height == container.y + container.height) &&
            (hposition == HCentered ==> y + height / 2.0 == container.y + container.height / 2.0) &&
            (hposition != Bottom && hposition != HCentered ==> y == container.y)
  {
    var x0 := container.x;
    var y0 := container.y;
    var y1 := if hposition == Bottom then container.y + container.height - height else y0;
    var y2 := if hposition == HCentered then container.y + (container.height / 2.0 - height / 2.0) else y1;
    var x1 := if vposition == Right then container.x + container.width - width else x0;
    var x2 := if vposition == VCentered then container.x + (container.width / 2.0 - width / 2.0) else x1;
    Vec2(x2 + (margin.left - margin.right), y2 + (margin.top - margin.bottom))
  }

  /** An element no larger than its container, placed without margin, lies
      inside the container. */
  lemma PlacementStaysInside(container: Rect, width: real, height: real,
                             hposition: UiHorizontalPosition, vposition: UiVerticalPosition)
    requires 0.0 <= width <= container.width && 0.0 <= height <= container.height
    ensures var p := GetRectanglePosition(container, width, height, hposition, vposition, UiMargin(0.0, 0.0, 0.0, 0.0));
            container.x <= p.x && p.x + width <= container.x + container.width &&
            container.y <= p.y && p.y + height <= container.y + container.height
  {
  }

  /** The rectangle moved to its computed place; its size is kept. */
  function Placed(container: Rect, r: Rect, hposition: UiHorizontalPosition,
                  vposition: UiVerticalPosition, margin: UiMargin): (placed: Rect)
    ensures placed.width == r.width && placed.height == r.height
  {
    var p := GetRectanglePosition(container, r.width, r.height, hposition, vposition, margin);
    r.(x := p.x, y := p.y)
  }

  /** Placing an already placed rectangle again changes nothing. */
  lemma PlacedIdempotent(container: Rect, r: Rect, hposition: UiHorizontalPosition,
                         vposition: UiVerticalPosition, margin: UiMargin)
    ensures var once := Placed(container, r, hposition, vposition, margin);
            Placed(container, once, hposition, vposition, margin) == once
  {
  }

  /** The listeners a dispatch of the event would call, in order, when its
      trigger condition holds: the event's list, or nothing for an event
      without one. The trigger itself (mouse position and buttons) is not
      modelled. */
  function Fired(listeners: map<string, seq<EventListener>>, event: string, active: bool): seq<EventListener>
  {
    if active && event in listeners then listeners[event] else []
  }

  /** Appending a listener to an event's list, as AddEventListener does, makes
      the next dispatch of that event call the old listeners and then the new
      one, and leaves the dispatch of every other event as it was. */
  lemma FiredAfterAdd(listeners: map<string, seq<EventListener>>, event: string,
                      listener: EventListener, other: string, active: bool)
    ensures var added := listeners[event := (if event in listeners then listeners[event] else []) + [listener]];
            Fired(added, event, active) == Fired(listeners, event, active) + (if active then [listener] else []) &&
            (other != event ==> Fired(added, other, active) == Fired(listeners, other, active))
  {
  }

  /** Where the element's text is drawn: the corner of a half-size box
      centred in the element, which is a quarter of the way in on each axis. */
  function TextAnchor(r: Rect): (p: Vec2)
    ensures p.x == r.x + r.width / 4.0 && p.y == r.y + r.height / 4.0
  {
    GetRectanglePosition(r, r.width / 2.0, r.height / 2.0, HCentered, VCentered, UiMargin(0.0, 0.0, 0.0, 0.0))
  }

  class UiElement {
    var rectangle: Rect
    var backgroundColor: Color
    var borderColor: Color
    var borderWidth: int
    var margin: UiMargin
    var vPosition: UiVerticalPosition
    var hPosition: UiHorizontalPosition
    var container: Rect
    var childs: seq<UiElement>
    var listeners: map<string, seq<EventListener>>
    var text: string

    /** A new element, placed in the virtual screen, with no children and an
        empty listener list for "click" and for "hover". */
    constructor (properties: NewUiElementInput)
      ensures container == Rect(0.0, 0.0, VIRTUAL_WINDOW_WIDTH, VIRTUAL_WINDOW_HEIGHT)
      ensures var p := GetRectanglePosition(container, properties.width, properties.height,
                                            properties.hPosition, properties.vPosition, properties.margin);
              rectangle == Rect(p.x, p.y, properties.width, properties.height)
      ensures listeners == map["click" := [], "hover" := []] && childs == []
      ensures backgroundColor == properties.backgroundColor && borderColor == properties.borderColor
      ensures borderWidth == properties.borderWidth && margin == properties.margin
      ensures hPosition == properties.hPosition && vPosition == properties.vPosition
      ensures text == properties.text
    {
      var screen := Rect(0.0, 0.0, VIRTUAL_WINDOW_WIDTH, VIRTUAL_WINDOW_HEIGHT);
      var p := GetRectanglePosition(screen, properties.width, properties.height,
                                    properties.hPosition, properties.vPosition, properties.margin);
      rectangle := Rect(p.x, p.y, properties.width, properties.height);
      backgroundColor := properties.backgroundColor;
      borderColor := properties.borderColor;
      borderWidth := properties.borderWidth;
      margin := properties.margin;
      hPosition := properties.hPosition;
      vPosition := properties.vPosition;
      container := screen;
      childs := [];
      listeners := map["click" := [], "hover" := []];
      text := properties.text;
    }

    /** Moves the element to its place in its container; only the corner of
        the rectangle changes. */
    method ComputePosition()
      modifies this`rectangle
      ensures rectangle == Placed(container, old(rectangle), hPosition, vPosition, margin)
      ensures rectangle.width == old(rectangle.width) && rectangle.height == old(rectangle.height)
    {
      var p := GetRectanglePosition(container, rectangle.width, rectangle.height, hPosition, vPosition, margin);
      rectangle := rectangle.(x := p.x, y := p.y);
    }

    /** Adopts a child: the child is placed relative to this element's
        rectangle from now on, and is appended to the children. */
    method AddChild(child: UiElement)
      modifies this`childs, child`container
      ensures child.container == rectangle
      ensures childs == old(childs) + [child]
    {
      child.container := rectangle;
      childs := childs + [child];
    }

    method SetBackgroundColor(color: Color)
      modifies this`backgroundColor
      ensures backgroundColor == color
    {
      backgroundColor := color;
    }

    /** Appends a listener to the event's list (an event without a list gets
        a new one); every other event keeps its list. */
    method AddEventListener(event: string, listener: EventListener)
      modifies this`listeners
      ensures event in listeners
      ensures listeners[event] == (if event in old(listeners) then old(listeners)[event] else []) + [listener]
      ensures listeners.Keys == old(listeners).Keys + {event}
      ensures forall e :: e in old(listeners) && e != event ==> listeners[e] == old(listeners)[e]
    {
      var current := if event in listeners then listeners[event] else [];
      listeners := listeners[event := current + [listener]];
    }
  }
}
