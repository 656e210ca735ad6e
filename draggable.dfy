/** The registry of floating panels (src/app/services/draggable.service.ts): a map from element id to
    the element's record, whose position, minimized position and minimized flag are updated by id.
    Coordinates are whole pixels. */
module Draggable {
  import opened Wrappers

  datatype Point = Point(x: int, y: int)

  datatype Size = Size(width: int, height: int)

  datatype FloatingElement = FloatingElement(
    id: string,
    name: string,
    icon: string,
    isMinimized: bool,
    position: Point,
    minimizedPosition: Point,
    defaultPosition: Point,
    size: Size)

  /** `updatePosition`'s change to one element: the pair that is on screen moves. */
  function Moved(e: FloatingElement, x: int, y: int): FloatingElement {
    if e.isMinimized then e.(minimizedPosition := Point(x, y)) else e.(position := Point(x, y))
  }

  function Toggled(e: FloatingElement): FloatingElement {
    e.(isMinimized := !e.isMinimized)
  }

  function WithMinimized(e: FloatingElement, minimized: bool): FloatingElement {
    e.(isMinimized := minimized)
  }

  /** `resetPosition`'s change: the expanded position goes back to the default. */
  function PositionReset(e: FloatingElement): FloatingElement {
    e.(position := e.defaultPosition)
  }

  /** The map after changing the element under `id` by `f`, if there is one. */
  function UpdateAt(m: map<string, FloatingElement>, id: string, f: FloatingElement -> FloatingElement): (r: map<string, FloatingElement>)
    ensures r.Keys == m.Keys
    ensures forall k :: k in m && k != id ==> r[k] == m[k]
    ensures id in m ==> r[id] == f(m[id])
  {
    if id in m then m[id := f(m[id])] else m
  }

  /** Every element is filed under its own id. */
  ghost predicate FiledById(m: map<string, FloatingElement>) {
    forall k :: k in m ==> m[k].id == k
  }

  /** A move changes exactly the coordinates on screen, to exactly the given ones. */
  lemma MovedProperties(e: FloatingElement, x: int, y: int)
    ensures var r := Moved(e, x, y);
      && r.id == e.id && r.isMinimized == e.isMinimized && r.defaultPosition == e.defaultPosition
      && r.size == e.size && r.name == e.name && r.icon == e.icon
      && (e.isMinimized ==> r.minimizedPosition == Point(x, y) && r.position == e.position)
      && (!e.isMinimized ==> r.position == Point(x, y) && r.minimizedPosition == e.minimizedPosition)
  {
  }

  /** Toggling twice restores the element, and the whole map. */
  lemma ToggleTwice(m: map<string, FloatingElement>, id: string)
    ensures UpdateAt(UpdateAt(m, id, Toggled), id, Toggled) == m
  {
    if id in m {
      assert Toggled(Toggled(m[id])) == m[id];
    }
  }

  /** `setMinimized(id, b)` sets exactly `b`, and doing it again changes nothing. */
  lemma SetMinimizedProperties(m: map<string, FloatingElement>, id: string, b: bool)
    ensures id in m ==> UpdateAt(m, id, e => WithMinimized(e, b))[id].isMinimized == b
    ensures UpdateAt(UpdateAt(m, id, e => WithMinimized(e, b)), id, e => WithMinimized(e, b))
            == UpdateAt(m, id, e => WithMinimized(e, b))
  {
  }

  /** A reset restores the default position and keeps the minimized pair and flag. */
  lemma PositionResetProperties(e: FloatingElement)
    ensures var r := PositionReset(e);
      && r.position == e.defaultPosition
      && r.minimizedPosition == e.minimizedPosition && r.isMinimized == e.isMinimized
      && PositionReset(r) == r
  {
  }

  /** An id that is not registered leaves the map as it is, whatever the change. */
  lemma UnknownIdNoOp(m: map<string, FloatingElement>, id: string, f: FloatingElement -> FloatingElement)
    requires id !in m
    ensures UpdateAt(m, id, f) == m
  {
  }

  class DraggableService {
    var elements: map<string, FloatingElement>

    ghost predicate Valid()
      reads this
    {
      FiledById(elements)
    }

    constructor ()
      ensures Valid() && elements == map[]
    {
      elements := map[];
    }

    /** `register(element)`: files the element under its id, replacing any earlier one. */
    method Register(element: FloatingElement)
      requires Valid()
      modifies this
      ensures Valid()
      ensures elements == old(elements)[element.id := element]
      ensures GetElement(element.id) == Some(element)
      ensures forall k :: k != element.id ==> GetElement(k) == old(GetElement(k))
      ensures elements.Keys == old(elements.Keys) + {element.id}
    {
      elements := elements[element.id := element];
    }

    /** `updatePosition(id, x, y)`. */
    method UpdatePosition(id: string, x: int, y: int)
      requires Valid()
      modifies this
      ensures Valid()
      ensures elements == UpdateAt(old(elements), id, e => Moved(e, x, y))
    {
      elements := UpdateAt(elements, id, e => Moved(e, x, y));
    }

    /** `toggleMinimize(id)`. */
    method ToggleMinimize(id: string)
      requires Valid()
      modifies this
      ensures Valid()
      ensures elements == UpdateAt(old(elements), id, Toggled)
    {
      elements := UpdateAt(elements, id, Toggled);
    }

    /** `setMinimized(id, minimized)`. */
    method SetMinimized(id: string, minimized: bool)
      requires Valid()
      modifies this
      ensures Valid()
      ensures elements == UpdateAt(old(elements), id, e => WithMinimized(e, minimized))
    {
      elements := UpdateAt(elements, id, e => WithMinimized(e, minimized));
    }

    /** `getElement(id)`: the element filed under `id`, if any. */
    function GetElement(id: string): (r: Option<FloatingElement>)
      reads this
      ensures r.Some? <==> id in elements
      ensures r.Some? ==> r.value == elements[id]
    {
      if id in elements then Some(elements[id]) else None
    }

    /** `resetPosition(id)`. */
    method ResetPosition(id: string)
      requires Valid()
      modifies this
      ensures Valid()
      ensures elements == UpdateAt(old(elements), id, PositionReset)
    {
      elements := UpdateAt(elements, id, PositionReset);
    }
  }
}
