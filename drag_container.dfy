/** The floating panel component (src/app/components/draggable-container/draggable-container.component.ts):
    pointer and touch dragging clamped to the viewport, minimize/restore, position reset and
    re-clamping on window resize.

    `window.innerWidth`/`innerHeight` and the container's `offsetWidth`/`offsetHeight` are parameters
    (the container is `None` before the view exists); a touch list is a sequence of touch points.
    Coordinates are whole pixels. */
module DragContainer {
  import opened Wrappers
  import opened Seqs
  import opened Draggable

  /** The minimized icon is 56 by 56 pixels. */
  const IconSize: int := 56

  /** The gap kept between a panel and the viewport's edge. */
  const Margin: int := 8

  /** `Math.max(8, Math.min(viewport - size - 8, v))`. */
  function Clamp(v: int, viewport: int, size: int): (r: int)
    ensures r >= Margin
    ensures viewport >= size + 2 * Margin ==> r <= viewport - size - Margin
    ensures Margin <= v <= viewport - size - Margin ==> r == v
    ensures r == v || r == Margin || r == viewport - size - Margin
  {
    Max(Margin, Min(viewport - size - Margin, v))
  }

  /** Clamping is idempotent: a clamped coordinate stays where it is, as long as the viewport fits the panel. */
  lemma ClampIdempotent(v: int, viewport: int, size: int)
    requires viewport >= size + 2 * Margin
    ensures Clamp(Clamp(v, viewport, size), viewport, size) == Clamp(v, viewport, size)
  {
  }

  /** `element?.offsetWidth || 200`: a missing or zero-width container counts as 200 wide. */
  function DragWidth(container: Option<Size>): (w: int)
    ensures container.Some? && container.value.width != 0 ==> w == container.value.width
    ensures !(container.Some? && container.value.width != 0) ==> w == 200
  {
    if container.Some? && container.value.width != 0 then container.value.width else 200
  }

  /** `element?.offsetHeight || 100`: a missing or zero-height container counts as 100 tall. */
  function DragHeight(container: Option<Size>): (h: int)
    ensures container.Some? && container.value.height != 0 ==> h == container.value.height
    ensures !(container.Some? && container.value.height != 0) ==> h == 100
  {
    if container.Some? && container.value.height != 0 then container.value.height else 100
  }

  /** The resize rule for a minimized coordinate: cut back to `limit` when past it. */
  function CapAt(v: int, limit: int): (r: int)
    ensures r <= v && r <= limit
    ensures v <= limit ==> r == v
  {
    if v > limit then limit else v
  }

  /** The resize rule for an expanded coordinate: when past `limit`, moved to `limit`, but never left of 8. */
  function PullBack(v: int, limit: int): (r: int)
    ensures v <= limit ==> r == v
    ensures v > limit ==> r == Max(Margin, limit) && r >= Margin
    ensures r <= Max(v, Margin)
  {
    if v > limit then Max(Margin, limit) else v
  }

  datatype TouchPoint = TouchPoint(clientX: int, clientY: int)

  class DraggableContainer {
    const id: string
    const name: string
    const icon: string
    const initialX: int
    const initialY: int
    const minimizedInitialX: int
    const minimizedInitialY: int
    const service: DraggableService

    var isMinimized: bool
    var isDragging: bool
    var posX: int
    var posY: int
    var minimizedX: int
    var minimizedY: int
    var dragStartX: int
    var dragStartY: int
    var elementStartX: int
    var elementStartY: int
    /** The values emitted on `minimizedChange`, oldest first. */
    var minimizedChanges: seq<bool>

    /** The component with its inputs bound and its signals at their initial values. */
    constructor (id: string, name: string, icon: string, initialX: int, initialY: int,
                 service: DraggableService, minimizedInitialX: int := 20, minimizedInitialY: int := 100)
      ensures this.id == id && this.name == name && this.icon == icon && this.service == service
      ensures this.initialX == initialX && this.initialY == initialY
      ensures this.minimizedInitialX == minimizedInitialX && this.minimizedInitialY == minimizedInitialY
      ensures !isMinimized && !isDragging && posX == 0 && posY == 0 && minimizedX == 20 && minimizedY == 100
      ensures minimizedChanges == []
    {
      this.id, this.name, this.icon, this.service := id, name, icon, service;
      this.initialX, this.initialY := initialX, initialY;
      this.minimizedInitialX, this.minimizedInitialY := minimizedInitialX, minimizedInitialY;
      isMinimized, isDragging := false, false;
      posX, posY, minimizedX, minimizedY := 0, 0, 20, 100;
      dragStartX, dragStartY, elementStartX, elementStartY := 0, 0, 0, 0;
      minimizedChanges := [];
    }

    /** `ngOnInit()`: both position pairs take their initial inputs. */
    method NgOnInit()
      modifies this
      ensures posX == initialX && posY == initialY
      ensures minimizedX == minimizedInitialX && minimizedY == minimizedInitialY
      ensures isMinimized == old(isMinimized) && isDragging == old(isDragging)
      ensures minimizedChanges == old(minimizedChanges)
    {
      posX, posY := initialX, initialY;
      minimizedX, minimizedY := minimizedInitialX, minimizedInitialY;
    }

    /** `ngAfterViewInit()`: registers the panel, expanded, at its initial positions and with no size. */
    method NgAfterViewInit()
      requires service.Valid()
      modifies service
      ensures service.Valid()
      ensures service.elements == old(service.elements)[id := RegisteredElement()]
    {
      service.Register(RegisteredElement());
    }

    /** The record `ngAfterViewInit` registers. */
    function RegisteredElement(): (e: FloatingElement)
      ensures e.id == id && !e.isMinimized && e.size == Size(0, 0)
      ensures e.position == e.defaultPosition == Point(initialX, initialY)
      ensures e.minimizedPosition == Point(minimizedInitialX, minimizedInitialY)
    {
      FloatingElement(id, name, icon, false, Point(initialX, initialY),
                      Point(minimizedInitialX, minimizedInitialY), Point(initialX, initialY), Size(0, 0))
    }

    /** `startDrag(event)`: remembers the pointer and the coordinates of the pair on screen. */
    method StartDrag(clientX: int, clientY: int)
      modifies this
      ensures isDragging && dragStartX == clientX && dragStartY == clientY
      ensures elementStartX == (if isMinimized then minimizedX else posX)
      ensures elementStartY == (if isMinimized then minimizedY else posY)
      ensures isMinimized == old(isMinimized) && posX == old(posX) && posY == old(posY)
      ensures minimizedX == old(minimizedX) && minimizedY == old(minimizedY)
      ensures minimizedChanges == old(minimizedChanges)
    {
      isDragging := true;
      dragStartX, dragStartY := clientX, clientY;
      if isMinimized {
        elementStartX, elementStartY := minimizedX, minimizedY;
      } else {
        elementStartX, elementStartY := posX, posY;
      }
    }

    /** `startDragTouch(event)`: as `startDrag` for a single touch; any other number of touches is ignored. */
    method StartDragTouch(touches: seq<TouchPoint>)
      modifies this
      ensures |touches| != 1 ==> unchanged(this)
      ensures |touches| == 1 ==>
                && isDragging && dragStartX == touches[0].clientX && dragStartY == touches[0].clientY
                && elementStartX == (if isMinimized then minimizedX else posX)
                && elementStartY == (if isMinimized then minimizedY else posY)
                && isMinimized == old(isMinimized) && posX == old(posX) && posY == old(posY)
                && minimizedX == old(minimizedX) && minimizedY == old(minimizedY)
                && minimizedChanges == old(minimizedChanges)
    {
      if |touches| != 1 {
        return;
      }
      StartDrag(touches[0].clientX, touches[0].clientY);
    }

    /** `onMouseMove(event)`: moves by the pointer's offset from the drag start, only while dragging. */
    method OnMouseMove(clientX: int, clientY: int, viewport: Size, container: Option<Size>)
      modifies this
      ensures !old(isDragging) ==> unchanged(this)
      ensures old(isDragging) ==> DraggedFrom(old(posX), old(posY), old(minimizedX), old(minimizedY),
                                        clientX - dragStartX, clientY - dragStartY, viewport, container)
    {
      if !isDragging {
        return;
      }
      UpdatePosition(clientX - dragStartX, clientY - dragStartY, viewport, container);
    }

    /** `onTouchMove(event)`: as `onMouseMove`, for exactly one touch. */
    method OnTouchMove(touches: seq<TouchPoint>, viewport: Size, container: Option<Size>)
      modifies this
      ensures !old(isDragging) || |touches| != 1 ==> unchanged(this)
      ensures old(isDragging) && |touches| == 1 ==>
                DraggedFrom(old(posX), old(posY), old(minimizedX), old(minimizedY),
                      touches[0].clientX - dragStartX, touches[0].clientY - dragStartY, viewport, container)
    {
      if !isDragging || |touches| != 1 {
        return;
      }
      UpdatePosition(touches[0].clientX - dragStartX, touches[0].clientY - dragStartY, viewport, container);
    }

    /** The state after `updatePosition(deltaX, deltaY)` from the given coordinates: the pair on
        screen is the drag start plus the offset, clamped to the viewport (a 56-pixel icon when
        minimized, the container's size otherwise); the other pair and every other field stay. */
    ghost predicate DraggedFrom(oldPosX: int, oldPosY: int, oldMinX: int, oldMinY: int,
                          deltaX: int, deltaY: int, viewport: Size, container: Option<Size>)
      reads this
    {
      if isMinimized then
        && minimizedX == Clamp(elementStartX + deltaX, viewport.width, IconSize)
        && minimizedY == Clamp(elementStartY + deltaY, viewport.height, IconSize)
        && posX == oldPosX && posY == oldPosY
      else
        && posX == Clamp(elementStartX + deltaX, viewport.width, DragWidth(container))
        && posY == Clamp(elementStartY + deltaY, viewport.height, DragHeight(container))
        && minimizedX == oldMinX && minimizedY == oldMinY
    }

    /** `updatePosition(deltaX, deltaY)`. */
    method UpdatePosition(deltaX: int, deltaY: int, viewport: Size, container: Option<Size>)
      modifies this
      ensures DraggedFrom(old(posX), old(posY), old(minimizedX), old(minimizedY), deltaX, deltaY, viewport, container)
      ensures isMinimized == old(isMinimized) && isDragging == old(isDragging)
      ensures dragStartX == old(dragStartX) && dragStartY == old(dragStartY)
      ensures elementStartX == old(elementStartX) && elementStartY == old(elementStartY)
      ensures minimizedChanges == old(minimizedChanges)
    {
      var newX, newY := elementStartX + deltaX, elementStartY + deltaY;
      if isMinimized {
        minimizedX := Clamp(newX, viewport.width, IconSize);
        minimizedY := Clamp(newY, viewport.height, IconSize);
      } else {
        posX := Clamp(newX, viewport.width, DragWidth(container));
        posY := Clamp(newY, viewport.height, DragHeight(container));
      }
    }

    /** `stopDrag()`. */
    method StopDrag()
      modifies this
      ensures !isDragging
      ensures isMinimized == old(isMinimized) && posX == old(posX) && posY == old(posY)
      ensures minimizedX == old(minimizedX) && minimizedY == old(minimizedY)
      ensures minimizedChanges == old(minimizedChanges)
    {
      isDragging := false;
    }

    /** `minimize()`: minimized here and in the registry, and announced. */
    method Minimize()
      requires service.Valid()
      modifies this, service
      ensures service.Valid()
      ensures isMinimized && minimizedChanges == old(minimizedChanges) + [true]
      ensures service.elements == UpdateAt(old(service.elements), id, e => WithMinimized(e, true))
      ensures posX == old(posX) && posY == old(posY) && minimizedX == old(minimizedX) && minimizedY == old(minimizedY)
      ensures isDragging == old(isDragging)
    {
      isMinimized := true;
      minimizedChanges := minimizedChanges + [true];
      service.SetMinimized(id, true);
    }

    /** `restore()`: expanded here and in the registry, and announced. */
    method Restore()
      requires service.Valid()
      modifies this, service
      ensures service.Valid()
      ensures !isMinimized && minimizedChanges == old(minimizedChanges) + [false]
      ensures service.elements == UpdateAt(old(service.elements), id, e => WithMinimized(e, false))
      ensures posX == old(posX) && posY == old(posY) && minimizedX == old(minimizedX) && minimizedY == old(minimizedY)
      ensures isDragging == old(isDragging)
    {
      isMinimized := false;
      minimizedChanges := minimizedChanges + [false];
      service.SetMinimized(id, false);
    }

    /** `resetPosition()`: the expanded pair returns to the initial inputs, here and in the registry. */
    method ResetPosition()
      requires service.Valid()
      modifies this, service
      ensures service.Valid()
      ensures posX == initialX && posY == initialY
      ensures service.elements == UpdateAt(old(service.elements), id, PositionReset)
      ensures minimizedX == old(minimizedX) && minimizedY == old(minimizedY)
      ensures isMinimized == old(isMinimized) && isDragging == old(isDragging)
      ensures minimizedChanges == old(minimizedChanges)
    {
      posX, posY := initialX, initialY;
      service.ResetPosition(id);
    }

    /** `onWindowResize()`: the icon is pulled back inside the new viewport, and the expanded panel
        too when its container exists (measured as it is, zero sizes included). */
    method OnWindowResize(viewport: Size, container: Option<Size>)
      modifies this
      ensures minimizedX == CapAt(old(minimizedX), viewport.width - IconSize - Margin)
      ensures minimizedY == CapAt(old(minimizedY), viewport.height - IconSize - Margin)
      ensures container.Some? ==>
                && posX == PullBack(old(posX), viewport.width - container.value.width - Margin)
                && posY == PullBack(old(posY), viewport.height - container.value.height - Margin)
      ensures container.None? ==> posX == old(posX) && posY == old(posY)
      ensures isMinimized == old(isMinimized) && isDragging == old(isDragging)
      ensures minimizedChanges == old(minimizedChanges)
    {
      minimizedX := CapAt(minimizedX, viewport.width - IconSize - Margin);
      minimizedY := CapAt(minimizedY, viewport.height - IconSize - Margin);
      if container.Some? {
        posX := PullBack(posX, viewport.width - container.value.width - Margin);
        posY := PullBack(posY, viewport.height - container.value.height - Margin);
      }
    }
  }
}
