/**
 * The sandbox: the box within which the moving container (the pannable
 * image) may be dragged. It is resized and re-positioned around the
 * viewport centre whenever the viewport moves or the image size changes, and
 * the moving container is shifted by the change of the sandbox's centre,
 * clamped to the desired size.
 */
module Sandbox {
  import opened Basics

  /** A width and height in CSS pixels. */
  datatype Size = Size(width: real, height: real)

  /** A centre change smaller than this on both axes does not move the container. */
  const MinCentreChange: real := 0.01

  /**
   * The centre of a box of the given size, relative to its own top-left
   * corner: as far from the right and bottom edges as from the left and top
   * ones, and inside the box when its size is not negative.
   */
  function Midpoint(width: real, height: real): (c: Point)
    ensures c.x == width - c.x && c.y == height - c.y
    ensures 0.0 <= width ==> 0.0 <= c.x <= width
    ensures 0.0 <= height ==> 0.0 <= c.y <= height
  {
    Point(0.5 * width, 0.5 * height)
  }

  /** `Math.max(0, Math.min(bound, v))`. */
  function ClampToBound(v: real, bound: real): (r: real)
    ensures r >= 0.0
    ensures bound >= 0.0 ==> r <= bound
    ensures 0.0 <= v <= bound ==> r == v
    ensures bound >= 0.0 && v > bound ==> r == bound
    ensures v < 0.0 ==> r == 0.0
  {
    Max(0.0, Min(bound, v))
  }

  /** The change of the box's centre when it is resized from `before` to `after`. */
  function CentreShift(before: Size, after: Size): (change: Point)
    ensures change.x + change.x == after.width - before.width
    ensures change.y + change.y == after.height - before.height
  {
    var oldCenter := Midpoint(before.width, before.height);
    var newCenter := Midpoint(after.width, after.height);
    Point(newCenter.x - oldCenter.x, newCenter.y - oldCenter.y)
  }

  /** Whether a centre change is large enough for `updateSandbox` to move the container. */
  predicate Noticeable(change: Point)
  {
    !(Abs(change.x) < MinCentreChange && Abs(change.y) < MinCentreChange)
  }


  class SandboxHelper {
    /** The sandbox element's `left`, `top`, `width` and `height`. */
    var left: real
    var top: real
    var width: real
    var height: real
    /** The moving container's `left` and `top`. */
    var containerLeft: real
    var containerTop: real

    /**
     * `init(x, y)`: places the sandbox at (`x`, `y`). Its size and the moving
     * container's position are whatever the page already gives them.
     */
    constructor (x: real, y: real, width: real, height: real, containerLeft: real, containerTop: real)
      ensures left == x && top == y
      ensures this.width == width && this.height == height
      ensures this.containerLeft == containerLeft && this.containerTop == containerTop
    {
      left := x;
      top := y;
      this.width := width;
      this.height := height;
      this.containerLeft := containerLeft;
      this.containerTop := containerTop;
    }

    /**
     * `getCenter`: the sandbox centre, relative to the sandbox; it lies
     * inside the sandbox and halves it on each axis.
     */
    function GetCenter(): (c: Point)
      reads this
      ensures c.x == width - c.x && c.y == height - c.y
      ensures 0.0 <= width ==> 0.0 <= c.x <= width
      ensures 0.0 <= height ==> 0.0 <= c.y <= height
    {
      Midpoint(width, height)
    }

    /** `moveContainerTo`: sets the container's position and nothing else. */
    method MoveContainerTo(x: real, y: real)
      modifies this`containerLeft, this`containerTop
      ensures containerLeft == x && containerTop == y
    {
      containerLeft := x;
      containerTop := y;
    }

    /** `center`: puts the container at the sandbox centre. */
    method Center()
      modifies this`containerLeft, this`containerTop
      ensures containerLeft + containerLeft == width
      ensures containerTop + containerTop == height
    {
      var c := GetCenter();
      MoveContainerTo(c.x, c.y);
    }

    /** `centerWithOffset`: puts the container at the sandbox centre shifted by (`x`, `y`). */
    method CenterWithOffset(x: real, y: real)
      modifies this`containerLeft, this`containerTop
      ensures containerLeft - x == GetCenter().x
      ensures containerTop - y == GetCenter().y
    {
      var c := GetCenter();
      MoveContainerTo(c.x + x, c.y + y);
    }

    /**
     * `updateSandbox`: the sandbox becomes the desired size plus one window
     * size, placed so that the viewport centre is its midpoint; the container
     * follows the centre's change, clamped to the desired size, unless the
     * change is below 0.01 px on both axes. `windowWidth`/`windowHeight` are
     * `$(window).width()`/`.height()`; `containerPos` is the container's
     * rendered `position()`, read only when the container is moved. Answers
     * whether the container was moved.
     */
    method UpdateSandbox(viewportCenter: Point, desired: Size, windowWidth: real, windowHeight: real,
                         containerPos: Point)
      returns (moved: bool)
      modifies this
      ensures width == desired.width + windowWidth
      ensures height == desired.height + windowHeight
      ensures left + GetCenter().x == viewportCenter.x
      ensures top + GetCenter().y == viewportCenter.y
      ensures var change := CentreShift(Size(old(width), old(height)), Size(width, height));
              moved == Noticeable(change) &&
              (moved ==> containerLeft == ClampToBound(containerPos.x + change.x, desired.width) &&
                         containerTop == ClampToBound(containerPos.y + change.y, desired.height))
      ensures !moved ==> containerLeft == old(containerLeft) && containerTop == old(containerTop)
      ensures old(width) == width && old(height) == height ==> !moved
      ensures moved && desired.width >= 0.0 ==> 0.0 <= containerLeft <= desired.width
      ensures moved && desired.height >= 0.0 ==> 0.0 <= containerTop <= desired.height
      ensures moved && desired.width >= 0.0 && windowWidth >= 0.0 ==> containerLeft <= width
      ensures moved && desired.height >= 0.0 && windowHeight >= 0.0 ==> containerTop <= height
    {
      var oldCenter := GetCenter();
      width := desired.width + windowWidth;
      height := desired.height + windowHeight;
      left := (viewportCenter.x - windowWidth * 0.5) - 0.5 * desired.width;
      top := (viewportCenter.y - windowHeight * 0.5) - 0.5 * desired.height;
      var newCenter := GetCenter();
      var change := Point(newCenter.x - oldCenter.x, newCenter.y - oldCenter.y);
      if !Noticeable(change) {
        return false;
      }
      var newLeft := ClampToBound(containerPos.x + change.x, desired.width);
      var newTop := ClampToBound(containerPos.y + change.y, desired.height);
      MoveContainerTo(newLeft, newTop);
      return true;
    }
  }
}
