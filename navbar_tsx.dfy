/**
 * The navigation bar of `src/components/Navbar.tsx`: menu toggle, scroll and
 * resize handlers, the drag gesture on the bar and the menu, and the
 * body-overflow effect. Each handler is modelled together with the render
 * and effect run it triggers.
 */
module NavbarTsx {
  import opened NavbarRules

  const SwipeThreshold: real := 100.0
  const VelocityThreshold: real := 500.0

  /** `isOpen` after `handleSwipeEnd` with the gesture's `offset.x` and `velocity.x`. */
  function OpenAfterSwipeEnd(isOpen: bool, offsetX: real, velocityX: real): (open: bool)
    ensures !isOpen ==> (open <==> offsetX > SwipeThreshold && velocityX > 0.0)
    ensures isOpen ==> (!open <==> offsetX < -SwipeThreshold || velocityX < -VelocityThreshold)
  {
    if !isOpen && offsetX > SwipeThreshold && velocityX > 0.0 then true
    else if isOpen && (offsetX < -SwipeThreshold || velocityX < -VelocityThreshold) then false
    else isOpen
  }

  /** A rightward swipe that would open a closed menu leaves an open one open. */
  lemma OpeningSwipeKeepsOpen(offsetX: real, velocityX: real)
    requires offsetX > SwipeThreshold && velocityX > 0.0
    ensures OpenAfterSwipeEnd(false, offsetX, velocityX)
    ensures OpenAfterSwipeEnd(true, offsetX, velocityX)
  {
  }

  /** A short, slow gesture never changes the menu. */
  lemma SmallSwipeChangesNothing(isOpen: bool, offsetX: real, velocityX: real)
    requires -SwipeThreshold <= offsetX <= SwipeThreshold && -VelocityThreshold <= velocityX <= 0.0
    ensures OpenAfterSwipeEnd(isOpen, offsetX, velocityX) == isOpen
  {
  }

  /** The menu's animated x, `Math.max(0, dragX)`. */
  function MenuX(dragX: real): (x: real)
    ensures x >= 0.0 && x >= dragX
    ensures x == 0.0 || x == dragX
  {
    if dragX > 0.0 then dragX else 0.0
  }

  class Navbar {
    var scrolled: bool
    var isOpen: bool
    var dragX: real
    var bodyOverflow: Overflow
    /** Whether the component is on the page: its listeners and effects are live. */
    var mounted: bool

    /** While mounted the overflow effect has run for the current `isOpen`; after unmount it is reset. */
    predicate Valid()
      reads this
    {
      bodyOverflow == (if mounted then OverflowFor(isOpen) else Unset)
    }

    /** First render and its effects. */
    constructor ()
      ensures Valid() && mounted
      ensures !scrolled && !isOpen && dragX == 0.0 && bodyOverflow == Unset
    {
      scrolled := false;
      isOpen := false;
      dragX := 0.0;
      mounted := true;
      bodyOverflow := OverflowFor(false);
    }

    /** `handleScroll` at scroll position `scrollY`. */
    method HandleScroll(scrollY: real)
      requires Valid() && mounted
      modifies this
      ensures Valid() && mounted
      ensures scrolled == ScrolledAt(scrollY)
      ensures isOpen == old(isOpen) && dragX == old(dragX) && bodyOverflow == old(bodyOverflow)
    {
      scrolled := ScrolledAt(scrollY);
    }

    /** `handleResize` at window width `width`. */
    method HandleResize(width: int)
      requires Valid() && mounted
      modifies this
      ensures Valid() && mounted
      ensures isOpen == OpenAfterResize(old(isOpen), width)
      ensures width <= DesktopWidth ==> isOpen == old(isOpen)
      ensures scrolled == old(scrolled) && dragX == old(dragX)
    {
      if width > DesktopWidth && isOpen {
        isOpen := false;
      }
      bodyOverflow := OverflowFor(isOpen);
    }

    /** `toggleMenu`, from the menu button. */
    method ToggleMenu()
      requires Valid() && mounted
      modifies this
      ensures Valid() && mounted
      ensures isOpen == !old(isOpen)
      ensures bodyOverflow == (if isOpen then Hidden else Unset)
      ensures scrolled == old(scrolled) && dragX == old(dragX)
    {
      isOpen := !isOpen;
      bodyOverflow := OverflowFor(isOpen);
    }

    /** `closeMenu`, from the logo, the overlay, the close button and every mobile link. */
    method CloseMenu()
      requires Valid() && mounted
      modifies this
      ensures Valid() && mounted
      ensures !isOpen && bodyOverflow == Unset
      ensures scrolled == old(scrolled) && dragX == old(dragX)
    {
      isOpen := false;
      bodyOverflow := OverflowFor(isOpen);
    }

    /** `handleSwipeStart`, on pan or drag start. */
    method HandleSwipeStart()
      requires Valid() && mounted
      modifies this
      ensures Valid() && mounted
      ensures dragX == 0.0
      ensures isOpen == old(isOpen) && scrolled == old(scrolled) && bodyOverflow == old(bodyOverflow)
    {
      dragX := 0.0;
    }

    /** `handleSwipe`: the drag follows the gesture's offset. */
    method HandleSwipe(offsetX: real)
      requires Valid() && mounted
      modifies this
      ensures Valid() && mounted
      ensures dragX == offsetX
      ensures isOpen == old(isOpen) && scrolled == old(scrolled) && bodyOverflow == old(bodyOverflow)
    {
      dragX := offsetX;
    }

    /** `handleSwipeEnd`: decides open or close from the thresholds and resets the drag. */
    method HandleSwipeEnd(offsetX: real, velocityX: real)
      requires Valid() && mounted
      modifies this
      ensures Valid() && mounted
      ensures isOpen == OpenAfterSwipeEnd(old(isOpen), offsetX, velocityX)
      ensures dragX == 0.0
      ensures scrolled == old(scrolled)
    {
      if !isOpen && offsetX > SwipeThreshold && velocityX > 0.0 {
        isOpen := true;
      } else if isOpen && (offsetX < -SwipeThreshold || velocityX < -VelocityThreshold) {
        isOpen := false;
      }
      dragX := 0.0;
      bodyOverflow := OverflowFor(isOpen);
    }

    /** Removal from the page: the overflow effect's cleanup restores scrolling. */
    method Unmount()
      requires Valid() && mounted
      modifies this
      ensures Valid() && !mounted && bodyOverflow == Unset
      ensures isOpen == old(isOpen) && scrolled == old(scrolled) && dragX == old(dragX)
    {
      mounted := false;
      bodyOverflow := Unset;
    }
  }
}
