/**
 * The navigation bar of `src/components/Navbar.jsx`: the same menu, scroll
 * and resize handling as the TypeScript variant, without drag gestures.
 */
module NavbarJsx {
  import opened NavbarRules

  class Navbar {
    var scrolled: bool
    var isOpen: bool
    var bodyOverflow: Overflow
    /** Whether the component is on the page: its listeners and effects are live. */
    var mounted: bool

    predicate Valid()
      reads this
    {
      bodyOverflow == (if mounted then OverflowFor(isOpen) else Unset)
    }

    constructor ()
      ensures Valid() && mounted
      ensures !scrolled && !isOpen && bodyOverflow == Unset
    {
      scrolled := false;
      isOpen := false;
      mounted := true;
      bodyOverflow := OverflowFor(false);
    }

    method HandleScroll(scrollY: real)
      requires Valid() && mounted
      modifies this
      ensures Valid() && mounted
      ensures scrolled == ScrolledAt(scrollY)
      ensures isOpen == old(isOpen) && bodyOverflow == old(bodyOverflow)
    {
      scrolled := ScrolledAt(scrollY);
    }

    method HandleResize(width: int)
      requires Valid() && mounted
      modifies this
      ensures Valid() && mounted
      ensures isOpen == OpenAfterResize(old(isOpen), width)
      ensures width <= DesktopWidth ==> isOpen == old(isOpen) && bodyOverflow == old(bodyOverflow)
      ensures scrolled == old(scrolled)
    {
      if width > DesktopWidth && isOpen {
        isOpen := false;
      }
      bodyOverflow := OverflowFor(isOpen);
    }

    /** `toggleMenu`, from the menu button. */
    method ToggleMenu()
      requires Valid() && mounted
      modifies this
      ensures Valid() && mounted
      ensures isOpen == !old(isOpen)
      ensures bodyOverflow == (if isOpen then Hidden else Unset)
      ensures scrolled == old(scrolled)
    {
      isOpen := !isOpen;
      bodyOverflow := OverflowFor(isOpen);
    }

    /** `closeMenu`, from the logo link and every mobile link. */
    method CloseMenu()
      requires Valid() && mounted
      modifies this
      ensures Valid() && mounted
      ensures !isOpen && bodyOverflow == Unset
      ensures scrolled == old(scrolled)
    {
      isOpen := false;
      bodyOverflow := OverflowFor(isOpen);
    }

    method Unmount()
      requires Valid() && mounted
      modifies this
      ensures Valid() && !mounted && bodyOverflow == Unset
      ensures isOpen == old(isOpen) && scrolled == old(scrolled)
    {
      mounted := false;
      bodyOverflow := Unset;
    }
  }
}
