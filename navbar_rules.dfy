/**
 * The decision rules shared by both navigation bars,
 * `src/components/Navbar.tsx` and `src/components/Navbar.jsx`.
 */
module NavbarRules {

  /** `window.scrollY` above which the bar is drawn as scrolled. */
  const ScrollThreshold: real := 50.0
  /** `window.innerWidth` above which the layout is desktop and the mobile menu closes. */
  const DesktopWidth: int := 768

  /** The value of `document.body.style.overflow`. */
  datatype Overflow = Hidden | Unset

  /** The scroll handler's new `scrolled` value. */
  predicate ScrolledAt(scrollY: real)
  {
    scrollY > ScrollThreshold
  }

  /** `isOpen` after the resize handler has run at width `width`. */
  function OpenAfterResize(isOpen: bool, width: int): (open: bool)
    ensures open ==> isOpen
    ensures isOpen && !open <==> isOpen && width > DesktopWidth
  {
    if width > DesktopWidth && isOpen then false else isOpen
  }

  /** A resize never opens the menu, and a second resize at the same width changes nothing. */
  lemma ResizeIdempotent(isOpen: bool, width: int)
    ensures OpenAfterResize(OpenAfterResize(isOpen, width), width) == OpenAfterResize(isOpen, width)
  {
  }

  /** What the body-overflow effect writes for a given `isOpen`. */
  function OverflowFor(isOpen: bool): (o: Overflow)
    ensures o == Hidden <==> isOpen
  {
    if isOpen then Hidden else Unset
  }
}
