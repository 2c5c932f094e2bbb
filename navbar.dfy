/**
 * The navigation bar: the connected account shown shortened, a flag set once the window
 * has scrolled past ten pixels, and the mobile menu's open flag.
 */
module Navbar {
  import opened Wrappers
  import opened Listing
  import Address

  /** `formatAddress`: '' for a missing or empty address, otherwise the shortened form. */
  function FormatAddress(address: Option<string>): (r: string)
    ensures !Truthy(address) <==> r == []
    ensures Truthy(address) ==> r == Address.Shorten(address.value)
  {
    if !Truthy(address) then [] else Address.Shorten(address.value)
  }

  /** A connected account, `0x` and forty hex digits, is shown as thirteen characters. */
  lemma FormatStandardAddress(address: string)
    requires |address| == 42
    ensures FormatAddress(Some(address)) == address[..6] + "..." + address[38..]
    ensures |FormatAddress(Some(address))| == 13
  {
    Address.ShortenStandardAddress(address);
  }

  /** Scroll offsets past this many pixels switch the bar to its solid style. */
  const ScrollThreshold: real := 10.0

  class NavbarState {
    var isMenuOpen: bool
    var isScrolled: bool

    constructor ()
      ensures !isMenuOpen && !isScrolled
    {
      isMenuOpen, isScrolled := false, false;
    }

    /** `handleScroll`: the flag follows `window.scrollY > 10`. */
    method HandleScroll(scrollY: real)
      modifies this
      ensures isScrolled <==> scrollY > ScrollThreshold
      ensures isMenuOpen == old(isMenuOpen)
    {
      isScrolled := scrollY > ScrollThreshold;
    }

    /** The effect on `location`: every route change closes the menu. */
    method LocationChanged()
      modifies this
      ensures !isMenuOpen && isScrolled == old(isScrolled)
    {
      isMenuOpen := false;
    }

    /** The menu button: open becomes closed and closed becomes open. */
    method ToggleMenu()
      modifies this
      ensures isMenuOpen == !old(isMenuOpen) && isScrolled == old(isScrolled)
    {
      isMenuOpen := !isMenuOpen;
    }
  }

  /** Pressing the menu button twice leaves the menu as it was. */
  method ToggleMenuTwice(nav: NavbarState)
    modifies nav
    ensures nav.isMenuOpen == old(nav.isMenuOpen) && nav.isScrolled == old(nav.isScrolled)
  {
    nav.ToggleMenu();
    nav.ToggleMenu();
  }
}
