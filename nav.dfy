/**
 * The mobile navigation menu: the hamburger button and the nav panel each
 * carry an `active` class, and every handler flips or clears both together.
 */
module Nav {

  class NavMenu {
    /** Whether both `#hamburgerMenu` and `#navLinks` exist, so that the handlers are wired. */
    const wired: bool
    /** The `active` class of the hamburger button. */
    var burgerActive: bool
    /** The `active` class of the nav panel. */
    var panelActive: bool

    /** The menu is open or closed as a whole. */
    predicate InStep()
      reads this
    {
      burgerActive == panelActive
    }

    constructor (wired: bool, burgerActive0: bool, panelActive0: bool)
      ensures this.wired == wired && burgerActive == burgerActive0 && panelActive == panelActive0
    {
      this.wired := wired;
      burgerActive := burgerActive0;
      panelActive := panelActive0;
    }

    /** A click on the hamburger: flip both classes. */
    method ToggleClicked()
      modifies this
      ensures burgerActive == (if wired then !old(burgerActive) else old(burgerActive))
      ensures panelActive == (if wired then !old(panelActive) else old(panelActive))
      ensures old(InStep()) ==> InStep()
    {
      if wired {
        burgerActive := !burgerActive;
        panelActive := !panelActive;
      }
    }

    /** A click on a `.nav-link`: close the menu. */
    method LinkClicked()
      modifies this
      ensures wired ==> !burgerActive && !panelActive
      ensures !wired ==> burgerActive == old(burgerActive) && panelActive == old(panelActive)
      ensures old(InStep()) ==> InStep()
    {
      if wired {
        burgerActive := false;
        panelActive := false;
      }
    }

    /**
     * Any click on the document: close the menu when the target is outside
     * both elements and the panel is open.
     */
    method DocumentClicked(inBurger: bool, inPanel: bool)
      modifies this
      ensures var closes := wired && !inBurger && !inPanel && old(panelActive);
        (closes ==> !burgerActive && !panelActive) &&
        (!closes ==> burgerActive == old(burgerActive) && panelActive == old(panelActive))
      ensures old(InStep()) ==> InStep()
    {
      if wired && !inBurger && !inPanel && panelActive {
        burgerActive := false;
        panelActive := false;
      }
    }
  }
}
