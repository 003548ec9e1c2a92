/**
 * The public site's navigation bar: two desktop dropdowns that close each other, a
 * click-outside and Escape handler that closes both, and the independent mobile toggles.
 */
module Navbar {

  /** The two menus that have both a desktop dropdown and a mobile submenu. */
  datatype Menu = Divisions | Industries

  /** `mobileSubmenuOpen`: one flag per menu. */
  datatype Submenus = Submenus(divisions: bool, industries: bool)

  function SubmenuOpen(m: Submenus, menu: Menu): bool {
    match menu
    case Divisions => m.divisions
    case Industries => m.industries
  }

  datatype NavState = NavState(mobileMenuOpen: bool, mobileSubmenus: Submenus, divisionsOpen: bool, industriesOpen: bool)

  /** Everything starts closed. */
  const InitialNav := NavState(false, Submenus(false, false), false, false)

  /** The two desktop dropdowns are not open at the same time. */
  predicate AtMostOneDropdown(s: NavState) {
    !(s.divisionsOpen && s.industriesOpen)
  }

  /** `toggleDivisions`: flip the divisions dropdown and close the industries one. */
  function ToggleDivisions(s: NavState): (r: NavState)
    ensures r.divisionsOpen == !s.divisionsOpen && !r.industriesOpen
    ensures r.mobileMenuOpen == s.mobileMenuOpen && r.mobileSubmenus == s.mobileSubmenus
  {
    s.(divisionsOpen := !s.divisionsOpen, industriesOpen := if s.industriesOpen then false else s.industriesOpen)
  }

  /** `toggleIndustries`: flip the industries dropdown and close the divisions one. */
  function ToggleIndustries(s: NavState): (r: NavState)
    ensures r.industriesOpen == !s.industriesOpen && !r.divisionsOpen
    ensures r.mobileMenuOpen == s.mobileMenuOpen && r.mobileSubmenus == s.mobileSubmenus
  {
    s.(industriesOpen := !s.industriesOpen, divisionsOpen := if s.divisionsOpen then false else s.divisionsOpen)
  }

  /** Both dropdowns closed, the mobile state untouched. */
  function CloseDropdowns(s: NavState): NavState {
    s.(divisionsOpen := false, industriesOpen := false)
  }

  /**
   * A `mousedown` on the document. Both dropdown elements must be mounted and the target
   * must lie outside both for anything to close.
   */
  function ClickOutside(s: NavState, divisionsMounted: bool, inDivisions: bool,
                        industriesMounted: bool, inIndustries: bool): (r: NavState)
    ensures divisionsMounted && !inDivisions && industriesMounted && !inIndustries ==>
      !r.divisionsOpen && !r.industriesOpen
    ensures !(divisionsMounted && !inDivisions && industriesMounted && !inIndustries) ==> r == s
    ensures r.mobileMenuOpen == s.mobileMenuOpen && r.mobileSubmenus == s.mobileSubmenus
  {
    if divisionsMounted && !inDivisions && industriesMounted && !inIndustries then CloseDropdowns(s) else s
  }

  /** A `keydown`: `Escape` closes both dropdowns, any other key does nothing. */
  function KeyDown(s: NavState, key: string): (r: NavState)
    ensures key == "Escape" ==> !r.divisionsOpen && !r.industriesOpen
    ensures key != "Escape" ==> r == s
    ensures r.mobileMenuOpen == s.mobileMenuOpen && r.mobileSubmenus == s.mobileSubmenus
  {
    if key == "Escape" then CloseDropdowns(s) else s
  }

  /** `toggleMobileMenu`: flips only the mobile menu. */
  function ToggleMobileMenu(s: NavState): (r: NavState)
    ensures r.mobileMenuOpen == !s.mobileMenuOpen
    ensures r.(mobileMenuOpen := s.mobileMenuOpen) == s
  {
    s.(mobileMenuOpen := !s.mobileMenuOpen)
  }

  /** `toggleMobileSubmenu(menu)`: flips the chosen submenu and copies the other. */
  function ToggleMobileSubmenu(s: NavState, menu: Menu): (r: NavState)
    ensures SubmenuOpen(r.mobileSubmenus, menu) == !SubmenuOpen(s.mobileSubmenus, menu)
    ensures forall other: Menu :: other != menu ==>
      SubmenuOpen(r.mobileSubmenus, other) == SubmenuOpen(s.mobileSubmenus, other)
    ensures r.(mobileSubmenus := s.mobileSubmenus) == s
  {
    var m := s.mobileSubmenus;
    s.(mobileSubmenus := match menu
      case Divisions => m.(divisions := !m.divisions)
      case Industries => m.(industries := !m.industries))
  }

  /** The events the bar reacts to. */
  datatype NavEvent =
    | DivisionsButton
    | IndustriesButton
    | MouseDown(divisionsMounted: bool, inDivisions: bool, industriesMounted: bool, inIndustries: bool)
    | Key(key: string)
    | MobileMenuButton
    | MobileSubmenuButton(menu: Menu)

  function Step(s: NavState, e: NavEvent): NavState {
    match e
    case DivisionsButton => ToggleDivisions(s)
    case IndustriesButton => ToggleIndustries(s)
    case MouseDown(dm, din, im, iin) => ClickOutside(s, dm, din, im, iin)
    case Key(k) => KeyDown(s, k)
    case MobileMenuButton => ToggleMobileMenu(s)
    case MobileSubmenuButton(m) => ToggleMobileSubmenu(s, m)
  }

  /** The state after a sequence of events, from `s`. */
  function Run(s: NavState, events: seq<NavEvent>): NavState
    decreases |events|
  {
    if events == [] then s else Step(Run(s, events[..|events| - 1]), events[|events| - 1])
  }

  /** No event opens a second dropdown. */
  lemma StepKeepsOneDropdown(s: NavState, e: NavEvent)
    requires AtMostOneDropdown(s)
    ensures AtMostOneDropdown(Step(s, e))
  {
  }

  /** Starting with both closed, the two desktop dropdowns are never open at the same time. */
  lemma {:induction false} NeverBothOpen(events: seq<NavEvent>)
    ensures AtMostOneDropdown(Run(InitialNav, events))
  {
    if events != [] {
      NeverBothOpen(events[..|events| - 1]);
      StepKeepsOneDropdown(Run(InitialNav, events[..|events| - 1]), events[|events| - 1]);
    }
  }

  /** The desktop dropdowns and the mobile menu do not affect each other. */
  lemma MobileIndependentOfDesktop(s: NavState, e: NavEvent)
    ensures e.MobileMenuButton? || e.MobileSubmenuButton? ==>
      Step(s, e).divisionsOpen == s.divisionsOpen && Step(s, e).industriesOpen == s.industriesOpen
    ensures !(e.MobileMenuButton? || e.MobileSubmenuButton?) ==>
      Step(s, e).mobileMenuOpen == s.mobileMenuOpen && Step(s, e).mobileSubmenus == s.mobileSubmenus
  {
  }

  /** Pressing the same submenu button twice restores the state. */
  lemma SubmenuToggleTwice(s: NavState, menu: Menu)
    ensures ToggleMobileSubmenu(ToggleMobileSubmenu(s, menu), menu) == s
  {
  }
}
