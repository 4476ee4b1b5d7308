/**
 * The mobile navigation menu of `initMobileMenu` (assets/transitions.js:114-219).
 *
 * The page state the controller touches is a handful of markers: the
 * `nav-open` and `mobile-nav` classes of the navbar, the `active` class,
 * `aria-label` attribute and inline `display` of the hamburger button, and
 * the `menu-open` class of the body.  `Markers` is that state as a value;
 * each event handler is specified by a pure function from markers to
 * markers, and the class `Page` holds the markers as mutable fields whose
 * handler methods are proved against those functions.
 */
module MobileMenu {
  import opened Wrappers

  /** Widths up to and including this one count as mobile. */
  const MobileMaxWidth: int := 767
  /** The button's accessible label while the menu is closed. */
  const OpenLabel: string := "Abrir menu"
  /** The button's accessible label while the menu is open. */
  const CloseLabel: string := "Fechar menu"
  /** The `KeyboardEvent.key` value that closes the menu. */
  const EscapeKey: string := "Escape"

  /**
   * The hamburger button's inline `style.display`: not yet set, `flex`,
   * `none`, or any other value the markup gave an existing button.
   */
  datatype Display = Unset | Flex | Hidden | Other(value: string)

  datatype Markers = Markers(
    navOpen: bool,            // navbar has class `nav-open`
    mobileNav: bool,          // navbar has class `mobile-nav`
    btnActive: bool,          // button has class `active`
    bodyMenuOpen: bool,       // body has class `menu-open`
    ariaLabel: Option<string>, // button's `aria-label`, None when the attribute is absent
    display: Display)         // button's inline `display`

  predicate IsMobile(width: int) {
    width <= MobileMaxWidth
  }

  function LabelFor(open: bool): string {
    if open then CloseLabel else OpenLabel
  }

  /** The three class markers say the same thing about the menu. */
  predicate ClassesAgree(m: Markers) {
    m.btnActive == m.navOpen && m.bodyMenuOpen == m.navOpen
  }

  /** All four markers, the label included, agree with `nav-open`. */
  predicate InSync(m: Markers) {
    ClassesAgree(m) && m.ariaLabel == Some(LabelFor(m.navOpen))
  }

  /**
   * The weaker agreement the controller actually keeps: the class markers
   * agree, the label is one of the two labels, and it is "Fechar menu"
   * whenever the menu is open (a closed menu may still carry "Fechar menu").
   */
  predicate LabelSafe(m: Markers) {
    ClassesAgree(m)
    && (m.ariaLabel == Some(OpenLabel) || m.ariaLabel == Some(CloseLabel))
    && (m.navOpen ==> m.ariaLabel == Some(CloseLabel))
  }

  /** `toggleMenu`: flips `nav-open` and brings the other three markers in line with it. */
  function Toggle(m: Markers): (r: Markers)
    ensures r.navOpen == !m.navOpen
    ensures InSync(r)
    ensures r.mobileNav == m.mobileNav && r.display == m.display
  {
    if m.navOpen then
      m.(navOpen := false, btnActive := false, ariaLabel := Some(OpenLabel), bodyMenuOpen := false)
    else
      m.(navOpen := true, btnActive := true, ariaLabel := Some(CloseLabel), bodyMenuOpen := true)
  }

  /** Click on a link inside the navbar: closes an open menu, never opens one. */
  function OnLinkClick(m: Markers): (r: Markers)
    ensures !r.navOpen
    ensures r.mobileNav == m.mobileNav && r.display == m.display
    ensures m.navOpen ==> InSync(r)
    ensures !m.navOpen ==> r == m
  {
    if m.navOpen then Toggle(m) else m
  }

  /** Click anywhere in the document; the target's position is given by the two flags. */
  function OnDocumentClick(m: Markers, insideNav: bool, onButton: bool): (r: Markers)
    ensures r != m <==> !insideNav && !onButton && m.navOpen
    ensures r.navOpen == (m.navOpen && (insideNav || onButton))
    ensures r != m ==> InSync(r)
    ensures r.mobileNav == m.mobileNav && r.display == m.display
  {
    if !insideNav && !onButton && m.navOpen then Toggle(m) else m
  }

  /** A key press anywhere in the document. */
  function OnKeyDown(m: Markers, key: string): (r: Markers)
    ensures r != m <==> key == EscapeKey && m.navOpen
    ensures r.navOpen == (m.navOpen && key != EscapeKey)
    ensures r != m ==> InSync(r)
    ensures r.mobileNav == m.mobileNav && r.display == m.display
  {
    if key == EscapeKey && m.navOpen then Toggle(m) else m
  }

  /** `handleResize` for the viewport width `width`. */
  function OnResize(m: Markers, width: int): (r: Markers)
    ensures r.display == (if IsMobile(width) then Flex else Hidden)
    ensures r.mobileNav == IsMobile(width)
    ensures IsMobile(width) ==>
      r.navOpen == m.navOpen && r.btnActive == m.btnActive && r.bodyMenuOpen == m.bodyMenuOpen
    ensures !IsMobile(width) ==> !r.navOpen && !r.btnActive && !r.bodyMenuOpen
    ensures r.ariaLabel == m.ariaLabel
  {
    if IsMobile(width) then
      m.(display := Flex, mobileNav := true)
    else
      m.(display := Hidden, mobileNav := false, navOpen := false, btnActive := false, bodyMenuOpen := false)
  }

  /** The markers of a hamburger button that `initMobileMenu` has just created. */
  function WithNewButton(m: Markers): (r: Markers)
    ensures !r.btnActive && r.ariaLabel == Some(OpenLabel) && r.display == Unset
    ensures r.navOpen == m.navOpen && r.mobileNav == m.mobileNav && r.bodyMenuOpen == m.bodyMenuOpen
  {
    m.(btnActive := false, ariaLabel := Some(OpenLabel), display := Unset)
  }

  /**
   * The markers once `initMobileMenu` has run to its end: the button is
   * created if `hadButton` is false, then `handleResize` runs once.
   */
  function AfterSetup(markup: Markers, hadButton: bool, width: int): (r: Markers)
    ensures r.mobileNav == IsMobile(width) && r.display == (if IsMobile(width) then Flex else Hidden)
    ensures !hadButton ==> r.ariaLabel == Some(OpenLabel) && !r.btnActive
  {
    OnResize(if hadButton then markup else WithNewButton(markup), width)
  }

  /**
   * A page whose markup has neither `nav-open` nor `menu-open`, and whose
   * button, if it has one, is inactive and labelled "Abrir menu", starts
   * closed with all four markers in agreement, whatever the width.  This is
   * the starting point `RunKeepsLabelSafe` and `NarrowRunKeepsInSync` need.
   */
  lemma SetupStartsInSync(markup: Markers, hadButton: bool, width: int)
    requires !markup.navOpen && !markup.bodyMenuOpen
    requires hadButton ==> !markup.btnActive && markup.ariaLabel == Some(OpenLabel)
    ensures InSync(AfterSetup(markup, hadButton, width)) && !AfterSetup(markup, hadButton, width).navOpen
    ensures LabelSafe(AfterSetup(markup, hadButton, width))
  {
  }

  /** The events the controller listens to once it is set up. */
  datatype Event =
    | ButtonClick
    | LinkClick
    | DocumentClick(insideNav: bool, onButton: bool)
    | KeyDown(key: string)
    | WindowResize(width: int)

  function Step(m: Markers, e: Event): Markers {
    match e
    case ButtonClick => Toggle(m)
    case LinkClick => OnLinkClick(m)
    case DocumentClick(insideNav, onButton) => OnDocumentClick(m, insideNav, onButton)
    case KeyDown(key) => OnKeyDown(m, key)
    case WindowResize(width) => OnResize(m, width)
  }

  /** The markers after the events `es`, handled in order. */
  function Run(m: Markers, es: seq<Event>): Markers
    decreases |es|
  {
    if es == [] then m else Run(Step(m, es[0]), es[1..])
  }

  /** Two toggles restore the markers exactly when all four agreed to begin with. */
  lemma ToggleTwice(m: Markers)
    ensures Toggle(Toggle(m)) == m <==> InSync(m)
  {
  }

  /**
   * A run of button clicks: an even number of them returns an in-sync menu
   * to where it started, an odd number equals a single toggle.
   */
  lemma {:induction false} ButtonClicksParity(m: Markers, es: seq<Event>)
    requires InSync(m)
    requires forall i :: 0 <= i < |es| ==> es[i] == ButtonClick
    ensures Run(m, es) == if |es| % 2 == 0 then m else Toggle(m)
    decreases |es|
  {
    if es != [] {
      ButtonClicksParity(Toggle(m), es[1..]);
      ToggleTwice(m);
    }
  }

  /** Every handler keeps the agreement the controller maintains. */
  lemma StepKeepsLabelSafe(m: Markers, e: Event)
    requires LabelSafe(m)
    ensures LabelSafe(Step(m, e))
  {
  }

  /** Whatever events arrive, the class markers agree and an open menu is labelled "Fechar menu". */
  lemma {:induction false} RunKeepsLabelSafe(m: Markers, es: seq<Event>)
    requires LabelSafe(m)
    ensures LabelSafe(Run(m, es))
    decreases |es|
  {
    if es != [] {
      StepKeepsLabelSafe(m, es[0]);
      RunKeepsLabelSafe(Step(m, es[0]), es[1..]);
    }
  }

  /**
   * A resize keeps all four markers in agreement except when it closes an
   * open menu on a wide viewport: the label then stays "Fechar menu".
   */
  lemma ResizeKeepsInSyncIff(m: Markers, width: int)
    requires InSync(m)
    ensures InSync(OnResize(m, width)) <==> IsMobile(width) || !m.navOpen
    ensures !IsMobile(width) && m.navOpen ==>
      !OnResize(m, width).navOpen && OnResize(m, width).ariaLabel == Some(CloseLabel)
  {
  }

  /** The concrete case: open on a phone, then the window widens to 768 pixels. */
  lemma WidenedMenuKeepsCloseLabel()
    ensures var open := Toggle(Markers(false, true, false, false, Some(OpenLabel), Flex));
            var widened := OnResize(open, MobileMaxWidth + 1);
            InSync(open) && !widened.navOpen && widened.ariaLabel == Some(CloseLabel) && !InSync(widened)
  {
  }

  predicate OnlyNarrowResizes(es: seq<Event>) {
    forall i :: 0 <= i < |es| && es[i].WindowResize? ==> IsMobile(es[i].width)
  }

  /** As long as the viewport stays narrow, all four markers stay in agreement. */
  lemma {:induction false} NarrowRunKeepsInSync(m: Markers, es: seq<Event>)
    requires InSync(m)
    requires OnlyNarrowResizes(es)
    ensures InSync(Run(m, es))
    decreases |es|
  {
    if es != [] {
      assert es[0].WindowResize? ==> IsMobile(es[0].width);
      assert OnlyNarrowResizes(es[1..]) by {
        forall i | 0 <= i < |es[1..]| && es[1..][i].WindowResize?
          ensures IsMobile(es[1..][i].width)
        {
          assert es[1..][i] == es[i + 1];
        }
      }
      NarrowRunKeepsInSync(Step(m, es[0]), es[1..]);
    }
  }

  /** A repeated resize to the same width changes nothing more. */
  lemma ResizeIdempotent(m: Markers, width: int)
    ensures OnResize(OnResize(m, width), width) == OnResize(m, width)
  {
  }

  /**
   * The document as far as the menu controller sees it: which of the header
   * section, navbar and hamburger button exist, whether the listeners are
   * registered, and the markers.
   */
  class Page {
    const hasHeader: bool
    const hasNavbar: bool
    var hasButton: bool
    var listening: bool

    var navOpen: bool
    var mobileNav: bool
    var btnActive: bool
    var bodyMenuOpen: bool
    var ariaLabel: Option<string>
    var btnDisplay: Display

    function View(): Markers
      reads this
    {
      Markers(navOpen, mobileNav, btnActive, bodyMenuOpen, ariaLabel, btnDisplay)
    }

    /** Listeners exist only once the header section, the button and the navbar all do. */
    ghost predicate Valid()
      reads this
    {
      listening ==> hasHeader && hasButton && hasNavbar
    }

    /** A page as loaded, before the script runs; `markup` gives the markers the markup sets. */
    constructor (hasHeader: bool, hasNavbar: bool, hasButton: bool, markup: Markers)
      ensures Valid() && !listening
      ensures this.hasHeader == hasHeader && this.hasNavbar == hasNavbar && this.hasButton == hasButton
      ensures View() == markup
    {
      this.hasHeader, this.hasNavbar, this.hasButton := hasHeader, hasNavbar, hasButton;
      listening := false;
      navOpen, mobileNav, btnActive := markup.navOpen, markup.mobileNav, markup.btnActive;
      bodyMenuOpen, ariaLabel, btnDisplay := markup.bodyMenuOpen, markup.ariaLabel, markup.display;
    }

    /**
     * `initMobileMenu` with the viewport `width`: nothing without a header
     * section; otherwise the button is created if missing; without a navbar
     * it stops there; with one the listeners are registered and the markers
     * are as if `handleResize` had run once.
     */
    method InitMobileMenu(width: int)
      requires Valid() && !listening
      modifies this`hasButton, this`listening, this`navOpen, this`mobileNav, this`btnActive,
               this`bodyMenuOpen, this`ariaLabel, this`btnDisplay
      ensures Valid()
      ensures !hasHeader ==> !listening && hasButton == old(hasButton) && View() == old(View())
      ensures hasHeader ==> hasButton
      ensures hasHeader && !hasNavbar ==>
        !listening && View() == if old(hasButton) then old(View()) else WithNewButton(old(View()))
      ensures hasHeader && hasNavbar ==>
        listening && View() == AfterSetup(old(View()), old(hasButton), width)
    {
      if !hasHeader {
        return;
      }
      if !hasButton {
        hasButton := true;
        btnActive := false;
        ariaLabel := Some(OpenLabel);
        btnDisplay := Unset;
      }
      if !hasNavbar {
        return;
      }
      mobileNav := true;
      listening := true;
      HandleResize(width);
    }

    method ToggleMenu()
      requires Valid() && listening
      modifies this`navOpen, this`btnActive, this`ariaLabel, this`bodyMenuOpen
      ensures View() == Toggle(old(View()))
    {
      if navOpen {
        navOpen := false;
        btnActive := false;
        ariaLabel := Some(OpenLabel);
        bodyMenuOpen := false;
      } else {
        navOpen := true;
        btnActive := true;
        ariaLabel := Some(CloseLabel);
        bodyMenuOpen := true;
      }
    }

    /** Click on the hamburger button (its propagation to the document stops there). */
    method HandleButtonClick()
      requires Valid() && listening
      modifies this`navOpen, this`btnActive, this`ariaLabel, this`bodyMenuOpen
      ensures View() == Toggle(old(View()))
    {
      ToggleMenu();
    }

    method HandleLinkClick()
      requires Valid() && listening
      modifies this`navOpen, this`btnActive, this`ariaLabel, this`bodyMenuOpen
      ensures View() == OnLinkClick(old(View()))
    {
      if navOpen {
        ToggleMenu();
      }
    }

    /** `insideNav` and `onButton`: whether the navbar or the button contains the click's target. */
    method HandleDocumentClick(insideNav: bool, onButton: bool)
      requires Valid() && listening
      modifies this`navOpen, this`btnActive, this`ariaLabel, this`bodyMenuOpen
      ensures View() == OnDocumentClick(old(View()), insideNav, onButton)
    {
      if !insideNav && !onButton && navOpen {
        ToggleMenu();
      }
    }

    method HandleKeyDown(key: string)
      requires Valid() && listening
      modifies this`navOpen, this`btnActive, this`ariaLabel, this`bodyMenuOpen
      ensures View() == OnKeyDown(old(View()), key)
    {
      if key == EscapeKey && navOpen {
        ToggleMenu();
      }
    }

    method HandleResize(width: int)
      requires Valid() && listening
      modifies this`navOpen, this`mobileNav, this`btnActive, this`bodyMenuOpen, this`btnDisplay
      ensures View() == OnResize(old(View()), width)
    {
      if width <= MobileMaxWidth {
        btnDisplay := Flex;
        mobileNav := true;
      } else {
        btnDisplay := Hidden;
        mobileNav := false;
        navOpen := false;
        btnActive := false;
        bodyMenuOpen := false;
      }
    }
  }
}
