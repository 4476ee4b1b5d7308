# Mundo Verde transitions: the mobile navigation menu

A model of the one stateful piece of the Mundo Verde site script
`assets/transitions.js`: the hamburger-menu controller set up by
`initMobileMenu`, together with two small pure rules from the same file, the
"internal link" test that decides whether a navbar click fades through the page
overlay, and the staggered animation delays of `staggerAnimation` and
`addAnimation`.

The controller works on six markers: the navbar's `nav-open` and `mobile-nav`
classes, the hamburger button's `active` class, `aria-label` and inline
`display`, and the body's `menu-open` class. In `mobile_menu.dfy` (module
`MobileMenu`) these are the value `Markers`; each handler is specified by a
pure function on markers (`Toggle`, `OnLinkClick`, `OnDocumentClick`,
`OnKeyDown`, `OnResize`), and event sequences are folded by `Run`. The class
`Page` keeps the markers as mutable fields, with one method per handler, each
proved to change the markers exactly as its function says and to touch no
other field. The DOM is not modelled as a tree: whether the navbar or the
button contains a click's target is passed in as two booleans. The key pressed
is a string, and the viewport width is an integer.

The controller does not keep all four menu markers in step. A wide resize
(width above 767) clears `nav-open`, `active` and `menu-open` but leaves
`aria-label` alone. So a menu that was open and is then widened ends up closed
but still labelled "Fechar menu". The model states two invariants. `InSync`
says all four markers agree with `nav-open`; the code breaks it in exactly that
case (`ResizeKeepsInSyncIff`, `WidenedMenuKeepsCloseLabel`). `LabelSafe` is the
weaker one the code does keep under every event (`RunKeepsLabelSafe`): the
three classes agree, the label is one of the two labels, and an open menu is
labelled "Fechar menu". The next toggle brings the label back in step. While
the viewport stays narrow, `InSync` holds throughout (`NarrowRunKeepsInSync`).

Two details of the code that a reader might expect otherwise, modelled as written:
- the wide-viewport reset leaves `aria-label` unchanged instead of resetting all four markers;
- setup does not force the menu closed. Markers already present in the markup
  stay as they are unless the first `handleResize` runs at a wide width.
  A button that already exists keeps its own `active` class and label.

The internal-link test at `assets/transitions.js:54` has a quirk of its own,
kept as written: a protocol-relative address such as `//other.host/x` starts
with "/", so it counts as internal. A click on such a navbar link fades the
page out and then leaves the site (`ProtocolRelativeLinkIsInternal`).

Files: `wrappers.dfy` (an `Option` type standing for `null`), `mobile_menu.dfy`,
`transitions.dfy` (modules `PageTransitions` and `Animations`).

## Model

| member | source | states |
|---|---|---|
| `MobileMenu.Toggle` | assets/transitions.js:147-163 | `nav-open` flips; `active`, `menu-open` and the label ("Fechar menu" when opening, "Abrir menu" when closing) then all agree with it; `mobile-nav` and the display are untouched |
| `MobileMenu.OnLinkClick` | assets/transitions.js:173-180 | a nav-link click leaves the menu closed: an open menu is closed with all markers in agreement, and a closed one is left exactly as it was (it never opens) |
| `MobileMenu.OnDocumentClick` | assets/transitions.js:183-190 | the markers change if and only if the target is outside both the navbar and the button and the menu is open; the menu then closes with all markers in agreement |
| `MobileMenu.OnKeyDown` | assets/transitions.js:193-197 | the markers change if and only if the key is exactly "Escape" and the menu is open; any other key, or Escape while closed, changes nothing |
| `MobileMenu.OnResize` | assets/transitions.js:200-212 | width ≤ 767 (inclusive) shows the button (`flex`) and sets `mobile-nav`, keeping the menu markers; a wider one hides the button and clears `mobile-nav`, `nav-open`, `active` and `menu-open` whatever the prior state; the label is never changed |
| `MobileMenu.AfterSetup` | assets/transitions.js:121-215 | after a complete setup `mobile-nav` and the button's display follow the width; a button created by setup is inactive and labelled "Abrir menu" |
| `MobileMenu.SetupStartsInSync` | assets/transitions.js:121-215 | on markup without `nav-open` or `menu-open` (and an inactive "Abrir menu" button if one exists) setup leaves the menu closed with all four markers in agreement, the starting point of the run invariants |
| `MobileMenu.WithNewButton` | assets/transitions.js:121-129 | a freshly created button is not active, is labelled "Abrir menu" and has no inline display yet |
| `MobileMenu.ToggleTwice` | assets/transitions.js:147-163 | two toggles give back the starting markers if and only if all four menu markers agreed at the start |
| `MobileMenu.ButtonClicksParity` | assets/transitions.js:166-170 | from agreeing markers, an even number of button clicks returns to the start and an odd number equals one toggle |
| `MobileMenu.StepKeepsLabelSafe` | assets/transitions.js:147-212 | every handler preserves the invariant the code keeps: the classes agree, the label is one of the two, and "Fechar menu" when open |
| `MobileMenu.RunKeepsLabelSafe` | assets/transitions.js:147-212 | that invariant holds after any sequence of clicks, key presses and resizes |
| `MobileMenu.ResizeKeepsInSyncIff` | assets/transitions.js:206-210 | from agreeing markers, a resize keeps all four in agreement if and only if the width is ≤ 767 or the menu was closed; an open menu widened is closed but still labelled "Fechar menu" |
| `MobileMenu.WidenedMenuKeepsCloseLabel` | assets/transitions.js:206-210 | concretely: a menu opened on a narrow viewport and then widened to 768 is closed, labelled "Fechar menu", and out of agreement |
| `MobileMenu.NarrowRunKeepsInSync` | assets/transitions.js:147-205 | if every resize is to a width ≤ 767, all four menu markers stay in agreement through any event sequence |
| `MobileMenu.ResizeIdempotent` | assets/transitions.js:200-212 | a repeated resize to the same width has no further effect |
| `MobileMenu.Page.constructor` | assets/transitions.js:116-140 | a page before the script runs: which of header section, navbar and button exist, and the markers its markup sets; no listeners yet |
| `MobileMenu.Page.InitMobileMenu` | assets/transitions.js:114-219 | no header section: nothing changes; otherwise a missing button is created with label "Abrir menu"; no navbar: it stops there; else listeners are registered and the markers are those of one `handleResize` on the current width |
| `MobileMenu.Page.ToggleMenu` | assets/transitions.js:147-163 | the page's markers become `Toggle` of the old ones; no other field changes |
| `MobileMenu.Page.HandleButtonClick` | assets/transitions.js:166-170 | a button click toggles the menu |
| `MobileMenu.Page.HandleLinkClick` | assets/transitions.js:173-180 | the markers become `OnLinkClick` of the old ones |
| `MobileMenu.Page.HandleDocumentClick` | assets/transitions.js:183-190 | the markers become `OnDocumentClick` of the old ones for the given target position |
| `MobileMenu.Page.HandleKeyDown` | assets/transitions.js:193-197 | the markers become `OnKeyDown` of the old ones for the given key |
| `MobileMenu.Page.HandleResize` | assets/transitions.js:200-212 | the markers become `OnResize` of the old ones for the given width |
| `PageTransitions.InternalLinkIffSlashPrefix` | assets/transitions.js:54 | the overlay test holds exactly for a present href starting with "/"; the truthiness and `!startsWith('#')` tests never change the outcome |
| `PageTransitions.IsInternalLink` | assets/transitions.js:54 | a link goes through the overlay only if its href is present and starts with "/" |
| `PageTransitions.ProtocolRelativeLinkIsInternal` | assets/transitions.js:54 | a protocol-relative href `//<host>` passes the internal-link test, whatever the host |
| `PageTransitions.Overlay.HandleNavLinkClick` | assets/transitions.js:50-64 | for an internal link the overlay is activated and navigation to that href is scheduled; for any other link nothing happens |
| `Animations.StaggerDelay` | assets/transitions.js:79 | the delay of element `index` is `index * delay` ms: element 0 starts at once, and with a positive step exactly the later elements wait |
| `Animations.StaggerAnimation` | assets/transitions.js:76-81 | element `i` of the selection gets animation delay `i * delay` ms (100 by default); class lists are untouched |
| `Animations.AddAnimation` | assets/transitions.js:245-253 | on a non-empty selection, a class name that `classList.add` refuses (empty, or holding ASCII whitespace) throws at the first element and nothing changes; otherwise every element gains the class, and element `i` gets delay `i * delay` ms only when `delay > 0` (the default is 0), its delay being left as it was otherwise |

## Left out

- Scroll-triggered entrance animations (`initScrollAnimations`): they rest on the browser's IntersectionObserver with a fractional threshold and a root margin.
- Timer-driven effects: the forced activation of footer elements after 500 ms, the navigation to the link's address 300 ms after the overlay appears (modelled only as the returned address), and the header slide-in of `animateHeader`.
- The overlay's removal and the body's `page-transition` class on `load`, and `resetAnimations`: one-shot class changes with no branching.
- Smooth anchor scrolling (`improveScrollBehavior`): a direct call to the browser's `scrollIntoView`.
- DOM construction: the button's inner spans, its placement after the logo or at the start of the header section, listener registration, `preventDefault` and `stopPropagation`. Containment of a click target is an input, and a click on the button is taken not to reach the document listener.
- `Animations.StaggerAnimation`, `Animations.AddAnimation`: the delay is kept as a whole number of milliseconds rather than the CSS string `"<n>ms"`, and JavaScript's non-integer numbers are not modelled.
- `MobileMenu.Page.InitMobileMenu`: it may run only once (`requires !listening`). If the exported `initTransitions` ran a second time, the button would get a second click listener; `stopPropagation` does not stop the other listener on the same element, so each click would toggle twice and the button could no longer open the menu. That double registration is not modelled.
- The button's inline display: an existing button's non-`flex`, non-`none` inline display is kept as an opaque string (`Other`), not interpreted as CSS.
- Page bootstrapping (`initTransitions` with `DOMContentLoaded`) and the `window.MundoVerdeTransitions` export.
