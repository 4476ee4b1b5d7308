/**
 * The same-site navigation fade of `initPageTransitions`
 * (assets/transitions.js:45-73).
 */
module PageTransitions {
  import opened Wrappers

  predicate StartsWith(s: string, prefix: string) {
    prefix <= s
  }

  /**
   * Whether a click on a navbar link with attribute `href` (None when the
   * attribute is absent) goes through the fade overlay.  The test is written
   * as the script writes it: a truthy string, starting with "/", not
   * starting with "#".
   */
  predicate IsInternalLink(href: Option<string>)
    ensures IsInternalLink(href) ==> href.Some? && |href.value| > 0 && href.value[0] == '/'
  {
    href.Some? && href.value != "" && StartsWith(href.value, "/") && !StartsWith(href.value, "#")
  }

  /**
   * The overlay is used exactly for present hrefs that start with "/": the
   * non-empty test and the "#" test never change the outcome.
   */
  lemma InternalLinkIffSlashPrefix(href: Option<string>)
    ensures IsInternalLink(href) <==> href.Some? && StartsWith(href.value, "/")
  {
    if href.Some? && StartsWith(href.value, "/") {
      assert href.value[0] == '/';
    }
  }

  /**
   * A protocol-relative address such as "//other.host/x" counts as internal:
   * the page fades out and then leaves the site.
   */
  lemma ProtocolRelativeLinkIsInternal(host: string)
    ensures IsInternalLink(Some("//" + host))
  {
    assert ("//" + host)[0] == '/';
    assert "/" <= "//" + host;
  }

  /** The `page-overlay` element appended to the body. */
  class Overlay {
    var active: bool

    constructor ()
      ensures !active
    {
      active := false;
    }

    /**
     * A click on a navbar link.  For an internal link the default action is
     * cancelled, the overlay is activated, and `scheduled` is the address the
     * page will be sent to once the fade is over; otherwise nothing happens
     * and `scheduled` is None.
     */
    method HandleNavLinkClick(href: Option<string>) returns (scheduled: Option<string>)
      modifies this
      ensures scheduled.Some? <==> IsInternalLink(href)
      ensures scheduled.Some? ==> scheduled == href && active
      ensures scheduled.None? ==> active == old(active)
    {
      if IsInternalLink(href) {
        active := true;
        scheduled := href;
      } else {
        scheduled := None;
      }
    }
  }
}

/**
 * The staggered entrance delays of `staggerAnimation` and `addAnimation`
 * (assets/transitions.js:76-81, 245-253).
 */
module Animations {
  import opened Wrappers

  /** The delay step `staggerAnimation` uses when none is given, in milliseconds. */
  const DefaultStaggerDelay: int := 100
  /** The delay step `addAnimation` uses when none is given: no delay is written. */
  const DefaultAddDelay: int := 0

  /**
   * The animation delay, in milliseconds, of the element at position `index`:
   * the first element starts at once, and with a positive step every later
   * one waits.
   */
  function StaggerDelay(index: nat, delay: int): (r: int)
    ensures index == 0 ==> r == 0
    ensures delay > 0 ==> (r > 0 <==> index > 0)
  {
    index * delay
  }

  /** The DOM exceptions `DOMTokenList.add` throws for a token it refuses. */
  datatype DomError = SyntaxError | InvalidCharacterError

  /** The ASCII whitespace of the DOM standard: tab, line feed, form feed, carriage return, space. */
  predicate IsAsciiWhitespace(c: char) {
    c == '\t' || c == '\n' || c == '\U{000C}' || c == '\r' || c == ' '
  }

  /**
   * What `classList.add(token)` throws: a SyntaxError for the empty token,
   * an InvalidCharacterError for one holding ASCII whitespace, nothing otherwise.
   */
  function TokenError(token: string): (r: Option<DomError>)
    ensures r.None? <==> token != "" && forall k :: 0 <= k < |token| ==> !IsAsciiWhitespace(token[k])
    ensures token == "" ==> r == Some(SyntaxError)
  {
    if token == "" then Some(SyntaxError)
    else if exists k :: 0 <= k < |token| && IsAsciiWhitespace(token[k]) then Some(InvalidCharacterError)
    else None
  }

  /** A matched element: its class list and its inline `animationDelay` in milliseconds (None when unset). */
  class Element {
    var classes: set<string>
    var animationDelay: Option<int>

    constructor (classes: set<string>, animationDelay: Option<int>)
      ensures this.classes == classes && this.animationDelay == animationDelay
    {
      this.classes, this.animationDelay := classes, animationDelay;
    }
  }

  /** The elements a `querySelectorAll` returns are distinct. */
  predicate Distinct(elems: seq<Element>) {
    forall i, j :: 0 <= i < j < |elems| ==> elems[i] != elems[j]
  }

  /** `staggerAnimation`: element `i` of the selection gets delay `i * delay`. */
  method StaggerAnimation(elems: seq<Element>, delay: int := DefaultStaggerDelay)
    requires Distinct(elems)
    modifies set e | e in elems
    ensures forall i :: 0 <= i < |elems| ==> elems[i].animationDelay == Some(StaggerDelay(i, delay))
    ensures forall i :: 0 <= i < |elems| ==> elems[i].classes == old(elems[i].classes)
  {
    for i := 0 to |elems|
      invariant forall k :: 0 <= k < i ==> elems[k].animationDelay == Some(StaggerDelay(k, delay))
      invariant forall k :: 0 <= k < |elems| ==> elems[k].classes == old(elems[k].classes)
    {
      elems[i].animationDelay := Some(StaggerDelay(i, delay));
    }
  }

  /**
   * `addAnimation`: every element of the selection gains the class
   * `animationType`; only when `delay` is positive does element `i` also get
   * delay `i * delay`, otherwise its delay is left as it was.  A class name
   * that `classList.add` refuses throws at the first element, before anything
   * has changed; `thrown` is that exception.
   */
  method AddAnimation(elems: seq<Element>, animationType: string, delay: int := DefaultAddDelay)
    returns (thrown: Option<DomError>)
    requires Distinct(elems)
    modifies set e | e in elems
    ensures thrown == if elems == [] then None else TokenError(animationType)
    ensures thrown.Some? ==> forall i :: 0 <= i < |elems| ==>
      elems[i].classes == old(elems[i].classes) && elems[i].animationDelay == old(elems[i].animationDelay)
    ensures thrown.None? ==> forall i :: 0 <= i < |elems| ==>
      elems[i].classes == old(elems[i].classes) + {animationType}
    ensures thrown.None? ==> forall i :: 0 <= i < |elems| ==>
      elems[i].animationDelay == if delay > 0 then Some(StaggerDelay(i, delay)) else old(elems[i].animationDelay)
  {
    thrown := None;
    for i := 0 to |elems|
      invariant thrown.None?
      invariant i > 0 ==> TokenError(animationType).None?
      invariant forall k :: 0 <= k < i ==> elems[k].classes == old(elems[k].classes) + {animationType}
      invariant forall k :: i <= k < |elems| ==> elems[k].classes == old(elems[k].classes)
      invariant forall k :: 0 <= k < i ==>
        elems[k].animationDelay == if delay > 0 then Some(StaggerDelay(k, delay)) else old(elems[k].animationDelay)
      invariant forall k :: i <= k < |elems| ==> elems[k].animationDelay == old(elems[k].animationDelay)
    {
      thrown := TokenError(animationType);
      if thrown.Some? {
        return;
      }
      elems[i].classes := elems[i].classes + {animationType};
      if delay > 0 {
        elems[i].animationDelay := Some(StaggerDelay(i, delay));
      }
    }
  }
}
