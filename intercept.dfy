/** The conditions under which the router takes over a click on an anchor or
    a form submission inside its host; the DOM lookups that produce the
    anchor and the form action are reduced to fields of the event record. */
module Intercept {
  import opened Wrappers
  import opened Routes

  /** A click: flags of the event and the anchor found on its composed path. */
  datatype ClickEvent = ClickEvent(defaultPrevented: bool, ctrlKey: bool, metaKey: bool, anchor: Option<Location>)

  /** A submission: flags of the event and the resolved form action URL. */
  datatype SubmitEvent = SubmitEvent(defaultPrevented: bool, ctrlKey: bool, metaKey: bool, action: Location)

  /** `handleAnchorClick` calls `resolveEvent` exactly when this holds;
      `cached` is the key set of the `urls` table. */
  predicate AnchorIntercepts(e: ClickEvent, location: Location, cached: set<string>)
  {
    && !e.defaultPrevented && !e.ctrlKey && !e.metaKey
    && e.anchor.Some?
    && e.anchor.value.origin == location.origin
    && FullUrl(e.anchor.value) in cached
  }

  /** `handleFormSubmit` calls `resolveEvent` exactly when this holds. */
  predicate FormIntercepts(e: SubmitEvent, location: Location, cached: set<string>)
  {
    && !e.defaultPrevented
    && e.action.origin == location.origin
    && (FullUrl(e.action) in cached || Href(e.action) == Href(location))
  }

  /** A prevented click, a click with Ctrl or Meta held, a click outside any
      anchor, a cross-origin click and a click on a URL the router has never
      produced are all left to the browser. */
  lemma AnchorBypass(e: ClickEvent, location: Location, cached: set<string>)
    ensures e.defaultPrevented || e.ctrlKey || e.metaKey ==> !AnchorIntercepts(e, location, cached)
    ensures e.anchor.None? ==> !AnchorIntercepts(e, location, cached)
    ensures e.anchor.Some? && e.anchor.value.origin != location.origin ==>
      !AnchorIntercepts(e, location, cached)
    ensures e.anchor.Some? && FullUrl(e.anchor.value) !in cached ==>
      !AnchorIntercepts(e, location, cached)
  {
  }

  /** For a plain click on a same-origin anchor, the decision is membership of
      the anchor's URL without its fragment in the table: two anchors that
      differ only after `#` are treated alike. */
  lemma AnchorDecidedByTable(t: Location, t': Location, location: Location, cached: set<string>)
    requires t.origin == location.origin
    requires t' == t.(hash := t'.hash)
    ensures AnchorIntercepts(ClickEvent(false, false, false, Some(t)), location, cached) <==>
      FullUrl(t) in cached
    ensures AnchorIntercepts(ClickEvent(false, false, false, Some(t)), location, cached) ==
      AnchorIntercepts(ClickEvent(false, false, false, Some(t')), location, cached)
  {
    assert FullUrl(t') == FullUrl(t);
  }

  /** Every click the router takes over would also be taken over as a
      submission to the same target: the form rule only drops conditions. */
  lemma AnchorImpliesForm(p: bool, c: bool, m: bool, t: Location, location: Location, cached: set<string>)
    ensures AnchorIntercepts(ClickEvent(p, c, m, Some(t)), location, cached) ==>
      FormIntercepts(SubmitEvent(p, c, m, t), location, cached)
  {
  }

  /** The submit handler takes over a submission never seen by the router when
      its action is exactly the current location, fragment included, and it
      leaves it alone when only the fragment differs. */
  lemma FormToCurrentLocation(location: Location, hash: string, cached: set<string>)
    requires FullUrl(location) !in cached && hash != location.hash
    ensures FormIntercepts(SubmitEvent(false, false, false, location), location, cached)
    ensures !FormIntercepts(SubmitEvent(false, false, false, location.(hash := hash)), location, cached)
  {
    var other := location.(hash := hash);
    assert FullUrl(other) == FullUrl(location);
    assert Href(other) != Href(location) by {
      var pre := location.origin + location.pathname + location.search;
      assert Href(other) == pre + hash && Href(location) == pre + location.hash;
      assert Href(other)[|pre|..] == hash;
      assert Href(location)[|pre|..] == location.hash;
    }
  }

  /** A prevented submission is left alone; the Ctrl and Meta keys play no
      part in the decision. */
  lemma FormBypass(e: SubmitEvent, location: Location, cached: set<string>)
    ensures e.defaultPrevented ==> !FormIntercepts(e, location, cached)
    ensures e.action.origin != location.origin ==> !FormIntercepts(e, location, cached)
    ensures FormIntercepts(e, location, cached) ==
      FormIntercepts(e.(ctrlKey := true, metaKey := true), location, cached)
  {
  }

  /** The submit handler skips the modifier-key check: with Ctrl held, a form
      targeting a known same-origin URL is taken over while an anchor with the
      same target is not. */
  lemma FormIgnoresModifiers(target: Location, location: Location, cached: set<string>)
    requires target.origin == location.origin && FullUrl(target) in cached
    ensures FormIntercepts(SubmitEvent(false, true, false, target), location, cached)
    ensures !AnchorIntercepts(ClickEvent(false, true, false, Some(target)), location, cached)
  {
  }
}
