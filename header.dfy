/** The navigation header of components/Header.tsx: its link table, the
    click handler and the active-link test. The handler's two effects,
    `preventDefault` and `transitionTo`, are its returned outcome. */
module Header {
  import opened Wrappers
  import opened SceneController
  import opened TransitionProvider

  /** One entry of `navLinks`. */
  datatype NavLink = NavLink(href: Route, caption: string, scene: SceneState)

  /** `navLinks`, in display order. */
  const NavLinks: seq<NavLink> := [
    NavLink("/", "Home", Home),
    NavLink("/projects", "Projects", Projects),
    NavLink("/about", "About", About),
    NavLink("/contact", "Contact", Contact)
  ]

  /** The parts of a mouse event the handler reads. */
  datatype ClickEvent = ClickEvent(metaKey: bool, ctrlKey: bool, shiftKey: bool, button: int)

  /** A call `transitionTo(scene, options)`. */
  datatype TransitionCall = TransitionCall(scene: SceneState, options: Option<TransitionOptions>)

  /** What one click did: how often `preventDefault` ran, and the
      `transitionTo` calls made, in order. */
  datatype NavOutcome = NavOutcome(preventDefaultCalls: nat, transitionCalls: seq<TransitionCall>)

  /** A click the browser should handle itself (new tab, new window, a
      non-primary button). */
  predicate IsModifiedClick(e: ClickEvent)
  {
    e.metaKey || e.ctrlKey || e.shiftKey || e.button != 0
  }

  /** `handleNav(event, href, scene)` while the router is at `pathname`.
      A modified click is left alone; any other click suppresses the
      browser's navigation and asks the controller for the link's scene,
      with the link's route unless the link is the current page. */
  function HandleNav(pathname: Option<string>, e: ClickEvent, href: Route, scene: SceneState): (r: NavOutcome)
    ensures IsModifiedClick(e) ==> r.preventDefaultCalls == 0 && r.transitionCalls == []
    ensures !IsModifiedClick(e) ==>
              r.preventDefaultCalls == 1 && |r.transitionCalls| == 1 && r.transitionCalls[0].scene == scene
    ensures !IsModifiedClick(e) && pathname == Some(href) ==> r.transitionCalls[0].options == None
    ensures !IsModifiedClick(e) && pathname != Some(href) ==>
              r.transitionCalls[0].options == Some(TransitionOptions(Some(href), None))
  {
    if IsModifiedClick(e) then NavOutcome(0, [])
    else if pathname == Some(href) then NavOutcome(1, [TransitionCall(scene, None)])
    else NavOutcome(1, [TransitionCall(scene, Some(TransitionOptions(Some(href), None)))])
  }

  /** `isActive`: the link is the current page. */
  predicate IsActive(pathname: Option<string>, link: NavLink)
  {
    pathname == Some(link.href)
  }

  /** The `aria-current` attribute of a link. */
  function AriaCurrent(pathname: Option<string>, link: NavLink): (r: Option<string>)
    ensures r == Some("page") <==> IsActive(pathname, link)
    ensures r == None <==> !IsActive(pathname, link)
  {
    if IsActive(pathname, link) then Some("page") else None
  }

  /** Every link's scene is the scene its own path maps to, so clicking a
      link and arriving at its page agree on the scene. */
  lemma NavLinkScenesMatchPaths()
    ensures forall i :: 0 <= i < |NavLinks| ==> NavLinks[i].scene == MapPathToSceneState(Some(NavLinks[i].href))
  {
    assert !StartsWith("/", "/about") && !StartsWith("/", "/projects") && !StartsWith("/", "/contact");
    assert StartsWith("/projects", "/projects");
    assert StartsWith("/about", "/about");
    assert StartsWith("/contact", "/contact");
  }

  /** The links have distinct routes, and each page has exactly one link. */
  lemma NavLinksAreOnePerScene(s: SceneState)
    ensures forall i, j :: 0 <= i < j < |NavLinks| ==> NavLinks[i].href != NavLinks[j].href
    ensures exists i :: 0 <= i < |NavLinks| && NavLinks[i].scene == s
    ensures forall i, j :: 0 <= i < j < |NavLinks| ==> NavLinks[i].scene != NavLinks[j].scene
  {
    match s
    case Home => assert NavLinks[0].scene == s;
    case Projects => assert NavLinks[1].scene == s;
    case About => assert NavLinks[2].scene == s;
    case Contact => assert NavLinks[3].scene == s;
  }

  /** At most one link is active for any path. */
  lemma AtMostOneActive(pathname: Option<string>, i: nat, j: nat)
    requires i < |NavLinks| && j < |NavLinks|
    requires IsActive(pathname, NavLinks[i]) && IsActive(pathname, NavLinks[j])
    ensures i == j
  {
    NavLinksAreOnePerScene(Home);
  }

  /** Clicking the link of the current page reaches the provider without a
      route, so the provider stays as it is whatever its scene. */
  lemma CurrentLinkClickChangesNothing(current: SceneState, pathname: Option<string>, e: ClickEvent, link: NavLink)
    requires link in NavLinks
    requires !IsModifiedClick(e) && IsActive(pathname, link)
    ensures HandleNav(pathname, e, link.href, link.scene).preventDefaultCalls == 1
    ensures var call := HandleNav(pathname, e, link.href, link.scene).transitionCalls[0];
            TransitionPlan(current, call.scene, call.options) == Stay
  {
  }

  /** Clicking another page's link pushes that link's route: at once when
      the move goes up the rank order, after the default 700 delay when it
      explodes. */
  lemma OtherLinkClickNavigates(current: SceneState, pathname: Option<string>, e: ClickEvent, link: NavLink)
    requires link in NavLinks
    requires !IsModifiedClick(e) && !IsActive(pathname, link)
    ensures var call := HandleNav(pathname, e, link.href, link.scene).transitionCalls[0];
            TransitionPlan(current, call.scene, call.options)
              == if ShouldExplode(current, link.scene) then Explode(link.href, 700.0) else PushNow(link.href)
  {
    var call := HandleNav(pathname, e, link.href, link.scene).transitionCalls[0];
    assert link.href != "";
    assert HasRoute(call.options);
  }
}
