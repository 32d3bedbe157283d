/** The page-transition controller of components/TransitionProvider.tsx.

    The pure part classifies paths, ranks scenes and merges metrics. The
    stateful part is the class `Provider`: it owns the current scene, the
    metrics and the transition phase, and the timers the source keeps in
    three refs. A timer is a pending event in `pending`; clearing a ref's
    timer removes its event, and `Fire` lets the environment run one. Router
    pushes are returned to the caller as the action emitted. */
module TransitionProvider {
  import opened Wrappers
  import opened SceneController

  // ---------------------------------------------------------------------
  // Metrics presets

  /** The provider's own copy of the default metrics. */
  const ProviderDefaultMetrics: SceneMetrics := SceneMetrics(6.0, 0.6, 0.55)

  /** `SCENE_METRIC_PRESETS`: the metrics each page starts from. Home starts
      from the defaults; projects has the most projects and contact the
      widest outreach. */
  function ScenePreset(s: SceneState): (m: SceneMetrics)
    ensures s == Home ==> m == ProviderDefaultMetrics
    ensures 6.0 <= m.projectCount <= 12.0
    ensures 0.0 <= m.collaborationFactor <= 1.0 && 0.0 <= m.outreachLevel <= 1.0
    ensures m.projectCount == 12.0 <==> s == Projects
    ensures m.outreachLevel > 0.9 <==> s == Contact
    ensures m.collaborationFactor > ProviderDefaultMetrics.collaborationFactor <==> s == About || s == Projects
  {
    match s
    case Home => ProviderDefaultMetrics
    case About => SceneMetrics(8.0, 0.74, 0.62)
    case Projects => SceneMetrics(12.0, 0.82, 0.58)
    case Contact => SceneMetrics(6.0, 0.6, 0.96)
  }

  /** `cloneMetrics`: a field-by-field copy. Records are values here, so the
      copy shares nothing with its original by construction. */
  function CloneMetrics(m: SceneMetrics): (r: SceneMetrics)
    ensures r.projectCount == m.projectCount
    ensures r.collaborationFactor == m.collaborationFactor
    ensures r.outreachLevel == m.outreachLevel
  {
    SceneMetrics(m.projectCount, m.collaborationFactor, m.outreachLevel)
  }

  /** The provider's defaults agree with the shared defaults field by field,
      and the home preset is those defaults. */
  lemma DefaultMetricsAgree()
    ensures ProviderDefaultMetrics.projectCount == SceneController.DefaultMetrics.projectCount
    ensures ProviderDefaultMetrics.collaborationFactor == SceneController.DefaultMetrics.collaborationFactor
    ensures ProviderDefaultMetrics.outreachLevel == SceneController.DefaultMetrics.outreachLevel
    ensures ScenePreset(Home) == SceneController.DefaultMetrics
  {
  }

  // ---------------------------------------------------------------------
  // Path classification

  /** JavaScript's `String.prototype.startsWith`. */
  predicate StartsWith(s: string, prefix: string)
  {
    |prefix| <= |s| && s[..|prefix|] == prefix
  }

  /** No path starts with two different page prefixes, so the order of the
      tests in `MapPathToSceneState` does not matter. */
  lemma PrefixesExclusive(s: string)
    ensures !(StartsWith(s, "/about") && StartsWith(s, "/projects"))
    ensures !(StartsWith(s, "/about") && StartsWith(s, "/contact"))
    ensures !(StartsWith(s, "/projects") && StartsWith(s, "/contact"))
  {
    if StartsWith(s, "/about") {
      assert s[1] == s[..6][1] == 'a';
    }
    if StartsWith(s, "/projects") {
      assert s[1] == s[..9][1] == 'p';
    }
  }

  /** `mapPathToSceneState`: a missing or empty path is home; otherwise the
      page whose prefix the path starts with, and home when none matches. */
  function MapPathToSceneState(pathname: Option<string>): (r: SceneState)
    ensures pathname.None? || pathname.value == "" ==> r == Home
    ensures r == About <==> pathname.Some? && StartsWith(pathname.value, "/about")
    ensures r == Projects <==> pathname.Some? && StartsWith(pathname.value, "/projects")
    ensures r == Contact <==> pathname.Some? && StartsWith(pathname.value, "/contact")
  {
    if pathname.None? || pathname.value == "" then Home
    else
      var p := pathname.value;
      PrefixesExclusive(p);
      if StartsWith(p, "/about") then About
      else if StartsWith(p, "/projects") then Projects
      else if StartsWith(p, "/contact") then Contact
      else Home
  }

  // ---------------------------------------------------------------------
  // Scene rank and the explode decision

  /** `SCENE_RANK`: home 4, projects 3, contact 2, about 1. */
  function SceneRank(s: SceneState): nat
  {
    match s
    case Home => 4
    case Projects => 3
    case Contact => 2
    case About => 1
  }

  /** A navigation explodes when it goes to a scene of strictly lower rank. */
  predicate ShouldExplode(current: SceneState, next: SceneState)
  {
    SceneRank(next) < SceneRank(current)
  }

  /** Distinct scenes have distinct ranks, ordered home > projects > contact > about. */
  lemma RankInjective(a: SceneState, b: SceneState)
    ensures SceneRank(a) == SceneRank(b) ==> a == b
    ensures SceneRank(Home) > SceneRank(Projects) > SceneRank(Contact) > SceneRank(About)
  {
  }

  /** The explode relation is a strict total order on scenes. */
  lemma ExplodeIsStrictOrder(a: SceneState, b: SceneState, c: SceneState)
    ensures !ShouldExplode(a, a)
    ensures ShouldExplode(a, b) && ShouldExplode(b, c) ==> ShouldExplode(a, c)
    ensures ShouldExplode(a, b) ==> !ShouldExplode(b, a)
    ensures a != b ==> ShouldExplode(a, b) || ShouldExplode(b, a)
  {
    RankInjective(a, b);
  }

  /** Going home never explodes, and neither does leaving the about page;
      every move down from home does. */
  lemma ExplodeEdgeCases(s: SceneState)
    ensures !ShouldExplode(s, Home)
    ensures !ShouldExplode(About, s)
    ensures s != Home ==> ShouldExplode(Home, s)
  {
  }

  // ---------------------------------------------------------------------
  // The decision `transitionTo` takes

  /** `!options?.route` is false: the options carry a non-empty route
      (the empty string is falsy in JavaScript). */
  predicate HasRoute(options: Option<TransitionOptions>)
  {
    options.Some? && options.value.route.Some? && options.value.route.value != ""
  }

  /** What `transitionTo` does: nothing, push the route at once, or enter
      `pre` and push after a delay. */
  datatype Plan = Stay | PushNow(route: Route) | Explode(route: Route, delay: real)

  /** `Math.max(0, options?.delay ?? 700)`. */
  function RouteDelay(options: TransitionOptions): (d: real)
    ensures d >= 0.0
    ensures options.delay.None? ==> d == 700.0
    ensures options.delay.Some? && options.delay.value >= 0.0 ==> d == options.delay.value
    ensures options.delay.Some? && options.delay.value < 0.0 ==> d == 0.0
  {
    var requested := options.delay.GetOr(700.0);
    if requested < 0.0 then 0.0 else requested
  }

  /** The three-way decision of `transitionTo` from the current scene. */
  function TransitionPlan(current: SceneState, next: SceneState, options: Option<TransitionOptions>): (r: Plan)
    ensures r.Stay? <==> !HasRoute(options)
    ensures r.PushNow? <==> HasRoute(options) && !ShouldExplode(current, next)
    ensures r.Explode? <==> HasRoute(options) && ShouldExplode(current, next)
    ensures !r.Stay? ==> r.route == options.value.route.value && r.route != ""
    ensures r.Explode? ==> r.delay == RouteDelay(options.value) && r.delay >= 0.0
  {
    if !HasRoute(options) then Stay
    else if !ShouldExplode(current, next) then PushNow(options.value.route.value)
    else Explode(options.value.route.value, RouteDelay(options.value))
  }

  // ---------------------------------------------------------------------
  // Merging metrics

  /** `{ ...prev, ...partial }`: every field present in the partial wins. */
  function MergeMetrics(prev: SceneMetrics, partial: PartialMetrics): (r: SceneMetrics)
    ensures partial.projectCount.Some? ==> r.projectCount == partial.projectCount.value
    ensures partial.projectCount.None? ==> r.projectCount == prev.projectCount
    ensures partial.collaborationFactor.Some? ==> r.collaborationFactor == partial.collaborationFactor.value
    ensures partial.collaborationFactor.None? ==> r.collaborationFactor == prev.collaborationFactor
    ensures partial.outreachLevel.Some? ==> r.outreachLevel == partial.outreachLevel.value
    ensures partial.outreachLevel.None? ==> r.outreachLevel == prev.outreachLevel
  {
    SceneMetrics(partial.projectCount.GetOr(prev.projectCount),
                 partial.collaborationFactor.GetOr(prev.collaborationFactor),
                 partial.outreachLevel.GetOr(prev.outreachLevel))
  }

  /** The partial with no fields. */
  const EmptyPartial: PartialMetrics := PartialMetrics(None, None, None)

  /** Spreading `p` and then `q` is spreading their union, `q` winning. */
  function CombinePartials(p: PartialMetrics, q: PartialMetrics): PartialMetrics
  {
    PartialMetrics(if q.projectCount.Some? then q.projectCount else p.projectCount,
                   if q.collaborationFactor.Some? then q.collaborationFactor else p.collaborationFactor,
                   if q.outreachLevel.Some? then q.outreachLevel else p.outreachLevel)
  }

  /** Merging nothing is the identity, merging twice is merging once, and
      two merges are one merge of the combined partial. */
  lemma MergeLaws(m: SceneMetrics, p: PartialMetrics, q: PartialMetrics)
    ensures MergeMetrics(m, EmptyPartial) == m
    ensures MergeMetrics(MergeMetrics(m, p), p) == MergeMetrics(m, p)
    ensures MergeMetrics(MergeMetrics(m, p), q) == MergeMetrics(m, CombinePartials(p, q))
  {
  }

  /** A partial with every field replaces the metrics wholesale. */
  lemma FullMergeReplaces(m: SceneMetrics, n: SceneMetrics)
    ensures MergeMetrics(m, PartialMetrics(Some(n.projectCount), Some(n.collaborationFactor), Some(n.outreachLevel))) == n
  {
  }

  // ---------------------------------------------------------------------
  // Timers as pending events

  /** The three timer refs of the provider. */
  datatype TimerKind = PreTimer | TransitionTimer | SettleTimer

  /** A scheduled callback: switch to `blast`, push a route, or settle to `idle`. */
  datatype Timer = BlastAt(delay: real) | PushAt(route: Route, delay: real) | SettleAt(delay: real)
  {
    /** The ref that holds this timer's id. */
    function Kind(): TimerKind
    {
      match this
      case BlastAt(_) => PreTimer
      case PushAt(_, _) => TransitionTimer
      case SettleAt(_) => SettleTimer
    }
  }

  /** How many pending timers belong to ref `k`. */
  function Count(pending: seq<Timer>, k: TimerKind): nat
  {
    if pending == [] then 0
    else Count(pending[..|pending| - 1], k) + (if pending[|pending| - 1].Kind() == k then 1 else 0)
  }

  /** `clearTimeout` on ref `k`: its timers are gone, every other timer stays. */
  function Cancel(pending: seq<Timer>, k: TimerKind): (r: seq<Timer>)
    ensures Count(r, k) == 0
    ensures forall j :: j != k ==> Count(r, j) == Count(pending, j)
    ensures forall t :: t in r <==> t in pending && t.Kind() != k
  {
    if pending == [] then []
    else
      var last := pending[|pending| - 1];
      var rest := Cancel(pending[..|pending| - 1], k);
      assert pending == pending[..|pending| - 1] + [last];
      if last.Kind() == k then rest
      else
        assert (rest + [last])[..|rest|] == rest;
        rest + [last]
  }

  /** The pending timer of ref `k`, if any. */
  function Scheduled(pending: seq<Timer>, k: TimerKind): (r: Option<Timer>)
    ensures r.Some? <==> Count(pending, k) > 0
    ensures r.Some? ==> r.value in pending && r.value.Kind() == k
  {
    if pending == [] then None
    else
      var last := pending[|pending| - 1];
      if last.Kind() == k then Some(last)
      else
        var r := Scheduled(pending[..|pending| - 1], k);
        assert r.Some? ==> r.value in pending[..|pending| - 1];
        r
  }

  /** Appending a timer adds one to its own ref's count only. */
  lemma CountAppend(pending: seq<Timer>, t: Timer, k: TimerKind)
    ensures Count(pending + [t], k) == Count(pending, k) + (if t.Kind() == k then 1 else 0)
  {
    assert (pending + [t])[..|pending|] == pending;
  }

  /** Appending two timers adds one to each of their refs' counts. */
  lemma CountAppendTwo(pending: seq<Timer>, t: Timer, u: Timer, k: TimerKind)
    ensures Count(pending + [t, u], k)
      == Count(pending, k) + (if t.Kind() == k then 1 else 0) + (if u.Kind() == k then 1 else 0)
  {
    assert pending + [t, u] == (pending + [t]) + [u];
    CountAppend(pending, t, k);
    CountAppend(pending + [t], u, k);
  }

  // ---------------------------------------------------------------------
  // The provider

  /** The live state of a mounted `TransitionProvider`. */
  class Provider {
    var sceneState: SceneState
    var metrics: SceneMetrics
    var phase: TransitionPhase
    /** Timers scheduled and not yet run or cleared, oldest first. */
    var pending: seq<Timer>

    /** Each ref holds at most one live timer, and no delay is negative. */
    ghost predicate Valid()
      reads this
    {
      && (forall k :: Count(pending, k) <= 1)
      && (forall t :: t in pending ==> t.delay >= 0.0)
    }

    /** `isTransitioning` of the route-transition context. */
    predicate IsTransitioning()
      reads this
      ensures IsTransitioning() <==> phase != Idle
    {
      phase != Idle
    }

    /** Mounting at `pathname`: the initial state, then the path-change effect
        that runs on mount. */
    constructor (pathname: Option<string>)
      ensures Valid()
      ensures sceneState == MapPathToSceneState(pathname)
      ensures metrics == ScenePreset(sceneState)
      ensures phase == Idle
      ensures pending == [SettleAt(350.0)]
    {
      var initial := MapPathToSceneState(pathname);
      sceneState := initial;
      metrics := CloneMetrics(ScenePreset(initial));
      phase := Idle;
      pending := [SettleAt(350.0)];
      new;
      assert pending == [] + [SettleAt(350.0)];
      forall k ensures Count(pending, k) <= 1 {
        CountAppend([], SettleAt(350.0), k);
      }
    }

    /** The effect run when the path changes: the scene follows the path,
        the metrics are reset to a copy of that scene's preset, and the
        settle timer is replaced by a fresh one. The phase waits for it. */
    method PathChanged(pathname: Option<string>)
      requires Valid()
      modifies this
      ensures Valid()
      ensures sceneState == MapPathToSceneState(pathname)
      ensures metrics == ScenePreset(sceneState)
      ensures phase == old(phase)
      ensures pending == Cancel(old(pending), SettleTimer) + [SettleAt(350.0)]
      ensures Count(pending, SettleTimer) == 1
      ensures Count(pending, PreTimer) == Count(old(pending), PreTimer)
      ensures Count(pending, TransitionTimer) == Count(old(pending), TransitionTimer)
    {
      var nextScene := MapPathToSceneState(pathname);
      sceneState := nextScene;
      metrics := CloneMetrics(ScenePreset(nextScene));
      var kept := Cancel(pending, SettleTimer);
      pending := kept + [SettleAt(350.0)];
      forall k ensures Count(pending, k) == Count(kept, k) + (if k == SettleTimer then 1 else 0) {
        CountAppend(kept, SettleAt(350.0), k);
      }
    }

    /** `transitionTo(next, options)`. Without a route nothing happens; a
        route that does not explode is pushed at once; one that explodes
        enters `pre`, replaces the pre and transition timers with one blast
        at 800 and one push after the route delay. The scene itself only
        changes when the path does. */
    method TransitionTo(next: SceneState, options: Option<TransitionOptions>) returns (push: Option<Route>)
      requires Valid()
      modifies this
      ensures Valid()
      ensures sceneState == old(sceneState) && metrics == old(metrics)
      ensures match TransitionPlan(old(sceneState), next, options)
        case Stay =>
          push == None && phase == old(phase) && pending == old(pending)
        case PushNow(route) =>
          push == Some(route) && phase == old(phase) && pending == old(pending)
        case Explode(route, delay) =>
          && push == None
          && phase == Pre
          && pending == Cancel(Cancel(old(pending), PreTimer), TransitionTimer) + [BlastAt(800.0), PushAt(route, delay)]
          && Count(pending, PreTimer) == 1
          && Count(pending, TransitionTimer) == 1
          && Count(pending, SettleTimer) == Count(old(pending), SettleTimer)
    {
      push := None;
      var plan := TransitionPlan(sceneState, next, options);
      match plan {
        case Stay =>
        case PushNow(route) =>
          push := Some(route);
        case Explode(route, delay) =>
          ScheduleExplosion(route, delay);
      }
    }

    /** The exploding branch of `transitionTo`: enter `pre`, clear the pre
        and transition refs, then schedule the blast at 800 and the push
        after `delay`. The settle timer is left alone. */
    method ScheduleExplosion(route: Route, delay: real)
      requires Valid() && delay >= 0.0
      modifies this`phase, this`pending
      ensures Valid()
      ensures phase == Pre
      ensures pending == Cancel(Cancel(old(pending), PreTimer), TransitionTimer) + [BlastAt(800.0), PushAt(route, delay)]
      ensures Count(pending, PreTimer) == 1 && Count(pending, TransitionTimer) == 1
      ensures Count(pending, SettleTimer) == Count(old(pending), SettleTimer)
    {
      phase := Pre;
      var kept := Cancel(Cancel(pending, PreTimer), TransitionTimer);
      pending := kept + [BlastAt(800.0), PushAt(route, delay)];
      forall k
        ensures Count(pending, k) == Count(kept, k) + (if k == PreTimer || k == TransitionTimer then 1 else 0)
      {
        CountAppendTwo(kept, BlastAt(800.0), PushAt(route, delay), k);
      }
    }

    /** `transitionTo` with the immediate-push branch clearing the pre and
        transition refs, as the exploding branch already does. A delayed push
        of an earlier exploding transition then can no longer override the
        route pushed now, and no blast arrives after it. */
    method TransitionToClearing(next: SceneState, options: Option<TransitionOptions>) returns (push: Option<Route>)
      requires Valid()
      modifies this
      ensures Valid()
      ensures sceneState == old(sceneState) && metrics == old(metrics)
      ensures match TransitionPlan(old(sceneState), next, options)
        case Stay =>
          push == None && phase == old(phase) && pending == old(pending)
        case PushNow(route) =>
          && push == Some(route)
          && phase == old(phase)
          && pending == Cancel(Cancel(old(pending), PreTimer), TransitionTimer)
          && Count(pending, PreTimer) == 0
          && Count(pending, TransitionTimer) == 0
          && Count(pending, SettleTimer) == Count(old(pending), SettleTimer)
        case Explode(route, delay) =>
          && push == None
          && phase == Pre
          && pending == Cancel(Cancel(old(pending), PreTimer), TransitionTimer) + [BlastAt(800.0), PushAt(route, delay)]
          && Count(pending, PreTimer) == 1
          && Count(pending, TransitionTimer) == 1
          && Count(pending, SettleTimer) == Count(old(pending), SettleTimer)
    {
      push := None;
      var plan := TransitionPlan(sceneState, next, options);
      match plan {
        case Stay =>
        case PushNow(route) =>
          pending := Cancel(Cancel(pending, PreTimer), TransitionTimer);
          assert forall k :: Count(pending, k) <= Count(old(pending), k);
          push := Some(route);
        case Explode(route, delay) =>
          ScheduleExplosion(route, delay);
      }
    }

    /** `updateMetrics(partial)`. */
    method UpdateMetrics(partial: PartialMetrics)
      requires Valid()
      modifies this`metrics
      ensures Valid()
      ensures metrics == MergeMetrics(old(metrics), partial)
    {
      metrics := MergeMetrics(metrics, partial);
    }

    /** The environment runs the pending timer of ref `k`, if there is one:
        the pre timer switches to `blast`, the settle timer to `idle`, and
        the transition timer pushes its route. */
    method Fire(k: TimerKind) returns (push: Option<Route>)
      requires Valid()
      modifies this
      ensures Valid()
      ensures sceneState == old(sceneState) && metrics == old(metrics)
      ensures pending == Cancel(old(pending), k)
      ensures match Scheduled(old(pending), k)
        case None => push == None && phase == old(phase)
        case Some(t) =>
          match t
          case BlastAt(_) => push == None && phase == Blast
          case SettleAt(_) => push == None && phase == Idle
          case PushAt(route, _) => push == Some(route) && phase == old(phase)
    {
      push := None;
      var due := Scheduled(pending, k);
      pending := Cancel(pending, k);
      match due {
        case None =>
        case Some(t) =>
          match t {
            case BlastAt(_) => phase := Blast;
            case SettleAt(_) => phase := Idle;
            case PushAt(route, _) => push := Some(route);
          }
      }
      assert forall j :: Count(pending, j) <= Count(old(pending), j);
    }

    /** Unmounting clears every timer. */
    method Unmount()
      requires Valid()
      modifies this`pending
      ensures Valid()
      ensures pending == []
    {
      pending := [];
    }
  }

  // ---------------------------------------------------------------------
  // A stale delayed push

  /** The plans of the two clicks: from projects, about explodes and home
      is pushed at once. */
  lemma ScenarioPlans()
    ensures MapPathToSceneState(Some("/projects")) == Projects
    ensures TransitionPlan(Projects, About, Some(TransitionOptions(Some("/about"), None))) == Explode("/about", 700.0)
    ensures TransitionPlan(Projects, Home, Some(TransitionOptions(Some("/"), None))) == PushNow("/")
  {
    assert StartsWith("/projects", "/projects");
  }

  /** The timers after mounting and one exploding transition. */
  lemma ExplosionFromMount(route: Route, delay: real)
    ensures Cancel(Cancel([SettleAt(350.0)], PreTimer), TransitionTimer) + [BlastAt(800.0), PushAt(route, delay)]
      == [SettleAt(350.0), BlastAt(800.0), PushAt(route, delay)]
  {
    assert [SettleAt(350.0)][..0] == [];
  }

  /** A path change after that explosion keeps the delayed push scheduled. */
  lemma StalePushStillScheduled()
    ensures Scheduled(Cancel([SettleAt(350.0), BlastAt(800.0), PushAt("/about", 700.0)], SettleTimer) + [SettleAt(350.0)], TransitionTimer)
      == Some(PushAt("/about", 700.0))
  {
    var settle, blast, push := SettleAt(350.0), BlastAt(800.0), PushAt("/about", 700.0);
    assert [settle][..0] == [];
    assert Cancel([settle], SettleTimer) == [];
    assert [settle, blast][..1] == [settle];
    assert Cancel([settle, blast], SettleTimer) == [blast];
    assert [settle, blast, push][..2] == [settle, blast];
    assert Cancel([settle, blast, push], SettleTimer) == [blast, push];
    assert [blast, push, settle][..2] == [blast, push];
    assert Scheduled([blast, push], TransitionTimer) == Some(push);
  }

  /** The source as written: from `/projects`, an exploding move to `/about`
      schedules its push at 700. A click on home before that pushes `/` at
      once, but the delayed push stays scheduled and, when it runs, takes
      the user to `/about` after all. */
  method StalePushScenario() returns (clicked: Option<Route>, late: Option<Route>)
    ensures clicked == Some("/") && late == Some("/about")
  {
    ScenarioPlans();
    var p := new Provider(Some("/projects"));
    var first := p.TransitionTo(About, Some(TransitionOptions(Some("/about"), None)));
    ExplosionFromMount("/about", 700.0);
    clicked := p.TransitionTo(Home, Some(TransitionOptions(Some("/"), None)));
    p.PathChanged(clicked);
    StalePushStillScheduled();
    late := p.Fire(TransitionTimer);
  }

  /** The same clicks with the immediate push clearing the refs: the earlier
      delayed push is gone, so the route chosen last stands. */
  method ClearedPushScenario() returns (clicked: Option<Route>, late: Option<Route>)
    ensures clicked == Some("/") && late == None
  {
    ScenarioPlans();
    var p := new Provider(Some("/projects"));
    var first := p.TransitionToClearing(About, Some(TransitionOptions(Some("/about"), None)));
    clicked := p.TransitionToClearing(Home, Some(TransitionOptions(Some("/"), None)));
    p.PathChanged(clicked);
    late := p.Fire(TransitionTimer);
  }
}
