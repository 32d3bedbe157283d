/** The shared scene-controller vocabulary of lib/scene-controller.ts: the
    closed enumerations for the current page and the transition phase, the
    metrics record, and the default context value that a consumer sees when
    no provider is mounted. */
module SceneController {
  import opened Wrappers

  /** The logical page driving every visual target. Exactly four tags. */
  datatype SceneState = Home | About | Projects | Contact

  /** The choreography flag of a page transition. Exactly three tags. */
  datatype TransitionPhase = Idle | Pre | Blast

  /** Engagement metrics. `projectCount` is a raw count, the other two are
      nominally in [0, 1]; consumers clamp at the point of use. */
  datatype SceneMetrics = SceneMetrics(projectCount: real, collaborationFactor: real, outreachLevel: real)

  /** A route the router can navigate to. */
  type Route = string

  /** The optional second argument of `transitionTo`. */
  datatype TransitionOptions = TransitionOptions(route: Option<Route>, delay: Option<real>)

  /** The argument of `updateMetrics`: each field is present or absent. */
  datatype PartialMetrics = PartialMetrics(projectCount: Option<real>, collaborationFactor: Option<real>,
                                           outreachLevel: Option<real>)

  /** The readable part of the context value (the functions are modelled below). */
  datatype ControllerSnapshot = ControllerSnapshot(sceneState: SceneState, metrics: SceneMetrics, phase: TransitionPhase)

  /** The metrics a consumer sees without a provider. */
  const DefaultMetrics: SceneMetrics := SceneMetrics(6.0, 0.6, 0.55)

  /** The context value a consumer sees without a provider. */
  const DefaultContext: ControllerSnapshot := ControllerSnapshot(Home, DefaultMetrics, Idle)

  /** Every scene tag is one of the four pages: lookups keyed on it are total. */
  lemma SceneStateIsClosed(s: SceneState)
    ensures s == Home || s == About || s == Projects || s == Contact
  {
  }

  /** Every phase tag is one of the three phases. */
  lemma TransitionPhaseIsClosed(p: TransitionPhase)
    ensures p == Idle || p == Pre || p == Blast
  {
  }

  /** The default context's `transitionTo`: it does nothing. The result is
      the context after the call and the route pushed, if any. */
  function DefaultTransitionTo(ctx: ControllerSnapshot, scene: SceneState, options: Option<TransitionOptions>)
    : (r: (ControllerSnapshot, Option<Route>))
    ensures r.0 == ctx && r.1 == None
  {
    (ctx, None)
  }

  /** The default context's `updateMetrics`: it does nothing either. */
  function DefaultUpdateMetrics(ctx: ControllerSnapshot, partial: PartialMetrics): (r: ControllerSnapshot)
    ensures r == ctx
  {
    ctx
  }

  /** The default context starts on the home page, idle, with metrics 6 / 0.6 / 0.55. */
  lemma DefaultContextValues()
    ensures DefaultContext.sceneState == Home && DefaultContext.phase == Idle
    ensures DefaultContext.metrics.projectCount == 6.0
    ensures DefaultContext.metrics.collaborationFactor == 0.6
    ensures DefaultContext.metrics.outreachLevel == 0.55
  {
  }
}
