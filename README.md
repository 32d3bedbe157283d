# Scene and page-transition controller of a portfolio site, in Dafny

The site shows one animated 3D scene behind every page. The scene morphs between four
looks: home, about, projects and contact. Navigation between pages can be choreographed. A move
to a page of lower rank enters the `pre` phase. It then schedules a blast at
800 and the route push after the route delay. That delay is 700 by default, so the push normally
comes first. This project models the parts of that system that decide what happens:

- `scene_controller.dfy` — the shared vocabulary (`lib/scene-controller.ts`): the four scenes,
  the three transition phases, the metrics record and the do-nothing default context.
- `transition_provider.dfy` — `components/TransitionProvider.tsx`. The pure part covers path
  classification, scene ranks, the explode decision, the route delay and metrics merging.
  The class `Provider` holds the scene, the metrics, the phase and the three timer refs.
  Each ref's timer is a pending event; `Fire` lets the environment run one.
- `header.dfy` — `components/Header.tsx`: the link table, the click handler (its effects
  returned as an outcome value) and the active-link test.
- `scene_tables.dfy`, `smoothing.dfy`, `lattice.dfy`, `scene_engine.dfy` — the decidable skeleton of
  `components/InteractiveScene.tsx`.
  - Constant tables: camera anchors, palettes, influence, ease, light and emissive targets,
    visibility gates.
  - `clamp01` and the per-frame exponential smoothing step, with what repeating it does
    (monotone, never overshoots, converges).
  - The projects-scene lattice, snapped to a grid at setup.
  - The class `Engine`, whose `Animate` method is one call of the frame callback. It retargets on a
    scene change and smooths the lights, the gates, the camera position and the star and glitch
    values one step. It sets the look-at point, the emissive intensity and the shader clocks
    outright, turns the star field by a fixed step, and eases every vertex of the live position
    buffer in place.

The engine's mutable Three.js values are grouped, one record per concern (`Lights`, `Gates`,
`CameraRig`, `FrameTail`), in fields of `Engine` that `Animate` reassigns. Each record's per-frame step
is a function. Its invariant is proved by a lemma, and `Animate` states the new state through
those functions. The position buffer is an `array<real>`, updated in place by a loop, as in the
source.

Numbers are exact reals. Sines, cosines and simplex noise are inputs in [-1, 1]. The square
root is an input function, assumed exact only where a lemma says so.

One behaviour of the source is modelled as written. While an exploding transition's delayed push
is pending, a second navigation that does not explode pushes at once and leaves the delayed
push pending (`Provider.TransitionTo` keeps `pending` unchanged on that path). The delayed push
then overrides the later navigation; see "## Findings".

Two details of the code the model keeps:
- The camera's look-at point is set outright every frame (components/InteractiveScene.tsx:397-405),
  not smoothed.
- `!options?.route` treats the empty route as no route.

## Model

| member | source | states |
|---|---|---|
| SceneController.SceneStateIsClosed | lib/scene-controller.ts:6 | every scene is one of the four pages |
| SceneController.TransitionPhaseIsClosed | lib/scene-controller.ts:14 | every phase is idle, pre or blast |
| SceneController.DefaultContextValues | lib/scene-controller.ts:30-42 | without a provider a consumer sees home, idle and metrics 6 / 0.6 / 0.55 |
| SceneController.DefaultTransitionTo | lib/scene-controller.ts:40 | the default `transitionTo` changes nothing and pushes no route |
| SceneController.DefaultUpdateMetrics | lib/scene-controller.ts:41 | the default `updateMetrics` changes nothing |
| TransitionProvider.CloneMetrics | components/TransitionProvider.tsx:58 | the copy agrees with its original on every field |
| TransitionProvider.ScenePreset | components/TransitionProvider.tsx:39-56 | home starts from the defaults; every preset has 6 to 12 projects and factors in [0, 1]; projects alone has 12 projects, contact alone an outreach above 0.9, and about and projects alone a collaboration above the default |
| TransitionProvider.DefaultMetricsAgree | components/TransitionProvider.tsx:33-40 | the provider's defaults equal the shared defaults and are the home preset |
| TransitionProvider.PrefixesExclusive | components/TransitionProvider.tsx:69-71 | no path starts with two of `/about`, `/projects`, `/contact`, so the order of the tests is immaterial |
| TransitionProvider.MapPathToSceneState | components/TransitionProvider.tsx:67-73 | a missing or empty path is home; the result is about, projects or contact exactly when the path starts with that prefix |
| TransitionProvider.RankInjective | components/TransitionProvider.tsx:60-65 | ranks order home > projects > contact > about, and distinct scenes have distinct ranks |
| TransitionProvider.ExplodeIsStrictOrder | components/TransitionProvider.tsx:109-111 | "explodes" is irreflexive, transitive, asymmetric and total on distinct scenes |
| TransitionProvider.ExplodeEdgeCases | components/TransitionProvider.tsx:109-111 | going home never explodes, leaving about never explodes, and every move down from home does |
| TransitionProvider.RouteDelay | components/TransitionProvider.tsx:126 | the delay is never negative: 700 when absent, the requested value when non-negative, 0 otherwise |
| TransitionProvider.TransitionPlan | components/TransitionProvider.tsx:107-130 | stay iff there is no route; push now iff a route and no explosion; explode iff a route and a lower rank; the plan carries the route and the clamped delay |
| TransitionProvider.MergeMetrics | components/TransitionProvider.tsx:135-137 | every field present in the partial wins and every absent field keeps its old value |
| TransitionProvider.MergeLaws | components/TransitionProvider.tsx:136 | merging nothing is the identity, merging is idempotent, and two merges are one merge of the combined partial |
| TransitionProvider.FullMergeReplaces | components/TransitionProvider.tsx:136 | a partial with every field replaces the metrics |
| TransitionProvider.Cancel | components/TransitionProvider.tsx:121-122 | clearing a ref removes exactly its timers and keeps every other ref's timers |
| TransitionProvider.Scheduled | components/TransitionProvider.tsx:124-130 | a ref has a scheduled timer iff its count is positive, and that timer is pending and belongs to the ref |
| TransitionProvider.Provider.IsTransitioning | components/TransitionProvider.tsx:151 | `isTransitioning` holds exactly when the phase is not idle |
| TransitionProvider.Provider.constructor | components/TransitionProvider.tsx:78-97 | mounting starts at the path's scene with a copy of its preset, idle, with one settle timer at 350 |
| TransitionProvider.Provider.PathChanged | components/TransitionProvider.tsx:90-97 | a path change sets the scene and preset metrics, replaces the settle timer with one at 350, leaves the other refs alone and keeps at most one timer per ref |
| TransitionProvider.Provider.TransitionTo | components/TransitionProvider.tsx:107-133 | per plan: no change; an immediate push with timers untouched; or phase `pre` with exactly one blast at 800 and one push after the delay, the settle timer kept |
| TransitionProvider.Provider.ScheduleExplosion | components/TransitionProvider.tsx:120-130 | the exploding branch clears the pre and transition refs, then schedules one blast and one push, each ref keeping at most one timer |
| TransitionProvider.Provider.TransitionToClearing | components/TransitionProvider.tsx:107-133 | the corrected `transitionTo`: as written, except that an immediate push also clears the pre and transition refs, so no blast and no earlier delayed push remains scheduled |
| TransitionProvider.StalePushScenario | components/TransitionProvider.tsx:113-130 | as written: from `/projects`, an exploding move to `/about` and then a click on home push `/` at once, yet the transition timer still pushes `/about` afterwards |
| TransitionProvider.ClearedPushScenario | components/TransitionProvider.tsx:113-130 | with the corrected `transitionTo`, the same clicks push `/` and the transition timer then pushes nothing |
| TransitionProvider.Provider.UpdateMetrics | components/TransitionProvider.tsx:135-137 | the metrics become the merge of the old metrics and the partial |
| TransitionProvider.Provider.Fire | components/TransitionProvider.tsx:124-130 | running a ref's timer removes it; blast sets phase `blast`, settle sets `idle`, push emits its route; with nothing scheduled nothing happens |
| TransitionProvider.Provider.Unmount | components/TransitionProvider.tsx:99-105 | unmounting clears every timer |
| Header.HandleNav | components/Header.tsx:21-34 | a modified or non-primary click does nothing; any other click prevents the default once and calls `transitionTo` once, with the link's route unless the link is the current page |
| Header.AriaCurrent | components/Header.tsx:41-51 | `aria-current` is `page` exactly for the active link |
| Header.NavLinkScenesMatchPaths | components/Header.tsx:10-15 | every link's scene is the scene its own path maps to |
| Header.NavLinksAreOnePerScene | components/Header.tsx:10-15 | routes are distinct and every scene has exactly one link |
| Header.AtMostOneActive | components/Header.tsx:41 | at most one link is active for any path |
| Header.CurrentLinkClickChangesNothing | components/Header.tsx:26-28 | clicking the current page's link reaches the provider without a route, so its plan is to stay |
| Header.OtherLinkClickNavigates | components/Header.tsx:31 | clicking another page's link pushes it at once, or after the default 700 when the move explodes |
| SceneTables.Rgb | components/InteractiveScene.tsx:31-35 | a `#rrggbb` literal gives channels in [0, 1], black and white at the ends |
| SceneTables.CameraAnchor | components/InteractiveScene.tsx:9-14 | every anchor's camera sits in front of the point it looks at |
| SceneTables.AnchorDepthFollowsRank | components/InteractiveScene.tsx:9-14 | a higher rank rests the camera farther back, so an exploding move always brings it closer |
| SceneTables.PaletteOf | components/InteractiveScene.tsx:16-74 | every palette has colours in range, material scalars in [0, 1] and fog density in [0.028, 0.045] |
| SceneTables.FogDensityIdentifiesScene | components/InteractiveScene.tsx:16-74 | two scenes have the same fog density iff they are the same scene |
| SceneTables.Influence | components/InteractiveScene.tsx:385 | the pointer influence is in [1.1, 1.8], and 1.8 exactly on home |
| SceneTables.Ease | components/InteractiveScene.tsx:466 | the vertex ease is strictly between 0 and 1, with the per-scene values |
| SceneTables.EaseOrder | components/InteractiveScene.tsx:466 | home eases fastest and only home, and contact is the slowest |
| SceneTables.KeyIntensityTarget | components/InteractiveScene.tsx:359 | the key target is in [0.62, 0.78]: highest exactly on projects, lowest exactly on contact |
| SceneTables.RimIntensityTarget | components/InteractiveScene.tsx:361 | the rim target is in [1.4, 1.8]: highest exactly on projects, lowest exactly on about |
| SceneTables.EmissiveIntensity | components/InteractiveScene.tsx:474-476 | the emissive intensity stays in [0.25, 0.39] on home and [0.17, 0.27] elsewhere |
| SceneTables.GridOpacityTarget | components/InteractiveScene.tsx:372-374 | the grid's target opacity is positive exactly when the grid is shown, then 0.22 |
| SceneTables.PortalAlphaTarget | components/InteractiveScene.tsx:375-379 | the portal's target alpha is positive exactly on contact, then 0.65 |
| SceneTables.PortalScaleTarget | components/InteractiveScene.tsx:380 | the portal's target scale is 1 exactly on contact and 0.01 elsewhere |
| SceneTables.GatesExclusive | components/InteractiveScene.tsx:370-381 | no scene shows both the grid and the portal |
| SceneTables.LerpColorStaysUnit | components/InteractiveScene.tsx:355-358 | smoothing a colour toward a colour keeps every channel in [0, 1] |
| Smoothing.Clamp01 | components/InteractiveScene.tsx:76 | the result is in [0, 1], equal to the input inside, 0 below and 1 above |
| Smoothing.LerpGap | components/InteractiveScene.tsx:360 | one step leaves `1 - rate` of the gap to the target |
| Smoothing.LerpBetween | components/InteractiveScene.tsx:355-368 | with a rate in [0, 1] a step lands between the value and its target: no overshoot |
| Smoothing.LerpStaysIn | components/InteractiveScene.tsx:355-368 | a step between two points of an interval stays in it |
| Smoothing.LerpKeepsDistance | components/InteractiveScene.tsx:395 | if two values and two targets are each within d, so are the stepped values |
| Smoothing.SmoothNGap | components/InteractiveScene.tsx:360 | after n steps the gap is `(1 - rate)^n` times the first gap |
| Smoothing.SmoothNMonotone | components/InteractiveScene.tsx:360 | repeated steps move monotonically toward the target from the starting side and never pass it |
| Smoothing.SmoothNConverges | components/InteractiveScene.tsx:360 | after n steps the gap is at most the first gap divided by `1 + n * rate` |
| Smoothing.SmoothNWithin | components/InteractiveScene.tsx:360 | the gap is at most eps once `n * rate * eps` reaches the first gap |
| Lattice.Round | components/InteractiveScene.tsx:186 | `Math.round` is within one half of its input, halves rounding up |
| Lattice.RoundIsNearest | components/InteractiveScene.tsx:186 | no integer is nearer than the rounding |
| Lattice.SnapIsNearestGridPoint | components/InteractiveScene.tsx:185-189 | a snapped value is a multiple of the cell, at most half a cell away, and grid points are fixed |
| Lattice.LatticeOnGrid | components/InteractiveScene.tsx:184-189 | every lattice entry is a multiple of its cell (0.9 across, 0.85 up) nearest to the stretched base coordinate |
| Lattice.BuildLattice | components/InteractiveScene.tsx:164-189 | the setup loop fills a fresh buffer whose every entry is the snapped base coordinate |
| SceneEngine.StarSizeTarget | components/InteractiveScene.tsx:478-481 | the star size target is in [0.07, 0.115], minimal with no projects and saturated from eight |
| SceneEngine.StarOpacityTarget | components/InteractiveScene.tsx:480-482 | the star opacity target is in [0.55, 0.95], saturating at outreach 0 and 1 |
| SceneEngine.GlitchIntensityTarget | components/InteractiveScene.tsx:479-487 | the glitch target is in [0.28, 1.38]: lowest at collaboration 0 outside `pre`, highest at collaboration 1 in `pre` |
| SceneEngine.MetricTargetsMonotone | components/InteractiveScene.tsx:478-487 | each metric target grows with its metric |
| SceneEngine.GlitchBoostOnlyInPre | components/InteractiveScene.tsx:485 | only the `pre` phase boosts the glitch target, by exactly 0.2 |
| SceneEngine.CameraRestsAtAnchor | components/InteractiveScene.tsx:383-405 | with a centred pointer and no shake the camera is pulled to the anchor and looks at its point |
| SceneEngine.JitterOnlyInPreAndBounded | components/InteractiveScene.tsx:389-404 | shake is added only in `pre`, at most 0.04 / 0.036 / 0.02 for the camera and 0.04 / 0.032 for the look-at point, which keeps its depth |
| SceneEngine.JitterDoesNotAccumulate | components/InteractiveScene.tsx:389-395 | a shaking camera's smoothed target stays within 0.04 of a calm one's, frame after frame |
| SceneEngine.HomeTargetWithinRadius | components/InteractiveScene.tsx:432-436 | a home target longer than 3.6 is rescaled onto the sphere of radius 3.6; a shorter one is kept |
| SceneEngine.HomeVertexTargetInBall | components/InteractiveScene.tsx:424-436 | with an exact square root every home vertex target lies in the ball of radius 3.6 |
| SceneEngine.AboutTargetNearFragment | components/InteractiveScene.tsx:437-446 | an about target is within 0.39 normal lengths of its fragment, per axis |
| SceneEngine.ProjectsTargetNearLattice | components/InteractiveScene.tsx:447-454 | a projects target is within 0.32 / 0.7 / 0.32 of its lattice point |
| SceneEngine.ContactTargetNearPlane | components/InteractiveScene.tsx:455-463 | a contact target is within 0.28 / 0.35 / 0.24 of its plane point |
| SceneEngine.StepLightsInRange | components/InteractiveScene.tsx:355-368 | light smoothing keeps colours in range and intensities and fog density within the tables' ranges |
| SceneEngine.StepLightsClosesGaps | components/InteractiveScene.tsx:359-368 | key and rim intensity keep 95% of their gap per frame, fog density 97% |
| SceneEngine.StepGatesInRange | components/InteractiveScene.tsx:370-381 | grid opacity, portal alpha and portal scale stay between their two targets |
| SceneEngine.GatesAfterIsSmoothing | components/InteractiveScene.tsx:374-379 | over n frames in one scene, grid opacity and portal alpha are the n-fold smoothing toward their gates |
| SceneEngine.GridFadesOut | components/InteractiveScene.tsx:372-374 | away from projects the grid's opacity after n frames is at most `0.22 / (1 + 0.08 n)` |
| SceneEngine.PortalFadesOut | components/InteractiveScene.tsx:375-379 | away from contact the portal's alpha after n frames is at most `0.65 / (1 + 0.06 n)` |
| SceneEngine.CameraRestIsFixed | components/InteractiveScene.tsx:383-396 | a camera resting at its anchor stays there while the pointer is centred and nothing shakes |
| SceneEngine.StepTailInRange | components/InteractiveScene.tsx:473-487 | emissive, star and glitch values stay in their target ranges, and normals are recomputed on exactly the even frames |
| SceneEngine.Engine.constructor | components/InteractiveScene.tsx:113-330 | setup starts lights, material, fog and camera from the initial scene's palette and anchor, hides grid and portal, copies the base positions and snaps the lattice |
| SceneEngine.Engine.Retarget | components/InteractiveScene.tsx:342-353 | the targets follow the scene's palette; they change only when the scene does |
| SceneEngine.Engine.EaseVertex | components/InteractiveScene.tsx:467-469 | one vertex's three entries step toward its target and no other entry changes |
| SceneEngine.Engine.EaseVertices | components/InteractiveScene.tsx:407-470 | every vertex's three coordinates step toward that vertex's scene target at the scene's ease |
| SceneEngine.Engine.Animate | components/InteractiveScene.tsx:331-497 | a hidden tab changes nothing; otherwise the engine invariant holds after the frame, the targets follow the frame's scene, lights, gates, camera and frame tail are exactly one step of `StepLights`, `StepGates`, `StepCamera` and `StepTail` from the old state, and every vertex is one `Lerp` step at the scene's ease toward its `VertexTarget` |

## Findings

| source | as written | input that shows it | evidently intended | confidence | as-written member | corrected member |
|---|---|---|---|---|---|---|
| components/TransitionProvider.tsx:115-118 | the immediate-push branch returns without clearing `preTimerRef` and `transitionTimeoutRef`, so an earlier explosion's delayed push still runs | at `/projects`, `transitionTo('about', { route: '/about' })`, then within 700 `transitionTo('home', { route: '/' })`: `/` is pushed, then the timer pushes `/about` | the route the user chose last stands: a new push clears the pending pre and transition timers, as the exploding branch does at lines 121-122 | not executed; high that the sequence occurs, medium on the intended fix | TransitionProvider.StalePushScenario | TransitionProvider.Provider.TransitionToClearing |

## Left out

- Rendering: the WebGL renderer, scene graph, shaders, resizing, disposal and
  `prefers-reduced-motion` do not decide anything the model states.
- `requestAnimationFrame`, the pointer and resize listeners, and `document.hidden` are left out.
  The model has one `Animate` call per frame, with the pointer and the hidden flag as inputs.
- `Math.sin`, `Math.cos` and the 4-D simplex noise are frame inputs in [-1, 1].
  `Math.sqrt` is an input function; only `HomeVertexTargetInBall` assumes it is exact.
- The random setup data is taken as given geometry: fragment targets, plane targets, vertex
  seeds, star positions and colours, glitch offsets. `Math.random` is not modelled.
- Floating point: numbers are exact reals, so `Float32Array` rounding and IEEE effects are not modelled.
- Colour management: a hex colour is its three bytes over 255. The sRGB-to-linear conversion
  Three.js applies is not modelled.
- The star field, glitch sticks and grid geometry: only the values the frame writes to them are modelled.
  Those are star size, opacity and rotation, glitch intensity, both shader clocks, and grid visibility and opacity.
- Vertex normals: `computeVertexNormals` is counted (`FrameTail.normalUpdates`), not computed.
- SceneEngine.Engine.Retarget: the three material scalars (transmission, metalness, roughness)
  and the five colour and fog targets are kept together in one `Palette` field, because the
  source always copies them together.
- The React wiring of the provider is left out: contexts, `useMemo`, `useCallback` and the
  stale closure over `sceneState`. `TransitionTo` reads the provider's current scene.
- TransitionProvider.MergeMetrics: a field given explicitly as `undefined` is treated as absent;
  the spread at components/TransitionProvider.tsx:136 would copy it.
- TransitionProvider.Provider.Fire: a timer that has run is removed from `pending`. The source
  keeps its id in the ref, but clearing a finished timer is a no-op, so nothing observable differs.
- The router is not modelled: a push is the route returned to the caller.
