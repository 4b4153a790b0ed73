# Preview worker and decorator registry of a 3D-scene editor

This project models two small pieces of logic that the editor itself owns. Both sit on top of a
third-party 3D engine.

- **The offscreen assets worker** (`AssetsWorker`) renders preview thumbnails of materials and
  scenes. The model covers two parts of it.
  - *The preview cache:* a busy flag and a map from absolute path to preview, as a sequential
    state machine (module `PreviewCache`). A request probes the cache, waits in `_waitQueue` until
    the worker is idle, probes again, and only then marks the worker busy and runs its job. Each
    job's engine work is reduced to how its promises settle.
  - *The framing heuristic* `_setupDecoration` (module `Framing`). It folds the scaled bounding
    boxes of the scene's meshes into one union box, skipping the worker's ground and meshes
    without bounds. From that box it places the camera, the light and the ground. Coordinates
    are exact reals.
- **The decorator metadata registry** of the scripts runtime (module `Decorators`). Each
  decorator pushes one record onto one of five per-class tables. The tables are
  `_InspectorValues`, `_ChildrenValues`, `_SceneValues`, `_PointerValues` and `_KeyboardValues`.
  Classes are opaque ids and each table is a `map<ClassId, seq<Record>>`.

`common.dfy` holds the shared `Option` (a possibly-`undefined` value, with `??` as `GetOr`) and
`Settled` (a promise that resolves with a value or rejects).

Failures are swallowed only inside the scene preview's try block (assets.ts:139-165). The
material job has no try. Neither job guards the canvas capture (assets.ts:114, 167), so a
rejected capture leaves the flag set. Two requests started in the same tick can both pass
`_waitQueue` before either sets the flag. The model is sequential and claims no mutual exclusion.

## Model

| member | source | states |
|---|---|---|
| PreviewCache.ScenePreview | src/renderer/editor/workers/workers/assets.ts:126-173 | A hit on the first or the post-wait probe returns the cached preview and leaves flag and cache as they were. A request that reaches the job either stores exactly its own path with the flag cleared and returns the captured preview, or, when the capture (outside the try) rejects, rejects with the flag left set and the cache untouched |
| PreviewCache.SceneStagingSwallowed | src/renderer/editor/workers/workers/assets.ts:139-165 | A failure in loading, the pending-data wait or rendering does not change the outcome: the request ends exactly as if staging had completed |
| PreviewCache.MaterialPreview | src/renderer/editor/workers/workers/assets.ts:79-120 | Same probes as the scene preview. If reading, parsing, the pending-data wait or the capture rejects, the request rejects, the flag stays set and no entry is added. On success the flag is cleared and only the entry for its path is stored |
| PreviewCache.RequestExtends | src/renderer/editor/workers/workers/assets.ts:114-119 | Whatever the outcome, a request keeps every key of the state it resumed in and every cached (truthy) entry unchanged |
| PreviewCache.Serve | src/renderer/editor/workers/workers/assets.ts:178-182 | With nothing else running, a request parks in the wait loop iff the worker is busy and the path is not cached. Otherwise it settles and keeps all keys and cached entries. When the path was not cached on entry, it leaves the worker busy iff its job rejected without the flag being released. A hit on the first probe leaves the flag as it was |
| PreviewCache.RunExtends | src/renderer/editor/workers/workers/assets.ts:29-31 | Over any sequence of requests, cache keys are only ever added and a cached preview never changes |
| PreviewCache.BusyWorkerIsFrozen | src/renderer/editor/workers/workers/assets.ts:178-182 | Once the flag is set with no job running, every later request either hits or parks, so the state never changes again |
| PreviewCache.MaterialFailureFreezesWorker | src/renderer/editor/workers/workers/assets.ts:90-119 | Take an idle worker and a material request for an uncached path whose job rejects. It leaves the worker busy with its cache unchanged for the rest of any session |
| PreviewCache.SceneCaptureFailureFreezesWorker | src/renderer/editor/workers/workers/assets.ts:167-170 | Take an idle worker and a scene request for an uncached path whose canvas capture rejects, whatever its staging did. It leaves the worker busy with its cache unchanged for the rest of any session |
| PreviewCache.RunStaysIdleWithoutRejections | src/renderer/editor/workers/workers/assets.ts:137-172 | An idle worker stays idle over a session in which every request's job outcome resolves (for a request that hits, the outcome is never consulted) |
| PreviewCache.RepeatedRequestHits | src/renderer/editor/workers/workers/assets.ts:126-135 | After a request whose job resolved with a non-empty preview, the path is cached, and if the first request ran its job the entry is that preview. A second request for the path answers exactly what the first one answered and changes nothing |
| PreviewCache.ServeIsPerRequestModel | src/renderer/editor/workers/workers/assets.ts:79-173 | A request that does not park is served exactly as ScenePreview, MaterialPreview or their guarded variants describe, resuming in the entry state |
| PreviewCache.MaterialPreviewGuarded | src/renderer/editor/workers/workers/assets.ts:90-119 | Corrected material preview that releases the flag on every exit. A request that reaches its job always leaves the worker idle, and one that rejects leaves the state exactly as it resumed |
| PreviewCache.ScenePreviewGuarded | src/renderer/editor/workers/workers/assets.ts:137-172 | Corrected scene preview that also releases the flag when the capture rejects. A request that reaches its job always leaves the worker idle, and a rejected capture leaves the state exactly as it resumed |
| PreviewCache.GuardedRunStaysIdle | src/renderer/editor/workers/workers/assets.ts:90-172 | With the flag released on every exit of both jobs, an idle worker stays idle over any session, whatever the jobs do |
| Framing.InvPow2 | src/renderer/editor/workers/workers/assets.ts:208 | 2^-n lies in (0, 1], so `Number.MIN_VALUE` (2^-1074) is positive |
| Framing.FoldBoundsEnvelope | src/renderer/editor/workers/workers/assets.ts:207-230 | Each coordinate of the folded maximum is at least its start value and at least every contributing mesh's maximum, and equals one of these. The minimum is the mirror image |
| Framing.FoldIgnoresNonContributing | src/renderer/editor/workers/workers/assets.ts:210-221 | The union box equals the fold over the contributing meshes alone: the ground and meshes without bounding info have no effect |
| Framing.FoldWithoutContributors | src/renderer/editor/workers/workers/assets.ts:207-221 | With no contributing mesh the fold returns its starting box unchanged |
| Framing.UnionBoundsInitial | src/renderer/editor/workers/workers/assets.ts:207-208 | Every coordinate of the computed maximum is at least `MIN_VALUE` > 0, and of the minimum at most `MAX_VALUE`. With no contributing mesh the box is exactly the initial one |
| Framing.Frame | src/renderer/editor/workers/workers/assets.ts:232-247 | Camera and light aim at the same point, the box midpoint. The camera sits at the same offset d on every axis, so, when d is half the box's diagonal, its squared distance to the target is 3/4 of the squared diagonal. The light sits at the box maximum and the ground at the box's minimum y. The ground scale is the larger of 10·x-extent and 10·z-extent |
| Framing.Decorate | src/renderer/editor/workers/workers/assets.ts:206-247 | As computed, the ground lies at or below every contributing mesh. The light position has no coordinate below `MIN_VALUE`. The camera aims where the light does, offset by d on each axis |
| Framing.SourceUnionMissesNegativeScene | src/renderer/editor/workers/workers/assets.ts:223-225 | For one mesh lying below zero on every axis, the computed maximum is (`MIN_VALUE`, `MIN_VALUE`, `MIN_VALUE`), which is not that mesh's box |
| Framing.TightUnionIsHull | src/renderer/editor/workers/workers/assets.ts:207-230 | Corrected fold, with the maximum starting at `-MAX_VALUE`. For at least one contributing mesh within the range of doubles, the result is exactly the smallest box enclosing the contributing meshes: each face is attained by some mesh |
| Framing.DecorateTight | src/renderer/editor/workers/workers/assets.ts:232-247 | With the corrected fold, the ground sits exactly at the lowest contributing point and the light exactly at the hull's top corner |
| Decorators.Push | assets/scripts/decorators.ts:15-16 | `?? []` then `push`: the class's table exists afterwards and is its earlier records in order followed by the new one. Every other class's table is unchanged |
| Decorators.VisibleInInspector | assets/scripts/decorators.ts:12-22 | Appends exactly one field `{type, name ?? key, key}` to the target class's inspector table. Other classes' inspector tables and all four other tables are unchanged |
| Decorators.FromChildren | assets/scripts/decorators.ts:28-37 | Appends exactly one link `{nodeName ?? key, key}` to the target class's children table and changes nothing else |
| Decorators.FromScene | assets/scripts/decorators.ts:43-52 | Appends exactly one link `{nodeName ?? key, key}` to the target class's scene table and changes nothing else |
| Decorators.OnPointerEvent | assets/scripts/decorators.ts:58-71 | Throws iff the member is not a function, with the key's text and the class name, leaving every table unchanged. Otherwise it appends exactly one handler `{type, key}` to the class's pointer table and changes nothing else |
| Decorators.SingleKeyIsSingletonArray | assets/scripts/decorators.ts:85-89 | Decorating with a single key and with the one-element array holding it give the same outcome: the same handler stored, or the same error thrown |
| Decorators.OnKeyboardEvent | assets/scripts/decorators.ts:77-91 | Throws iff the member is not a function, leaving every table unchanged. Otherwise it appends exactly one handler `{type as passed, normalised keys, key}` to the class's keyboard table and changes nothing else |
| Decorators.Apply | assets/scripts/decorators.ts:12-91 | Running one decorator throws iff it is an event decorator on a member that is not a function, and then changes nothing. Otherwise every class's five tables gain exactly the record the decorator declares for that class, after their earlier records |
| Decorators.ApplyAllThrowsIffRejected | assets/scripts/decorators.ts:58-91 | Decorators run one after another. The sequence throws iff some event decorator is on a member that is not a function |
| Decorators.ApplyAllInspectorInOrder | assets/scripts/decorators.ts:13-21 | When no decorator throws, each class's inspector table gains exactly the fields its own decorations declare, in the order the decorators run, after its earlier ones |
| Decorators.ApplyAllChildrenInOrder | assets/scripts/decorators.ts:29-36 | When no decorator throws, each class's children table gains exactly the links its own decorations declare, in the order the decorators run, after its earlier ones |
| Decorators.ApplyAllSceneInOrder | assets/scripts/decorators.ts:44-51 | When no decorator throws, each class's scene table gains exactly the links its own decorations declare, in the order the decorators run, after its earlier ones |
| Decorators.ApplyAllPointerInOrder | assets/scripts/decorators.ts:59-70 | When no decorator throws, each class's pointer table gains exactly the handlers its own decorations declare, in the order the decorators run, after its earlier ones |
| Decorators.ApplyAllKeyboardInOrder | assets/scripts/decorators.ts:78-90 | When no decorator throws, each class's keyboard table gains exactly the handlers its own decorations declare, keys normalised, in the order the decorators run, after its earlier ones |

## Left out

- Engine and browser work in the assets worker is not modelled. This covers the engine, scene,
  camera, light, ground and environment set-up in the constructor. It also covers
  `Material.Parse`, `SceneLoader`, shadow casters, `render`, disposal and the canvas-to-blob /
  object-URL conversion. Each job is reduced to how its promises settle: a preview string, or a
  rejection.
- The `rootUrl` override for node materials (assets.ts:93-95) is not modelled: it only changes
  an argument of the engine's parser.
- Engine state left behind by a failed scene staging is not modelled. Meshes added to the scene
  stay there and join later folds.
- Timing is not modelled: the 500 ms and 150 ms polling and the 10 s pending-data timeout. A
  timeout appears only as a rejected outcome.
- Concurrency is not modelled. Requests are served one after another, and a parked request
  never resumes. Requests interleaved between one request's entry and its resumption are
  summarised by the arbitrary `resumed` state. No mutual exclusion is claimed: two requests
  started in the same tick can both pass `_waitQueue` before either sets the flag.
- Framing.Decorate: the world-matrix decomposition and scaling multiply (assets.ts:215-219) are
  engine work. The per-mesh scaled boxes are inputs.
- Framing.Frame: the Euclidean distance needs a square root, so it is a non-negative parameter
  `halfDistance`. The camera-distance clause holds when `4·halfDistance²` equals the box's
  squared diagonal, which is what the source computes.
- Framing.Frame: arithmetic is over exact reals, not IEEE doubles. Rounding of the midpoint, the
  extents, the ×10 and the camera offset is not modelled. Neither is overflow: with no
  contributing mesh, the doubles give a ground scale of −Infinity and an infinite distance. The
  reals give finite values.
- The global registration of the decorators (decorators.ts:96-108) is a side effect on the
  JavaScript global object and is not modelled.
- The keyboard decorator stores the caller's key array itself, not a copy (decorators.ts:87). A
  later change to that array would change the stored `keys`. This sharing is not modelled: the
  model stores an immutable sequence.
- The order in which TypeScript runs legacy decorators is not modelled. `ApplyAll` takes the
  decorations in the order they run: member by member, and bottom-up for several decorators on
  one member.
- JavaScript reflection in the decorators is not modelled.
  - Tables are per class id. A subclass that reads its parent's array through `??` on the
    constructor's prototype chain, and then pushes onto it, is not represented.
  - `typeof target[key] === "function"` is membership in the target's set of function members.
  - Event types and key codes are integers.
- The legacy editor shell (babylon.editor.js), the terminal helper (src/renderer/editor/tools/exec.ts)
  and the scene-manager type declarations are not part of this model. They are UI wiring, OS
  process I/O and type declarations only.

## Findings

| source | as written | input that shows it | evidently intended | confidence | as-written member | corrected member |
|---|---|---|---|---|---|---|
| src/renderer/editor/workers/workers/assets.ts:208 | The maximum corner starts at `Number.MIN_VALUE`, the smallest positive double, so the fold's maximum is never below 2^-1074 | One mesh with box (−2,−2,−2)–(−1,−1,−1): the computed maximum is (`MIN_VALUE`, `MIN_VALUE`, `MIN_VALUE`), so the box, centre, camera and light are pulled towards the origin | Start the maximum at `-Number.MAX_VALUE` | high; not executed | Framing.SourceUnionMissesNegativeScene | Framing.TightUnionIsHull |
| src/renderer/editor/workers/workers/assets.ts:90-119 | The material preview sets the busy flag and clears it only on the success path; there is no try/finally | A material file that is not valid JSON: `readJSON` rejects, the flag stays set, and every later uncached preview waits in `_waitQueue` for ever | Release the flag on every exit of the job (a try/finally around it) | medium; not executed | PreviewCache.MaterialFailureFreezesWorker | PreviewCache.GuardedRunStaysIdle |
| src/renderer/editor/workers/workers/assets.ts:167-170 | The scene preview's canvas capture runs after its try/catch and before the flag is cleared, so a rejected capture leaves the flag set | A scene request for an uncached path whose `convertToBlob` rejects: the flag stays set, and every later uncached preview waits in `_waitQueue` for ever | Release the flag on every exit of the job, the capture included | medium; not executed | PreviewCache.SceneCaptureFailureFreezesWorker | PreviewCache.ScenePreviewGuarded |

The as-written behaviours stay the model of the source: `Framing.Decorate`, `PreviewCache.Serve`
and `PreviewCache.Run` take the code as it is. The corrected definitions sit beside them,
selected by `Framing.TightInitialBox` and the `Guarded` release discipline, and carry the
intended properties.
