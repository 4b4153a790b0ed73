/**
 * The preview cache of the offscreen assets worker (`AssetsWorker`), as a
 * sequential state machine over its two editor-owned fields: the busy flag
 * `_isBusy` and the map `_cachedPreviews` from absolute path to preview.
 *
 * A request for a path probes the cache, waits until the worker is not busy,
 * probes again, and only then marks the worker busy and runs its job. The
 * engine work of a job (reading and parsing, loading, the pending-data wait,
 * rendering, the canvas capture) is abstracted to how its promises settle.
 */
module PreviewCache {
  import opened Common

  type Path = string

  /** A preview handle: the object URL of the captured canvas. */
  type Preview = string

  /** `_isBusy` and `_cachedPreviews`. */
  datatype Worker = Worker(busy: bool, cache: map<Path, Preview>)

  /** The state right after the constructor. */
  const NewWorker: Worker := Worker(false, map[])

  /**
   * The probe `if (this._cachedPreviews[path])`: JavaScript truthiness, so a
   * missing key and an empty-string entry both miss.
   */
  predicate IsCached(w: Worker, path: Path) {
    path in w.cache && w.cache[path] != ""
  }

  /** What a request's promise settles with, and the worker state it leaves. */
  datatype Reply = Reply(answer: Settled<Preview>, worker: Worker)

  /**
   * Whether the flag is cleared on every exit from a job (`Guarded`, a
   * try/finally) or only after the preview has been stored (`AsWritten`).
   */
  datatype Release = AsWritten | Guarded

  /** How the engine work of a scene preview went. */
  datatype Staging = Completed | Threw

  /**
   * A scene preview's engine work: the load / pending-data wait / render
   * block inside the try, and the canvas capture after it.
   */
  datatype SceneRun = SceneRun(staging: Staging, capture: Settled<Preview>)

  /** The job proper: set the flag, run, then on success clear it and store the preview. */
  function RunJob(w: Worker, path: Path, outcome: Settled<Preview>, release: Release): (r: Reply)
  {
    var held := w.(busy := true);
    match outcome
    case Resolved(p) => Reply(Resolved(p), Worker(false, held.cache[path := p]))
    case Rejected => Reply(Rejected, if release == Guarded then held.(busy := false) else held)
  }

  /**
   * One request: the probe on entry, then (after `_waitQueue` has returned
   * with the worker in state `resumed`) the second probe, then the job.
   */
  function Request(entry: Worker, path: Path, resumed: Worker, outcome: Settled<Preview>, release: Release): (r: Reply)
    requires !resumed.busy
  {
    if IsCached(entry, path) then Reply(Resolved(entry.cache[path]), entry)
    else if IsCached(resumed, path) then Reply(Resolved(resumed.cache[path]), resumed)
    else RunJob(resumed, path, outcome, release)
  }

  /** The request reaches its job: both probes missed. */
  predicate ReachesJob(entry: Worker, path: Path, resumed: Worker) {
    !IsCached(entry, path) && !IsCached(resumed, path)
  }

  /** `later` keeps every key of `earlier`, and every cached entry of `earlier` unchanged. */
  ghost predicate Extends(earlier: Worker, later: Worker) {
    && earlier.cache.Keys <= later.cache.Keys
    && forall p :: IsCached(earlier, p) ==> later.cache[p] == earlier.cache[p]
  }

  /** `later` is `earlier` with one preview stored under `path` and nothing else changed. */
  ghost predicate StoresOnly(earlier: Worker, later: Worker, path: Path, preview: Preview) {
    && later.cache.Keys == earlier.cache.Keys + {path}
    && later.cache[path] == preview
    && forall q :: q in earlier.cache && q != path ==> later.cache[q] == earlier.cache[q]
  }

  /**
   * `createScenePreview`. A hit on either probe answers the cached preview
   * and changes nothing. A request that reaches the job swallows any failure
   * of the staging block; if the capture resolves, the flag is cleared and
   * exactly the entry for `path` is stored. The capture lies outside the
   * try, so its rejection rejects the request with the flag still set.
   */
  function ScenePreview(entry: Worker, path: Path, resumed: Worker, run: SceneRun): (r: Reply)
    requires !resumed.busy
    ensures IsCached(entry, path) ==> r == Reply(Resolved(entry.cache[path]), entry)
    ensures !IsCached(entry, path) && IsCached(resumed, path) ==> r == Reply(Resolved(resumed.cache[path]), resumed)
    ensures ReachesJob(entry, path, resumed) && run.capture.Resolved? ==>
              && r.answer == run.capture
              && !r.worker.busy
              && StoresOnly(resumed, r.worker, path, run.capture.value)
    ensures ReachesJob(entry, path, resumed) && run.capture.Rejected? ==>
              r.answer.Rejected? && r.worker == Worker(true, resumed.cache)
  {
    Request(entry, path, resumed, run.capture, AsWritten)
  }

  /**
   * Whatever happened inside the try block, the request ends the same way.
   * This holds by construction: ScenePreview never reads `run.staging`, and
   * its contract above already quantifies over every run. The lemma states
   * the catch-all explicitly.
   */
  lemma SceneStagingSwallowed(entry: Worker, path: Path, resumed: Worker, capture: Settled<Preview>)
    requires !resumed.busy
    ensures ScenePreview(entry, path, resumed, SceneRun(Threw, capture))
         == ScenePreview(entry, path, resumed, SceneRun(Completed, capture))
  {
  }

  /**
   * `createMaterialPreview`. The probes behave as in ScenePreview. The job
   * has no try/finally: if reading, parsing, the pending-data wait or the
   * capture rejects, the request rejects, the flag stays set and nothing is
   * stored; otherwise the flag is cleared and exactly `path` is stored.
   */
  function MaterialPreview(entry: Worker, path: Path, resumed: Worker, outcome: Settled<Preview>): (r: Reply)
    requires !resumed.busy
    ensures IsCached(entry, path) ==> r == Reply(Resolved(entry.cache[path]), entry)
    ensures !IsCached(entry, path) && IsCached(resumed, path) ==> r == Reply(Resolved(resumed.cache[path]), resumed)
    ensures ReachesJob(entry, path, resumed) && outcome.Resolved? ==>
              && r.answer == outcome
              && !r.worker.busy
              && StoresOnly(resumed, r.worker, path, outcome.value)
    ensures ReachesJob(entry, path, resumed) && outcome.Rejected? ==>
              r.answer.Rejected? && r.worker.busy && r.worker.cache == resumed.cache
  {
    Request(entry, path, resumed, outcome, AsWritten)
  }

  /**
   * The material preview with the flag released on every exit (a
   * try/finally around the whole job): a request that reaches its job always
   * leaves the worker idle, and a rejected one leaves the state as it resumed.
   */
  function MaterialPreviewGuarded(entry: Worker, path: Path, resumed: Worker, outcome: Settled<Preview>): (r: Reply)
    requires !resumed.busy
    ensures IsCached(entry, path) ==> r == Reply(Resolved(entry.cache[path]), entry)
    ensures ReachesJob(entry, path, resumed) ==> !r.worker.busy
    ensures ReachesJob(entry, path, resumed) && outcome.Rejected? ==> r == Reply(Rejected, resumed)
    ensures ReachesJob(entry, path, resumed) && outcome.Resolved? ==> StoresOnly(resumed, r.worker, path, outcome.value)
  {
    Request(entry, path, resumed, outcome, Guarded)
  }

  /**
   * The scene preview with the flag released on every exit, the capture
   * included: a request that reaches its job always leaves the worker idle,
   * and a rejected capture leaves the state as it resumed.
   */
  function ScenePreviewGuarded(entry: Worker, path: Path, resumed: Worker, run: SceneRun): (r: Reply)
    requires !resumed.busy
    ensures IsCached(entry, path) ==> r == Reply(Resolved(entry.cache[path]), entry)
    ensures ReachesJob(entry, path, resumed) ==> !r.worker.busy
    ensures ReachesJob(entry, path, resumed) && run.capture.Rejected? ==> r == Reply(Rejected, resumed)
    ensures ReachesJob(entry, path, resumed) && run.capture.Resolved? ==> StoresOnly(resumed, r.worker, path, run.capture.value)
  {
    Request(entry, path, resumed, run.capture, Guarded)
  }

  /** Every request that gets past the first cache check keeps all keys and all cached entries of the state it resumed in. */
  lemma RequestExtends(entry: Worker, path: Path, resumed: Worker, outcome: Settled<Preview>, release: Release)
    requires !resumed.busy
    requires !IsCached(entry, path)
    ensures Extends(resumed, Request(entry, path, resumed, outcome, release).worker)
  {
  }

  // ---------------------------------------------------------------------
  // Sequential sessions: requests served one after another. A request that
  // parks stays parked; the next request is served from the same state.
  // ---------------------------------------------------------------------

  datatype PreviewRequest =
    | SceneRequest(path: Path, run: SceneRun)
    | MaterialRequest(path: Path, outcome: Settled<Preview>)

  /** How the promises of a request's job settle. */
  function JobOutcome(req: PreviewRequest): Settled<Preview> {
    match req
    case SceneRequest(_, run) => run.capture
    case MaterialRequest(_, outcome) => outcome
  }

  /**
   * A request either settles, or parks in `_waitQueue`: in a sequential
   * session nothing else can clear the flag, so a parked request never resumes.
   */
  datatype Served = Answered(reply: Reply) | Parked

  /** One request served from state `w`; the state it resumes in is `w` itself. */
  function Serve(w: Worker, req: PreviewRequest, release: Release): (s: Served)
    ensures s.Parked? <==> w.busy && !IsCached(w, req.path)
    ensures s.Answered? ==> Extends(w, s.reply.worker)
    ensures s.Answered? && !IsCached(w, req.path) ==> (s.reply.worker.busy <==> release == AsWritten && JobOutcome(req).Rejected?)
  {
    if w.busy && !IsCached(w, req.path) then Parked
    else
      var resumed := w.(busy := false);
      Answered(Request(w, req.path, resumed, JobOutcome(req), release))
  }

  /** Serving a request that does not park is exactly the per-request model of its kind. */
  lemma ServeIsPerRequestModel(w: Worker, path: Path, run: SceneRun, outcome: Settled<Preview>)
    requires !w.busy || IsCached(w, path)
    ensures Serve(w, SceneRequest(path, run), AsWritten) == Answered(ScenePreview(w, path, w.(busy := false), run))
    ensures Serve(w, MaterialRequest(path, outcome), AsWritten) == Answered(MaterialPreview(w, path, w.(busy := false), outcome))
    ensures Serve(w, SceneRequest(path, run), Guarded) == Answered(ScenePreviewGuarded(w, path, w.(busy := false), run))
    ensures Serve(w, MaterialRequest(path, outcome), Guarded) == Answered(MaterialPreviewGuarded(w, path, w.(busy := false), outcome))
  {
  }

  function StateAfter(w: Worker, s: Served): Worker {
    match s
    case Answered(reply) => reply.worker
    case Parked => w
  }

  /** The worker state after serving `reqs` in order. */
  function Run(w: Worker, reqs: seq<PreviewRequest>, release: Release): Worker
    decreases |reqs|
  {
    if |reqs| == 0 then w else Run(StateAfter(w, Serve(w, reqs[0], release)), reqs[1..], release)
  }

  lemma ExtendsTransitive(a: Worker, b: Worker, c: Worker)
    requires Extends(a, b) && Extends(b, c)
    ensures Extends(a, c)
  {
    forall p | IsCached(a, p)
      ensures c.cache[p] == a.cache[p]
    {
      assert IsCached(b, p);
    }
  }

  /** Over a whole session, keys are only ever added and cached previews never change. */
  lemma {:induction false} RunExtends(w: Worker, reqs: seq<PreviewRequest>, release: Release)
    ensures Extends(w, Run(w, reqs, release))
    decreases |reqs|
  {
    if |reqs| > 0 {
      var next := StateAfter(w, Serve(w, reqs[0], release));
      RunExtends(next, reqs[1..], release);
      ExtendsTransitive(w, next, Run(next, reqs[1..], release));
    }
  }

  /** Once the flag is stuck, no later request in the session changes anything. */
  lemma {:induction false} BusyWorkerIsFrozen(w: Worker, reqs: seq<PreviewRequest>, release: Release)
    requires w.busy
    ensures Run(w, reqs, release) == w
    decreases |reqs|
  {
    if |reqs| > 0 {
      BusyWorkerIsFrozen(w, reqs[1..], release);
    }
  }

  /**
   * As written, one rejected material preview on an idle worker freezes the
   * worker for the rest of the session: no later request gets a new preview.
   */
  lemma MaterialFailureFreezesWorker(w: Worker, path: Path, later: seq<PreviewRequest>)
    requires !w.busy && !IsCached(w, path)
    ensures Run(w, [MaterialRequest(path, Rejected)] + later, AsWritten) == w.(busy := true)
  {
    var reqs := [MaterialRequest(path, Rejected)] + later;
    assert reqs[0] == MaterialRequest(path, Rejected) && reqs[1..] == later;
    BusyWorkerIsFrozen(w.(busy := true), later, AsWritten);
  }

  /**
   * As written, a scene preview whose canvas capture rejects freezes an idle
   * worker in the same way: the capture lies outside the try block.
   */
  lemma SceneCaptureFailureFreezesWorker(w: Worker, path: Path, staging: Staging, later: seq<PreviewRequest>)
    requires !w.busy && !IsCached(w, path)
    ensures Run(w, [SceneRequest(path, SceneRun(staging, Rejected))] + later, AsWritten) == w.(busy := true)
  {
    var reqs := [SceneRequest(path, SceneRun(staging, Rejected))] + later;
    assert reqs[0] == SceneRequest(path, SceneRun(staging, Rejected)) && reqs[1..] == later;
    BusyWorkerIsFrozen(w.(busy := true), later, AsWritten);
  }

  /** With the flag released on every exit, an idle worker stays idle whatever the jobs do. */
  lemma {:induction false} GuardedRunStaysIdle(w: Worker, reqs: seq<PreviewRequest>)
    requires !w.busy
    ensures !Run(w, reqs, Guarded).busy
    decreases |reqs|
  {
    if |reqs| > 0 {
      GuardedRunStaysIdle(StateAfter(w, Serve(w, reqs[0], Guarded)), reqs[1..]);
    }
  }

  /**
   * As written, an idle worker stays idle when every request's job outcome
   * resolves (for a request that hits, the outcome is never consulted).
   */
  lemma {:induction false} RunStaysIdleWithoutRejections(w: Worker, reqs: seq<PreviewRequest>)
    requires !w.busy
    requires forall i :: 0 <= i < |reqs| ==> JobOutcome(reqs[i]).Resolved?
    ensures !Run(w, reqs, AsWritten).busy
    decreases |reqs|
  {
    if |reqs| > 0 {
      assert JobOutcome(reqs[0]).Resolved?;
      RunStaysIdleWithoutRejections(StateAfter(w, Serve(w, reqs[0], AsWritten)), reqs[1..]);
    }
  }

  /**
   * After a request whose job resolved with a non-empty preview, the path
   * holds that preview, and a second request for it answers the same preview
   * and changes nothing.
   */
  lemma RepeatedRequestHits(w: Worker, first: PreviewRequest, second: PreviewRequest, release: Release)
    requires !w.busy && second.path == first.path
    requires JobOutcome(first).Resolved? && JobOutcome(first).value != ""
    ensures var s1 := Serve(w, first, release);
            var after := StateAfter(w, s1);
            && s1.Answered?
            && IsCached(after, first.path)
            && (!IsCached(w, first.path) ==> after.cache[first.path] == JobOutcome(first).value)
            && Serve(after, second, release) == Answered(Reply(s1.reply.answer, after))
            && Run(w, [first], release) == after
            && Run(w, [first, second], release) == after
  {
    var s1 := Serve(w, first, release);
    var after := StateAfter(w, s1);
    assert Run(w, [first], release) == Run(after, [], release);
    assert [first, second][1..] == [second];
    assert Run(w, [first, second], release) == Run(after, [second], release);
    assert Run(after, [second], release) == Run(StateAfter(after, Serve(after, second, release)), [], release);
  }
}
