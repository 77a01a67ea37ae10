/** The semantics of the app as functions of a snapshot of everything it
    changes: the object behind the `state` proxy, the OpenCV matrices alive,
    the browser's pending timers, the blob URLs handed out, the proxy list, the
    scratch canvas and the effects on the page. Class `App.App` holds the same
    state in fields and its methods are proved to follow these functions. */
module Engine {
  import opened State
  import opened Pacing
  import opened Media
  import Fetch

  /** A setTimeout registration that has not fired yet. */
  datatype PendingTimer = PendingTimer(id: nat, delay: real)

  datatype Sys = Sys(
    values: map<Key, Value>,      // the object behind the `state` proxy
    live: set<nat>,               // OpenCV matrices allocated and not yet deleted
    nextMat: nat,                 // the next fresh matrix handle
    timers: seq<PendingTimer>,    // pending setTimeout callbacks (only the playback tick)
    nextTimer: nat,               // the next fresh setTimeout handle
    nextUrl: nat,                 // the next fresh blob URL from URL.createObjectURL
    proxies: seq<string>,         // the proxy list `main` hands to `load_url`
    canvas: (nat, nat),           // the scratch canvas size
    ui: seq<UiEffect>,            // effects on the page, in order
    runs: nat)                    // how many times `load_img` has run

  /** `state[k]`. */
  function Get(s: Sys, k: Key): Value {
    Lookup(s.values, k)
  }

  /** The outcome of a write through the set trap: the new state, whether it
      threw, and the observers that ran, in order. */
  datatype Fired = Fired(sys: Sys, r: Outcome, ran: seq<Callback>)

  /** The outcome of any other operation. */
  datatype Done = Done(sys: Sys, r: Outcome)

  /** The page once `main` has run its registrations, before any event. */
  function Init(proxies: seq<string>): Sys {
    Sys(map[], {}, 0, [], 1, 0, proxies, (300, 150), [], 0)
  }

  /** Ownership of matrices: the only live matrix is the one held in
      `mat_initial`, so none leaks and none is deleted twice. */
  ghost predicate MatsOk(s: Sys) {
    match Get(s, MatInitial)
    case Undefined => s.live == {}
    case Mat(m) => s.live == {m} && m < s.nextMat
    case _ => false
  }

  /** Single flight: at most one tick is pending, and `playing` holds its
      handle exactly when one is. */
  ghost predicate TimersOk(s: Sys) {
    match Get(s, Playing)
    case Undefined => s.timers == []
    case Timer(t) => |s.timers| == 1 && s.timers[0].id == t && t < s.nextTimer
    case _ => false
  }

  /** `play` is only ever written from `load_play`, a boolean. */
  ghost predicate PlayOk(s: Sys) {
    Get(s, Play).Undefined? || Get(s, Play).Bool?
  }

  /** `load` is only ever written from `load_load`, a stage closure. */
  ghost predicate LoadOk(s: Sys) {
    Get(s, Load).Undefined? || Get(s, Load).Stage?
  }

  /** Every blob URL shown was handed out already. */
  ghost predicate UrlsOk(s: Sys) {
    (Get(s, ImgSrc).ObjectUrl? ==> Get(s, ImgSrc).url < s.nextUrl) &&
    (Get(s, VideoSrc).ObjectUrl? ==> Get(s, VideoSrc).url < s.nextUrl)
  }

  ghost predicate Valid(s: Sys) {
    MatsOk(s) && TimersOk(s) && PlayOk(s) && LoadOk(s) && UrlsOk(s)
  }

  /** The canvas size `load_img` picks for an element displayed at `size`. */
  function CanvasFor(s: Sys, size: (nat, nat)): (nat, nat) {
    (Coalesce(Get(s, Width), size.0), Coalesce(Get(s, Height), size.1))
  }

  /** What OpenCV is asked to do when the stage reads `source` into a canvas
      of size `canvas`: plot the original histogram or not, convert to which
      colour space, plot the converted histogram or not. */
  function FrameOf(s: Sys, source: Source, canvas: (nat, nat)): Frame {
    Frame(source, canvas.0, canvas.1, Truthy(Get(s, Hist)), Get(s, ColorSpace), Truthy(Get(s, InitialHist)))
  }

  /** The proxy's set trap, `state[k] = v`. An equal write changes nothing and
      notifies no one. A differing write is stored first; then the observers of
      `k` run in registration order, each once and each seeing `v` stored. When
      one throws, the ones after it are skipped, the trap alerts and the error
      reaches the writer, with `v` still stored. */
  function Set(s: Sys, k: Key, v: Value, w: World): (f: Fired) {
    if Get(s, k) == v then Fired(s, Ok, [])
    else
      var f := Notify(s.(values := s.values[k := v]), k, v, w, |Callbacks(k)|);
      if f.r.Threw? then f.(sys := f.sys.(ui := f.sys.ui + [Alert])) else f
  }

  /** The set trap on a key of rank 0 (`mat_initial`, `playing`, `load`),
      whose observers, if any, only log: compare and store. Lemma
      `Cascade.Quiet` shows this is what `Set` does on those keys; the writes
      made from inside an observer use it, which keeps `Set` from recursing
      into itself. */
  function Store(s: Sys, k: Key, v: Value): Sys
    requires Rank(k) == 0
  {
    if Get(s, k) == v then s else s.(values := s.values[k := v])
  }

  /** `callbacks[k].forEach(callback => callback(v))` over the first `n`
      observers of `k`, stopping at the first that throws. */
  function Notify(s: Sys, k: Key, v: Value, w: World, n: nat): (f: Fired)
    requires n <= |Callbacks(k)|
  {
    if n == 0 then Fired(s, Ok, [])
    else
      var f := Notify(s, k, v, w, n - 1);
      if f.r.Threw? then f
      else
        var cb := Callbacks(k)[n - 1];
        var d := Invoke(f.sys, cb, v, w);
        Fired(d.sys, d.r, f.ran + [cb])
  }

  /** One observer run with the value just stored under its key:
      - `set_play` schedules the first tick when play is on and none is pending;
      - `set_width`, `set_height` and `set_color_space` re-run the bound stage;
        `set_hist` and `set_initial_hist` show or hide their output first and
        re-run it only when switched on (`if (state.load) state.load()`);
      - the others only touch the page (`set_mat_initial` only logs). */
  function Invoke(s: Sys, cb: Callback, v: Value, w: World): (d: Done) {
    var s1 := s.(ui := s.ui + UiOf(cb, v, Get(s, PlaybackRate), Get(s, Loop)));
    if cb == SetPlay then
      if !Truthy(v) || Truthy(Get(s, Playing)) then Done(s, Ok)
      else
        var t := s.nextTimer;
        Done(Store(s.(timers := s.timers + [PendingTimer(t, 0.0)], nextTimer := t + 1), Playing, Timer(t)), Ok)
    else if IsStage(KeyOf(cb)) && Reruns(KeyOf(cb), v) && Truthy(Get(s, Load)) then
      CallLoad(s1, w)
    else
      Done(s1, Ok)
  }

  /** `state.load()`: runs the bound stage, or throws a TypeError when none is
      bound. */
  function CallLoad(s: Sys, w: World): (d: Done) {
    match Get(s, Load)
    case Stage(source) => LoadImg(s, source, w)
    case _ => Done(s, Threw(TypeError))
  }

  /** `load_img`: sizes the canvas (a configured width or height wins, else the
      element's displayed size), reads a new matrix and runs OpenCV on it. On
      failure the new matrix is deleted and the error propagates; on success the
      previous matrix is deleted and the new one stored in `mat_initial`. */
  function LoadImg(s: Sys, source: Source, w: World): (d: Done) {
    var canvas := CanvasFor(s, w.natural(source));
    var m := s.nextMat;
    // cv.imread allocates the new matrix
    var s1 := s.(canvas := canvas, runs := s.runs + 1, live := s.live + {m}, nextMat := m + 1);
    if w.cvFails(FrameOf(s, source, canvas)) then
      Done(s1.(live := s1.live - {m}), Threw(CvError))
    else
      KeepMat(s1, m)
  }

  /** The end of a successful `load_img`: the previous matrix is deleted and
      matrix `m` is stored in `mat_initial`. */
  function KeepMat(s: Sys, m: nat): Done {
    var previous := Get(s, MatInitial);
    if !Truthy(previous) then Done(Store(s, MatInitial, Mat(m)), Ok)
    else if previous.Mat? then Done(Store(s.(live := s.live - {previous.mat}), MatInitial, Mat(m)), Ok)
    else
      // a truthy value without `.delete`: a TypeError, the new matrix stays allocated
      Done(s, Threw(TypeError))
  }
}
