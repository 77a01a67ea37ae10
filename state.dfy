/** The application's state store: its keys, the values it holds, the observers
    `main` registers for each key, and the propagation policy those observers
    implement. */
module State {

  datatype Option<T> = None | Some(value: T)

  /** The keys the program writes through `state.<key> = …`. */
  datatype Key =
    | PlaybackRate | Loop | ImgSrc | VideoSrc | Hist | Load | MatInitial
    | Width | Height | ColorSpace | Fps | Play | Playing | InitialHist

  /** The element a bound stage reads its frame from. */
  datatype Source = FromImg | FromVideo

  /** What the store holds. A key never written reads as `Undefined`. */
  datatype Value =
    | Undefined
    | Bool(b: bool)
    | Num(x: real)
    | Str(s: string)
    | ObjectUrl(url: nat)     // a blob URL made by URL.createObjectURL
    | Stage(source: Source)   // the recompute closure stored under `load`
    | Mat(mat: nat)           // an OpenCV matrix handle
    | Timer(timer: nat)       // a setTimeout handle (always a positive number)

  /** `obj[k]` for the object behind the proxy: Undefined when never written. */
  function Lookup(m: map<Key, Value>, k: Key): Value {
    if k in m then m[k] else Undefined
  }

  /** JavaScript truthiness of a stored value. */
  predicate Truthy(v: Value) {
    match v
    case Undefined => false
    case Bool(b) => b
    case Num(x) => x != 0.0
    case Str(s) => s != ""
    case _ => true
  }

  /** The observer closures registered by `main`. */
  datatype Callback =
    | SetPlaybackRate | SetLoop | SetImgSrc | DisableFps | SetVideoSrc | EnableFps
    | SetHist | SetMatInitial | SetWidth | SetHeight | SetColorSpace | SetPlay | SetInitialHist

  /** The key whose observer list holds `cb`. */
  function KeyOf(cb: Callback): Key {
    match cb
    case SetPlaybackRate => PlaybackRate
    case SetLoop => Loop
    case SetImgSrc => ImgSrc
    case DisableFps => ImgSrc
    case SetVideoSrc => VideoSrc
    case EnableFps => VideoSrc
    case SetHist => Hist
    case SetMatInitial => MatInitial
    case SetWidth => Width
    case SetHeight => Height
    case SetColorSpace => ColorSpace
    case SetPlay => Play
    case SetInitialHist => InitialHist
  }

  /** The observer list of each key once `main` has finished registering, in
      registration order: every listed observer belongs to that key, and none
      is listed twice. */
  function Callbacks(k: Key): (cbs: seq<Callback>)
    ensures forall i :: 0 <= i < |cbs| ==> KeyOf(cbs[i]) == k
  {
    match k
    case PlaybackRate => [SetPlaybackRate]
    case Loop => [SetLoop]
    case ImgSrc => [SetImgSrc, DisableFps]
    case VideoSrc => [SetVideoSrc, EnableFps]
    case Hist => [SetHist]
    case MatInitial => [SetMatInitial]
    case Width => [SetWidth]
    case Height => [SetHeight]
    case ColorSpace => [SetColorSpace]
    case Play => [SetPlay]
    case InitialHist => [SetInitialHist]
    case Load => []
    case Fps => []
    case Playing => []
  }

  /** Every observer is registered once, under its own key. */
  lemma Registered(cb: Callback)
    ensures cb in Callbacks(KeyOf(cb))
    ensures forall i, j :: 0 <= i < j < |Callbacks(KeyOf(cb))| ==> Callbacks(KeyOf(cb))[i] != Callbacks(KeyOf(cb))[j]
  {
  }

  /** The keys whose observer re-runs the bound stage. */
  predicate IsStage(k: Key) {
    k == Width || k == Height || k == ColorSpace || k == Hist || k == InitialHist
  }

  /** The change propagation policy: does writing `v` under `k` re-run the bound
      stage? Width, height and colour space always do; the two histogram toggles
      only when switched on; every other key never does. */
  predicate Reruns(k: Key, v: Value) {
    match k
    case Width => true
    case Height => true
    case ColorSpace => true
    case Hist => Truthy(v)
    case InitialHist => Truthy(v)
    case _ => false
  }

  /** Cascade depth: an observer of a rank-1 key only writes rank-0 keys, and the
      observers of rank-0 keys write nothing. */
  function Rank(k: Key): nat {
    if k == MatInitial || k == Playing || k == Load then 0 else 1
  }

  /** Only observers that run the stage can throw (OpenCV errors, or calling an
      unbound `load`); the others only touch the page, and page setters are
      taken never to throw (an unsupported `playbackRate` would). */
  predicate MayThrow(cb: Callback) {
    IsStage(KeyOf(cb))
  }

  datatype Error = TypeError | CvError
  datatype Outcome = Ok | Threw(error: Error)

  /** Side effects on the page, in the order the program makes them. */
  datatype UiEffect =
    | VideoRate(rate: Value)          // video_el.playbackRate = …
    | VideoLoop(loop: Value)          // video_el.loop = …
    | ShowImage(src: Value)           // pause and hide the video, disable its controls, show the image
    | ShowVideo(src: Value)           // hide the image, enable the video controls, show the video
    | FpsDisabled(disabled: bool)     // input_fps_el.disabled = …
    | HistHidden(hidden: bool)        // output_hist_el.hidden = …
    | InitialHistHidden(hidden: bool) // output_initial_hist_el.hidden = …
    | Alert                           // window.alert in the set trap

  /** The page effects of one observer run with new value `v`, given the stored
      playback rate and loop flag (which the video-source observer re-applies). */
  function UiOf(cb: Callback, v: Value, rate: Value, loop: Value): seq<UiEffect> {
    match cb
    case SetPlaybackRate => [VideoRate(v)]
    case SetLoop => [VideoLoop(v)]
    case SetImgSrc => [ShowImage(v)]
    case DisableFps => [FpsDisabled(true)]
    case SetVideoSrc => [ShowVideo(v), VideoRate(rate), VideoLoop(loop)]
    case EnableFps => [FpsDisabled(false)]
    case SetHist => [HistHidden(!Truthy(v))]
    case SetInitialHist => [InitialHistHidden(!Truthy(v))]
    case _ => []
  }

  /** What OpenCV is asked to do by one stage run. */
  datatype Frame = Frame(source: Source, width: nat, height: nat, hist: bool, colorSpace: Value, initialHist: bool)

  /** The parts of the page and of OpenCV the model does not compute: the
      displayed size of each source element, and which stage inputs make an
      OpenCV call throw (an unknown colour conversion, say). */
  datatype World = World(natural: Source -> (nat, nat), cvFails: Frame -> bool)
}
