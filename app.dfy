/** The running page: the object behind the `state` proxy and everything else
    the handlers change, held in fields and updated in place. The set trap
    loops over the observers of a key and runs each, and the observers write
    through the trap again (`set_play` under `playing`, `load_img` under
    `mat_initial`), as the program does. Every method is proved to leave the
    snapshot `Snap()` that the function of the same name in `Engine` or
    `Events` computes from the snapshot before it; the lemmas in `Cascade` and
    `Invariants` say what those functions guarantee. */
module App {
  import opened State
  import opened Pacing
  import opened Media
  import opened Fetch
  import opened Engine
  import Cascade
  import Events

  class App {
    /** The object behind the `state` proxy. */
    var obj: map<Key, Value>
    /** OpenCV matrices allocated and not yet deleted, and the next handle. */
    var live: set<nat>
    var nextMat: nat
    /** Pending setTimeout callbacks, and the next handle. */
    var timers: seq<PendingTimer>
    var nextTimer: nat
    /** The next blob URL from URL.createObjectURL. */
    var nextUrl: nat
    /** The `proxies` array `main` hands to `load_url`. */
    var proxies: seq<string>
    /** The scratch canvas size. */
    var canvas: (nat, nat)
    /** Effects on the page, in order. */
    var ui: seq<UiEffect>
    /** How many times `load_img` has run. */
    var runs: nat

    function Snap(): Sys
      reads this
    {
      Sys(obj, live, nextMat, timers, nextTimer, nextUrl, proxies, canvas, ui, runs)
    }

    /** The page once `main` has registered its observers. */
    constructor(proxyList: seq<string>)
      ensures Snap() == Init(proxyList)
    {
      obj, live, nextMat, timers, nextTimer := map[], {}, 0, [], 1;
      nextUrl, proxies, canvas, ui, runs := 0, proxyList, (300, 150), [], 0;
    }

    /** The proxy's set trap, `state[k] = v`. */
    method Set(k: Key, v: Value, w: World) returns (r: Outcome, ran: seq<Callback>)
      modifies this
      ensures Fired(Snap(), r, ran) == Engine.Set(old(Snap()), k, v, w)
      decreases Rank(k), 3
    {
      if Lookup(obj, k) == v {
        return Ok, [];
      }
      obj := obj[k := v];
      ghost var s1 := Snap();
      var cbs := Callbacks(k);
      var i := 0;
      r, ran := Ok, [];
      // callbacks[key].forEach(callback => callback(value)), which a throw ends
      while i < |cbs| && r.Ok?
        invariant i <= |cbs|
        invariant Fired(Snap(), r, ran) == Notify(s1, k, v, w, i)
      {
        r := Invoke(cbs[i], v, w);
        ran := ran + [cbs[i]];
        i := i + 1;
      }
      if i < |cbs| {
        Cascade.NotifyStops(s1, k, v, w, i, |cbs|);
      }
      if r.Threw? {
        ui := ui + [Alert];
      }
    }

    /** One observer, run with the value just stored under its key. */
    method Invoke(cb: Callback, v: Value, w: World) returns (r: Outcome)
      modifies this
      ensures Done(Snap(), r) == Engine.Invoke(old(Snap()), cb, v, w)
      decreases Rank(KeyOf(cb)), 2
    {
      if cb == SetPlay {
        r := PlayObserver(v, w);
        return;
      }
      ui := ui + UiOf(cb, v, Lookup(obj, PlaybackRate), Lookup(obj, Loop));
      r := Ok;
      if IsStage(KeyOf(cb)) && Reruns(KeyOf(cb), v) && Truthy(Lookup(obj, Load)) {
        r := CallLoad(w);
      }
    }

    /** `set_play`: when play turns on and no tick is pending, a tick is
        scheduled with no delay and its handle stored in `playing`. */
    method PlayObserver(v: Value, w: World) returns (r: Outcome)
      modifies this
      ensures Done(Snap(), r) == Engine.Invoke(old(Snap()), SetPlay, v, w)
      decreases 1, 1
    {
      r := Ok;
      if !Truthy(v) || Truthy(Lookup(obj, Playing)) {
        return;
      }
      var t := nextTimer;
      timers, nextTimer := timers + [PendingTimer(t, 0.0)], t + 1;
      ghost var s1 := Snap();
      var _, _ := Set(Playing, Timer(t), w);
      Cascade.Quiet(s1, Playing, Timer(t), w);
    }

    /** `state.load()`. */
    method CallLoad(w: World) returns (r: Outcome)
      modifies this
      ensures Done(Snap(), r) == Engine.CallLoad(old(Snap()), w)
      decreases 1, 1
    {
      match Lookup(obj, Load)
      case Stage(source) => r := LoadImg(source, w);
      case _ => r := Threw(TypeError);
    }

    /** `load_img`. */
    method LoadImg(source: Source, w: World) returns (r: Outcome)
      modifies this
      ensures Done(Snap(), r) == Engine.LoadImg(old(Snap()), source, w)
      decreases 1, 0
    {
      var size := w.natural(source);
      canvas := (Coalesce(Lookup(obj, Width), size.0), Coalesce(Lookup(obj, Height), size.1));
      // cv.imread allocates the new matrix
      var m := nextMat;
      live, nextMat, runs := live + {m}, m + 1, runs + 1;
      if w.cvFails(FrameOf(Snap(), source, canvas)) {
        live := live - {m};
        return Threw(CvError);
      }
      r := KeepMat(m, w);
    }

    /** The end of a successful `load_img`: `state.mat_initial.delete()` when
        a matrix is stored, then `state.mat_initial = mat`. */
    method KeepMat(m: nat, w: World) returns (r: Outcome)
      modifies this
      ensures Done(Snap(), r) == Engine.KeepMat(old(Snap()), m)
      decreases 0, 4
    {
      var previous := Lookup(obj, MatInitial);
      if Truthy(previous) {
        if !previous.Mat? {
          // `.delete` is not a function of what is stored
          return Threw(TypeError);
        }
        live := live - {previous.mat};
      }
      ghost var s1 := Snap();
      var _, _ := Set(MatInitial, Mat(m), w);
      Cascade.Quiet(s1, MatInitial, Mat(m), w);
      r := Ok;
    }

    /** `load_<key>(el)` for an input element. */
    method Input(valid: bool, k: Key, v: Value, w: World) returns (r: Outcome)
      requires Events.InputKey(k)
      modifies this
      ensures Done(Snap(), r) == (var f := Events.Input(old(Snap()), valid, k, v, w); Done(f.sys, f.r))
    {
      r := Ok;
      if valid {
        var ran;
        r, ran := Set(k, v, w);
      }
    }

    /** `load_play(video_el)`. */
    method LoadPlay(paused: bool, ended: bool, w: World) returns (r: Outcome)
      modifies this
      ensures Done(Snap(), r) == (var f := Events.LoadPlay(old(Snap()), paused, ended, w); Done(f.sys, f.r))
    {
      var ran;
      r, ran := Set(Play, Bool(!paused && !ended), w);
    }

    /** `load_load(load)`. */
    method LoadLoad(source: Source, w: World) returns (r: Outcome)
      modifies this
      ensures Done(Snap(), r) == Events.LoadLoad(old(Snap()), source, w)
    {
      var _, _ := Set(Load, Stage(source), w);
      r := LoadImg(source, w);
    }

    /** `video_el.onseeked`. */
    method Seeked(w: World) returns (r: Outcome)
      modifies this
      ensures Done(Snap(), r) == Events.Seeked(old(Snap()), w)
    {
      r := LoadImg(FromVideo, w);
    }

    /** The timer callback `set_play` schedules, firing. */
    method Tick(elapsed: real, w: World) returns (r: Outcome)
      modifies this
      ensures Done(Snap(), r) == Events.Tick(old(Snap()), elapsed, w)
    {
      if timers == [] {
        return Ok;
      }
      timers := timers[1..];
      r := CallLoad(w);
      if r.Threw? {
        var _, _ := Set(Playing, Undefined, w);
        return;
      }
      if Truthy(Lookup(obj, Play)) {
        var t := nextTimer;
        timers, nextTimer := timers + [PendingTimer(t, FrameWait(Lookup(obj, Fps), elapsed))], t + 1;
        var _, _ := Set(Playing, Timer(t), w);
      } else {
        var _, _ := Set(Playing, Undefined, w);
      }
    }

    /** `load_src(src, type)`. */
    method LoadSrc(contentType: Option<string>, w: World) returns (r: Outcome)
      modifies this
      ensures Done(Snap(), r) == (var f := Events.LoadSrc(old(Snap()), contentType, w); Done(f.sys, f.r))
    {
      if contentType.None? {
        return Threw(TypeError);
      }
      var t := contentType.value;
      r := Ok;
      if StartsWith(t, "image") {
        var u := nextUrl;
        nextUrl := u + 1;
        var ran;
        r, ran := Set(ImgSrc, ObjectUrl(u), w);
      } else if StartsWith(t, "video") {
        var u := nextUrl;
        nextUrl := u + 1;
        var ran;
        r, ran := Set(VideoSrc, ObjectUrl(u), w);
      }
    }

    /** `load_file(input_file_el)`, `types` being the types of the files the
        element holds. */
    method LoadFile(valid: bool, types: seq<string>, w: World) returns (r: Outcome)
      modifies this
      ensures Done(Snap(), r) == (var f := Events.LoadFile(old(Snap()), valid, types, w); Done(f.sys, f.r))
    {
      r := Ok;
      if valid && |types| > 0 {
        r := LoadSrc(Some(types[0]), w);
      }
    }

    /** `load_url(input_url_el, proxies)`, `shuffled` being the order the
        in-place shuffle leaves the proxies in. */
    method LoadUrl(valid: bool, url: string, shuffled: seq<string>, fetch: string -> Option<Response>, w: World)
      returns (r: Outcome)
      requires multiset(shuffled) == multiset(proxies)
      modifies this
      ensures Done(Snap(), r) == (var f := Events.LoadUrl(old(Snap()), valid, url, shuffled, fetch, w); Done(f.sys, f.r))
    {
      r := Ok;
      if !valid {
        return;
      }
      var response := fetch(url);
      if response.None? {
        // proxies.sort(() => .5 - Math.random())
        proxies := shuffled;
        var tried;
        response, tried := TryProxies(url, proxies, fetch);
      }
      if response.Some? {
        r := LoadSrc(response.value.contentType, w);
      }
    }
  }
}
