/** What a write through the set trap does, key by key: the observers that
    run, what they store, schedule and show, and what the stage run they may
    start allocates and frees. Each lemma pins the result down exactly, as a
    new snapshot written out field by field. */
module Cascade {
  import opened State
  import opened Pacing
  import opened Engine

  /** The trap on a key of rank 0 (`mat_initial`, `playing`, `load`) is
      `Store`: its observers, if any, only log, so it never throws, and it
      changes nothing but the value under the key. */
  lemma Quiet(s: Sys, k: Key, v: Value, w: World)
    requires Rank(k) == 0
    ensures var f := Set(s, k, v, w);
      f.sys == Store(s, k, v) && f.r == Ok
      && (Get(s, k) == v ==> f.sys == s)
      && (Get(s, k) != v ==> f.sys == s.(values := s.values[k := v]) && f.ran == Callbacks(k))
  {
    if Get(s, k) != v && k == MatInitial {
      var s1 := s.(values := s.values[k := v]);
      assert Notify(s1, k, v, w, 1) == Fired(Invoke(s1, SetMatInitial, v, w).sys, Ok, [SetMatInitial]);
    }
  }

  /** `load_img` and matrix ownership. It sizes the canvas and allocates a
      fresh matrix. When OpenCV fails, the new matrix is freed again, the error
      is OpenCV's, and the store and the live matrices are as they were. When
      it succeeds, the previous matrix is freed and the new one, stored in
      `mat_initial`, is the only one alive. */
  lemma LoadImgOwns(s: Sys, source: Source, w: World)
    requires MatsOk(s)
    ensures LoadImg(s, source, w) ==
      if w.cvFails(FrameOf(s, source, CanvasFor(s, w.natural(source)))) then Done(Sized(s, source, w), Threw(CvError))
      else Done(Sized(s, source, w).(values := s.values[MatInitial := Mat(s.nextMat)], live := {s.nextMat}), Ok)
  {
    var canvas := CanvasFor(s, w.natural(source));
    var m := s.nextMat;
    var s1 := s.(canvas := canvas, runs := s.runs + 1, live := s.live + {m}, nextMat := m + 1);
    if w.cvFails(FrameOf(s, source, canvas)) {
      assert s1.live - {m} == s.live;
    } else {
      var previous := Get(s, MatInitial);
      if previous.Undefined? {
        assert s1.live == {m};
      } else {
        assert s1.live - {previous.mat} == {m};
      }
    }
  }

  /** Only an observer that runs the stage can throw. */
  lemma InvokeThrows(s: Sys, cb: Callback, v: Value, w: World)
    requires Invoke(s, cb, v, w).r.Threw?
    ensures MayThrow(cb)
  {
  }

  /** The first `n` observers of `k` run in registration order, all of them
      unless one throws, in which case that one is the last to run and it is
      one that runs the stage. */
  lemma {:induction false} NotifyRan(s: Sys, k: Key, v: Value, w: World, n: nat)
    requires n <= |Callbacks(k)|
    ensures var f := Notify(s, k, v, w, n);
      |f.ran| <= n && f.ran == Callbacks(k)[..|f.ran|]
      && (f.r.Ok? ==> f.ran == Callbacks(k)[..n])
      && (f.r.Threw? ==> f.ran != [] && MayThrow(f.ran[|f.ran| - 1]))
  {
    if n > 0 {
      NotifyRan(s, k, v, w, n - 1);
      var f := Notify(s, k, v, w, n - 1);
      if f.r.Ok? {
        var cb := Callbacks(k)[n - 1];
        var d := Invoke(f.sys, cb, v, w);
        if d.r.Threw? {
          InvokeThrows(f.sys, cb, v, w);
        }
        var g := Notify(s, k, v, w, n);
        assert g.r == d.r && g.ran == f.ran + [cb];
        assert Callbacks(k)[..n] == Callbacks(k)[..n - 1] + [cb];
      } else {
        // only a stage observer throws, and a stage key has no second observer
        assert false;
      }
    }
  }

  /** Once an observer has thrown, the ones after it are skipped: the loop's
      result is its result at the throw. */
  lemma {:induction false} NotifyStops(s: Sys, k: Key, v: Value, w: World, i: nat, n: nat)
    requires i <= n <= |Callbacks(k)| && Notify(s, k, v, w, i).r.Threw?
    ensures Notify(s, k, v, w, n) == Notify(s, k, v, w, i)
    decreases n - i
  {
    if i < n {
      NotifyStops(s, k, v, w, i, n - 1);
    }
  }

  /** The set trap: an equal write is dropped; a differing write runs the
      observers of its key in registration order, all of them unless one
      throws, in which case that one is the last to run and it is one that runs
      the stage. */
  lemma SetRan(s: Sys, k: Key, v: Value, w: World)
    ensures var f := Set(s, k, v, w);
      (Get(s, k) == v ==> f == Fired(s, Ok, []))
      && |f.ran| <= |Callbacks(k)| && f.ran == Callbacks(k)[..|f.ran|]
      && (Get(s, k) != v && f.r.Ok? ==> f.ran == Callbacks(k))
      && (f.r.Threw? ==> f.ran != [] && MayThrow(f.ran[|f.ran| - 1]))
  {
    if Get(s, k) != v {
      var s1 := s.(values := s.values[k := v]);
      NotifyRan(s1, k, v, w, |Callbacks(k)|);
      var g := Notify(s1, k, v, w, |Callbacks(k)|);
      assert Set(s, k, v, w).ran == g.ran && Set(s, k, v, w).r == g.r;
      assert Callbacks(k)[..|Callbacks(k)|] == Callbacks(k);
    }
  }

  /** A differing write of `img_src` stores it and runs both its observers in
      registration order: the image is shown (the video paused and hidden),
      then the fps input is disabled. Nothing throws and nothing else changes. */
  lemma ImageWrite(s: Sys, v: Value, w: World)
    requires Get(s, ImgSrc) != v
    ensures Set(s, ImgSrc, v, w)
      == Fired(s.(values := s.values[ImgSrc := v], ui := s.ui + [ShowImage(v), FpsDisabled(true)]), Ok, [SetImgSrc, DisableFps])
  {
    var s1 := s.(values := s.values[ImgSrc := v]);
    var s2 := s1.(ui := s.ui + [ShowImage(v)]);
    assert Notify(s1, ImgSrc, v, w, 0) == Fired(s1, Ok, []);
    assert Notify(s1, ImgSrc, v, w, 1) == Fired(s2, Ok, [SetImgSrc]);
    assert Notify(s1, ImgSrc, v, w, 2) == Fired(s2.(ui := s2.ui + [FpsDisabled(true)]), Ok, [SetImgSrc, DisableFps]);
  }

  /** A differing write of `video_src` stores it and runs both its observers
      in registration order: the video is shown with the stored playback rate
      and loop flag re-applied, then the fps input is enabled. */
  lemma VideoWrite(s: Sys, v: Value, w: World)
    requires Get(s, VideoSrc) != v
    ensures Set(s, VideoSrc, v, w)
      == Fired(s.(values := s.values[VideoSrc := v],
                  ui := s.ui + [ShowVideo(v), VideoRate(Get(s, PlaybackRate)), VideoLoop(Get(s, Loop)), FpsDisabled(false)]),
               Ok, [SetVideoSrc, EnableFps])
  {
    var s1 := s.(values := s.values[VideoSrc := v]);
    var s2 := s1.(ui := s.ui + [ShowVideo(v), VideoRate(Get(s, PlaybackRate)), VideoLoop(Get(s, Loop))]);
    assert Get(s1, PlaybackRate) == Get(s, PlaybackRate) && Get(s1, Loop) == Get(s, Loop);
    assert Notify(s1, VideoSrc, v, w, 0) == Fired(s1, Ok, []);
    assert Notify(s1, VideoSrc, v, w, 1) == Fired(s2, Ok, [SetVideoSrc]);
    assert Notify(s1, VideoSrc, v, w, 2) == Fired(s2.(ui := s2.ui + [FpsDisabled(false)]), Ok, [SetVideoSrc, EnableFps]);
  }

  /** A differing write of the playback rate or the loop flag stores it and
      applies it to the video element; one of `fps` only stores it (the
      playback loop reads it on its next tick). */
  lemma OptionWrite(s: Sys, k: Key, v: Value, w: World)
    requires (k == PlaybackRate || k == Loop || k == Fps) && Get(s, k) != v
    ensures Set(s, k, v, w)
      == Fired(s.(values := s.values[k := v],
                  ui := s.ui + (if k == PlaybackRate then [VideoRate(v)] else if k == Loop then [VideoLoop(v)] else [])),
               Ok, Callbacks(k))
  {
    var s1 := s.(values := s.values[k := v]);
    assert Notify(s1, k, v, w, 0) == Fired(s1, Ok, []);
  }

  /** `set_play` through the trap. A differing write of `play` stores it; when
      the new value is truthy and no tick is pending, one tick with no delay is
      scheduled under a fresh handle, which `playing` now holds; otherwise
      nothing else changes. It never throws. */
  lemma PlayWrite(s: Sys, v: Value, w: World)
    requires Get(s, Play) != v
    ensures var s1 := s.(values := s.values[Play := v]);
      var t := s.nextTimer;
      Set(s, Play, v, w) == Fired(
        if Truthy(v) && !Truthy(Get(s, Playing)) then
          s1.(values := s1.values[Playing := Timer(t)],
              timers := s.timers + [PendingTimer(t, 0.0)], nextTimer := t + 1)
        else s1, Ok, [SetPlay])
  {
    var s1 := s.(values := s.values[Play := v]);
    var d := Invoke(s1, SetPlay, v, w);
    assert Notify(s1, Play, v, w, 1) == Fired(d.sys, d.r, [SetPlay]);
  }

  /** A differing write under a stage key stores the value and runs its one
      observer: the histogram toggles first show or hide their output; then the
      stage is called when the policy says so and `load` is truthy, and a throw
      from it makes the trap alert. */
  lemma StageWrite(s: Sys, k: Key, v: Value, w: World)
    requires IsStage(k) && Get(s, k) != v
    ensures var cb := Callbacks(k)[0];
      var s1 := s.(values := s.values[k := v], ui := s.ui + UiOf(cb, v, Get(s, PlaybackRate), Get(s, Loop)));
      Set(s, k, v, w) ==
        if Reruns(k, v) && Truthy(Get(s, Load)) then
          var d := CallLoad(s1, w);
          Fired(if d.r.Threw? then d.sys.(ui := d.sys.ui + [Alert]) else d.sys, d.r, [cb])
        else Fired(s1, Ok, [cb])
  {
    var cb := Callbacks(k)[0];
    var s0 := s.(values := s.values[k := v]);
    assert Get(s0, Load) == Get(s, Load) && Get(s0, PlaybackRate) == Get(s, PlaybackRate) && Get(s0, Loop) == Get(s, Loop);
    StageObserver(s0, cb, v, w);
    NotifyOne(s0, k, v, w);
  }

  /** One run of a stage key's observer. */
  lemma StageObserver(s: Sys, cb: Callback, v: Value, w: World)
    requires IsStage(KeyOf(cb))
    ensures var s1 := s.(ui := s.ui + UiOf(cb, v, Get(s, PlaybackRate), Get(s, Loop)));
      Invoke(s, cb, v, w) == if Reruns(KeyOf(cb), v) && Truthy(Get(s, Load)) then CallLoad(s1, w) else Done(s1, Ok)
  {
  }

  /** The trap's loop over a key with a single observer. */
  lemma NotifyOne(s: Sys, k: Key, v: Value, w: World)
    requires |Callbacks(k)| == 1
    ensures var d := Invoke(s, Callbacks(k)[0], v, w);
      Notify(s, k, v, w, 1) == Fired(d.sys, d.r, [Callbacks(k)[0]])
  {
    assert Notify(s, k, v, w, 0) == Fired(s, Ok, []);
  }

  /** The snapshot once a differing write under stage key `k` is stored and
      its observer has made its page effects, before any stage run. */
  function Observed(s: Sys, k: Key, v: Value): Sys
    requires IsStage(k)
  {
    s.(values := s.values[k := v], ui := s.ui + UiOf(Callbacks(k)[0], v, Get(s, PlaybackRate), Get(s, Loop)))
  }

  /** The observer of a stage key leaves the matrices and `load` alone. */
  lemma ObservedKeeps(s: Sys, k: Key, v: Value)
    requires IsStage(k)
    ensures var s1 := Observed(s, k, v);
      Get(s1, Load) == Get(s, Load) && (MatsOk(s) ==> MatsOk(s1))
  {
    var s1 := Observed(s, k, v);
    assert Get(s1, MatInitial) == Get(s, MatInitial);
  }

  /** `state.load()` with a stage bound runs `load_img` on its source. */
  lemma BoundCall(s: Sys, w: World)
    requires Get(s, Load).Stage?
    ensures CallLoad(s, w) == LoadImg(s, Get(s, Load).source, w)
  {
  }

  /** The snapshot once `load_img` has sized the canvas for `source` and
      allocated a new matrix, before OpenCV runs and before the new matrix is
      freed or stored. */
  function Sized(s: Sys, source: Source, w: World): Sys {
    s.(canvas := CanvasFor(s, w.natural(source)), runs := s.runs + 1, nextMat := s.nextMat + 1)
  }

  /** The propagation policy, first half: for a store whose `load` is unbound
      or a stage, a differing write under a stage key runs no stage when the
      policy says no re-run or nothing is bound; it stores the value and makes
      the observer's page effects only. */
  lemma StageSkips(s: Sys, k: Key, v: Value, w: World)
    requires IsStage(k) && Get(s, k) != v && LoadOk(s)
    requires !Reruns(k, v) || Get(s, Load).Undefined?
    ensures Set(s, k, v, w) == Fired(Observed(s, k, v), Ok, Callbacks(k))
  {
    StageWrite(s, k, v, w);
    assert Callbacks(k) == [Callbacks(k)[0]];
  }

  /** Second half, a stage run that fails: for a store whose matrices are
      owned, a write under a stage key that re-runs the bound stage runs it
      once; OpenCV's error reaches the writer after the trap's alert, and the
      previous matrix stays stored and alive. */
  lemma StageFails(s: Sys, k: Key, v: Value, w: World)
    requires IsStage(k) && Get(s, k) != v && MatsOk(s)
    requires Reruns(k, v) && Get(s, Load).Stage?
    requires w.cvFails(FrameOf(Observed(s, k, v), Get(s, Load).source, CanvasFor(Observed(s, k, v), w.natural(Get(s, Load).source))))
    ensures var s2 := Sized(Observed(s, k, v), Get(s, Load).source, w);
      Set(s, k, v, w) == Fired(s2.(ui := s2.ui + [Alert]), Threw(CvError), Callbacks(k))
  {
    StageWrite(s, k, v, w);
    var s1, source := Observed(s, k, v), Get(s, Load).source;
    assert Callbacks(k) == [Callbacks(k)[0]];
    ObservedKeeps(s, k, v);
    BoundCall(s1, w);
    assert LoadImg(s1, source, w) == Done(Sized(s1, source, w), Threw(CvError)) by {
      LoadImgOwns(s1, source, w);
    }
  }

  /** Second half, a stage run that succeeds: the bound stage runs once and
      its new matrix replaces the previous one, in `mat_initial` and as the
      only one alive. */
  lemma StageReplaces(s: Sys, k: Key, v: Value, w: World)
    requires IsStage(k) && Get(s, k) != v && MatsOk(s)
    requires Reruns(k, v) && Get(s, Load).Stage?
    requires !w.cvFails(FrameOf(Observed(s, k, v), Get(s, Load).source, CanvasFor(Observed(s, k, v), w.natural(Get(s, Load).source))))
    ensures var s1 := Observed(s, k, v);
      var s2 := Sized(s1, Get(s, Load).source, w);
      Set(s, k, v, w) == Fired(s2.(values := s1.values[MatInitial := Mat(s.nextMat)], live := {s.nextMat}), Ok, Callbacks(k))
  {
    StageWrite(s, k, v, w);
    var s1, source := Observed(s, k, v), Get(s, Load).source;
    assert Callbacks(k) == [Callbacks(k)[0]];
    ObservedKeeps(s, k, v);
    BoundCall(s1, w);
    assert LoadImg(s1, source, w)
        == Done(Sized(s1, source, w).(values := s1.values[MatInitial := Mat(s.nextMat)], live := {s.nextMat}), Ok) by {
      LoadImgOwns(s1, source, w);
    }
  }
}
