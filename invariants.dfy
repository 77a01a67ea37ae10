/** What holds across events: every handler keeps `Valid` (matrices owned,
    at most one tick pending and `playing` holding its handle, `play` a flag,
    `load` a stage, blob URLs handed out), and the playback loop follows the
    `Playback` state machine. */
module Invariants {
  import opened State
  import opened Pacing
  import opened Media
  import opened Fetch
  import opened Engine
  import opened Cascade
  import opened Events
  import PB = Playback

  /** The page before any event is valid, with play off and nothing pending. */
  lemma InitValid(proxies: seq<string>)
    ensures Valid(Init(proxies)) && View(Init(proxies)) == PB.Playback(false, false)
  {
  }

  /** `Valid` carries over to a snapshot that holds the same values under the
      keys it speaks of, the same matrices and timers, and allocators that have
      not gone back. */
  lemma Carry(s: Sys, t: Sys)
    requires Valid(s)
    requires Get(t, MatInitial) == Get(s, MatInitial) && Get(t, Playing) == Get(s, Playing)
    requires Get(t, Play) == Get(s, Play) && Get(t, Load) == Get(s, Load)
    requires Get(t, ImgSrc) == Get(s, ImgSrc) && Get(t, VideoSrc) == Get(s, VideoSrc)
    requires t.live == s.live && t.timers == s.timers
    requires s.nextMat <= t.nextMat && s.nextTimer <= t.nextTimer && s.nextUrl <= t.nextUrl
    ensures Valid(t) && View(t) == View(s)
  {
  }

  /** A write under a key none of the invariants speaks of leaves them and
      the playback loop's view alone. */
  lemma StoredKeeps(s: Sys, k: Key, v: Value)
    requires Valid(s) && InputKey(k)
    ensures var t := s.(values := s.values[k := v]);
      Valid(t) && View(t) == View(s)
  {
    var t := s.(values := s.values[k := v]);
    assert Get(t, MatInitial) == Get(s, MatInitial) && Get(t, Playing) == Get(s, Playing);
    assert Get(t, Play) == Get(s, Play) && Get(t, Load) == Get(s, Load);
    assert Get(t, ImgSrc) == Get(s, ImgSrc) && Get(t, VideoSrc) == Get(s, VideoSrc);
    Carry(s, t);
  }

  /** As `Carry`, for a snapshot whose matrices have changed hands but are
      still owned. */
  lemma CarryOwned(s: Sys, t: Sys)
    requires Valid(s) && MatsOk(t)
    requires Get(t, Playing) == Get(s, Playing)
    requires Get(t, Play) == Get(s, Play) && Get(t, Load) == Get(s, Load)
    requires Get(t, ImgSrc) == Get(s, ImgSrc) && Get(t, VideoSrc) == Get(s, VideoSrc)
    requires t.timers == s.timers && s.nextTimer <= t.nextTimer && s.nextUrl <= t.nextUrl
    ensures Valid(t) && View(t) == View(s)
  {
  }

  /** A differing write under a stage key, through the trap: the invariants
      and the playback loop's view hold; the bound stage runs once exactly when
      the policy asks for a re-run, and not at all otherwise; a throw is
      OpenCV's and leaves the stored matrix as it was. */
  lemma StageInputKeeps(s: Sys, k: Key, v: Value, w: World)
    requires Valid(s) && IsStage(k) && Get(s, k) != v
    ensures var f := Set(s, k, v, w);
      Valid(f.sys) && View(f.sys) == View(s) && f.sys.proxies == s.proxies
      && f.sys.runs == s.runs + (if Reruns(k, v) && Get(s, Load).Stage? then 1 else 0)
      && (f.r.Threw? ==> f.r == Threw(CvError) && Get(f.sys, MatInitial) == Get(s, MatInitial))
  {
    ObservedValid(s, k, v);
    if Reruns(k, v) && Get(s, Load).Stage? {
      var source := Get(s, Load).source;
      var s1 := Observed(s, k, v);
      if w.cvFails(FrameOf(s1, source, CanvasFor(s1, w.natural(source)))) {
        StageFails(s, k, v, w);
        FailedRunValid(s, s1, source, w);
      } else {
        StageReplaces(s, k, v, w);
        ReplacedValid(s, s1, source, w);
      }
    } else {
      StageSkips(s, k, v, w);
    }
  }

  /** The observer of a stage key keeps the invariants. */
  lemma ObservedValid(s: Sys, k: Key, v: Value)
    requires Valid(s) && IsStage(k)
    ensures var s1 := Observed(s, k, v);
      Valid(s1) && View(s1) == View(s) && s1.proxies == s.proxies && s1.runs == s.runs
      && Get(s1, Load) == Get(s, Load) && Get(s1, MatInitial) == Get(s, MatInitial) && s1.nextMat == s.nextMat
  {
    StoredKeeps(s, k, v);
  }

  /** A stage run that fails keeps the invariants and the stored matrix. */
  lemma FailedRunValid(s: Sys, s1: Sys, source: Source, w: World)
    requires Valid(s1)
    ensures var s2 := Sized(s1, source, w); var t := s2.(ui := s2.ui + [Alert]);
      Valid(t) && View(t) == View(s1) && t.proxies == s1.proxies && t.runs == s1.runs + 1
      && Get(t, MatInitial) == Get(s1, MatInitial)
  {
    var s2 := Sized(s1, source, w);
    Carry(s1, s2.(ui := s2.ui + [Alert]));
  }

  /** A stage run that succeeds keeps the invariants: the new matrix is owned. */
  lemma ReplacedValid(s: Sys, s1: Sys, source: Source, w: World)
    requires Valid(s1)
    ensures var t := Sized(s1, source, w).(values := s1.values[MatInitial := Mat(s1.nextMat)], live := {s1.nextMat});
      Valid(t) && View(t) == View(s1) && t.proxies == s1.proxies && t.runs == s1.runs + 1
  {
    var t := Sized(s1, source, w).(values := s1.values[MatInitial := Mat(s1.nextMat)], live := {s1.nextMat});
    assert Get(t, Playing) == Get(s1, Playing) && Get(t, Play) == Get(s1, Play) && Get(t, Load) == Get(s1, Load);
    assert Get(t, ImgSrc) == Get(s1, ImgSrc) && Get(t, VideoSrc) == Get(s1, VideoSrc);
    CarryOwned(s1, t);
  }

  /** An input element's change handler keeps the invariants and the playback
      loop's view, and runs the bound stage exactly once when the element is
      valid, the value changed and the policy asks for a re-run. */
  lemma InputKeeps(s: Sys, valid: bool, k: Key, v: Value, w: World)
    requires Valid(s) && InputKey(k)
    ensures var f := Input(s, valid, k, v, w);
      Valid(f.sys) && View(f.sys) == View(s) && f.sys.proxies == s.proxies
      && f.sys.runs == s.runs + (if valid && Get(s, k) != v && Reruns(k, v) && Get(s, Load).Stage? then 1 else 0)
      && (f.r.Threw? ==> f.r == Threw(CvError) && Get(f.sys, MatInitial) == Get(s, MatInitial))
  {
    if valid && Get(s, k) != v {
      if IsStage(k) {
        StageInputKeeps(s, k, v, w);
      } else {
        OptionWrite(s, k, v, w);
        StoredKeeps(s, k, v);
      }
    }
  }

  /** A write of `play`, as `Valid` sees it. */
  lemma PlayStored(s: Sys, on: bool)
    requires Valid(s)
    ensures var t := s.(values := s.values[Play := Bool(on)]);
      Valid(t) && t.timers == s.timers && Get(t, Playing) == Get(s, Playing)
      && View(t) == PB.Playback(on, s.timers != [])
  {
    var t := s.(values := s.values[Play := Bool(on)]);
    assert Get(t, MatInitial) == Get(s, MatInitial) && Get(t, Playing) == Get(s, Playing) && Get(t, Load) == Get(s, Load);
    assert Get(t, ImgSrc) == Get(s, ImgSrc) && Get(t, VideoSrc) == Get(s, VideoSrc);
  }

  /** `load_play` and `set_play`: the handler keeps the invariants, never
      throws and never runs the stage, stores whether the video plays, and moves
      the playback loop as `Playback.Step` says for a write of that flag: an
      equal write changes nothing, turning play off leaves a pending tick
      pending, and turning it on schedules a tick only when none is pending. */
  lemma LoadPlayFollows(s: Sys, paused: bool, ended: bool, w: World)
    requires Valid(s)
    ensures var f := LoadPlay(s, paused, ended, w);
      Valid(f.sys) && f.r == Ok && f.sys.runs == s.runs && f.sys.proxies == s.proxies
      && Get(f.sys, Play) == Bool(!paused && !ended)
      && View(f.sys) == PB.Step(View(s), PB.WritePlay(!paused && !ended))
  {
    var on := !paused && !ended;
    if Get(s, Play) != Bool(on) {
      PlayWrite(s, Bool(on), w);
      PlayStored(s, on);
      var s1 := s.(values := s.values[Play := Bool(on)]);
      if on && !Truthy(Get(s, Playing)) {
        var t := s1.(values := s1.values[Playing := Timer(s.nextTimer)],
                     timers := s.timers + [PendingTimer(s.nextTimer, 0.0)], nextTimer := s.nextTimer + 1);
        assert Get(t, MatInitial) == Get(s1, MatInitial) && Get(t, Play) == Get(s1, Play) && Get(t, Load) == Get(s1, Load);
        assert Get(t, ImgSrc) == Get(s1, ImgSrc) && Get(t, VideoSrc) == Get(s1, VideoSrc);
        assert Get(t, Playing) == Timer(s.nextTimer);
      }
    }
  }

  /** `load_img` keeps the invariants, the playback loop's view and `load`,
      and runs the stage once; a failure is OpenCV's and leaves the stored and
      live matrices as they were, a success stores the new matrix as the only
      one alive. */
  lemma RunKeeps(s: Sys, source: Source, w: World)
    requires Valid(s)
    ensures var d := LoadImg(s, source, w);
      Valid(d.sys) && View(d.sys) == View(s) && d.sys.proxies == s.proxies && d.sys.runs == s.runs + 1
      && Get(d.sys, Load) == Get(s, Load)
      && (d.r.Threw? ==> d.r == Threw(CvError) && Get(d.sys, MatInitial) == Get(s, MatInitial) && d.sys.live == s.live)
      && (d.r.Ok? ==> Get(d.sys, MatInitial) == Mat(s.nextMat) && d.sys.live == {s.nextMat})
  {
    LoadImgOwns(s, source, w);
    var s2 := Sized(s, source, w);
    if w.cvFails(FrameOf(s, source, CanvasFor(s, w.natural(source)))) {
      Carry(s, s2);
    } else {
      ReplacedValid(s, s, source, w);
      var t := s2.(values := s.values[MatInitial := Mat(s.nextMat)], live := {s.nextMat});
      assert Get(t, Load) == Get(s, Load) && Get(t, MatInitial) == Mat(s.nextMat);
    }
  }

  /** `load_load`: afterwards `load` is the stage of the element that loaded,
      and it has run exactly once; the invariants and the view hold. */
  lemma LoadLoadBinds(s: Sys, source: Source, w: World)
    requires Valid(s)
    ensures var d := LoadLoad(s, source, w);
      Get(d.sys, Load) == Stage(source) && d.sys.runs == s.runs + 1
      && Valid(d.sys) && View(d.sys) == View(s) && d.sys.proxies == s.proxies
      && (d.r.Threw? ==> d.r == Threw(CvError) && Get(d.sys, MatInitial) == Get(s, MatInitial) && d.sys.live == s.live)
      && (d.r.Ok? ==> Get(d.sys, MatInitial) == Mat(s.nextMat) && d.sys.live == {s.nextMat})
  {
    Quiet(s, Load, Stage(source), w);
    var s1 := Set(s, Load, Stage(source), w).sys;
    assert Get(s1, Load) == Stage(source) && s1.live == s.live && s1.nextMat == s.nextMat && s1.runs == s.runs;
    assert Get(s1, MatInitial) == Get(s, MatInitial) && Get(s1, Playing) == Get(s, Playing) && Get(s1, Play) == Get(s, Play);
    assert Get(s1, ImgSrc) == Get(s, ImgSrc) && Get(s1, VideoSrc) == Get(s, VideoSrc);
    assert Valid(s1) && View(s1) == View(s);
    RunKeeps(s1, source, w);
  }

  /** Seeking the video runs the video stage once, unbound, with the same
      guarantees as any stage run. */
  lemma SeekedKeeps(s: Sys, w: World)
    requires Valid(s)
    ensures var d := Seeked(s, w);
      Valid(d.sys) && View(d.sys) == View(s) && d.sys.runs == s.runs + 1 && Get(d.sys, Load) == Get(s, Load)
  {
    RunKeeps(s, FromVideo, w);
  }

  /** The tick's unguarded `state.load()`, with the fired timer consumed: it
      runs the bound stage, or throws a TypeError having changed nothing when
      none is bound. */
  lemma TickLoad(s: Sys, w: World)
    requires Valid(s) && s.timers != []
    ensures var s0 := s.(timers := []);
      var d := CallLoad(s0, w);
      d.sys.timers == [] && d.sys.nextTimer == s.nextTimer && d.sys.proxies == s.proxies
      && Get(d.sys, Play) == Get(s, Play) && Get(d.sys, Fps) == Get(s, Fps) && Get(d.sys, Load) == Get(s, Load)
      && Get(d.sys, ImgSrc) == Get(s, ImgSrc) && Get(d.sys, VideoSrc) == Get(s, VideoSrc)
      && MatsOk(d.sys) && s.nextMat <= d.sys.nextMat && s.nextUrl <= d.sys.nextUrl
      && d.sys.runs == s.runs + (if Get(s, Load).Stage? then 1 else 0)
      && (!Get(s, Load).Stage? ==> d == Done(s0, Threw(TypeError)))
      && (d.r.Threw? ==> d.r == Threw(CvError) || d.r == Threw(TypeError))
  {
    var s0 := s.(timers := []);
    if Get(s, Load).Stage? {
      var source := Get(s, Load).source;
      BoundCall(s0, w);
      LoadImgOwns(s0, source, w);
      var s2 := Sized(s0, source, w);
      if !w.cvFails(FrameOf(s0, source, CanvasFor(s0, w.natural(source)))) {
        var t := s2.(values := s0.values[MatInitial := Mat(s0.nextMat)], live := {s0.nextMat});
        assert Get(t, Play) == Get(s, Play) && Get(t, Fps) == Get(s, Fps) && Get(t, Load) == Get(s, Load);
        assert Get(t, ImgSrc) == Get(s, ImgSrc) && Get(t, VideoSrc) == Get(s, VideoSrc);
        assert Get(t, MatInitial) == Mat(s0.nextMat);
      }
    }
  }

  /** The playback tick. With a tick pending it runs `load` once when bound
      and throws a TypeError when not; after a throw `playing` is cleared and
      nothing is pending; after a run with `play` on exactly one tick is
      pending again, after `FrameWait` of the configured fps and the time the
      run took, under a fresh handle that `playing` holds; with `play` off
      `playing` is cleared and nothing is pending. */
  lemma TickRuns(s: Sys, elapsed: real, w: World)
    requires Valid(s) && s.timers != []
    ensures var d := Tick(s, elapsed, w);
      d.sys.runs == s.runs + (if Get(s, Load).Stage? then 1 else 0)
      && (!Get(s, Load).Stage? ==> d.r == Threw(TypeError))
      && (d.r.Threw? ==> Get(d.sys, Playing) == Undefined && d.sys.timers == [])
      && (d.r.Ok? && Truthy(Get(s, Play)) ==>
            d.sys.timers == [PendingTimer(s.nextTimer, FrameWait(Get(s, Fps), elapsed))]
            && Get(d.sys, Playing) == Timer(s.nextTimer))
      && (d.r.Ok? && !Truthy(Get(s, Play)) ==> d.sys.timers == [] && Get(d.sys, Playing) == Undefined)
  {
    assert s.timers[1..] == [];
    TickLoad(s, w);
    var d := CallLoad(s.(timers := []), w);
    if d.r.Threw? || !Truthy(Get(d.sys, Play)) {
      Quiet(d.sys, Playing, Undefined, w);
    } else {
      var t := d.sys.nextTimer;
      var s1 := d.sys.(timers := d.sys.timers + [PendingTimer(t, FrameWait(Get(d.sys, Fps), elapsed))], nextTimer := t + 1);
      Quiet(s1, Playing, Timer(t), w);
    }
  }

  /** The tick keeps the invariants and moves the playback loop as
      `Playback.Step` says for a firing with its outcome. */
  lemma TickFollows(s: Sys, elapsed: real, w: World)
    requires Valid(s)
    ensures var d := Tick(s, elapsed, w);
      Valid(d.sys) && View(d.sys) == PB.Step(View(s), PB.Fire(d.r.Ok?)) && d.sys.proxies == s.proxies
  {
    if s.timers != [] {
      assert s.timers[1..] == [];
      TickLoad(s, w);
      TickRuns(s, elapsed, w);
      var d := CallLoad(s.(timers := []), w);
      var e := Tick(s, elapsed, w);
      assert Get(e.sys, MatInitial) == Get(d.sys, MatInitial) && e.sys.live == d.sys.live && e.sys.nextMat == d.sys.nextMat by {
        if d.r.Threw? || !Truthy(Get(d.sys, Play)) {
          Quiet(d.sys, Playing, Undefined, w);
        } else {
          var t := d.sys.nextTimer;
          var s1 := d.sys.(timers := d.sys.timers + [PendingTimer(t, FrameWait(Get(d.sys, Fps), elapsed))], nextTimer := t + 1);
          Quiet(s1, Playing, Timer(t), w);
        }
      }
      assert Get(e.sys, Play) == Get(s, Play) && Get(e.sys, Load) == Get(s, Load)
          && Get(e.sys, ImgSrc) == Get(s, ImgSrc) && Get(e.sys, VideoSrc) == Get(s, VideoSrc)
          && s.nextTimer <= e.sys.nextTimer && s.nextUrl <= e.sys.nextUrl && e.sys.proxies == s.proxies by {
        if d.r.Threw? || !Truthy(Get(d.sys, Play)) {
          Quiet(d.sys, Playing, Undefined, w);
        } else {
          var t := d.sys.nextTimer;
          var s1 := d.sys.(timers := d.sys.timers + [PendingTimer(t, FrameWait(Get(d.sys, Fps), elapsed))], nextTimer := t + 1);
          Quiet(s1, Playing, Timer(t), w);
        }
      }
    }
  }

  /** Handing out a blob URL keeps the invariants, and the new URL differs
      from every URL shown so far. */
  lemma FreshUrl(s: Sys)
    requires Valid(s)
    ensures var s1 := s.(nextUrl := s.nextUrl + 1);
      Valid(s1) && View(s1) == View(s)
      && Get(s1, ImgSrc) != ObjectUrl(s.nextUrl) && Get(s1, VideoSrc) != ObjectUrl(s.nextUrl)
  {
  }

  /** `load_src` on an image: the image is always shown, under a fresh blob
      URL, and the fps input is disabled; nothing else changes. */
  lemma LoadSrcImage(s: Sys, t: string, w: World)
    requires Valid(s) && StartsWith(t, "image")
    ensures var u := ObjectUrl(s.nextUrl);
      LoadSrc(s, Some(t), w)
        == Fired(s.(nextUrl := s.nextUrl + 1, values := s.values[ImgSrc := u],
                    ui := s.ui + [ShowImage(u), FpsDisabled(true)]), Ok, [SetImgSrc, DisableFps])
  {
    FreshUrl(s);
    ImageWrite(s.(nextUrl := s.nextUrl + 1), ObjectUrl(s.nextUrl), w);
  }

  /** `load_src` on a video: the video is always shown, under a fresh blob
      URL, with the stored playback rate and loop flag, and the fps input is
      enabled; nothing else changes. */
  lemma LoadSrcVideo(s: Sys, t: string, w: World)
    requires Valid(s) && StartsWith(t, "video")
    ensures var u := ObjectUrl(s.nextUrl);
      LoadSrc(s, Some(t), w)
        == Fired(s.(nextUrl := s.nextUrl + 1, values := s.values[VideoSrc := u],
                    ui := s.ui + [ShowVideo(u), VideoRate(Get(s, PlaybackRate)), VideoLoop(Get(s, Loop)), FpsDisabled(false)]),
                 Ok, [SetVideoSrc, EnableFps])
  {
    FreshUrl(s);
    assert !StartsWith(t, "image") by {
      assert t[..5] == "video";
    }
    VideoWrite(s.(nextUrl := s.nextUrl + 1), ObjectUrl(s.nextUrl), w);
  }

  /** `load_src` on any other type drops the payload, and on a missing type
      throws a TypeError; neither changes anything. */
  lemma LoadSrcOther(s: Sys, contentType: Option<string>, w: World)
    requires contentType.Some? ==> !StartsWith(contentType.value, "image") && !StartsWith(contentType.value, "video")
    ensures LoadSrc(s, contentType, w) == Fired(s, if contentType.None? then Threw(TypeError) else Ok, [])
  {
  }

  /** `load_src` keeps the invariants and the playback loop's view, and runs
      no stage. */
  lemma LoadSrcKeeps(s: Sys, contentType: Option<string>, w: World)
    requires Valid(s)
    ensures var f := LoadSrc(s, contentType, w);
      Valid(f.sys) && View(f.sys) == View(s) && f.sys.runs == s.runs && f.sys.proxies == s.proxies
  {
    if contentType.Some? {
      var t := contentType.value;
      var s1 := s.(nextUrl := s.nextUrl + 1);
      var u := ObjectUrl(s.nextUrl);
      if StartsWith(t, "image") {
        LoadSrcImage(s, t, w);
        var r := s1.(values := s.values[ImgSrc := u], ui := s.ui + [ShowImage(u), FpsDisabled(true)]);
        assert Get(r, MatInitial) == Get(s, MatInitial) && Get(r, Playing) == Get(s, Playing);
        assert Get(r, Play) == Get(s, Play) && Get(r, Load) == Get(s, Load) && Get(r, VideoSrc) == Get(s, VideoSrc);
        assert Get(r, ImgSrc) == u;
      } else if StartsWith(t, "video") {
        LoadSrcVideo(s, t, w);
        var r := s1.(values := s.values[VideoSrc := u],
                     ui := s.ui + [ShowVideo(u), VideoRate(Get(s, PlaybackRate)), VideoLoop(Get(s, Loop)), FpsDisabled(false)]);
        assert Get(r, MatInitial) == Get(s, MatInitial) && Get(r, Playing) == Get(s, Playing);
        assert Get(r, Play) == Get(s, Play) && Get(r, Load) == Get(s, Load) && Get(r, ImgSrc) == Get(s, ImgSrc);
        assert Get(r, VideoSrc) == u;
      }
    }
  }

  /** `load_file`: nothing happens unless the element is valid and holds a
      file; a file's type is always a string, so loading one never throws. */
  lemma LoadFileKeeps(s: Sys, valid: bool, types: seq<string>, w: World)
    requires Valid(s)
    ensures var f := LoadFile(s, valid, types, w);
      Valid(f.sys) && View(f.sys) == View(s) && f.r == Ok
      && (!valid || types == [] ==> f == Fired(s, Ok, []))
  {
    if valid && |types| > 0 {
      LoadSrcKeeps(s, Some(types[0]), w);
      if StartsWith(types[0], "image") {
        LoadSrcImage(s, types[0], w);
      } else if StartsWith(types[0], "video") {
        LoadSrcVideo(s, types[0], w);
      }
    }
  }

  /** `load_url`: nothing happens unless the element is valid. A direct answer
      is loaded as it is and the proxy list is left alone. Otherwise the proxy
      list ends up in the shuffled order, still holding the same proxies, and
      the answer of the first proxy to answer is loaded; when every request is
      rejected nothing else changes. The invariants and the playback loop's
      view hold throughout. */
  lemma LoadUrlKeeps(s: Sys, valid: bool, url: string, shuffled: seq<string>,
                     fetch: string -> Option<Response>, w: World)
    requires Valid(s) && multiset(shuffled) == multiset(s.proxies)
    ensures var f := LoadUrl(s, valid, url, shuffled, fetch, w);
      var (response, tried) := Retrieve(url, shuffled, fetch);
      Valid(f.sys) && View(f.sys) == View(s) && multiset(f.sys.proxies) == multiset(s.proxies)
      && (!valid ==> f == Fired(s, Ok, []))
      && (valid && fetch(url).Some? ==> f == LoadSrc(s, fetch(url).value.contentType, w))
      && (valid && fetch(url).None? ==> f.sys.proxies == shuffled)
      && ((valid && fetch(url).None? && forall j :: 0 <= j < |shuffled| ==> fetch(shuffled[j] + url).None?)
            ==> f == Fired(s.(proxies := shuffled), Ok, []))
      && (valid && fetch(url).None? && response.Some? ==>
            1 <= tried <= |shuffled| && (forall j :: 0 <= j < tried - 1 ==> fetch(shuffled[j] + url).None?)
            && response == fetch(shuffled[tried - 1] + url)
            && f == LoadSrc(s.(proxies := shuffled), response.value.contentType, w))
  {
    RetrieveFallsBack(url, shuffled, fetch);
    var s1 := if fetch(url).Some? then s else s.(proxies := shuffled);
    assert Valid(s1) && View(s1) == View(s);
    var (response, tried) := Retrieve(url, shuffled, fetch);
    if valid && response.Some? {
      LoadSrcKeeps(s1, response.value.contentType, w);
    }
  }
}
