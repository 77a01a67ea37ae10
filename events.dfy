/** The events the page reacts to once `main` has registered everything: an
    input element's change, the video playing or pausing, a source element
    finishing loading, the user seeking, the playback timer firing, a file
    chosen and a URL submitted. Each is a function of the snapshot before it;
    class `App.App` runs the same handlers on its fields. */
module Events {
  import opened State
  import opened Pacing
  import opened Media
  import opened Fetch
  import opened Engine
  import PB = Playback

  /** The keys an input element's change handler writes (`load_playback_rate`,
      `load_loop`, `load_hist`, `load_width`, `load_height`,
      `load_color_space`, `load_fps`, `load_initial_hist`). */
  predicate InputKey(k: Key) {
    k == PlaybackRate || k == Loop || k == Hist || k == Width || k == Height
    || k == ColorSpace || k == Fps || k == InitialHist
  }

  /** `load_<key>(el)`: when the element reports itself valid, its value is
      written through the trap; otherwise nothing happens. */
  function Input(s: Sys, valid: bool, k: Key, v: Value, w: World): Fired
    requires InputKey(k)
  {
    if valid then Set(s, k, v, w) else Fired(s, Ok, [])
  }

  /** `load_play(video_el)`, on the video's play and pause events: `play`
      becomes whether the video is playing. */
  function LoadPlay(s: Sys, paused: bool, ended: bool, w: World): Fired {
    Set(s, Play, Bool(!paused && !ended), w)
  }

  /** `load_load(load)`, when an image or a video has loaded: the stage for
      that element is bound to `load` and then run once, directly. */
  function LoadLoad(s: Sys, source: Source, w: World): Done {
    LoadImg(Set(s, Load, Stage(source), w).sys, source, w)
  }

  /** `video_el.onseeked`: the video stage runs once, without being bound. */
  function Seeked(s: Sys, w: World): Done {
    LoadImg(s, FromVideo, w)
  }

  /** The playback timer firing, `elapsed` milliseconds being what the stage
      run took. With nothing pending nothing happens. Otherwise the pending
      timer is consumed and `state.load()` runs, unguarded; if it throws,
      `playing` is cleared and the error propagates; if not, another tick is
      scheduled after `FrameWait` while `play` holds, and `playing` is cleared
      when it does not. */
  function Tick(s: Sys, elapsed: real, w: World): Done {
    if s.timers == [] then Done(s, Ok)
    else
      var d := CallLoad(s.(timers := s.timers[1..]), w);
      if d.r.Threw? then Done(Set(d.sys, Playing, Undefined, w).sys, d.r)
      else if Truthy(Get(d.sys, Play)) then
        var t := d.sys.nextTimer;
        var s1 := d.sys.(timers := d.sys.timers + [PendingTimer(t, FrameWait(Get(d.sys, Fps), elapsed))], nextTimer := t + 1);
        Done(Set(s1, Playing, Timer(t), w).sys, Ok)
      else Done(Set(d.sys, Playing, Undefined, w).sys, Ok)
  }

  /** `load_src(src, type)`: a payload whose type starts with "image" gets a
      fresh blob URL written to `img_src`, one starting with "video" to
      `video_src`, and any other is dropped. A missing Content-Type header
      (`null`) makes `type.startsWith` throw a TypeError. */
  function LoadSrc(s: Sys, contentType: Option<string>, w: World): Fired {
    match contentType
    case None => Fired(s, Threw(TypeError), [])
    case Some(t) =>
      match TargetFor(t)
      case None => Fired(s, Ok, [])
      case Some(k) => Set(s.(nextUrl := s.nextUrl + 1), k, ObjectUrl(s.nextUrl), w)
  }

  /** `load_file(input_file_el)`: when the element is valid and holds a file,
      the first file is loaded with the type the browser gives it. */
  function LoadFile(s: Sys, valid: bool, types: seq<string>, w: World): Fired {
    if valid && |types| > 0 then LoadSrc(s, Some(types[0]), w) else Fired(s, Ok, [])
  }

  /** `load_url(input_url_el, proxies)`: when the element is valid, the URL is
      retrieved directly or through the proxies, and an answer is loaded. The
      proxy list is shuffled in place, `shuffled` being the order the shuffle
      picks, only when the direct fetch is rejected. */
  function LoadUrl(s: Sys, valid: bool, url: string, shuffled: seq<string>,
                   fetch: string -> Option<Response>, w: World): Fired
    requires multiset(shuffled) == multiset(s.proxies)
  {
    if !valid then Fired(s, Ok, [])
    else
      var s1 := if fetch(url).Some? then s else s.(proxies := shuffled);
      var (response, _) := Retrieve(url, shuffled, fetch);
      if response.None? then Fired(s1, Ok, [])
      else LoadSrc(s1, response.value.contentType, w)
  }

  /** The playback loop as `Playback.Playback` sees it: whether `play` is on
      and whether a tick is pending. */
  function View(s: Sys): PB.Playback {
    PB.Playback(Truthy(Get(s, Play)), s.timers != [])
  }
}
