# Reactive state and dispatch engine of the image/video pipeline page

This project models, in Dafny, the engine behind the page in `js/index.js`.

- **The store.** A `Proxy` over a plain object. Its set trap drops a write equal to the current value. A differing write is stored first. Then the observers registered for that key run in registration order. When one throws, the trap alerts and rethrows: the later observers are skipped and the value stays stored.
- **The observers `main` registers.** Two of them update the video element (`set_playback_rate`, `set_loop`). Two show the image or the video; `img_src` and `video_src` each carry a second observer that disables or enables the fps input. Five re-run the bound stage (`set_hist`, `set_width`, `set_height`, `set_color_space`, `set_initial_hist`). `set_play` starts the playback loop.
- **The stage.** `load_load` binds `load_img` for the element that finished loading and runs it once. `load_img` sizes the canvas: a configured width or height wins, else the element's displayed size. It reads a new OpenCV matrix and hands it to OpenCV. On failure it deletes the new matrix and rethrows. On success it deletes the previous matrix and stores the new one in `mat_initial`.
- **The playback loop.** `set_play` keeps at most one tick pending, its handle held in `playing`. Each tick calls `state.load()` without checking that a stage is bound. After that it either schedules the next tick after what is left of the frame interval, or clears `playing`. A throw clears `playing` and propagates.
- **Loading a source.** `load_file` and `load_url` hand a payload to `load_src`. `load_url` tries a direct fetch first. When that is rejected it shuffles the proxy list in place and asks the proxies one at a time, stopping at the first that answers. `load_src` routes the payload by MIME prefix: `image…` goes to `img_src`, `video…` goes to `video_src`, anything else is dropped.

The project is organised as follows:

- `state.dfy`: keys, values, observers and the registration table (`Callbacks`), plus the propagation policy (`IsStage`, `Reruns`) and the page effects of each observer.
- `pacing.dfy`: canvas-size coalescing and the frame wait.
- `media.dfy`: the MIME dispatch.
- `fetch.dfy`: the proxy fallback.
- `engine.dfy`: the semantics as functions of a snapshot `Sys`.
  - `Set` is the set trap and `Notify` its observer loop.
  - `Invoke` runs one observer; `CallLoad` is `state.load()`.
  - `LoadImg`/`KeepMat` are `load_img`.
  - It also holds the invariant `Valid`: matrices owned, single-flight timers, `play` a flag, `load` a stage, blob URLs handed out.
- `events.dfy`: the event handlers as functions of the snapshot.
- `cascade.dfy`: exact characterisations of the trap for each kind of key.
- `invariants.dfy`: what every handler preserves, and how the playback loop follows the state machine in `playback.dfy`.
- `app.dfy`: the page as class `App.App`. Its fields are updated in place, the set trap is a loop over the observer list, and observers write back through the trap recursively. Each method is proved to leave exactly the snapshot the matching function in `Engine` or `Events` computes.

Writes made from inside observers go to keys with no observer that can write again: `mat_initial` from `load_img`, `playing` from `set_play`. The functions model those writes with `Store`, and `Cascade.Quiet` proves that the trap on such a key is exactly `Store`. The class methods call the real trap there.

The page and OpenCV enter the model as the parameter `World`:

- the displayed size of each element;
- which stage inputs make an OpenCV call throw.

Fetch outcomes, the proxy order the shuffle produces and the time a stage run took are parameters of the events that use them.

The first tick after play turns on is scheduled with no delay (`setTimeout(callback)`, `js/index.js:328`); the frame wait `max(0, 1000/fps − elapsed)` applies only when a tick reschedules itself (`js/index.js:321`).

## Model

| member | source | states |
|---|---|---|
| State.Registered | js/index.js:364-467 | every observer `main` registers sits in the list of its own key, once |
| Pacing.Coalesce | js/index.js:234-238 | a configured size of at least one pixel wins, truncated to whole pixels; anything else (unset, zero, below one) falls back to the displayed size |
| Pacing.FrameWait | js/index.js:319-321 | the wait is never negative; it is 0 when fps is not positive; otherwise elapsed + wait reaches the frame interval 1000/fps exactly when the run was shorter, and the wait is 0 when it was longer |
| Media.TargetFor | js/index.js:119-123 | the payload goes to `img_src` iff its type starts with "image", to `video_src` iff it starts with "video", and nowhere iff neither |
| Fetch.FirstProxyAnswers | js/index.js:167-178 | asking proxies from index i stops at the first that answers: all before it were rejected, the answer is that proxy's, and there is no answer iff every proxy from i on was rejected, in which case all were asked |
| Fetch.RetrieveFallsBack | js/index.js:160-179 | the direct answer is used when there is one and then no proxy is asked; otherwise the first proxy to answer; no answer iff the direct fetch and every proxy were rejected |
| Fetch.TryProxies | js/index.js:167-178 | the `proxy_index` loop returns the first proxy answer and the final index, as `FromProxies` defines them |
| Playback.StoppedUntilToggled | js/index.js:309-326 | after a failed tick (play still on, nothing pending) no play write other than false and no timer firing restarts the loop or fires a tick |
| Playback.DrainsAfterStop | js/index.js:309-321 | turning play off does not cancel the pending tick: while play stays off at most that one tick fires, and after it nothing is pending |
| Playback.KeepsPlaying | js/index.js:312-321 | while play stays on and every run succeeds, exactly one tick stays pending and every firing runs the stage |
| Playback.ToggleResumes | js/index.js:305-310 | after a failure, writing play false then true schedules a fresh tick |
| Cascade.Quiet | js/index.js:10-25 | a write to `mat_initial`, `playing` or `load` stores the value (nothing when equal) and returns normally, running only observers that change nothing |
| Cascade.LoadImgOwns | js/index.js:233-257 | with the matrices owned, a stage run either fails with the new matrix deleted and `mat_initial` untouched, or stores the new matrix as the only live one, the previous one deleted; the canvas is sized and the run counted either way |
| Cascade.NotifyRan | js/index.js:17-18 | the observer loop runs a prefix of the key's observers in registration order; all of them when none throws, and when one throws it is the last run and is a stage observer |
| Cascade.NotifyStops | js/index.js:17-22 | once an observer has thrown, the loop runs no later observer and changes nothing more |
| Cascade.SetRan | js/index.js:10-25 | an equal write changes nothing and runs no observer; a differing write runs the key's observers in order, each once, all of them unless one throws, and only a stage observer can throw |
| Cascade.ImageWrite | js/index.js:124-134 | a new `img_src` is stored, the image shown and the fps input disabled, by `set_img_src` then the pushed observer, in that order |
| Cascade.VideoWrite | js/index.js:135-147 | a new `video_src` is stored, the video shown, the stored playback rate and loop re-applied, and the fps input enabled, in that order |
| Cascade.OptionWrite | js/index.js:97-115 | a new playback rate or loop flag is stored and applied to the video and nothing else happens; a new fps is only stored |
| Cascade.PlayWrite | js/index.js:309-328 | a new `play` is stored; a tick with no delay is scheduled and its handle stored in `playing` exactly when play turns on with no tick pending |
| Cascade.StageWrite | js/index.js:211-215 | a new value under a stage key is stored and its observer's page effect made; the bound stage runs once when the policy says re-run and a stage is bound, and a throw from it alerts and propagates |
| Cascade.StageSkips | js/index.js:269-294 | with no stage bound, or a histogram toggle switched off, a stage-key write only stores the value and makes the page effect |
| Cascade.StageFails | js/index.js:242-253 | a re-run that OpenCV rejects leaves `mat_initial` and the live matrices as they were, alerts and rethrows the OpenCV error |
| Cascade.StageReplaces | js/index.js:254-256 | a re-run that succeeds makes the new matrix the value of `mat_initial` and the only live matrix |
| Invariants.InitValid | js/index.js:6-8 | the page after registration satisfies the invariant, with play off and no tick pending |
| Invariants.StageInputKeeps | js/index.js:264-294 | a stage-key write keeps the invariant and the playback loop; it runs the stage once iff the policy says re-run and a stage is bound; a failure is an OpenCV error that leaves `mat_initial` unchanged |
| Invariants.InputKeeps | js/index.js:264-300 | an input change handler keeps the invariant and the playback loop; it runs the stage exactly when it is valid, the value changed, the policy says re-run and a stage is bound |
| Invariants.LoadPlayFollows | js/index.js:305-310 | `load_play` stores whether the video is playing, keeps the invariant, never throws, runs no stage, and moves the playback loop as the state machine's `WritePlay` step |
| Invariants.RunKeeps | js/index.js:233-257 | a stage run keeps the invariant, the binding and the playback loop, is counted once, and either leaves matrices as they were (on an OpenCV error) or owns exactly the new one |
| Invariants.LoadLoadBinds | js/index.js:228-232 | `load_load` leaves the given stage bound and has run it exactly once, keeping the invariant and matrix ownership |
| Invariants.SeekedKeeps | js/index.js:427-431 | seeking runs the video stage once without rebinding, keeping the invariant |
| Invariants.TickRuns | js/index.js:312-326 | a tick runs the stage once when one is bound and throws a TypeError when none is; after a throw `playing` is cleared and nothing is pending; after a run with play on exactly one tick is pending after `FrameWait`, with its handle in `playing`; with play off `playing` is cleared |
| Invariants.TickFollows | js/index.js:312-328 | every tick keeps the invariant and moves the playback loop as the state machine's `Fire` step with the run's outcome |
| Invariants.LoadSrcImage | js/index.js:119-121 | an image payload gets a fresh blob URL written to `img_src`, with the image observers' effects |
| Invariants.LoadSrcVideo | js/index.js:119-122 | a video payload gets a fresh blob URL written to `video_src`, with the video observers' effects |
| Invariants.LoadSrcOther | js/index.js:119-123 | any other type is dropped with no change; a missing type throws a TypeError with no change |
| Invariants.LoadSrcKeeps | js/index.js:119-123 | `load_src` keeps the invariant and the playback loop and runs no stage |
| Invariants.LoadFileKeeps | js/index.js:151-154 | `load_file` keeps the invariant and never throws; an invalid element or no file changes nothing |
| Invariants.LoadUrlKeeps | js/index.js:155-182 | `load_url` keeps the invariant; the proxy list stays a permutation of itself and is shuffled only when the direct fetch is rejected; the direct answer is loaded when there is one; otherwise the first proxy answer is loaded, every earlier proxy having been rejected; when all are rejected nothing but the proxy order changes |
| App.App.constructor | js/index.js:6-8 | the page starts with an empty store, no live matrix, no timer and the given proxies |
| App.App.Set | js/index.js:10-25 | the trap with its observer loop leaves the page exactly as `Engine.Set` says, with the observers it ran |
| App.App.Invoke | js/index.js:18-18 | one observer run leaves the page as `Engine.Invoke` says |
| App.App.PlayObserver | js/index.js:309-328 | `set_play` leaves the page as `Engine.Invoke` says for it |
| App.App.CallLoad | js/index.js:317-317 | `state.load()` runs the bound stage or throws a TypeError, as `Engine.CallLoad` says |
| App.App.LoadImg | js/index.js:233-257 | `load_img` leaves the page as `Engine.LoadImg` says |
| App.App.KeepMat | js/index.js:254-256 | deleting the previous matrix and storing the new one leaves the page as `Engine.KeepMat` says |
| App.App.Input | js/index.js:264-268 | an input change handler leaves the page as `Events.Input` says |
| App.App.LoadPlay | js/index.js:305-308 | `load_play` leaves the page as `Events.LoadPlay` says |
| App.App.LoadLoad | js/index.js:228-232 | `load_load` leaves the page as `Events.LoadLoad` says |
| App.App.Seeked | js/index.js:427-431 | `onseeked` leaves the page as `Events.Seeked` says |
| App.App.Tick | js/index.js:312-327 | a tick leaves the page as `Events.Tick` says |
| App.App.LoadSrc | js/index.js:119-123 | `load_src` leaves the page as `Events.LoadSrc` says |
| App.App.LoadFile | js/index.js:151-154 | `load_file` leaves the page as `Events.LoadFile` says |
| App.App.LoadUrl | js/index.js:155-182 | `load_url` leaves the page as `Events.LoadUrl` says |

## Left out

- `plot_hist` (`js/index.js:36-84`) and the OpenCV calls in `load_img` (`imread`, `cvtColor`, `imshow`): these are foreign-library work on pixels. What OpenCV is asked to do is the `Frame` of a run; whether it throws comes from `World.cvFails`.
- DOM and browser details become page effects (`UiEffect`) or parameters:
  - element visibility and `disabled` flags, `window.alert` and `URL.createObjectURL` (blob URLs are fresh numbers);
  - `reportValidity` becomes a `valid` flag;
  - `video_el.paused`/`ended` become flags;
  - element sizes become `World.natural`.
- `console.log` (the trap's log and `set_mat_initial`) has no effect on the state and is not modelled.
- `change`, `load_drag` and `load_drop` are not modelled. They only dispatch `change` or click events, which reach the modelled handlers (`App.App.Input`, `App.App.LoadFile`, `App.App.LoadUrl`).
- The initial `change(...)` calls in `main` are the same handlers run as events. The model starts from the registration table as it stands once `main` has finished. The window during `main` in which `img_src`/`video_src` have only their first observer (`js/index.js:375-376` versus `456-457`) is not modelled.
- Real time:
  - `setTimeout` becomes a queue of pending timers with fresh handles; a tick is the event `Tick`.
  - `performance.now()` becomes the `elapsed` parameter.
  - Delays are `real` milliseconds rather than floating point.
- Asynchrony:
  - `fetch` becomes a function from URL to an optional response;
  - `response.blob()` and the response body are not modelled;
  - each `load_url` runs to completion with no other event interleaved at its `await`s.
- `Math.random` in the shuffle becomes the `shuffled` parameter, which may be any permutation of the proxy list.
- The shuffled proxy list is held as a `seq` the method replaces, not an array sorted in place.
- Loose `==` in the trap (`js/index.js:12`) is modelled as structural equality on `Value`. Coercing comparisons such as `"1" == 1` are not modelled.
- Each bound stage closure is a `Stage(source)` value. Two bindings for the same element are therefore equal and the second write is dropped. In the program every closure is new, so the write is stored, but `load` has no observer and no behaviour differs.
- Input values are abstract `Value`s: numbers are `Num`, and the string-to-number coercions JavaScript applies to `state.width`, `state.height` and `state.fps` are not modelled.
- `Pacing.Coalesce`: a configured size below zero falls back to the displayed size, and a size of 2^31 or more is kept as its floor. The canvas stores its width and height as 32-bit unsigned values (WebIDL `unsigned long` conversion), so in the browser such sizes become the default 300×150 or wrap modulo 2^32; that conversion is not modelled.
- Page setters are assumed not to throw: the observers that only touch the page (`set_playback_rate`, `set_loop`, `set_img_src`, `set_video_src` and the fps-input observers) always return normally, so only the stage observers can throw (`State.MayThrow`). In the browser `video_el.playbackRate = …` (`js/index.js:103`, again at `145`) throws NotSupportedError for an unsupported rate, such as a negative one, and `reportValidity()` (`js/index.js:99`) is the only check on the input. Such a throw would make the trap alert and rethrow. On a `video_src` write it would also skip the fps observer pushed at `js/index.js:457`, leaving the fps input disabled. The model does not capture this case.
- Cascade.VideoWrite: returns `Ok` with both observers run for every value, because page setters are taken not to throw; the failing `playbackRate` case is not modelled.
- Cascade.OptionWrite: returns `Ok` for every playback rate, under the same assumption.
- Cascade.NotifyRan: says a throwing observer is a stage observer, which holds only under the same assumption.
- Cascade.SetRan: says only a stage observer can throw, which holds only under the same assumption.
- `py/hook.py` is not part of this model: it is a training hook outside the page's engine.
