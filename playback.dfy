/** The playback loop as a state machine: whether the `play` flag is on and
    whether a tick is pending. Class App's `LoadPlay` and `Tick` are proved to
    follow `Step`; the lemmas here are what that means over many events. */
module Playback {

  datatype Playback = Playback(play: bool, pending: bool)

  /** A write of the `play` flag, or the pending timer firing with the outcome
      of the stage run it makes. */
  datatype Event = WritePlay(on: bool) | Fire(loadOk: bool)

  function Step(s: Playback, e: Event): Playback {
    match e
    case WritePlay(on) =>
      if on == s.play then s                // an equal write is dropped by the set trap
      else if !on then s.(play := false)    // set_play returns; the pending timer is not cancelled
      else if s.pending then s.(play := true)  // single flight: a tick is already pending
      else Playback(true, true)
    case Fire(ok) =>
      if !s.pending then s                  // no timer, nothing fires
      else Playback(s.play, ok && s.play)   // reschedule only after a successful run with play on
  }

  function Run(s: Playback, evs: seq<Event>): Playback
    decreases |evs|
  {
    if evs == [] then s else Run(Step(s, evs[0]), evs[1..])
  }

  /** The number of ticks that actually fire, each of which runs the stage once. */
  function Ticks(s: Playback, evs: seq<Event>): nat
    decreases |evs|
  {
    if evs == [] then 0
    else (if evs[0].Fire? && s.pending then 1 else 0) + Ticks(Step(s, evs[0]), evs[1..])
  }

  /** After a failed tick (play on, nothing pending) the loop stays stopped, and
      runs the stage no more, until the flag is written false: writing true again
      is an equal write. */
  lemma {:induction false} StoppedUntilToggled(s: Playback, evs: seq<Event>)
    requires s.play && !s.pending
    requires forall i :: 0 <= i < |evs| ==> evs[i] != WritePlay(false)
    ensures Run(s, evs) == s && Ticks(s, evs) == 0
    decreases |evs|
  {
    if evs != [] {
      assert Step(s, evs[0]) == s;
      assert forall i :: 0 <= i < |evs[1..]| ==> evs[1..][i] == evs[i + 1];
      StoppedUntilToggled(s, evs[1..]);
    }
  }

  /** Turning play off does not cancel the pending tick: while the flag stays
      off, at most that one tick fires, it runs the stage once, and afterwards
      nothing is pending. */
  lemma {:induction false} DrainsAfterStop(s: Playback, evs: seq<Event>)
    requires !s.play
    requires forall i :: 0 <= i < |evs| ==> evs[i] != WritePlay(true)
    ensures Ticks(s, evs) <= (if s.pending then 1 else 0)
    ensures !Run(s, evs).play
    ensures Ticks(s, evs) == 1 || !s.pending ==> !Run(s, evs).pending
    decreases |evs|
  {
    if evs != [] {
      assert forall i :: 0 <= i < |evs[1..]| ==> evs[1..][i] == evs[i + 1];
      DrainsAfterStop(Step(s, evs[0]), evs[1..]);
    }
  }

  /** The number of timer firings among `evs`. */
  function Firings(evs: seq<Event>): nat
    decreases |evs|
  {
    if evs == [] then 0 else (if evs[0].Fire? then 1 else 0) + Firings(evs[1..])
  }

  /** While the flag stays on and every run succeeds, the loop keeps exactly one
      tick pending and every firing runs the stage. */
  lemma {:induction false} KeepsPlaying(s: Playback, evs: seq<Event>)
    requires s.play && s.pending
    requires forall i :: 0 <= i < |evs| ==> evs[i] == Fire(true) || evs[i] == WritePlay(true)
    ensures Run(s, evs) == s
    ensures Ticks(s, evs) == Firings(evs)
    decreases |evs|
  {
    if evs != [] {
      assert Step(s, evs[0]) == s;
      assert forall i :: 0 <= i < |evs[1..]| ==> evs[1..][i] == evs[i + 1];
      KeepsPlaying(s, evs[1..]);
    }
  }

  /** Playback resumes after a failure once the flag goes off and on again:
      the second write schedules a fresh tick. */
  lemma ToggleResumes(s: Playback)
    requires s.play && !s.pending
    ensures Run(s, [WritePlay(false), WritePlay(true)]) == Playback(true, true)
    ensures Ticks(s, [WritePlay(false), WritePlay(true)]) == 0
  {
    assert [WritePlay(false), WritePlay(true)][1..] == [WritePlay(true)];
    assert [WritePlay(true)][1..] == [];
  }
}
