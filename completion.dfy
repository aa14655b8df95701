/** The completion barrier of the /download handler (api/index.js:96-117):
    two flags, each set by the "finish" event of one staged file, and a
    check run after each event that starts the upload once both are set.
    Events are delivered one at a time, in the order the history records. */
module Completion {

  datatype Event = VideoFinished | AudioFinished

  datatype Flags = Flags(videoComplete: bool, audioComplete: bool)

  /** What one finish event does to the flags: it sets its own flag only. */
  function Step(f: Flags, e: Event): Flags {
    match e
    case VideoFinished => f.(videoComplete := true)
    case AudioFinished => f.(audioComplete := true)
  }

  /** `videoComplete && audioComplete`, the test in `checkCompletion`. */
  predicate BothComplete(f: Flags) {
    f.videoComplete && f.audioComplete
  }

  /** The flags after a history of finish events, starting from both unset. */
  function FlagsAfter(events: seq<Event>): Flags {
    if events == [] then Flags(false, false)
    else Step(FlagsAfter(events[..|events| - 1]), events[|events| - 1])
  }

  /** How many times a history of finish events starts the upload: once for
      every event after which `checkCompletion` finds both flags set. */
  function UploadsAfter(events: seq<Event>): nat {
    if events == [] then 0
    else UploadsAfter(events[..|events| - 1]) + (if BothComplete(FlagsAfter(events)) then 1 else 0)
  }

  /** A flag is set exactly when its own finish event has happened. */
  lemma {:induction false} FlagsRecordFinishes(events: seq<Event>)
    ensures FlagsAfter(events) == Flags(VideoFinished in events, AudioFinished in events)
  {
    if events != [] {
      var init := events[..|events| - 1];
      FlagsRecordFinishes(init);
      assert events == init + [events[|events| - 1]];
    }
  }

  /** The upload is started only once both finish events have happened, and
      it has been started whenever they both have. */
  lemma {:induction false} UploadNeedsBoth(events: seq<Event>)
    ensures UploadsAfter(events) > 0 <==> VideoFinished in events && AudioFinished in events
  {
    FlagsRecordFinishes(events);
    if events != [] {
      var init := events[..|events| - 1];
      UploadNeedsBoth(init);
      assert events == init + [events[|events| - 1]];
    }
  }

  /** Once both flags are set nothing resets them, so every further finish
      event starts the upload again. */
  lemma {:induction false} EveryLaterFinishUploads(done: seq<Event>, later: seq<Event>)
    requires VideoFinished in done && AudioFinished in done
    ensures UploadsAfter(done + later) == UploadsAfter(done) + |later|
  {
    if later == [] {
      assert done + later == done;
    } else {
      var init := later[..|later| - 1];
      EveryLaterFinishUploads(done, init);
      var all := done + later;
      assert all[..|all| - 1] == done + init;
      FlagsRecordFinishes(all);
      assert VideoFinished in all && AudioFinished in all by {
        assert all[..|done|] == done;
      }
    }
  }

  /** When each finish event fires once, in either order, the upload is
      started exactly once. */
  lemma EachFinishOnceUploadsOnce(events: seq<Event>)
    requires multiset(events) == multiset{VideoFinished, AudioFinished}
    ensures UploadsAfter(events) == 1
  {
    assert |events| == |multiset(events)| == 2;
    assert VideoFinished in multiset(events) && AudioFinished in multiset(events);
    var first := events[..1];
    assert events[..|events| - 1] == first == [events[0]];
    UploadNeedsBoth(first);
    FlagsRecordFinishes(events);
  }

  /** The two flags of one request, with the number of uploads they have
      started so far and, as ghost state, the history of finish events. */
  class Barrier {
    var videoComplete: bool
    var audioComplete: bool
    /** How often `uploadBothFiles` has been called. */
    var uploadsStarted: nat
    ghost var history: seq<Event>

    ghost predicate Valid()
      reads this
    {
      && Flags(videoComplete, audioComplete) == FlagsAfter(history)
      && uploadsStarted == UploadsAfter(history)
    }

    constructor ()
      ensures Valid() && history == []
      ensures !videoComplete && !audioComplete && uploadsStarted == 0
    {
      videoComplete, audioComplete := false, false;
      uploadsStarted := 0;
      history := [];
    }

    /** `checkCompletion`: start the upload when both flags are set. */
    method CheckCompletion() returns (upload: bool)
      modifies this`uploadsStarted
      ensures upload == (videoComplete && audioComplete)
      ensures uploadsStarted == old(uploadsStarted) + (if upload then 1 else 0)
    {
      upload := videoComplete && audioComplete;
      if upload {
        uploadsStarted := uploadsStarted + 1;
      }
    }

    /** The "finish" handler of the video write stream. */
    method OnVideoFinish() returns (upload: bool)
      requires Valid()
      modifies this
      ensures Valid() && history == old(history) + [VideoFinished]
      ensures videoComplete && audioComplete == old(audioComplete)
      ensures upload == old(audioComplete)
      ensures uploadsStarted == old(uploadsStarted) + (if upload then 1 else 0)
    {
      videoComplete := true;
      history := history + [VideoFinished];
      assert history[..|history| - 1] == old(history);
      upload := CheckCompletion();
    }

    /** The "finish" handler of the audio write stream. */
    method OnAudioFinish() returns (upload: bool)
      requires Valid()
      modifies this
      ensures Valid() && history == old(history) + [AudioFinished]
      ensures audioComplete && videoComplete == old(videoComplete)
      ensures upload == old(videoComplete)
      ensures uploadsStarted == old(uploadsStarted) + (if upload then 1 else 0)
    {
      audioComplete := true;
      history := history + [AudioFinished];
      assert history[..|history| - 1] == old(history);
      upload := CheckCompletion();
    }
  }

  /** One request whose two downloads each finish once, in the order given:
      the upload is started exactly once, by the second event. */
  method FinishBoth(videoFirst: bool) returns (uploads: nat, byFirst: bool, bySecond: bool)
    ensures uploads == 1 && !byFirst && bySecond
  {
    var b := new Barrier();
    if videoFirst {
      byFirst := b.OnVideoFinish();
      bySecond := b.OnAudioFinish();
    } else {
      byFirst := b.OnAudioFinish();
      bySecond := b.OnVideoFinish();
    }
    uploads := b.uploadsStarted;
  }
}
