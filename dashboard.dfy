/**
 * The state of the CallCenterDashboard component and the handlers that change
 * it. Each React state variable is a field; each setter call is an assignment.
 * The browser collaborators are parameters: whether getUserMedia grants the
 * microphone, the two Math.random() values of a tick, the id and clock text a
 * draw is stamped with, and the analyser's frequency bins.
 */
module Dashboard {
  import opened Suggestions
  import Feed
  import Meter

  /** The three screens of the header navigation. */
  datatype Page = Live | PostCall | Fhir

  class CallCenterDashboard {
    var isRecording: bool
    var recordingTime: nat
    var audioLevel: real
    var coachingSuggestions: seq<Suggestion>
    var currentPage: Page

    /**
     * The feed never holds more than five entries, the level is a percentage,
     * and the level reads 0 whenever no recording is running.
     */
    ghost predicate Valid()
      reads this
    {
      |coachingSuggestions| <= Feed.MaxFeed &&
      0.0 <= audioLevel <= 100.0 &&
      (!isRecording ==> audioLevel == 0.0)
    }

    /**
     * The start button is enabled only while idle. Both buttons are rendered
     * only on the live view; the handlers themselves do not look at the page.
     */
    predicate StartEnabled()
      reads this
    {
      !isRecording
    }

    /** The component's initial state: idle, clock at zero, empty feed, live view. */
    constructor ()
      ensures Valid()
      ensures !isRecording && recordingTime == 0 && audioLevel == 0.0
      ensures coachingSuggestions == [] && currentPage == Live
    {
      isRecording := false;
      recordingTime := 0;
      audioLevel := 0.0;
      coachingSuggestions := [];
      currentPage := Live;
    }

    /**
     * startRecording. When the microphone is granted the session starts with
     * the clock at zero; when getUserMedia fails the error is only logged and
     * no state changes, because every setter comes after the failing await.
     */
    method StartRecording(granted: bool)
      requires Valid() && StartEnabled()
      modifies this
      ensures Valid()
      ensures granted ==> isRecording && recordingTime == 0
      ensures granted ==> audioLevel == old(audioLevel) && coachingSuggestions == old(coachingSuggestions)
      ensures granted ==> currentPage == old(currentPage)
      ensures !granted ==> unchanged(this)
    {
      if granted {
        isRecording := true;
        recordingTime := 0;
      }
    }

    /**
     * One run of the one-second interval, which exists only while recording:
     * the clock advances by one, the meter shows the current bins, and with a
     * roll below 0.1 a copy of the picked template goes to the head of the feed.
     */
    method Tick(roll: real, pick: real, id: string, timestamp: string, bins: seq<Meter.Byte>)
      requires Valid() && isRecording
      requires 0.0 <= roll < 1.0 && 0.0 <= pick < 1.0
      requires |bins| > 0
      modifies this
      ensures Valid() && isRecording
      ensures recordingTime == old(recordingTime) + 1
      ensures audioLevel == Meter.Level(bins)
      ensures coachingSuggestions ==
        if roll < HitChance then Feed.Push(old(coachingSuggestions), Draw(pick, id, timestamp))
        else old(coachingSuggestions)
      ensures currentPage == old(currentPage)
    {
      recordingTime := recordingTime + 1;
      audioLevel := Meter.Level(bins);
      if roll < HitChance {
        coachingSuggestions := Feed.Push(coachingSuggestions, Draw(pick, id, timestamp));
      }
    }

    /**
     * stopRecording: back to idle with the meter at 0. The clock, the feed and
     * the view keep their values. The stop button is enabled only while
     * recording, but the handler itself guards its media calls on isRecording
     * and copes with an idle call, so it is modelled as callable in any valid
     * state; called while idle it changes nothing.
     */
    method StopRecording()
      requires Valid()
      modifies this
      ensures Valid()
      ensures !isRecording && audioLevel == 0.0
      ensures recordingTime == old(recordingTime) && coachingSuggestions == old(coachingSuggestions)
      ensures currentPage == old(currentPage)
      ensures old(!isRecording) ==> unchanged(this)
    {
      isRecording := false;
      audioLevel := 0.0;
    }

    /** A navigation button: shows exactly the chosen page and leaves the session alone. */
    method Navigate(page: Page)
      requires Valid()
      modifies this
      ensures Valid() && currentPage == page
      ensures isRecording == old(isRecording) && recordingTime == old(recordingTime)
      ensures audioLevel == old(audioLevel) && coachingSuggestions == old(coachingSuggestions)
    {
      currentPage := page;
    }
  }
}
