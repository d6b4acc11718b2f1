/**
 * The check-in screen of src/components/MoodScanner.tsx: start a camera
 * scan or pick a mood by hand, review a detected mood, and confirm one mood
 * into the mood store.
 */
module MoodScanner {
  import opened Wrappers
  import opened MoodContext

  /** The moods offered for manual selection, in display order. */
  const ManualMoods: seq<Mood> := [Happy, Calm, Neutral, Tired, Anxious, Energetic]

  /** Manual selection offers six different moods: all but sad. */
  lemma ManualMoodsAllButSad(m: Mood)
    ensures |ManualMoods| == 6
    ensures m in ManualMoods <==> m != Sad
    ensures forall i, j :: 0 <= i < j < |ManualMoods| ==> ManualMoods[i] != ManualMoods[j]
  {
  }

  /** The four panels the screen can show. */
  datatype Panel = CameraPanel | ScanPanel | DetectedPanel | ManualPanel

  /** The screen's state; `store` is the mood provider the screen records into. */
  class Scanner {
    var useRealCamera: bool
    var detected: Option<Mood>
    var showManual: bool
    const store: MoodProvider

    /**
     * The camera is only ever on with nothing detected and manual selection
     * off: it is turned on from the scan panel, and every way out of it
     * turns it off.
     */
    ghost predicate Valid()
      reads this
    {
      useRealCamera ==> detected.None? && !showManual
    }

    constructor (store: MoodProvider)
      ensures Valid() && this.store == store
      ensures !useRealCamera && detected.None? && !showManual
    {
      this.store := store;
      useRealCamera := false;
      detected := None;
      showManual := false;
    }

    /** The scan panel's condition: camera, detection and manual selection all off. */
    predicate ShowsScan()
      reads this
    {
      !useRealCamera && detected.None? && !showManual
    }

    /** The manual panel's condition: manual selection on and nothing detected. */
    predicate ShowsManual()
      reads this
    {
      showManual && detected.None?
    }

    /** The panels whose conditions hold, in the order the screen lays them out. */
    function Visible(): (ps: seq<Panel>)
      reads this
      ensures Valid() ==> |ps| == 1
      ensures ScanPanel in ps <==> ShowsScan()
      ensures ManualPanel in ps <==> ShowsManual()
    {
      (if useRealCamera then [CameraPanel] else [])
      + (if ShowsScan() then [ScanPanel] else [])
      + (if detected.Some? then [DetectedPanel] else [])
      + (if ShowsManual() then [ManualPanel] else [])
    }

    /** "Start Real Mood Scan" on the scan panel. */
    method StartCamera()
      requires Valid() && ShowsScan()
      modifies this`useRealCamera
      ensures Valid() && useRealCamera
      ensures Visible() == [CameraPanel]
    {
      useRealCamera := true;
    }

    /** "Or select manually" on the scan panel. */
    method ChooseManual()
      requires Valid() && ShowsScan()
      modifies this`showManual
      ensures Valid() && showManual
      ensures Visible() == [ManualPanel]
    {
      showManual := true;
    }

    /** `handleMoodDetected`: the detector reports a mood; it is kept for review and the camera closes. */
    method HandleMoodDetected(mood: Mood)
      requires Valid() && useRealCamera
      modifies this`detected, this`useRealCamera
      ensures Valid()
      ensures detected == Some(mood) && !useRealCamera && showManual == old(showManual)
      ensures Visible() == [DetectedPanel]
    {
      detected := Some(mood);
      useRealCamera := false;
    }

    /** The detector's cancel: the camera closes and manual selection opens. */
    method CancelCamera()
      requires Valid() && useRealCamera
      modifies this`useRealCamera, this`showManual
      ensures Valid()
      ensures !useRealCamera && showManual && detected == old(detected)
      ensures Visible() == [ManualPanel]
    {
      useRealCamera := false;
      showManual := true;
    }

    /** "Change" on the detected panel: the detection is dropped and manual selection opens. */
    method ChangeDetected()
      requires Valid() && detected.Some?
      modifies this`detected, this`showManual
      ensures Valid()
      ensures detected.None? && showManual && useRealCamera == old(useRealCamera)
      ensures Visible() == [ManualPanel]
    {
      detected := None;
      showManual := true;
    }

    /** "Back to scan" on the manual panel. */
    method BackToScan()
      requires Valid() && ShowsManual()
      modifies this`showManual
      ensures Valid()
      ensures !showManual && detected == old(detected) && useRealCamera == old(useRealCamera)
      ensures Visible() == [ScanPanel]
    {
      showManual := false;
    }

    /**
     * `confirmMood`: records exactly one entry with the chosen mood (no note)
     * and makes it the current mood; the screen itself is unchanged until the
     * completion callback fires. The mood is the detected one, or one of the
     * manual choices while the manual panel shows.
     */
    method ConfirmMood(mood: Mood, now: int)
      requires Valid()
      requires detected == Some(mood) || (ShowsManual() && mood in ManualMoods)
      modifies store
      ensures Valid()
      ensures store.moodHistory == old(store.moodHistory) + [MoodEntry(mood, now, None)]
      ensures store.currentMood == mood
    {
      store.AddMoodEntry(mood, None, now);
    }
  }
}
