/**
 * The calendar panel of src/components/CalendarView.tsx: the mood to tag
 * table, the mood picker, and the add-event form whose submit hands a new
 * event to the dashboard.
 */
module CalendarView {
  import opened Wrappers
  import opened MoodContext

  /** `CalendarEvent`. */
  datatype CalendarEvent = CalendarEvent(id: string, title: string, time: string, predictedMood: Mood, tag: string)

  /** `Omit<CalendarEvent, 'id'>`: what the form hands to `onAddEvent`. */
  datatype EventFields = EventFields(title: string, time: string, predictedMood: Mood, tag: string)

  /** `moodTags`. */
  function MoodTag(m: Mood): string {
    match m
    case Happy => "Energizing Activity"
    case Calm => "Peaceful Time"
    case Neutral => "Neutral & Productive"
    case Tired => "Low Energy Task"
    case Anxious => "Energy Dip Likely"
    case Sad => "Need Support"
    case Energetic => "High Energy"
  }

  /** Every mood has a tag of its own. */
  lemma MoodTagsDistinct(m: Mood, n: Mood)
    ensures MoodTag(m) != ""
    ensures m != n ==> MoodTag(m) != MoodTag(n)
  {
  }

  /** The moods the picker offers, in display order. */
  const PickerMoods: seq<Mood> := [Happy, Calm, Neutral, Tired, Anxious, Energetic]

  /** The picker offers six different moods: every mood except sad. */
  lemma PickerOffersAllButSad(m: Mood)
    ensures |PickerMoods| == 6
    ensures m in PickerMoods <==> m != Sad
    ensures forall i, j :: 0 <= i < j < |PickerMoods| ==> PickerMoods[i] != PickerMoods[j]
  {
  }

  /** The state of the add-event form. */
  class EventForm {
    var showAdd: bool
    var title: string
    var time: string
    var predictedMood: Mood

    /** The form starts closed and empty, predicting neutral. */
    constructor ()
      ensures !showAdd && title == "" && time == "" && predictedMood == Neutral
    {
      showAdd := false;
      title := "";
      time := "";
      predictedMood := Neutral;
    }

    /** The "+" button and the close controls. */
    method SetShowAdd(open: bool)
      modifies this`showAdd
      ensures showAdd == open
    {
      showAdd := open;
    }

    /** Typing in the two inputs. */
    method Edit(newTitle: string, newTime: string)
      modifies this`title, this`time
      ensures title == newTitle && time == newTime
    {
      title, time := newTitle, newTime;
    }

    /** A tap on a mood of the picker. */
    method PickMood(m: Mood)
      requires m in PickerMoods
      modifies this`predictedMood
      ensures predictedMood == m
    {
      predictedMood := m;
    }

    /**
     * `handleSubmit`: with an empty title or time nothing is emitted and
     * the form stays as it was; otherwise the event with the predicted
     * mood's tag is emitted and the form is reset and closed.
     */
    method HandleSubmit() returns (emitted: Option<EventFields>)
      modifies this
      ensures emitted.Some? <==> old(title) != "" && old(time) != ""
      ensures emitted.Some? ==>
                && emitted.value == EventFields(old(title), old(time), old(predictedMood), MoodTag(old(predictedMood)))
                && title == "" && time == "" && predictedMood == Neutral && !showAdd
      ensures emitted.None? ==>
                title == old(title) && time == old(time) && predictedMood == old(predictedMood) && showAdd == old(showAdd)
    {
      if title != "" && time != "" {
        emitted := Some(EventFields(title, time, predictedMood, MoodTag(predictedMood)));
        title := "";
        time := "";
        predictedMood := Neutral;
        showAdd := false;
      } else {
        emitted := None;
      }
    }
  }
}
