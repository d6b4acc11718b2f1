/**
 * The main screen of src/components/Dashboard.tsx: the tab that is shown,
 * the event list that the calendar adds to, and the home tab's schedule
 * preview and mood message.
 */
module Dashboard {
  import opened Wrappers
  import opened MoodContext
  import opened CalendarView

  /** `View`: the five tabs of the navigation bar. */
  datatype View = Home | Calendar | Heal | Quests | Report

  /** What `renderView` shows. */
  datatype Panel = HomePanel | CalendarPanel | FeelHealPanel | QuestsPanel | WeeklyReportPanel

  /** `renderView`: the calendar, heal, quests and report tabs show their panels; every other view shows home. */
  function RenderView(v: View): Panel {
    match v
    case Calendar => CalendarPanel
    case Heal => FeelHealPanel
    case Quests => QuestsPanel
    case Report => WeeklyReportPanel
    case _ => HomePanel
  }

  /** Each tab has a panel of its own: different views never show the same panel. */
  lemma RenderViewOneToOne(v: View, w: View)
    ensures v != w ==> RenderView(v) != RenderView(w)
    ensures RenderView(v) == HomePanel <==> v == Home
  {
  }

  /** `initialEvents`. */
  const InitialEvents: seq<CalendarEvent> := [
    CalendarEvent("1", "Team Meeting", "10:00 AM", Anxious, "Energy Dip Likely"),
    CalendarEvent("2", "Lunch Break", "12:30 PM", Happy, "Recharge Time"),
    CalendarEvent("3", "Project Review", "3:00 PM", Neutral, "Focus Required")
  ]

  /** The home tab's "Today's Schedule": `events.slice(0, 3)`. */
  function SchedulePreview(events: seq<CalendarEvent>): (shown: seq<CalendarEvent>)
    ensures |shown| == if |events| < 3 then |events| else 3
    ensures forall i :: 0 <= i < |shown| ==> shown[i] == events[i]
  {
    events[..if |events| < 3 then |events| else 3]
  }

  /** The sentence the welcome card adds for the current mood. */
  function MoodMessage(m: Mood): Option<string> {
    match m
    case Happy => Some(" Keep spreading that joy!")
    case Tired => Some(" Take it easy today.")
    case Anxious => Some(" Let's find some calm together.")
    case Calm => Some(" Perfect state for productivity.")
    case Neutral => Some(" Ready for whatever comes your way.")
    case _ => None
  }

  /** Exactly sad and energetic get no extra sentence; the others get one each, all different. */
  lemma MoodMessageCoverage(m: Mood, n: Mood)
    ensures MoodMessage(m).None? <==> m == Sad || m == Energetic
    ensures MoodMessage(m).Some? && m != n ==> MoodMessage(m) != MoodMessage(n)
  {
  }

  /** The dashboard's state: the open tab and the events. */
  class DashboardState {
    var view: View
    var events: seq<CalendarEvent>

    /** The dashboard opens on the home tab with the three initial events. */
    constructor ()
      ensures view == Home && events == InitialEvents
    {
      view := Home;
      events := InitialEvents;
    }

    /** A tap on a navigation item or a shortcut card. */
    method SetView(v: View)
      modifies this`view
      ensures view == v
    {
      view := v;
    }

    /**
     * `addEvent`: appends one event with the given fields and the id made
     * from the clock reading; the earlier events are kept as they were.
     */
    method AddEvent(e: EventFields, id: string)
      modifies this`events
      ensures events == old(events) + [CalendarEvent(id, e.title, e.time, e.predictedMood, e.tag)]
      ensures |events| == |old(events)| + 1 && events[..|old(events)|] == old(events)
    {
      events := events + [CalendarEvent(id, e.title, e.time, e.predictedMood, e.tag)];
    }

    /** The panel on screen. */
    function Shown(): (p: Panel)
      reads this
      ensures p == HomePanel <==> view == Home
    {
      RenderView(view)
    }
  }

  /**
   * The calendar's submit wired to the dashboard's `addEvent`: a complete
   * form adds exactly one event, carrying the predicted mood's tag, to the
   * end of the list; an incomplete one adds nothing.
   */
  method SubmitToDashboard(form: EventForm, board: DashboardState, id: string) returns (added: bool)
    modifies form, board`events
    ensures added <==> old(form.title) != "" && old(form.time) != ""
    ensures added ==> board.events == old(board.events) + [CalendarEvent(id, old(form.title), old(form.time),
                                                           old(form.predictedMood), MoodTag(old(form.predictedMood)))]
    ensures !added ==> board.events == old(board.events)
  {
    var emitted := form.HandleSubmit();
    added := emitted.Some?;
    if added {
      board.AddEvent(emitted.value, id);
    }
  }
}
