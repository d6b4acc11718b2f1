/**
 * The reminder list of src/components/WellnessReminders.tsx: adding,
 * toggling and deleting reminders, and the minute-by-minute check that
 * raises a notification for a reminder that is due.
 */
module WellnessReminders {
  import opened Wrappers

  /** `Reminder`; `time` is the "HH:MM" string the time input produced. */
  datatype Reminder = Reminder(id: string, title: string, time: string, isActive: bool, message: Option<string>)

  /** `defaultReminders`: the list used when storage holds none. */
  const DefaultReminders: seq<Reminder> := [
    Reminder("1", "Morning Check-in", "09:00", true, Some("How are you feeling today?")),
    Reminder("2", "Mindful Break", "12:00", true, Some("Take a moment to breathe deeply")),
    Reminder("3", "Afternoon Stretch", "15:00", false, Some("Stand up and stretch!")),
    Reminder("4", "Evening Reflection", "20:00", true, Some("Reflect on your day"))
  ]

  // ------------------------------------------------------------ clock text

  function DigitChar(d: nat): (c: char)
    requires d < 10
    ensures '0' <= c <= '9'
  {
    ['0', '1', '2', '3', '4', '5', '6', '7', '8', '9'][d]
  }

  predicate IsDigit(c: char) {
    '0' <= c <= '9'
  }

  function DigitValue(c: char): int {
    c as int - '0' as int
  }

  /** `String(n)` for a non-negative integer: its decimal digits without leading zeros. */
  function Decimal(n: nat): (s: string)
    ensures |s| >= 1
    ensures n < 10 ==> |s| == 1
    ensures 10 <= n < 100 ==> |s| == 2
  {
    if n < 10 then [DigitChar(n)] else Decimal(n / 10) + [DigitChar(n % 10)]
  }

  /** `s.padStart(width, fill)` with a one-character fill. */
  function PadStart(s: string, width: nat, fill: char): (r: string)
    ensures |r| == if |s| >= width then |s| else width
    ensures r[|r| - |s|..] == s
    ensures forall i :: 0 <= i < |r| - |s| ==> r[i] == fill
  {
    if |s| >= width then s else seq(width - |s|, _ => fill) + s
  }

  /** `String(n).padStart(2, '0')`. */
  function TwoDigits(n: nat): string {
    PadStart(Decimal(n), 2, '0')
  }

  /** A number below 100 padded to two places is its tens digit then its units digit. */
  lemma {:induction false} TwoDigitsValue(n: nat)
    requires n < 100
    ensures |TwoDigits(n)| == 2
    ensures IsDigit(TwoDigits(n)[0]) && IsDigit(TwoDigits(n)[1])
    ensures DigitValue(TwoDigits(n)[0]) * 10 + DigitValue(TwoDigits(n)[1]) == n
  {
    var d := Decimal(n);
    assert n == (n / 10) * 10 + n % 10;
    if n < 10 {
      assert d == [DigitChar(n)];
      assert TwoDigits(n) == ['0'] + d;
    } else {
      assert Decimal(n / 10) == [DigitChar(n / 10)];
      assert TwoDigits(n) == d;
    }
  }

  /**
   * The `currentTime` string: hour and minute, each zero-padded to two
   * digits, joined by ':'. Reading its digits back gives the hour and the
   * minute.
   */
  function ClockText(hour: nat, minute: nat): (t: string)
    requires hour < 24 && minute < 60
    ensures |t| == 5 && t[2] == ':'
    ensures IsDigit(t[0]) && IsDigit(t[1]) && IsDigit(t[3]) && IsDigit(t[4])
    ensures DigitValue(t[0]) * 10 + DigitValue(t[1]) == hour
    ensures DigitValue(t[3]) * 10 + DigitValue(t[4]) == minute
  {
    var h, m := TwoDigits(hour), TwoDigits(minute);
    TwoDigitsValue(hour);
    TwoDigitsValue(minute);
    var t := h + ":" + m;
    assert t[0] == h[0] && t[1] == h[1] && t[2] == ':' && t[3] == m[0] && t[4] == m[1];
    t
  }

  // ------------------------------------------------------ list operations

  /** `prev.map(r => r.id === id ? { ...r, isActive: !r.isActive } : r)`. */
  function Toggled(rs: seq<Reminder>, id: string): (out: seq<Reminder>)
    ensures |out| == |rs|
  {
    if rs == [] then []
    else [if rs[0].id == id then rs[0].(isActive := !rs[0].isActive) else rs[0]] + Toggled(rs[1..], id)
  }

  /** Toggling flips `isActive` on the reminders with the id and leaves everything else as it was. */
  lemma {:induction false} ToggledAt(rs: seq<Reminder>, id: string, i: nat)
    requires i < |rs|
    ensures Toggled(rs, id)[i] == if rs[i].id == id then rs[i].(isActive := !rs[i].isActive) else rs[i]
  {
    if i > 0 { ToggledAt(rs[1..], id, i - 1); }
  }

  /** Toggling the same id twice restores the list. */
  lemma {:induction false} ToggleTwice(rs: seq<Reminder>, id: string)
    ensures Toggled(Toggled(rs, id), id) == rs
  {
    if rs != [] {
      ToggleTwice(rs[1..], id);
      assert rs == [rs[0]] + rs[1..];
    }
  }

  /** `prev.filter(r => r.id !== id)`. */
  function Removed(rs: seq<Reminder>, id: string): (out: seq<Reminder>)
    ensures |out| <= |rs|
  {
    if rs == [] then []
    else if rs[0].id == id then Removed(rs[1..], id)
    else [rs[0]] + Removed(rs[1..], id)
  }

  /** After deleting, no reminder has the id, and every other reminder is still there. */
  lemma {:induction false} RemovedMembers(rs: seq<Reminder>, id: string, r: Reminder)
    ensures r in Removed(rs, id) <==> r in rs && r.id != id
  {
    if rs != [] {
      RemovedMembers(rs[1..], id, r);
      assert rs == [rs[0]] + rs[1..];
    }
  }

  /** Deleting works piece by piece, so the remaining reminders keep their order. */
  lemma {:induction false} RemovedAppend(xs: seq<Reminder>, ys: seq<Reminder>, id: string)
    ensures Removed(xs + ys, id) == Removed(xs, id) + Removed(ys, id)
  {
    if xs != [] {
      assert (xs + ys)[1..] == xs[1..] + ys;
      RemovedAppend(xs[1..], ys, id);
    } else {
      assert xs + ys == ys;
    }
  }

  /** The reminder is due at clock text `now`. */
  predicate IsDue(r: Reminder, now: string) {
    r.isActive && r.time == now
  }

  /** `reminders.find(r => r.isActive && r.time === currentTime)`, as a position. */
  function FirstDue(rs: seq<Reminder>, now: string): (k: Option<nat>)
    ensures k.Some? ==> k.value < |rs| && IsDue(rs[k.value], now)
    ensures k.Some? ==> forall j :: 0 <= j < k.value ==> !IsDue(rs[j], now)
    ensures k.None? ==> forall j :: 0 <= j < |rs| ==> !IsDue(rs[j], now)
  {
    if rs == [] then None
    else if IsDue(rs[0], now) then Some(0)
    else match FirstDue(rs[1..], now)
      case None => None
      case Some(k) => Some(k + 1)
  }

  /** The text of the system notification: the message unless it is missing or empty, else the title. */
  function NoticeBody(r: Reminder): (body: string)
    ensures r.message.Some? && r.message.value != "" ==> body == r.message.value
    ensures r.message.None? || r.message.value == "" ==> body == r.title
  {
    match r.message
    case Some(m) => if m != "" then m else r.title
    case None => r.title
  }

  /** The state of the reminders card. */
  class RemindersPanel {
    var reminders: seq<Reminder>
    var showAddForm: bool
    var newTitle: string
    var newTime: string
    var activeNotification: Option<Reminder>

    /** Mounting: the stored list if storage holds one, else the defaults; empty form, no notification. */
    constructor (saved: Option<seq<Reminder>>)
      ensures reminders == (if saved.Some? then saved.value else DefaultReminders)
      ensures !showAddForm && newTitle == "" && newTime == "" && activeNotification == None
    {
      reminders := if saved.Some? then saved.value else DefaultReminders;
      showAddForm := false;
      newTitle := "";
      newTime := "";
      activeNotification := None;
    }

    /** Typing in the add form's title and time inputs. */
    method EditForm(title: string, time: string)
      modifies this`newTitle, this`newTime
      ensures newTitle == title && newTime == time
    {
      newTitle := title;
      newTime := time;
    }

    /**
     * `addReminder`: with an empty title or time nothing changes; otherwise
     * one active reminder without a message is appended and the form is
     * cleared and closed. `freshId` is the clock reading used as the id.
     */
    method AddReminder(freshId: string) returns (added: bool)
      modifies this
      ensures added <==> old(newTitle) != "" && old(newTime) != ""
      ensures added ==> reminders == old(reminders) + [Reminder(freshId, old(newTitle), old(newTime), true, None)]
      ensures added ==> newTitle == "" && newTime == "" && !showAddForm
      ensures !added ==> reminders == old(reminders) && newTitle == old(newTitle)
                         && newTime == old(newTime) && showAddForm == old(showAddForm)
      ensures activeNotification == old(activeNotification)
    {
      if newTitle == "" || newTime == "" {
        return false;
      }
      reminders := reminders + [Reminder(freshId, newTitle, newTime, true, None)];
      newTitle := "";
      newTime := "";
      showAddForm := false;
      added := true;
    }

    /** `toggleReminder`. */
    method ToggleReminder(id: string)
      modifies this
      ensures reminders == Toggled(old(reminders), id)
      ensures showAddForm == old(showAddForm) && newTitle == old(newTitle) && newTime == old(newTime)
      ensures activeNotification == old(activeNotification)
    {
      reminders := Toggled(reminders, id);
    }

    /** `deleteReminder`. */
    method DeleteReminder(id: string)
      modifies this
      ensures reminders == Removed(old(reminders), id)
      ensures showAddForm == old(showAddForm) && newTitle == old(newTitle) && newTime == old(newTime)
      ensures activeNotification == old(activeNotification)
    {
      reminders := Removed(reminders, id);
    }

    /**
     * `checkReminders` at the clock reading `hour`:`minute`: the first
     * active reminder whose time is the current clock text becomes the
     * notification, but only when none is showing. The returned text is the
     * system notification, raised only when permission was granted.
     */
    method CheckReminders(hour: nat, minute: nat, permissionGranted: bool) returns (systemNotice: Option<string>)
      requires hour < 24 && minute < 60
      modifies this
      ensures var due := FirstDue(old(reminders), ClockText(hour, minute));
              if due.Some? && old(activeNotification).None? then
                && activeNotification == Some(old(reminders)[due.value])
                && systemNotice == (if permissionGranted then Some(NoticeBody(old(reminders)[due.value])) else None)
              else
                activeNotification == old(activeNotification) && systemNotice == None
      ensures reminders == old(reminders) && showAddForm == old(showAddForm)
      ensures newTitle == old(newTitle) && newTime == old(newTime)
    {
      var currentTime := ClockText(hour, minute);
      systemNotice := NotifyIfDue(currentTime, permissionGranted);
    }

    /** The rest of `checkReminders` once the clock text is known. */
    method NotifyIfDue(currentTime: string, permissionGranted: bool) returns (systemNotice: Option<string>)
      modifies this
      ensures var due := FirstDue(old(reminders), currentTime);
              if due.Some? && old(activeNotification).None? then
                && activeNotification == Some(old(reminders)[due.value])
                && systemNotice == (if permissionGranted then Some(NoticeBody(old(reminders)[due.value])) else None)
              else
                activeNotification == old(activeNotification) && systemNotice == None
      ensures reminders == old(reminders) && showAddForm == old(showAddForm)
      ensures newTitle == old(newTitle) && newTime == old(newTime)
    {
      var due := FirstDue(reminders, currentTime);
      systemNotice := None;
      if due.Some? && activeNotification.None? {
        var r := reminders[due.value];
        activeNotification := Some(r);
        if permissionGranted {
          systemNotice := Some(NoticeBody(r));
        }
      }
    }

    /** The close button of the notification banner. */
    method DismissNotification()
      modifies this
      ensures activeNotification == None
      ensures reminders == old(reminders) && showAddForm == old(showAddForm)
      ensures newTitle == old(newTitle) && newTime == old(newTime)
    {
      activeNotification := None;
    }

    /** The "+" button: opens or closes the add form. */
    method ToggleAddForm()
      modifies this
      ensures showAddForm == !old(showAddForm)
      ensures reminders == old(reminders) && activeNotification == old(activeNotification)
      ensures newTitle == old(newTitle) && newTime == old(newTime)
    {
      showAddForm := !showAddForm;
    }
  }
}
