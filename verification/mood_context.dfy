/**
 * The shared mood store of the client (src/lib/mood-context.tsx): the
 * closed set of moods, the mood to theme, emoji and colour tables, and the
 * provider that keeps the current mood and the append-only mood history.
 */
module MoodContext {
  import opened Wrappers

  /** `MoodType`: the seven moods, in the order the source declares them. */
  datatype Mood = Happy | Calm | Tired | Anxious | Neutral | Sad | Energetic

  /** The seven moods in declaration order, which is also the key order of every table keyed by mood. */
  const AllMoods: seq<Mood> := [Happy, Calm, Tired, Anxious, Neutral, Sad, Energetic]

  /** The string a mood is written as in the source and on the wire. */
  function Name(m: Mood): string {
    match m
    case Happy => "happy"
    case Calm => "calm"
    case Tired => "tired"
    case Anxious => "anxious"
    case Neutral => "neutral"
    case Sad => "sad"
    case Energetic => "energetic"
  }

  /** Reads a mood name back; any other string names no mood. */
  function ParseMood(s: string): (r: Option<Mood>)
    ensures r.Some? ==> Name(r.value) == s
    ensures r.None? ==> forall m :: Name(m) != s
  {
    if s == "happy" then Some(Happy)
    else if s == "calm" then Some(Calm)
    else if s == "tired" then Some(Tired)
    else if s == "anxious" then Some(Anxious)
    else if s == "neutral" then Some(Neutral)
    else if s == "sad" then Some(Sad)
    else if s == "energetic" then Some(Energetic)
    else None
  }

  /** Every mood appears exactly once in `AllMoods`. */
  lemma AllMoodsListsEachMoodOnce(m: Mood)
    ensures m in AllMoods
    ensures forall i, j :: 0 <= i < j < |AllMoods| ==> AllMoods[i] != AllMoods[j]
  {
  }

  /** Naming a mood and parsing the name gives the mood back. */
  lemma ParseName(m: Mood)
    ensures ParseMood(Name(m)) == Some(m)
  {
  }

  /** `moodToTheme`: the body class the current mood selects. */
  function Theme(m: Mood): string {
    match m
    case Happy => "theme-happy"
    case Calm => "theme-calm"
    case Tired => "theme-tired"
    case Anxious => "theme-anxious"
    case Neutral => ""
    case Sad => "theme-calm"
    case Energetic => "theme-happy"
  }

  /**
   * The theme table in words: neutral has no theme, sad borrows calm's,
   * energetic borrows happy's, and each other mood has the theme named
   * after itself.
   */
  lemma ThemeRule(m: Mood)
    ensures m == Neutral ==> Theme(m) == ""
    ensures m == Sad ==> Theme(m) == Theme(Calm)
    ensures m == Energetic ==> Theme(m) == Theme(Happy)
    ensures m !in {Neutral, Sad, Energetic} ==> Theme(m) == "theme-" + Name(m)
  {
  }

  /** `moodEmojis`. */
  function Emoji(m: Mood): string {
    match m
    case Happy => "\U{1F60A}"
    case Calm => "\U{1F60C}"
    case Tired => "\U{1F634}"
    case Anxious => "\U{1F630}"
    case Neutral => "\U{1F610}"
    case Sad => "\U{1F622}"
    case Energetic => "\U{26A1}"
  }

  /** `moodColors`. */
  function Color(m: Mood): string {
    match m
    case Happy => "hsl(45, 95%, 55%)"
    case Calm => "hsl(200, 60%, 55%)"
    case Tired => "hsl(270, 40%, 60%)"
    case Anxious => "hsl(35, 90%, 55%)"
    case Neutral => "hsl(158, 64%, 42%)"
    case Sad => "hsl(220, 40%, 50%)"
    case Energetic => "hsl(340, 75%, 55%)"
  }

  /** Both tables are defined for every mood and tell the moods apart. */
  lemma TablesDistinguishMoods(m: Mood, n: Mood)
    ensures Emoji(m) != "" && Color(m) != ""
    ensures m != n ==> Emoji(m) != Emoji(n) && Color(m) != Color(n)
  {
  }

  /** `MoodEntry`; `timestamp` is the clock reading taken when the entry was made. */
  datatype MoodEntry = MoodEntry(mood: Mood, timestamp: int, note: Option<string>)

  /** `xs` is `ys` with zero or more entries appended. */
  predicate IsPrefix<T(==)>(xs: seq<T>, ys: seq<T>) {
    |xs| <= |ys| && ys[..|xs|] == xs
  }

  /**
   * `MoodProvider`: the current mood and the mood history. The history is
   * loaded from storage once and then only ever grows at its end.
   */
  class MoodProvider {
    var currentMood: Mood
    var moodHistory: seq<MoodEntry>

    /** Mounting the provider: the current mood is neutral and the history is whatever storage held. */
    constructor (saved: seq<MoodEntry>)
      ensures currentMood == Neutral
      ensures moodHistory == saved
    {
      currentMood := Neutral;
      moodHistory := saved;
    }

    /** `theme`: derived from the current mood, never stored. */
    function CurrentTheme(): (t: string)
      reads this
      ensures t == Theme(currentMood)
      ensures t == "" <==> currentMood == Neutral
    {
      Theme(currentMood)
    }

    /** `setCurrentMood`. */
    method SetCurrentMood(mood: Mood)
      modifies this
      ensures currentMood == mood
      ensures moodHistory == old(moodHistory)
    {
      currentMood := mood;
    }

    /**
     * `addMoodEntry`: appends one entry stamped with `now` and makes its
     * mood the current mood; earlier entries are kept as they were.
     */
    method AddMoodEntry(mood: Mood, note: Option<string>, now: int)
      modifies this
      ensures moodHistory == old(moodHistory) + [MoodEntry(mood, now, note)]
      ensures IsPrefix(old(moodHistory), moodHistory)
      ensures currentMood == mood
    {
      moodHistory := moodHistory + [MoodEntry(mood, now, note)];
      currentMood := mood;
    }
  }

  /** `useMood`: the provider in scope, or the error thrown outside one. */
  function UseMood(context: Option<MoodProvider>): (r: Result<MoodProvider, string>)
    ensures context.None? <==> r.Err?
    ensures r.Ok? ==> r.value == context.value
    ensures r.Err? ==> r.error == "useMood must be used within a MoodProvider"
  {
    match context
    case Some(p) => Ok(p)
    case None => Err("useMood must be used within a MoodProvider")
  }
}
