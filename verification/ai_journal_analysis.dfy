/**
 * The journal panel of src/components/AIJournalAnalysis.tsx: an entry is
 * sent for analysis, and a reply that names a mood is shown and recorded in
 * the mood store with the entry as its note. The service call is not
 * modelled: its outcome is an input of the second half of an analysis.
 */
module AIJournalAnalysis {
  import opened Wrappers
  import opened Text
  import opened MoodContext

  /** `AnalysisResult`. */
  datatype AnalysisResult = AnalysisResult(mood: Mood, sentiment: string, emotions: seq<string>,
                                           insight: string, affirmation: string, suggestion: string)

  /** The service's reply; `mood` is absent when the reply names none. */
  datatype JournalData = JournalData(mood: Option<Mood>, sentiment: string, emotions: seq<string>,
                                     insight: string, affirmation: string, suggestion: string)

  /** How the service call ended: an answer (`None` for a null body), or an error. */
  datatype JournalOutcome = Answered(data: Option<JournalData>) | Failed

  /** The result a reply with a mood is shown as. */
  function AsResult(d: JournalData): (r: AnalysisResult)
    requires d.mood.Some?
    ensures r.mood == d.mood.value && r.insight == d.insight && r.emotions == d.emotions
    ensures r.sentiment == d.sentiment && r.affirmation == d.affirmation && r.suggestion == d.suggestion
  {
    AnalysisResult(d.mood.value, d.sentiment, d.emotions, d.insight, d.affirmation, d.suggestion)
  }

  /** The mood an outcome reports, if it reports one. */
  function ReportedMood(outcome: JournalOutcome): (m: Option<Mood>)
    ensures m.Some? <==> outcome.Answered? && outcome.data.Some? && outcome.data.value.mood.Some?
    ensures m.Some? ==> m == outcome.data.value.mood
  {
    if outcome.Answered? && outcome.data.Some? then outcome.data.value.mood else None
  }

  /** The state of the journal panel; `store` is the mood provider entries are recorded in. */
  class Journal {
    var journalEntry: string
    var isAnalyzing: bool
    var result: Option<AnalysisResult>
    const store: MoodProvider

    constructor (store: MoodProvider)
      ensures this.store == store && journalEntry == "" && !isAnalyzing && result.None?
    {
      this.store := store;
      journalEntry := "";
      isAnalyzing := false;
      result := None;
    }

    /** Typing in the journal; the text area is disabled during an analysis. */
    method SetEntry(text: string)
      requires !isAnalyzing
      modifies this`journalEntry
      ensures journalEntry == text
    {
      journalEntry := text;
    }

    /**
     * The first half of `analyzeJournal`: a blank entry, or a request during
     * an analysis, does nothing; otherwise the previous result is cleared,
     * the analysis starts, and the trimmed entry is the request.
     */
    method AnalyzeJournal() returns (request: Option<string>)
      modifies this`isAnalyzing, this`result
      ensures request.Some? <==> !IsBlank(journalEntry) && !old(isAnalyzing)
      ensures request.Some? ==> request.value == Trim(journalEntry) && isAnalyzing && result.None?
      ensures request.None? ==> isAnalyzing == old(isAnalyzing) && result == old(result)
    {
      var text := Trim(journalEntry);
      if text == "" || isAnalyzing {
        return None;
      }
      isAnalyzing := true;
      result := None;
      request := Some(text);
    }

    /**
     * The second half of `analyzeJournal`, when the call settles: a reply
     * with a mood becomes the result and records exactly one mood entry
     * whose note is the trimmed entry; a reply without a mood, or a failure,
     * records nothing and leaves no result. The analysis ends either way.
     */
    method CompleteAnalysis(outcome: JournalOutcome, now: int) returns (recorded: bool)
      requires isAnalyzing && result.None?
      modifies this`isAnalyzing, this`result, store
      ensures !isAnalyzing && journalEntry == old(journalEntry)
      ensures recorded <==> ReportedMood(outcome).Some?
      ensures recorded ==>
                && result == Some(AsResult(outcome.data.value))
                && store.moodHistory == old(store.moodHistory)
                                        + [MoodEntry(ReportedMood(outcome).value, now, Some(Trim(journalEntry)))]
                && store.currentMood == ReportedMood(outcome).value
      ensures !recorded ==> result.None? && store.moodHistory == old(store.moodHistory)
                            && store.currentMood == old(store.currentMood)
    {
      recorded := ReportedMood(outcome).Some?;
      if recorded {
        var d := outcome.data.value;
        result := Some(AsResult(d));
        store.AddMoodEntry(d.mood.value, Some(Trim(journalEntry)), now);
      }
      isAnalyzing := false;
    }

    /** `reset`: clears the entry and the result. */
    method Reset()
      modifies this`journalEntry, this`result
      ensures journalEntry == "" && result.None?
    {
      journalEntry := "";
      result := None;
    }
  }
}
