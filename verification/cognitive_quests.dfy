/**
 * The two mini-games of src/components/CognitiveQuests.tsx: the balloon
 * game (pop balloons carrying negative thoughts to reveal a reframe) and
 * the emotion puzzle (match each feeling with its solution).
 */
module CognitiveQuests {
  import opened Wrappers

  /** `Quest`: which game is open, if any. */
  datatype Quest = NoQuest | BalloonQuest | PuzzleQuest

  /** One entry of `negativeThoughts`. */
  datatype Thought = Thought(thought: string, reframe: string)

  const NegativeThoughts: seq<Thought> := [
    Thought("I can't do this", "I'm learning and growing"),
    Thought("I'm not good enough", "I am worthy as I am"),
    Thought("Everyone judges me", "Most people focus on themselves"),
    Thought("I always fail", "Every attempt teaches me something"),
    Thought("Things never work out", "Challenges lead to growth"),
    Thought("I'm so stupid", "Making mistakes is human"),
    Thought("Nobody likes me", "I have people who care"),
    Thought("It's hopeless", "Change takes time")
  ]

  /** `Balloon`, without its random horizontal position. */
  datatype Balloon = Balloon(id: int, text: string, popped: bool, reframe: string)

  /** `PuzzleMatch`. */
  datatype PuzzleMatch = PuzzleMatch(feeling: string, trigger: string, solution: string, matched: bool)

  /** `puzzleData`: the four cards of the puzzle, none matched. */
  const PuzzleData: seq<PuzzleMatch> := [
    PuzzleMatch("\U{1F630} Anxious", "Upcoming deadline", "Break into small tasks", false),
    PuzzleMatch("\U{1F622} Sad", "Feeling isolated", "Reach out to a friend", false),
    PuzzleMatch("\U{1F620} Frustrated", "Plans changed", "Practice flexibility", false),
    PuzzleMatch("\U{1F634} Drained", "Overworking", "Take regular breaks", false)
  ]

  // ---------------------------------------------------------------- balloons

  /** The balloon `spawnBalloon` makes from the clock reading and the random pick of a thought. */
  function NewBalloon(now: int, pick: nat): (b: Balloon)
    requires pick < |NegativeThoughts|
    ensures !b.popped && b.id == now
    ensures Thought(b.text, b.reframe) in NegativeThoughts
  {
    Balloon(now, NegativeThoughts[pick].thought, false, NegativeThoughts[pick].reframe)
  }

  /** `prev.map(b => b.id === id ? { ...b, popped: true } : b)`. */
  function MarkPopped(bs: seq<Balloon>, id: int): (r: seq<Balloon>)
    ensures |r| == |bs|
  {
    if bs == [] then []
    else [if bs[0].id == id then bs[0].(popped := true) else bs[0]] + MarkPopped(bs[1..], id)
  }

  /** `prev.filter(b => b.id !== id)`. */
  function RemoveId(bs: seq<Balloon>, id: int): (r: seq<Balloon>)
    ensures |r| <= |bs|
  {
    if bs == [] then []
    else if bs[0].id == id then RemoveId(bs[1..], id)
    else [bs[0]] + RemoveId(bs[1..], id)
  }

  /** Popping changes only the balloons with that id, and only their `popped` flag. */
  lemma {:induction false} MarkPoppedAt(bs: seq<Balloon>, id: int, i: nat)
    requires i < |bs|
    ensures MarkPopped(bs, id)[i] == if bs[i].id == id then bs[i].(popped := true) else bs[i]
  {
    if i > 0 { MarkPoppedAt(bs[1..], id, i - 1); }
  }

  /** The filter keeps exactly the balloons with another id. */
  lemma {:induction false} RemoveIdMembers(bs: seq<Balloon>, id: int, b: Balloon)
    ensures b in RemoveId(bs, id) <==> b in bs && b.id != id
  {
    if bs != [] {
      RemoveIdMembers(bs[1..], id, b);
      assert bs == [bs[0]] + bs[1..];
    }
  }

  /**
   * The filter works piece by piece, so the balloons it keeps stay in the
   * order they had; a list without the id comes back unchanged.
   */
  lemma {:induction false} RemoveIdAppend(xs: seq<Balloon>, ys: seq<Balloon>, id: int)
    ensures RemoveId(xs + ys, id) == RemoveId(xs, id) + RemoveId(ys, id)
  {
    if xs != [] {
      assert (xs + ys)[1..] == xs[1..] + ys;
      RemoveIdAppend(xs[1..], ys, id);
    } else {
      assert xs + ys == ys;
    }
  }

  lemma {:induction false} RemoveAbsentId(bs: seq<Balloon>, id: int)
    requires forall b :: b in bs ==> b.id != id
    ensures RemoveId(bs, id) == bs
  {
    if bs != [] {
      RemoveAbsentId(bs[1..], id);
      assert bs == [bs[0]] + bs[1..];
    }
  }

  /** Pop followed by the delayed clean-up leaves exactly the other balloons, untouched and in order. */
  lemma {:induction false} PopThenRemove(bs: seq<Balloon>, id: int)
    ensures RemoveId(MarkPopped(bs, id), id) == RemoveId(bs, id)
  {
    if bs != [] { PopThenRemove(bs[1..], id); }
  }

  // ------------------------------------------------------------------ puzzle

  /** `prev.map(p => p.feeling === feeling ? { ...p, matched: true } : p)`. */
  function MarkMatched(ps: seq<PuzzleMatch>, feeling: string): (r: seq<PuzzleMatch>)
    ensures |r| == |ps|
  {
    if ps == [] then []
    else [if ps[0].feeling == feeling then ps[0].(matched := true) else ps[0]] + MarkMatched(ps[1..], feeling)
  }

  /** The number of matched cards. */
  function MatchedCount(ps: seq<PuzzleMatch>): (n: nat)
    ensures n <= |ps|
  {
    if ps == [] then 0 else (if ps[0].matched then 1 else 0) + MatchedCount(ps[1..])
  }

  /** `puzzleState.filter(p => !p.matched).length`. */
  function UnmatchedCount(ps: seq<PuzzleMatch>): nat {
    if ps == [] then 0 else (if ps[0].matched then 0 else 1) + UnmatchedCount(ps[1..])
  }

  predicate AllMatched(ps: seq<PuzzleMatch>) {
    forall i :: 0 <= i < |ps| ==> ps[i].matched
  }

  /** `puzzleState.find(p => p.feeling === feeling && p.solution === solution)`. */
  function FindPair(ps: seq<PuzzleMatch>, feeling: string, solution: string): (r: Option<nat>)
    ensures r.Some? ==> r.value < |ps| && ps[r.value].feeling == feeling && ps[r.value].solution == solution
    ensures r.Some? ==> forall j :: 0 <= j < r.value ==> !(ps[j].feeling == feeling && ps[j].solution == solution)
    ensures r.None? ==> forall j :: 0 <= j < |ps| ==> !(ps[j].feeling == feeling && ps[j].solution == solution)
  {
    if ps == [] then None
    else if ps[0].feeling == feeling && ps[0].solution == solution then Some(0)
    else match FindPair(ps[1..], feeling, solution)
      case None => None
      case Some(k) => Some(k + 1)
  }

  /** `ps` holds the four puzzle cards in their order; only the matched flags may differ. */
  predicate SameCards(ps: seq<PuzzleMatch>) {
    |ps| == |PuzzleData| && forall i :: 0 <= i < |ps| ==> ps[i].(matched := false) == PuzzleData[i]
  }

  /** Matched and unmatched cards together are all the cards; all are matched exactly when the count says so. */
  lemma {:induction false} CountsSplit(ps: seq<PuzzleMatch>)
    ensures MatchedCount(ps) + UnmatchedCount(ps) == |ps|
    ensures AllMatched(ps) <==> MatchedCount(ps) == |ps|
  {
    if ps != [] {
      CountsSplit(ps[1..]);
      assert forall i :: 1 <= i < |ps| ==> ps[i] == ps[1..][i - 1];
    }
  }

  /** A state with no matched card has matched count zero. */
  lemma {:induction false} NoneMatched(ps: seq<PuzzleMatch>)
    requires forall i :: 0 <= i < |ps| ==> !ps[i].matched
    ensures MatchedCount(ps) == 0
  {
    if ps != [] {
      assert forall i :: 0 <= i < |ps| - 1 ==> ps[1..][i] == ps[i + 1];
      NoneMatched(ps[1..]);
    }
  }

  lemma {:induction false} MarkMatchedAt(ps: seq<PuzzleMatch>, feeling: string, i: nat)
    requires i < |ps|
    ensures MarkMatched(ps, feeling)[i] == if ps[i].feeling == feeling then ps[i].(matched := true) else ps[i]
  {
    if i > 0 { MarkMatchedAt(ps[1..], feeling, i - 1); }
  }

  /** Matching the one unmatched card that has a given feeling adds exactly one to the matched count. */
  lemma {:induction false} MarkMatchedCount(ps: seq<PuzzleMatch>, feeling: string, k: nat)
    requires k < |ps| && ps[k].feeling == feeling && !ps[k].matched
    requires forall i :: 0 <= i < |ps| && i != k ==> ps[i].feeling != feeling
    ensures MatchedCount(MarkMatched(ps, feeling)) == MatchedCount(ps) + 1
  {
    if k == 0 {
      MarkUnusedFeeling(ps[1..], feeling);
    } else {
      MarkMatchedCount(ps[1..], feeling, k - 1);
    }
  }

  lemma {:induction false} MarkUnusedFeeling(ps: seq<PuzzleMatch>, feeling: string)
    requires forall i :: 0 <= i < |ps| ==> ps[i].feeling != feeling
    ensures MarkMatched(ps, feeling) == ps
  {
    if ps != [] {
      MarkUnusedFeeling(ps[1..], feeling);
      assert ps == [ps[0]] + ps[1..];
    }
  }

  /** Marking a feeling changes no card's text, so the cards stay the puzzle's cards. */
  lemma MarkMatchedKeepsCards(ps: seq<PuzzleMatch>, feeling: string)
    requires SameCards(ps)
    ensures SameCards(MarkMatched(ps, feeling))
  {
    forall i | 0 <= i < |ps| ensures MarkMatched(ps, feeling)[i].(matched := false) == PuzzleData[i] {
      MarkMatchedAt(ps, feeling, i);
    }
  }

  /** With the four-card data a round scores at most 100. */
  lemma PuzzleScoreBound(ps: seq<PuzzleMatch>)
    requires SameCards(ps)
    ensures 25 * MatchedCount(ps) <= 100
  {
  }

  /**
   * The state of the quests panel. Its invariant: at most five balloons
   * exist, the puzzle state always holds the four puzzle cards, and during
   * a puzzle round the score is 25 per matched card.
   */
  class QuestBoard {
    var activeQuest: Quest
    var score: int
    var balloons: seq<Balloon>
    var showReframe: Option<string>
    var puzzleState: seq<PuzzleMatch>
    var selectedFeeling: Option<string>

    ghost predicate Valid()
      reads this
    {
      && |balloons| <= 5
      && SameCards(puzzleState)
      && (activeQuest == PuzzleQuest ==> score == 25 * MatchedCount(puzzleState))
    }

    constructor ()
      ensures Valid()
      ensures activeQuest == NoQuest && score == 0 && balloons == [] && showReframe == None
      ensures puzzleState == PuzzleData && selectedFeeling == None
    {
      activeQuest := NoQuest;
      score := 0;
      balloons := [];
      showReframe := None;
      puzzleState := PuzzleData;
      selectedFeeling := None;
    }

    /**
     * `startBalloonQuest`: opens the balloon game with score 0 and an empty
     * list, then spawns the first balloon at once, so one balloon is left.
     */
    method StartBalloonQuest(now: int, pick: nat)
      requires Valid() && pick < |NegativeThoughts|
      modifies this
      ensures Valid()
      ensures activeQuest == BalloonQuest && score == 0
      ensures balloons == [NewBalloon(now, pick)]
      ensures puzzleState == old(puzzleState) && selectedFeeling == old(selectedFeeling)
      ensures showReframe == old(showReframe)
    {
      activeQuest := BalloonQuest;
      score := 0;
      balloons := [];
      balloons := balloons + [NewBalloon(now, pick)];
    }

    /** One tick of the two-second spawn timer, which runs only during the balloon game and spawns only below five balloons. */
    method SpawnTick(now: int, pick: nat) returns (spawned: bool)
      requires Valid() && pick < |NegativeThoughts|
      modifies this
      ensures Valid()
      ensures spawned <==> old(activeQuest) == BalloonQuest && |old(balloons)| < 5
      ensures balloons == if spawned then old(balloons) + [NewBalloon(now, pick)] else old(balloons)
      ensures activeQuest == old(activeQuest) && score == old(score) && showReframe == old(showReframe)
      ensures puzzleState == old(puzzleState) && selectedFeeling == old(selectedFeeling)
    {
      spawned := activeQuest == BalloonQuest && |balloons| < 5;
      if spawned {
        balloons := balloons + [NewBalloon(now, pick)];
      }
    }

    /**
     * A tap on a balloon of the open balloon game: an unpopped balloon is
     * popped (every balloon with its id is marked, the score gains 10 and
     * the reframe shows); a popped one ignores the tap.
     */
    method TapBalloon(b: Balloon) returns (popped: bool)
      requires Valid() && activeQuest == BalloonQuest && b in balloons
      modifies this
      ensures Valid()
      ensures popped == !b.popped
      ensures balloons == if popped then MarkPopped(old(balloons), b.id) else old(balloons)
      ensures score == if popped then old(score) + 10 else old(score)
      ensures showReframe == if popped then Some(b.reframe) else old(showReframe)
      ensures activeQuest == old(activeQuest) && puzzleState == old(puzzleState)
      ensures selectedFeeling == old(selectedFeeling)
    {
      popped := !b.popped;
      if popped {
        balloons := MarkPopped(balloons, b.id);
        score := score + 10;
        showReframe := Some(b.reframe);
      }
    }

    /** The clean-up 1.5 seconds after a pop: hides the reframe and drops the balloons with that id. */
    method FinishPop(id: int)
      requires Valid()
      modifies this
      ensures Valid()
      ensures showReframe == None && balloons == RemoveId(old(balloons), id)
      ensures activeQuest == old(activeQuest) && score == old(score)
      ensures puzzleState == old(puzzleState) && selectedFeeling == old(selectedFeeling)
    {
      showReframe := None;
      balloons := RemoveId(balloons, id);
    }

    /** The close button of either game. */
    method Close()
      requires Valid()
      modifies this
      ensures Valid() && activeQuest == NoQuest
      ensures score == old(score) && balloons == old(balloons) && showReframe == old(showReframe)
      ensures puzzleState == old(puzzleState) && selectedFeeling == old(selectedFeeling)
    {
      activeQuest := NoQuest;
    }

    /** `startPuzzleQuest`: every card unmatched, score 0, nothing selected. */
    method StartPuzzleQuest()
      requires Valid()
      modifies this
      ensures Valid()
      ensures activeQuest == PuzzleQuest && score == 0 && selectedFeeling == None
      ensures SameCards(puzzleState) && forall i :: 0 <= i < |puzzleState| ==> !puzzleState[i].matched
      ensures balloons == old(balloons) && showReframe == old(showReframe)
    {
      activeQuest := PuzzleQuest;
      score := 0;
      puzzleState := seq(|PuzzleData|, i requires 0 <= i < |PuzzleData| => PuzzleData[i].(matched := false));
      selectedFeeling := None;
      NoneMatched(puzzleState);
    }

    /** A tap on a feeling card selects it unless it is already matched. */
    method SelectFeeling(i: nat)
      requires Valid() && i < |puzzleState|
      modifies this
      ensures Valid()
      ensures selectedFeeling == if puzzleState[i].matched then old(selectedFeeling) else Some(puzzleState[i].feeling)
      ensures activeQuest == old(activeQuest) && score == old(score) && puzzleState == old(puzzleState)
      ensures balloons == old(balloons) && showReframe == old(showReframe)
    {
      if !puzzleState[i].matched {
        selectedFeeling := Some(puzzleState[i].feeling);
      }
    }

    /**
     * `handlePuzzleMatch`: a correct pair whose card is not yet matched
     * marks that card, adds 25 and clears the selection, and reports
     * completion exactly when it was the last unmatched card; any other
     * pair changes nothing.
     */
    method HandlePuzzleMatch(feeling: string, solution: string) returns (correct: bool, completed: bool)
      requires Valid() && activeQuest == PuzzleQuest
      modifies this
      ensures Valid()
      ensures var hit := FindPair(old(puzzleState), feeling, solution);
              correct <==> hit.Some? && !old(puzzleState)[hit.value].matched
      ensures correct ==> puzzleState == MarkMatched(old(puzzleState), feeling)
                          && score == old(score) + 25 && selectedFeeling == None
      ensures correct ==> MatchedCount(puzzleState) == MatchedCount(old(puzzleState)) + 1
      ensures !correct ==> puzzleState == old(puzzleState) && score == old(score)
                           && selectedFeeling == old(selectedFeeling)
      ensures completed <==> correct && UnmatchedCount(old(puzzleState)) == 1
      ensures completed ==> AllMatched(puzzleState) && score == 100
      ensures activeQuest == old(activeQuest) && balloons == old(balloons) && showReframe == old(showReframe)
    {
      var hit := FindPair(puzzleState, feeling, solution);
      correct := hit.Some? && !puzzleState[hit.value].matched;
      completed := false;
      if correct {
        var k := hit.value;
        forall i | 0 <= i < |puzzleState| && i != k ensures puzzleState[i].feeling != feeling {
          assert puzzleState[i].feeling == PuzzleData[i].feeling;
          assert puzzleState[k].feeling == PuzzleData[k].feeling;
        }
        MarkMatchedCount(puzzleState, feeling, k);
        MarkMatchedKeepsCards(puzzleState, feeling);
        completed := UnmatchedCount(puzzleState) == 1;
        CountsSplit(puzzleState);
        puzzleState := MarkMatched(puzzleState, feeling);
        CountsSplit(puzzleState);
        score := score + 25;
        selectedFeeling := None;
      }
    }
  }
}
