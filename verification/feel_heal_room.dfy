/**
 * The Feel & Heal room of src/components/FeelHealRoom.tsx: releasing a
 * written thought, choosing an ambient vibe, and stepping through the
 * reflection prompts.
 */
module FeelHealRoom {
  import opened Wrappers
  import opened Text

  /** One entry of `musicVibes`. */
  datatype Vibe = Vibe(id: string, caption: string, emoji: string)  // `caption` is the source's `label`

  const MusicVibes: seq<Vibe> := [
    Vibe("calm", "Calm & Soothing", "\U{1F30A}"),
    Vibe("nature", "Nature Sounds", "\U{1F33F}"),
    Vibe("focus", "Focus Flow", "\U{1F3AF}"),
    Vibe("uplift", "Uplifting", "\U{2600}\U{FE0F}")
  ]

  const ReflectionPrompts: seq<string> := [
    "What triggered this feeling?",
    "How does your body feel right now?",
    "What would you tell a friend in this situation?",
    "What's one small thing that could help?"
  ]

  /** The prompt that follows prompt `i`, wrapping from the last to the first. */
  function NextIndex(i: nat): (j: nat)
    ensures j < |ReflectionPrompts|
    ensures i + 1 < |ReflectionPrompts| ==> j == i + 1
    ensures i + 1 == |ReflectionPrompts| ==> j == 0
  {
    (i + 1) % |ReflectionPrompts|
  }

  /** Four steps bring every prompt back to itself. */
  lemma FourStepsCycle(i: nat)
    requires i < |ReflectionPrompts|
    ensures NextIndex(NextIndex(NextIndex(NextIndex(i)))) == i
    ensures i != 0 ==> NextIndex(i) != i
  {
  }

  /** `musicVibes.find(v => v.id === vibeId)`. */
  function FindVibe(vibes: seq<Vibe>, vibeId: string): (r: Option<Vibe>)
    ensures r.Some? ==> r.value in vibes && r.value.id == vibeId
    ensures r.Some? ==> exists k :: 0 <= k < |vibes| && vibes[k] == r.value && forall j :: 0 <= j < k ==> vibes[j].id != vibeId
    ensures r.None? ==> forall v :: v in vibes ==> v.id != vibeId
  {
    if vibes == [] then None
    else if vibes[0].id == vibeId then Some(vibes[0])
    else FindVibe(vibes[1..], vibeId)
  }

  /** The state of the room. */
  class Room {
    var releaseText: string
    var isReleasing: bool
    var releasedItems: seq<string>
    var activeVibe: Option<string>
    var reflectionAnswer: string
    var currentPromptIndex: nat

    ghost predicate Valid()
      reads this
    {
      currentPromptIndex < |ReflectionPrompts|
    }

    constructor ()
      ensures Valid()
      ensures releaseText == "" && !isReleasing && releasedItems == [] && activeVibe == None
      ensures reflectionAnswer == "" && currentPromptIndex == 0
    {
      releaseText := "";
      isReleasing := false;
      releasedItems := [];
      activeVibe := None;
      reflectionAnswer := "";
      currentPromptIndex := 0;
    }

    /** The prompt on show. */
    function CurrentPrompt(): (p: string)
      requires Valid()
      reads this
      ensures p in ReflectionPrompts
    {
      ReflectionPrompts[currentPromptIndex]
    }

    /** Typing in the release box. */
    method SetReleaseText(text: string)
      modifies this`releaseText
      ensures releaseText == text
    {
      releaseText := text;
    }

    /** Typing in the reflection box. */
    method SetReflectionAnswer(text: string)
      modifies this`reflectionAnswer
      ensures reflectionAnswer == text
    {
      reflectionAnswer := text;
    }

    /**
     * `handleRelease`: a blank text changes nothing; otherwise the text,
     * untrimmed, is appended to the released items and the release starts.
     */
    method HandleRelease() returns (released: bool)
      requires Valid()
      modifies this`isReleasing, this`releasedItems
      ensures Valid()
      ensures released <==> !IsBlank(releaseText)
      ensures released ==> isReleasing && releasedItems == old(releasedItems) + [releaseText]
      ensures !released ==> isReleasing == old(isReleasing) && releasedItems == old(releasedItems)
    {
      released := Trim(releaseText) != "";
      if released {
        isReleasing := true;
        releasedItems := releasedItems + [releaseText];
      }
    }

    /** The timer one second after a release: the box is emptied and the release ends. */
    method FinishRelease()
      requires Valid()
      modifies this`releaseText, this`isReleasing
      ensures Valid()
      ensures releaseText == "" && !isReleasing
    {
      releaseText := "";
      isReleasing := false;
    }

    /** `handleVibeChange`: the chosen id becomes the active vibe; the result is the vibe the toast names, if the id is known. */
    method HandleVibeChange(vibeId: string) returns (vibe: Option<Vibe>)
      requires Valid()
      modifies this`activeVibe
      ensures Valid()
      ensures activeVibe == Some(vibeId)
      ensures vibe == FindVibe(MusicVibes, vibeId)
    {
      activeVibe := Some(vibeId);
      vibe := FindVibe(MusicVibes, vibeId);
    }

    /**
     * `nextPrompt`: an answer with content is saved and cleared (a blank one
     * is kept), and the prompt advances by one, wrapping after the fourth.
     */
    method NextPrompt() returns (saved: bool)
      requires Valid()
      modifies this`reflectionAnswer, this`currentPromptIndex
      ensures Valid()
      ensures saved <==> !IsBlank(old(reflectionAnswer))
      ensures reflectionAnswer == if saved then "" else old(reflectionAnswer)
      ensures currentPromptIndex == NextIndex(old(currentPromptIndex))
    {
      saved := Trim(reflectionAnswer) != "";
      if saved {
        reflectionAnswer := "";
      }
      currentPromptIndex := NextIndex(currentPromptIndex);
    }
  }
}
