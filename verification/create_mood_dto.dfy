/**
 * `CreateMoodDto` (backend/src/mood/dto/create-mood.dto.ts) and what the
 * global validation pipe does with a request body: properties the DTO does
 * not declare are stripped, the declared ones are checked, and a body that
 * fails any check is refused with the names of the failing properties.
 */
module MoodDto {
  import opened Wrappers
  import MoodContext

  /** One property of a JSON body: missing, `null`, a string, or any other JSON value. */
  datatype JsonField = Absent | Null | Str(s: string) | OtherValue

  /** The declared properties of a body posted to the mood endpoint. */
  datatype MoodBody = MoodBody(mood: JsonField, note: JsonField, timestamp: JsonField)

  /** A validated DTO; a `null` optional property is kept as absent. */
  datatype CreateMoodDto = CreateMoodDto(mood: string, note: Option<string>, timestamp: Option<string>)

  /** The values `@IsEnum` accepts for `mood`. */
  const MoodValues := ["happy", "calm", "tired", "anxious", "neutral", "sad", "energetic"]

  /** `@IsString() @IsNotEmpty() @IsEnum(…)`: a non-empty string among the seven values. */
  predicate ValidMood(f: JsonField) {
    f.Str? && f.s != "" && f.s in MoodValues
  }

  /** `@IsString() @IsOptional()`: missing or null is skipped, otherwise a string. */
  predicate ValidNote(f: JsonField) {
    f.Absent? || f.Null? || f.Str?
  }

  /**
   * `@IsDateString() @IsOptional()`: missing or null is skipped, otherwise an
   * ISO 8601 string; what counts as ISO 8601 is the parameter `isIsoDate`.
   */
  predicate ValidTimestamp(f: JsonField, isIsoDate: string -> bool) {
    f.Absent? || f.Null? || (f.Str? && isIsoDate(f.s))
  }

  predicate Valid(b: MoodBody, isIsoDate: string -> bool) {
    ValidMood(b.mood) && ValidNote(b.note) && ValidTimestamp(b.timestamp, isIsoDate)
  }

  function OptionalString(f: JsonField): (r: Option<string>)
    ensures r.Some? <==> f.Str?
    ensures r.Some? ==> r.value == f.s
  {
    if f.Str? then Some(f.s) else None
  }

  /**
   * Validation of a body: a valid one becomes the DTO with the same values;
   * an invalid one is refused with the failing property names, in
   * declaration order.
   */
  function Validate(b: MoodBody, isIsoDate: string -> bool): (r: Result<CreateMoodDto, seq<string>>)
    ensures r.Ok? <==> Valid(b, isIsoDate)
    ensures r.Ok? ==> r.value == CreateMoodDto(b.mood.s, OptionalString(b.note), OptionalString(b.timestamp))
    ensures r.Err? ==> r.error != []
    ensures r.Err? ==> ("mood" in r.error <==> !ValidMood(b.mood))
                       && ("note" in r.error <==> !ValidNote(b.note))
                       && ("timestamp" in r.error <==> !ValidTimestamp(b.timestamp, isIsoDate))
  {
    var failed := (if ValidMood(b.mood) then [] else ["mood"])
                  + (if ValidNote(b.note) then [] else ["note"])
                  + (if ValidTimestamp(b.timestamp, isIsoDate) then [] else ["timestamp"]);
    if failed == [] then Ok(CreateMoodDto(b.mood.s, OptionalString(b.note), OptionalString(b.timestamp)))
    else Err(failed)
  }

  /** The values the backend accepts are exactly the names of the client's seven moods. */
  lemma {:induction false} MoodValuesAreMoodNames()
    ensures |MoodValues| == |MoodContext.AllMoods|
    ensures forall i :: 0 <= i < |MoodValues| ==> MoodValues[i] == MoodContext.Name(MoodContext.AllMoods[i])
  {
    assert MoodContext.AllMoods == [MoodContext.Happy, MoodContext.Calm, MoodContext.Tired, MoodContext.Anxious,
                                    MoodContext.Neutral, MoodContext.Sad, MoodContext.Energetic];
  }

  /** A validated DTO's mood is always one the client can show. */
  lemma ValidatedMoodParses(b: MoodBody, isIsoDate: string -> bool)
    requires Validate(b, isIsoDate).Ok?
    ensures MoodContext.ParseMood(Validate(b, isIsoDate).value.mood).Some?
  {
    var s := b.mood.s;
    assert s in MoodValues;
    MoodValuesAreMoodNames();
    var i :| 0 <= i < |MoodValues| && MoodValues[i] == s;
    MoodContext.ParseName(MoodContext.AllMoods[i]);
  }
}
