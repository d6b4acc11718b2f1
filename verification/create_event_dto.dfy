/**
 * `CreateEventDto` (backend/src/events/dto/create-event.dto.ts): every
 * declared property must be a non-empty string. `predictedMood` is free
 * text here: the backend does not restrict it to the seven moods.
 */
module EventDto {
  import opened Wrappers
  import opened MoodDto

  /** The declared properties of a body posted to the events endpoint. */
  datatype EventBody = EventBody(title: JsonField, time: JsonField, predictedMood: JsonField, tag: JsonField)

  datatype CreateEventDto = CreateEventDto(title: string, time: string, predictedMood: string, tag: string)

  /** `@IsString() @IsNotEmpty()`. */
  predicate NonEmptyString(f: JsonField) {
    f.Str? && f.s != ""
  }

  predicate Valid(b: EventBody) {
    NonEmptyString(b.title) && NonEmptyString(b.time) && NonEmptyString(b.predictedMood) && NonEmptyString(b.tag)
  }

  /**
   * Validation of a body: a valid one becomes the DTO with the same
   * strings; an invalid one is refused with the failing property names, in
   * declaration order.
   */
  function Validate(b: EventBody): (r: Result<CreateEventDto, seq<string>>)
    ensures r.Ok? <==> Valid(b)
    ensures r.Ok? ==> r.value == CreateEventDto(b.title.s, b.time.s, b.predictedMood.s, b.tag.s)
    ensures r.Ok? ==> r.value.title != "" && r.value.time != "" && r.value.predictedMood != "" && r.value.tag != ""
    ensures r.Err? ==> r.error != []
    ensures r.Err? ==> ("title" in r.error <==> !NonEmptyString(b.title))
                       && ("time" in r.error <==> !NonEmptyString(b.time))
                       && ("predictedMood" in r.error <==> !NonEmptyString(b.predictedMood))
                       && ("tag" in r.error <==> !NonEmptyString(b.tag))
  {
    var failed := (if NonEmptyString(b.title) then [] else ["title"])
                  + (if NonEmptyString(b.time) then [] else ["time"])
                  + (if NonEmptyString(b.predictedMood) then [] else ["predictedMood"])
                  + (if NonEmptyString(b.tag) then [] else ["tag"]);
    if failed == [] then Ok(CreateEventDto(b.title.s, b.time.s, b.predictedMood.s, b.tag.s))
    else Err(failed)
  }

  /** A predicted mood outside the seven is accepted. */
  lemma PredictedMoodIsFreeText(mood: string)
    requires mood != ""
    ensures Validate(EventBody(Str("Team meeting"), Str("10:00 AM"), Str(mood), Str("work"))).Ok?
  {
  }
}
