/** The tool-parameter validation pipe (src/common/pipes/tool-validation.pipe.ts): a DTO
    instance either passes with no violation and is returned as is, or the violations are
    formatted into a single BadRequest message. */
module Validation {
  import opened Outcomes
  import Text

  /** One entry of the validator's error list: the property and the messages of the
      constraints it broke, in order, or None when the entry carries no constraint map. */
  datatype FieldError = FieldError(property: string, constraints: Option<seq<string>>)

  /** The BadRequest the pipe throws. */
  datatype BadRequest = BadRequest(message: string)

  const FailurePrefix: string := "Tool parameter validation failed: "
  const MessageSeparator: string := ", "
  const FieldSeparator: string := "; "

  /** One field's part of the message: its constraint messages joined by ", ";
      empty for an entry without a constraint map. */
  function Segment(e: FieldError): (s: string)
    ensures e.constraints.None? ==> s == ""
    ensures e.constraints.Some? && |e.constraints.value| == 1 ==> s == e.constraints.value[0]
  {
    Text.Join(e.constraints.GetOr([]), MessageSeparator)
  }

  function Segments(errors: seq<FieldError>): (r: seq<string>)
    ensures |r| == |errors|
    ensures forall i :: 0 <= i < |errors| ==> r[i] == Segment(errors[i])
  {
    seq(|errors|, i requires 0 <= i < |errors| => Segment(errors[i]))
  }

  /** `formatValidationErrors`: the fields' segments joined by "; ", in list order. */
  function FormatValidationErrors(errors: seq<FieldError>): (r: string)
    ensures |errors| == 0 ==> r == ""
    ensures |errors| == 1 ==> r == Segment(errors[0])
    ensures |errors| > 0 ==> Text.StartsWith(r, Segment(errors[0]))
    ensures |errors| > 1 ==> Text.StartsWith(r[|Segment(errors[0])|..], FieldSeparator)
  {
    Text.Join(Segments(errors), FieldSeparator)
  }

  /** `transform` once the instance has been built and validated: with no violation the
      instance itself comes back; otherwise the call fails with the prefixed, formatted list. */
  function Transform<T>(instance: T, errors: seq<FieldError>): (r: Result<T, BadRequest>)
    ensures r.Success? <==> |errors| == 0
    ensures r.Success? ==> r == Success(instance)
    ensures r.Failure? ==>
      && Text.StartsWith(r.error.message, FailurePrefix)
      && r.error.message[|FailurePrefix|..] == FormatValidationErrors(errors)
  {
    if |errors| > 0 then
      var message := FailurePrefix + FormatValidationErrors(errors);
      assert message[..|FailurePrefix|] == FailurePrefix;
      Failure(BadRequest(message))
    else Success(instance)
  }

  /** One field with one broken constraint: the message is the prefix and that constraint's text. */
  lemma SingleMessageFailure<T>(instance: T, property: string, message: string)
    ensures Transform(instance, [FieldError(property, Some([message]))]) == Failure(BadRequest(FailurePrefix + message))
  {
    assert Segments([FieldError(property, Some([message]))]) == [message];
  }

  /** One field with broken constraints: the message is the prefix and that field's messages
      joined by ", ". */
  lemma SingleFieldFailure<T>(instance: T, property: string, messages: seq<string>)
    ensures Transform(instance, [FieldError(property, Some(messages))])
         == Failure(BadRequest(FailurePrefix + Text.Join(messages, MessageSeparator)))
  {
    assert Segments([FieldError(property, Some(messages))]) == [Text.Join(messages, MessageSeparator)];
  }

  /** No constraint message contains a ';'. */
  predicate SemicolonFree(errors: seq<FieldError>) {
    forall i :: 0 <= i < |errors| && errors[i].constraints.Some? ==>
      forall j :: 0 <= j < |errors[i].constraints.value| ==> ';' !in errors[i].constraints.value[j]
  }

  /** Joining texts that avoid a character, with a separator that avoids it, avoids it too. */
  lemma {:induction false} JoinAvoids(parts: seq<string>, sep: string, c: char)
    requires c !in sep
    requires forall k :: 0 <= k < |parts| ==> c !in parts[k]
    ensures c !in Text.Join(parts, sep)
  {
    if |parts| > 1 {
      JoinAvoids(parts[1..], sep, c);
    }
  }

  /** The failure message can be read back: after the prefix, splitting at "; " yields one
      segment per failed field, in order, each the field's messages joined by ", " (provided
      no message itself contains ';', as none of the DTO messages do). */
  lemma FailureMessageReadsBack<T>(instance: T, errors: seq<FieldError>)
    requires |errors| > 0 && SemicolonFree(errors)
    ensures Transform(instance, errors).Failure?
    ensures var message := Transform(instance, errors).error.message;
      Text.Split(message[|FailurePrefix|..], FieldSeparator) == Segments(errors)
  {
    var segments := Segments(errors);
    forall k | 0 <= k < |segments| ensures ';' !in segments[k] {
      JoinAvoids(errors[k].constraints.GetOr([]), MessageSeparator, ';');
    }
    Text.SplitJoin(segments, FieldSeparator);
  }
}
