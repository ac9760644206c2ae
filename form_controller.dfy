/**
 * The state machine shared by the two submit-form controller hooks: the
 * topic form of the debate page and the question form of the research page.
 * Both keep the text being edited, an error message and an `isSubmitting`
 * flag; they differ only in the wording of their four messages.
 *
 * The `createSession` call is an oracle (a function from the submitted text
 * to a session id or a failure). The requests sent to it and the session ids
 * handed to the optional `onSubmit` callback are recorded as logs.
 */
module FormController {
  import opened Wrappers
  import opened JsString
  import SessionRoutes

  /** The four messages of one form. */
  datatype Messages = Messages(required: string, tooShort: string, tooLong: string, failed: string)

  const MinLength: nat := 10
  const MaxLength: nat := 1000

  /**
   * `validateTopic` / `validateQuestion`: blank text is refused first, then the
   * untrimmed `length` (UTF-16 code units) must lie in 10..1000.
   */
  function Validate(m: Messages, value: string): (r: Option<string>)
    ensures r.None? <==> Trim(value) != [] && MinLength <= Length(value) <= MaxLength
    ensures (forall i :: 0 <= i < |value| ==> IsWhiteSpace(value[i])) ==> r == Some(m.required)
    ensures Trim(value) != [] && Length(value) < MinLength ==> r == Some(m.tooShort)
    ensures Trim(value) != [] && Length(value) > MaxLength ==> r == Some(m.tooLong)
    ensures r.Some? ==> r.value in {m.required, m.tooShort, m.tooLong}
  {
    if Trim(value) == [] then Some(m.required)
    else if Length(value) < MinLength then Some(m.tooShort)
    else if Length(value) > MaxLength then Some(m.tooLong)
    else None
  }

  /** What `createSession` may receive: non-blank, already trimmed, within the upper bound. */
  predicate Submittable(text: string) {
    text != [] && Trim(text) == text && Length(text) <= MaxLength
  }

  /** The text sent for an accepted value is submittable. */
  lemma AcceptedIsSubmittable(m: Messages, value: string)
    requires Validate(m, value).None?
    ensures Submittable(Trim(value))
  {
    TrimIdempotent(value);
    TrimLength(value);
  }

  /**
   * On text that has no surrounding white space the form and the route's topic
   * schema accept exactly the same values.
   */
  lemma AgreesWithRouteOnTrimmed(m: Messages, value: string)
    requires Trim(value) == value
    ensures Validate(m, value).None? <==> SessionRoutes.ValidateTopic(value).None?
  {
    if value == [] {
      assert Length(value) == 0;
    }
  }

  /**
   * The form checks the untrimmed length but sends the trimmed text, so padding
   * lets through a value whose submitted text the route's bound refuses: nine
   * spaces and a letter pass the form and one letter reaches `createSession`.
   */
  lemma PaddingPassesForm(m: Messages, value: string)
    requires value == "         x"
    ensures Validate(m, value).None?
    ensures Trim(value) == "x"
    ensures SessionRoutes.ValidateTopic(Trim(value)) == Some(SessionRoutes.TopicTooShort)
  {
    assert Length(value) == 10 by {
      BmpLength(value);
    }
    PaddingTrimmed(value);
    assert Length("x") == 1 by {
      BmpLength("x");
    }
  }

  lemma PaddingTrimmed(value: string)
    requires value == "         x"
    ensures Trim(value) == "x"
  {
    assert value == "         " + "x";
    TrimStartOfPadded("         ", "x");
    assert TrimEnd("x") == "x";
  }

  lemma {:induction false} TrimStartOfPadded(pad: string, rest: string)
    requires forall i :: 0 <= i < |pad| ==> IsWhiteSpace(pad[i])
    requires rest != [] && !IsWhiteSpace(rest[0])
    ensures TrimStart(pad + rest) == rest
  {
    if pad != [] {
      assert (pad + rest)[1..] == pad[1..] + rest;
      TrimStartOfPadded(pad[1..], rest);
    } else {
      assert pad + rest == rest;
    }
  }

  /** Every entry of `log + [text]` is submittable when `log`'s entries and `text` are. */
  lemma AppendKeepsSubmittable(log: seq<string>, text: string)
    requires forall k :: 0 <= k < |log| ==> Submittable(log[k])
    requires Submittable(text)
    ensures forall k :: 0 <= k < |log + [text]| ==> Submittable((log + [text])[k])
  {
  }

  class Form {
    const messages: Messages
    /** Whether the page passed an `onSubmit` callback. */
    const notify: bool
    var text: string
    var error: Option<string>
    var isSubmitting: bool
    /** The arguments `createSession` received, oldest first. */
    var requests: seq<string>
    /** The session ids handed to `onSubmit`, oldest first. */
    var notified: seq<string>

    /** Every request the form has sent was submittable. */
    ghost predicate Valid()
      reads this
    {
      forall k :: 0 <= k < |requests| ==> Submittable(requests[k])
    }

    /** The initial `useState` values. */
    constructor(m: Messages, onSubmit: bool)
      ensures messages == m && notify == onSubmit
      ensures text == "" && error.None? && !isSubmitting
      ensures requests == [] && notified == []
      ensures Valid()
    {
      messages := m;
      notify := onSubmit;
      text := "";
      error := None;
      isSubmitting := false;
      requests := [];
      notified := [];
    }

    /** `handleChange`: take the new text and clear the error. */
    method HandleChange(value: string)
      requires Valid()
      modifies this
      ensures text == value && error.None?
      ensures isSubmitting == old(isSubmitting) && requests == old(requests) && notified == old(notified)
      ensures Valid()
    {
      text := value;
      error := None;
    }

    /**
     * `handleSubmit`, with `create` standing for the awaited `createSession`.
     * A refused text sets the error and sends nothing; an accepted one sends
     * its trimmed form, and then either reports the new session and clears the
     * text, or keeps the text and reports the failure. Either way the form is
     * no longer submitting afterwards.
     */
    method HandleSubmit(create: string -> Result<string>)
      requires Valid()
      modifies this
      ensures Valid()
      ensures Validate(messages, old(text)).Some? ==>
        error == Validate(messages, old(text)) && text == old(text) &&
        isSubmitting == old(isSubmitting) && requests == old(requests) && notified == old(notified)
      ensures Validate(messages, old(text)).None? ==>
        requests == old(requests) + [Trim(old(text))] && !isSubmitting
      ensures Validate(messages, old(text)).None? && create(Trim(old(text))).Success? ==>
        text == "" && error.None? &&
        notified == old(notified) + (if notify then [create(Trim(old(text))).value] else [])
      ensures Validate(messages, old(text)).None? && create(Trim(old(text))).Failure? ==>
        text == old(text) && error == Some(messages.failed) && notified == old(notified)
    {
      error := None;
      var invalid := Validate(messages, text);
      if invalid.Some? {
        error := invalid;
      } else {
        AcceptedIsSubmittable(messages, text);
        Send(Trim(text), create);
      }
    }

    /** The part of `handleSubmit` after validation: the awaited call with the trimmed text, and its outcome. */
    method Send(submitted: string, create: string -> Result<string>)
      requires Valid() && Submittable(submitted) && error.None?
      modifies this
      ensures Valid()
      ensures requests == old(requests) + [submitted] && !isSubmitting
      ensures create(submitted).Success? ==>
        text == "" && error.None? &&
        notified == old(notified) + (if notify then [create(submitted).value] else [])
      ensures create(submitted).Failure? ==>
        text == old(text) && error == Some(messages.failed) && notified == old(notified)
    {
      isSubmitting := true;
      AppendKeepsSubmittable(requests, submitted);
      requests := requests + [submitted];
      var outcome := create(submitted);
      if outcome.Success? {
        if notify {
          notified := notified + [outcome.value];
        }
        text := "";
      } else {
        error := Some(messages.failed);
      }
      isSubmitting := false;
    }
  }
}
