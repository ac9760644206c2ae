/**
 * `useDebateTopicController`: the topic form of the debate page, an instance of the shared
 * form state machine with its own messages.
 */
module TopicController {
  import opened Wrappers
  import opened JsString
  import F = FormController

  const Required := "Topic is required"
  const TooShort := "Topic must be at least 10 characters"
  const TooLong := "Topic must be at most 1000 characters"
  const Failed := "Failed to start debate session"

  const TopicMessages := F.Messages(Required, TooShort, TooLong, Failed)

  /** `validateTopic`. */
  function ValidateTopic(value: string): (r: Option<string>)
    ensures r.None? <==> Trim(value) != [] && 10 <= Length(value) <= 1000
    ensures Trim(value) == [] ==> r == Some(Required)
    ensures Trim(value) != [] && Length(value) < 10 ==> r == Some(TooShort)
    ensures Trim(value) != [] && Length(value) > 1000 ==> r == Some(TooLong)
  {
    F.Validate(TopicMessages, value)
  }

  /** Blank text is refused as missing even though it is also too short. */
  lemma RequiredBeforeLength(value: string)
    requires forall i :: 0 <= i < |value| ==> IsWhiteSpace(value[i])
    ensures ValidateTopic(value) == Some(Required)
    ensures Length(value) < 10 ==> ValidateTopic(value) != Some(TooShort)
  {
  }

  /** The hook's initial state: empty text, no error, not submitting, nothing sent. */
  method NewTopicController(onSubmit: bool) returns (form: F.Form)
    ensures fresh(form) && form.Valid()
    ensures form.messages == TopicMessages && form.notify == onSubmit
    ensures form.text == "" && form.error.None? && !form.isSubmitting
    ensures form.requests == [] && form.notified == []
  {
    form := new F.Form(TopicMessages, onSubmit);
  }
}
