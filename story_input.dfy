/** The story field of the submission phase and its submit guard. */
module StoryInput {
  import opened Common
  import opened JsText

  /** The most characters the text field accepts. */
  const MaxChars: nat := 500

  class StoryInputState {
    /** The text typed so far. */
    var story: string

    /** The field never holds more than `MaxChars` characters. */
    ghost predicate Valid()
      reads this
    {
      |story| <= MaxChars
    }

    constructor ()
      ensures Valid() && story == ""
    {
      story := "";
    }

    /** `onChangeText`; the widget's `maxLength` caps what it can hand over. */
    method SetStory(text: string)
      requires |text| <= MaxChars
      modifies this
      ensures Valid() && story == text
    {
      story := text;
    }

    /** `handleSubmit`: blank text is not sent and stays in the field; any
        other text is sent once, untrimmed, and the field is emptied. `sent`
        is the argument of the one `onSubmit` call, if there was one. */
    method HandleSubmit() returns (sent: Option<string>)
      requires Valid()
      modifies this
      ensures Valid()
      ensures sent.Some? <==> !AllWhitespace(old(story))
      ensures sent.Some? ==> sent.value == old(story) && |sent.value| <= MaxChars && story == ""
      ensures sent.None? ==> story == old(story)
    {
      TrimBlank(story);
      if |Trim(story)| > 0 {
        sent := Some(story);
        story := "";
      } else {
        sent := None;
      }
    }
  }
}
