/** The post composer (`PostComposer`): a dialog with a text area, a
    remaining-characters counter and a submit action that posts the trimmed
    text when it is non-blank and the raw text is within 256 characters.
 */
module PostComposer {
  import opened Wrappers
  import Strings

  const MaxChars: int := 256

  /** The counter value; negative once the text is too long. */
  function CharsRemaining(content: string): (n: int)
    ensures n < 0 <==> |content| > MaxChars
    ensures n + |content| == MaxChars
  {
    MaxChars - |content|
  }

  function IsOverLimit(content: string): (over: bool)
    ensures over <==> |content| > MaxChars
  {
    CharsRemaining(content) < 0
  }

  /** Blank text: nothing left after `trim`. */
  function IsEmpty(content: string): (empty: bool)
    ensures empty <==> Strings.AllWhitespace(content)
  {
    Strings.TrimEmptyIffBlank(content);
    |Strings.Trim(content)| == 0
  }

  /** The submit button is enabled, and a submission goes ahead, iff this
      holds. */
  function CanSubmit(content: string, isLoading: bool): (ok: bool)
    ensures ok <==> !Strings.AllWhitespace(content) && |content| <= MaxChars && !isLoading
  {
    !IsEmpty(content) && !IsOverLimit(content) && !isLoading
  }

  datatype Tone = Destructive | Amber | Muted

  /** The counter's colour: red below zero, amber within 20, muted above. */
  function CounterTone(content: string): (t: Tone)
    ensures t == Destructive <==> |content| > MaxChars
    ensures t == Amber <==> MaxChars - 20 <= |content| <= MaxChars
    ensures t == Muted <==> |content| < MaxChars - 20
  {
    var n := CharsRemaining(content);
    if n <= 20 then (if n < 0 then Destructive else Amber) else Muted
  }

  datatype ComposerState = ComposerState(isOpen: bool, content: string)

  /** `handleSubmit`, given the outcome of the parent's `onSubmit`: returns
      the new dialog state and the text handed to `onSubmit`, if any. A
      successful submission clears the text and closes the dialog; a failed
      one leaves both as they were. */
  function HandleSubmit(st: ComposerState, isLoading: bool, onSubmit: string -> Outcome)
    : (out: (ComposerState, Option<string>))
    ensures out.1.Some? <==> CanSubmit(st.content, isLoading)
    ensures out.1.None? ==> out.0 == st
    ensures out.1.Some? ==> out.1.value == Strings.Trim(st.content)
    ensures out.1.Some? && onSubmit(out.1.value).Pass? ==> out.0 == ComposerState(false, "")
    ensures out.1.Some? && onSubmit(out.1.value).Fail? ==> out.0 == st
  {
    if !CanSubmit(st.content, isLoading) then (st, None)
    else
      var text := Strings.Trim(st.content);
      match onSubmit(text)
      case Pass => (ComposerState(false, ""), Some(text))
      case Fail(_) => (st, Some(text))
  }

  /** What is posted is never blank, never longer than 256 characters, and
      neither starts nor ends with whitespace. */
  lemma SubmittedTextIsValid(st: ComposerState, isLoading: bool, onSubmit: string -> Outcome)
    requires HandleSubmit(st, isLoading, onSubmit).1.Some?
    ensures var text := HandleSubmit(st, isLoading, onSubmit).1.value;
      && 0 < |text| <= MaxChars
      && !Strings.IsWhitespace(text[0]) && !Strings.IsWhitespace(text[|text| - 1])
  {
  }

  /** `handleKeyDown`: Enter with Command or Control submits. */
  function SubmitsOnKey(key: string, metaKey: bool, ctrlKey: bool): (submits: bool)
    ensures submits <==> key == "Enter" && (metaKey || ctrlKey)
  {
    key == "Enter" && (metaKey || ctrlKey)
  }

  function HandleKeyDown(st: ComposerState, isLoading: bool, onSubmit: string -> Outcome,
                         key: string, metaKey: bool, ctrlKey: bool): (out: (ComposerState, Option<string>))
    ensures !SubmitsOnKey(key, metaKey, ctrlKey) ==> out == (st, None)
    ensures SubmitsOnKey(key, metaKey, ctrlKey) ==> out == HandleSubmit(st, isLoading, onSubmit)
  {
    if SubmitsOnKey(key, metaKey, ctrlKey) then HandleSubmit(st, isLoading, onSubmit) else (st, None)
  }
}
