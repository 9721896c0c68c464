/** The chat input box: a textarea that is controlled when the parent passes
    `value` and keeps its own text otherwise, submits the trimmed text, and
    grows up to a fixed height. Callbacks are reported as returned values. */
module ChatInputBox {
  import opened Js
  import Seqs

  /** The props that the logic reads: the controlled value, whether `onChange`
      and `onSubmit` were passed, and `isLoading` (false when omitted). */
  datatype Props = Props(controlledValue: Option<string>, hasOnChange: bool, hasOnSubmit: bool, isLoading: bool)

  const MaxHeight := 160

  /** `controlledValue !== undefined ? controlledValue : internalValue`. */
  function DisplayedValue(controlledValue: Option<string>, internalValue: string): (v: string)
    ensures controlledValue.Some? ==> v == controlledValue.value
    ensures controlledValue.None? ==> v == internalValue
  {
    if controlledValue.Some? then controlledValue.value else internalValue
  }

  /** The submit guard: the trimmed text, when it is non-empty and nothing is
      loading. The value is whitespace-only exactly when nothing could be
      submitted. What is submitted is the value's trimmed text: a non-empty
      infix without whitespace at either end, with only whitespace before and
      after it in the value. */
  function Submission(value: string, isLoading: bool): (r: Option<string>)
    ensures r.Some? <==> !AllWhitespace(value) && !isLoading
    ensures r.Some? ==>
      && r.value != ""
      && !IsWhitespace(r.value[0]) && !IsWhitespace(r.value[|r.value| - 1])
      && var i := Seqs.Leading(value, IsWhitespace);
         && i + |r.value| <= |value| && value[i..i + |r.value|] == r.value
         && AllWhitespace(value[..i]) && AllWhitespace(value[i + |r.value|..])
    ensures r.Some? ==> r.value == Trim(value)
  {
    TrimEmptyIffAllWhitespace(value);
    TrimShape(value);
    var t := Trim(value);
    if t != "" && !isLoading then Some(t) else None
  }

  /** Submitting what was submitted submits the same text again. */
  lemma SubmissionStable(value: string, isLoading: bool)
    requires Submission(value, isLoading).Some?
    ensures Submission(Submission(value, isLoading).value, isLoading) == Submission(value, isLoading)
  {
    TrimIdempotent(value);
  }

  /** The textarea height: the content height, capped at 160. */
  function ClampHeight(scrollHeight: int): (h: int)
    ensures h <= MaxHeight
    ensures h == scrollHeight || h == MaxHeight
    ensures scrollHeight <= MaxHeight ==> h == scrollHeight
  {
    if scrollHeight < MaxHeight then scrollHeight else MaxHeight
  }

  /** The component's own state. */
  class InputBox {
    var internalValue: string

    constructor ()
      ensures internalValue == ""
    {
      internalValue := "";
    }

    function Value(props: Props): string
      reads this
    {
      DisplayedValue(props.controlledValue, internalValue)
    }

    /** `setValue`: hands `v` to `onChange` when there is one (returned as
        `changed`), and otherwise stores it. */
    method SetValue(props: Props, v: string) returns (changed: Option<string>)
      modifies this
      ensures props.hasOnChange ==> changed == Some(v) && internalValue == old(internalValue)
      ensures !props.hasOnChange ==> changed == None && internalValue == v
    {
      if props.hasOnChange {
        changed := Some(v);
      } else {
        changed := None;
        internalValue := v;
      }
    }

    /** `handleSubmit`: `submitted` is what `onSubmit` receives. The own text
        is cleared after a submission unless the controlled value is truthy,
        whether or not an `onSubmit` was passed. */
    method HandleSubmit(props: Props) returns (submitted: Option<string>)
      modifies this
      ensures var s := Submission(old(Value(props)), props.isLoading);
        && submitted == (if s.Some? && props.hasOnSubmit then s else None)
        && internalValue == (if s.Some? && !Truthy(props.controlledValue) then "" else old(internalValue))
    {
      var value := Value(props);
      var trimmed := Trim(value);
      submitted := None;
      if trimmed != "" && !props.isLoading {
        if props.hasOnSubmit {
          submitted := Some(trimmed);
        }
        if !Truthy(props.controlledValue) {
          internalValue := "";
        }
      }
    }

    /** `handleKeyDown`: Enter without Shift prevents the newline and submits;
        any other key does nothing. */
    method HandleKeyDown(props: Props, key: string, shiftKey: bool) returns (prevented: bool, submitted: Option<string>)
      modifies this
      ensures prevented <==> key == "Enter" && !shiftKey
      ensures !prevented ==> submitted == None && internalValue == old(internalValue)
      ensures prevented ==>
        var s := Submission(old(Value(props)), props.isLoading);
        && submitted == (if s.Some? && props.hasOnSubmit then s else None)
        && internalValue == (if s.Some? && !Truthy(props.controlledValue) then "" else old(internalValue))
    {
      prevented := key == "Enter" && !shiftKey;
      submitted := None;
      if prevented {
        submitted := HandleSubmit(props);
      }
    }
  }

  /** An empty box submits nothing. */
  lemma EmptyBoxSubmitsNothing(isLoading: bool)
    ensures Submission("", isLoading) == None
  {
    TrimEmptyIffAllWhitespace("");
  }
}
