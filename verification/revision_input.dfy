/** The "Revise with AI" box: a collapsed button that expands to a 500-character text
    area, and a submit that emits the trimmed text. */
module RevisionInput {
  import opened Wrappers
  import opened Text
  import opened RevisionSchema

  /** `isExpanded` and `revisionText`. */
  datatype Box = Box(isExpanded: bool, text: string)

  const InitialBox := Box(false, "")

  /** The button: the box opens with whatever text it held. */
  function Expand(b: Box): (r: Box)
    ensures r.isExpanded && r.text == b.text
  {
    b.(isExpanded := true)
  }

  /** Typing or pasting into the text area: `maxlength="500"` keeps at most the first
      500 characters. */
  function Typed(b: Box, input: string): (r: Box)
    ensures r.isExpanded == b.isExpanded
    ensures |r.text| <= MaxRevisionTextLength
    ensures |input| <= MaxRevisionTextLength ==> r.text == input
    ensures |input| > MaxRevisionTextLength ==> r.text == input[..MaxRevisionTextLength]
  {
    b.(text := if |input| <= MaxRevisionTextLength then input else input[..MaxRevisionTextLength])
  }

  /** The Revise button is disabled while loading or while the text is blank. */
  function SubmitDisabled(isLoading: bool, b: Box): (r: bool)
    ensures r <==> isLoading || AllWhitespace(b.text)
  {
    TrimEmptyIffBlank(b.text);
    isLoading || |Trim(b.text)| == 0
  }

  /** `onSubmit`: emits the trimmed text when it is not empty. The box is left as it is:
      it is cleared only by `resetAfterSuccess`, once the revision has succeeded. */
  function OnSubmit(b: Box): (r: (Box, Option<string>))
    ensures r.0 == b
    ensures r.1.Some? <==> !AllWhitespace(b.text)
    ensures r.1.Some? ==> r.1.value == Trim(b.text) && IsTrimmed(r.1.value) && r.1.value != ""
  {
    TrimEmptyIffBlank(b.text);
    var t := Trim(b.text);
    if |t| > 0 then (b, Some(t)) else (b, None)
  }

  /** `onCancel`: the text is discarded and the box collapses. */
  function OnCancel(b: Box): (r: Box)
    ensures !r.isExpanded && r.text == ""
  {
    InitialBox
  }

  /** `resetAfterSuccess`. */
  function ResetAfterSuccess(b: Box): (r: Box)
    ensures !r.isExpanded && r.text == ""
  {
    InitialBox
  }

  /** Cancelling and resetting after success leave the same box, and it is the one a new
      component starts with. */
  lemma CancelIsReset(b: Box)
    ensures OnCancel(b) == ResetAfterSuccess(b) == InitialBox
  {
  }

  /** The button is enabled exactly when a submit would emit, and submitting the emitted
      text again emits the same text. */
  lemma EnabledIffEmits(b: Box)
    ensures !SubmitDisabled(false, b) <==> OnSubmit(b).1.Some?
    ensures OnSubmit(b).1.Some? ==> OnSubmit(Box(true, OnSubmit(b).1.value)).1 == OnSubmit(b).1
  {
    TrimEmptyIffBlank(b.text);
    TrimIdempotent(b.text);
    if OnSubmit(b).1.Some? {
      TrimEmptyIffBlank(Trim(b.text));
    }
  }

  /** Text made only of Unicode spaces, such as a pasted no-break space, is blank: the
      button stays disabled and a submit emits nothing. */
  lemma UnicodeSpacesAreBlank(b: Box)
    requires forall i :: 0 <= i < |b.text| ==> b.text[i] in {'\U{00A0}', '\U{2007}', '\U{3000}', '\U{FEFF}'}
    ensures SubmitDisabled(false, b) && OnSubmit(b).1.None?
  {
    TrimEmptyIffBlank(b.text);
  }

  /** Whatever was typed, an emitted revision text is accepted by the revision request
      schemas: it has between 1 and 500 characters. */
  lemma EmittedTextIsValid(b: Box, input: string)
    ensures var r := OnSubmit(Typed(b, input)).1;
      r.Some? ==> ValidRevisionText(r.value)
  {
    var t := Typed(b, input).text;
    var r := Trim(t);
    var i :| 0 <= i <= |t| - |r| && r == t[i..i + |r|]
      && WhitespaceBetween(t, 0, i) && WhitespaceBetween(t, i + |r|, |t|);
    assert |r| <= |t|;
  }
}
