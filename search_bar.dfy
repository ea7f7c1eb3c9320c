/**
 * The search form: a text field whose value the component keeps, a submit
 * rule that passes the trimmed text on, a clear rule, and the expressions
 * that disable the controls while a search is loading.
 */
module SearchBar {
  import opened Text

  /** A call the form makes to one of the callbacks it was given. */
  datatype Call = OnSearch(city: string) | OnClear

  /** The submit button is disabled while loading or while the trimmed text is empty. */
  predicate SubmitDisabled(input: string, isLoading: bool) {
    isLoading || Trim(input) == []
  }

  /** The text field is disabled while loading. */
  predicate InputDisabled(isLoading: bool) {
    isLoading
  }

  /** The clear button is disabled while loading. */
  predicate ClearDisabled(isLoading: bool) {
    isLoading
  }

  /** The submit button's caption. */
  function SubmitLabel(isLoading: bool): string {
    if isLoading then "..." else "Buscar"
  }

  /** The submit button is enabled exactly when not loading and the text holds
      a character that is not whitespace. */
  lemma SubmitDisabledIff(input: string, isLoading: bool)
    ensures SubmitDisabled(input, isLoading) <==> isLoading || AllWhitespace(input)
  {
    TrimEmptyIff(input);
  }

  /** While loading, every control is disabled and the caption is "...";
      otherwise the field and the clear button are enabled and the caption is "Buscar". */
  lemma ControlsWhileLoading(input: string, isLoading: bool)
    ensures isLoading ==>
      && SubmitDisabled(input, isLoading) && InputDisabled(isLoading)
      && ClearDisabled(isLoading) && SubmitLabel(isLoading) == "..."
    ensures !isLoading ==>
      && !InputDisabled(isLoading) && !ClearDisabled(isLoading)
      && SubmitLabel(isLoading) == "Buscar"
  {
  }

  class Form {
    /** The `input` state: the text field's value. */
    var input: string

    constructor ()
      ensures input == ""
    {
      input := "";
    }

    /** The field's `onChange`: the value is replaced by what was typed. */
    method Change(value: string)
      modifies this
      ensures input == value
    {
      input := value;
    }

    /** `handleSubmit`: search once for the trimmed text, or do nothing when the
        text is blank. The text field keeps its value. */
    method Submit() returns (calls: seq<Call>)
      ensures !AllWhitespace(input) ==> calls == [OnSearch(Trim(input))]
      ensures AllWhitespace(input) ==> calls == []
      ensures forall k :: 0 <= k < |calls| ==>
        && calls[k].OnSearch? && calls[k].city != []
        && IsTrimmed(calls[k].city) && Trim(calls[k].city) == calls[k].city
    {
      TrimEmptyIff(input);
      var city := Trim(input);
      if city != [] {
        TrimIsTrimmed(input);
        TrimIdempotent(input);
        calls := [OnSearch(city)];
      } else {
        calls := [];
      }
    }

    /** `handleClear`: the text becomes empty and the clear callback runs once. */
    method Clear() returns (calls: seq<Call>)
      modifies this
      ensures input == "" && calls == [OnClear]
    {
      input := "";
      calls := [OnClear];
    }
  }

  /** Pressing an enabled submit button searches for exactly the trimmed text. */
  method SubmitWhenEnabled(form: Form, isLoading: bool) returns (calls: seq<Call>)
    requires !SubmitDisabled(form.input, isLoading)
    ensures calls == [OnSearch(Trim(form.input))]
  {
    TrimEmptyIff(form.input);
    calls := form.Submit();
  }
}
