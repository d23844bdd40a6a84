/** The search form: a text field, a Search and an Add button, and a dropdown
    of suggestions. Its state is the typed city and whether the dropdown is
    open; each handler yields the next state and at most one request to the
    enclosing weather view. */
module LocationForm {
  import opened Results

  /** A code point that `String.prototype.trim` strips: the WhiteSpace and
      LineTerminator code points of ECMA-262 (sections 12.2 and 12.3). */
  predicate IsTrimmable(c: char) {
    || c == '\t' || c == '\n' || c == '\U{000B}' || c == '\U{000C}' || c == '\r'
    || c == ' ' || c == '\U{00A0}' || c == '\U{1680}'
    || ('\U{2000}' <= c <= '\U{200A}')
    || c == '\U{2028}' || c == '\U{2029}' || c == '\U{202F}' || c == '\U{205F}'
    || c == '\U{3000}' || c == '\U{FEFF}'
  }

  /** `s` with its leading trimmable code points removed. */
  function TrimStart(s: string): (r: string)
    ensures |r| <= |s| && r == s[|s| - |r|..]
    ensures forall i :: 0 <= i < |s| - |r| ==> IsTrimmable(s[i])
    ensures |r| > 0 ==> !IsTrimmable(r[0])
    decreases |s|
  {
    if |s| > 0 && IsTrimmable(s[0]) then TrimStart(s[1..]) else s
  }

  /** `s` with its trailing trimmable code points removed. */
  function TrimEnd(s: string): (r: string)
    ensures |r| <= |s| && r == s[..|r|]
    ensures forall i :: |r| <= i < |s| ==> IsTrimmable(s[i])
    ensures |r| > 0 ==> !IsTrimmable(r[|r| - 1])
    decreases |s|
  {
    if |s| > 0 && IsTrimmable(s[|s| - 1]) then TrimEnd(s[..|s| - 1]) else s
  }

  /** `s.trim()`. */
  function Trim(s: string): string {
    TrimEnd(TrimStart(s))
  }

  /** `s.trim() === ''`. */
  predicate IsBlank(s: string) {
    Trim(s) == ""
  }

  /** A string trims to nothing exactly when every code point in it is
      trimmable (in particular, the empty string is blank). */
  lemma BlankIffAllTrimmable(s: string)
    ensures IsBlank(s) <==> forall i :: 0 <= i < |s| ==> IsTrimmable(s[i])
  {
    var t := TrimStart(s);
    assert IsBlank(s) <==> |t| == 0;
  }

  /** The form's own state. */
  datatype FormState = FormState(city: string, showSuggestions: bool)

  /** An empty field with the dropdown closed. */
  const Initial := FormState("", false)

  /** What the form asks of the weather view. */
  datatype Intent =
    | LookUp(query: string)   // recompute suggestions for a partial input
    | Search(city: string)    // fetch the weather into the search panel
    | Add(city: string)       // save the city

  /** The state after a handler, and the request it made, if any. */
  datatype FormStep = FormStep(state: FormState, emitted: Option<Intent>)

  /** Typing: the field takes the new value, the dropdown opens exactly when
      the value is non-empty, and the value is handed on for suggestions. */
  function InputChange(s: FormState, value: string): FormStep {
    FormStep(FormState(value, |value| > 0), Some(LookUp(value)))
  }

  /** Search button / Enter: ignored unless the field has a non-whitespace
      code point; otherwise searches for the field exactly as typed, keeps
      the field, and closes the dropdown. */
  function Submit(s: FormState): (t: FormStep)
    ensures t.state.city == s.city
    ensures t.emitted.Some? <==> exists i :: 0 <= i < |s.city| && !IsTrimmable(s.city[i])
    ensures t.emitted.None? ==> t.state == s
    ensures t.emitted.Some? ==> t.emitted.value == Search(s.city) && !t.state.showSuggestions
  {
    BlankIffAllTrimmable(s.city);
    if IsBlank(s.city) then FormStep(s, None)
    else FormStep(s.(showSuggestions := false), Some(Search(s.city)))
  }

  /** Add button: ignored unless the field has a non-whitespace code point;
      otherwise asks to save the field exactly as typed, clears the field and
      closes the dropdown. */
  function AddClick(s: FormState): (t: FormStep)
    ensures t.emitted.Some? <==> exists i :: 0 <= i < |s.city| && !IsTrimmable(s.city[i])
    ensures t.emitted.None? ==> t.state == s
    ensures t.emitted.Some? ==> t.emitted.value == Add(s.city) && t.state == Initial
  {
    BlankIffAllTrimmable(s.city);
    if IsBlank(s.city) then FormStep(s, None)
    else FormStep(Initial, Some(Add(s.city)))
  }

  /** Choosing a dropdown entry: no blank check; the field takes the entry,
      the dropdown closes and the entry is searched for. */
  function SuggestionClick(s: FormState, suggestion: string): FormStep {
    FormStep(FormState(suggestion, false), Some(Search(suggestion)))
  }

  /** The dropdown is drawn only when it is open and has something to list. */
  predicate DropdownShown(s: FormState, suggestions: seq<string>) {
    s.showSuggestions && |suggestions| > 0
  }

  /** After typing, the dropdown shows exactly when the typed value and the
      suggestion list are both non-empty; after any search or add it is
      hidden whatever the suggestions are. */
  lemma DropdownAfterHandlers(s: FormState, value: string, suggestion: string, suggestions: seq<string>)
    ensures DropdownShown(InputChange(s, value).state, suggestions) <==> |value| > 0 && |suggestions| > 0
    ensures Submit(s).emitted.Some? ==> !DropdownShown(Submit(s).state, suggestions)
    ensures AddClick(s).emitted.Some? ==> !DropdownShown(AddClick(s).state, suggestions)
    ensures !DropdownShown(SuggestionClick(s, suggestion).state, suggestions)
  {
  }

  /** Whatever the form emits as Search or Add is non-empty and not all
      whitespace, except a chosen suggestion, which is passed on unchecked. */
  lemma EmittedCitiesAreNotBlank(s: FormState)
    ensures Submit(s).emitted.Some? ==> !IsBlank(Submit(s).emitted.value.city) && Submit(s).emitted.value.city != ""
    ensures AddClick(s).emitted.Some? ==> !IsBlank(AddClick(s).emitted.value.city) && AddClick(s).emitted.value.city != ""
  {
    BlankIffAllTrimmable(s.city);
  }

  /** An accepted Add empties the field, so an immediate second Add or Search
      does nothing. */
  lemma AddThenNothing(s: FormState)
    requires AddClick(s).emitted.Some?
    ensures AddClick(AddClick(s).state) == FormStep(Initial, None)
    ensures Submit(AddClick(s).state) == FormStep(Initial, None)
  {
    assert AddClick(s).state == Initial;
    assert TrimStart("") == "";
    assert IsBlank(Initial.city);
  }

  /** Typing a value and searching it emits that value unchanged, so leading
      and trailing spaces reach the weather request. */
  lemma TypeThenSearch(s: FormState, value: string)
    requires exists i :: 0 <= i < |value| && !IsTrimmable(value[i])
    ensures Submit(InputChange(s, value).state) == FormStep(FormState(value, false), Some(Search(value)))
  {
  }

  /** Typing replaces the whole field: only the latest value counts, whatever
      was typed or chosen before, and every keystroke asks for suggestions. */
  lemma TypingLastValueWins(s: FormState, earlier: string, value: string)
    ensures InputChange(InputChange(s, earlier).state, value) == InputChange(s, value)
    ensures InputChange(SuggestionClick(s, earlier).state, value) == InputChange(s, value)
    ensures InputChange(s, value).state.city == value && InputChange(s, value).emitted == Some(LookUp(value))
  {
  }

  /** Picking a suggestion searches for it exactly as pressing Search with
      the suggestion typed in would, except that a blank suggestion is still
      searched for: the click skips the blank check. */
  lemma PickedSuggestionIsSubmitSkippingBlankCheck(s: FormState, suggestion: string)
    ensures var picked := SuggestionClick(s, suggestion);
      && picked.emitted == Some(Search(suggestion))
      && (Submit(picked.state) == picked <==> exists i :: 0 <= i < |suggestion| && !IsTrimmable(suggestion[i]))
      && (!(exists i :: 0 <= i < |suggestion| && !IsTrimmable(suggestion[i])) ==> Submit(picked.state).emitted.None?)
  {
  }
}
