/**
 * Idioms every modal form shares: the error record keyed by field name,
 * clearing one error when its field is edited, and the optional text
 * properties that are sent trimmed or not at all.
 */
module Forms {
  import opened Common
  import opened JsNumbers
  import JsText

  /**
   * The `errors` record: field to message, a field showing an error when its
   * message is non-empty. Each dialog names its fields with its own type `K`.
   */
  type Errors<K> = map<K, string>

  /** `!!errors[key]`. */
  predicate HasError<K>(errors: Errors<K>, key: K)
  {
    key in errors && errors[key] != ""
  }

  /** Editing a field blanks its message (only if it had one) and keeps every other message. */
  function ClearError<K(!new)>(errors: Errors<K>, key: K): (r: Errors<K>)
    ensures !HasError(r, key)
    ensures forall k :: k != key ==> (k in r <==> k in errors)
    ensures forall k :: k in errors && k != key ==> r[k] == errors[k]
    ensures forall k :: HasError(r, k) <==> HasError(errors, k) && k != key
  {
    if HasError(errors, key) then errors[key := ""] else errors
  }

  /** `if (failed) errs.key = message`: one check of a `validate` function. */
  function Check<K(!new)>(errs: Errors<K>, failed: bool, key: K, message: string): (r: Errors<K>)
    ensures key in r <==> failed || key in errs
    ensures failed ==> r[key] == message
    ensures !failed ==> r == errs
    ensures forall k :: k != key ==> (k in r <==> k in errs)
    ensures forall k :: k in errs && k != key ==> r[k] == errs[k]
  {
    if failed then errs[key := message] else errs
  }

  /** `!text || Number(text) <= 0`: empty, zero or negative (NaN is not caught). */
  predicate AmountRejected(amount: NumField)
  {
    amount == Empty || LessEq(NumberOf(amount), Num(0.0))
  }

  const NameRequired := "Nombre es requerido"

  /**
   * The name gate of the project and payment-method dialogs: the trimmed
   * name must have 1 to 255 UTF-16 code units; an empty one is reported as
   * required, a longer one with `tooLong`.
   */
  function NameError(name: string, tooLong: string): (r: Option<string>)
    ensures r.None? <==> 1 <= JsText.Utf16Length(JsText.Trim(name)) <= 255
    ensures JsText.IsBlank(name) ==> r == Some(NameRequired)
    ensures !JsText.IsBlank(name) && r.Some? ==> r == Some(tooLong)
  {
    var trimmed := JsText.Trim(name);
    if trimmed == [] then Some(NameRequired)
    else if JsText.Utf16Length(trimmed) > 255 then Some(tooLong)
    else None
  }

  /** For a name of plain (BMP) characters with no surrounding whitespace, the limit is 255 characters. */
  lemma NameLengthLimit(name: string, tooLong: string)
    requires name != [] && JsText.Trim(name) == name
    requires forall i :: 0 <= i < |name| ==> name[i] as int <= 0xFFFF
    ensures NameError(name, tooLong).None? <==> |name| <= 255
  {
    var n := JsText.Utf16Length(name);
    assert n == |name|;
  }

  /** Typing in the name field: `if (errors.name) setErrors({})`. */
  function ClearNameError(error: Option<string>): (r: Option<string>)
    ensures error.Some? && error.value != "" ==> r == None
    ensures !(error.Some? && error.value != "") ==> r == error
  {
    if error.Some? && error.value != "" then None else error
  }

  /** `if (s.trim()) data.x = s.trim()`: the trimmed text, or the property left out. */
  function IfTrimmed(s: string): (r: Field<string>)
    ensures r == Absent <==> JsText.IsBlank(s)
    ensures r != Null
    ensures r.Present? ==> r.value == JsText.Trim(s) && r.value != ""
  {
    var t := JsText.Trim(s);
    if t == [] then Absent else Present(t)
  }

  /** `value ?? ""` for a nullable text. */
  function OrEmpty(o: Option<string>): (r: string)
    ensures o.Some? ==> r == o.value
    ensures o.None? ==> r == ""
  {
    if o.Some? then o.value else ""
  }

  /** A text that has no surrounding whitespace survives `IfTrimmed` unchanged. */
  lemma IfTrimmedKeeps(s: string)
    requires s != [] && !JsText.IsWhitespace(s[0]) && !JsText.IsWhitespace(s[|s| - 1])
    ensures IfTrimmed(s) == Present(s)
  {
    JsText.TrimKeeps(s);
  }
}
