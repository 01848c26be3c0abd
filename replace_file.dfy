/** The placeholder substitution every field conversion applies first. */
module FileReplace {
  import opened JsValues

  /** `value instanceof FormData`. */
  predicate IsFormData(v: Value) { v.FormDataObj? }

  /** `value instanceof Stream`: FormData extends the stream class too. */
  predicate IsStream(v: Value) { v.FormDataObj? || v.StreamObj? }

  /** `value instanceof Buffer`. */
  predicate IsBuffer(v: Value) { v.BufferObj? }

  /** A value replaceFile substitutes. */
  predicate IsFileLike(v: Value) { IsFormData(v) || IsStream(v) || IsBuffer(v) }

  /**
   * replaceFile: FormData becomes "<file>", any other stream "<stream>",
   * a Buffer "<buffer>", tested in that order; other values pass through.
   */
  function ReplaceFile(v: Value): (r: Value)
    ensures IsFormData(v) ==> r == Str("<file>")
    ensures IsStream(v) && !IsFormData(v) ==> r == Str("<stream>")
    ensures IsBuffer(v) ==> r == Str("<buffer>")
    ensures !IsFileLike(v) ==> r == v
    ensures !IsFileLike(r)
  {
    if IsFormData(v) then Str("<file>")
    else if IsStream(v) then Str("<stream>")
    else if IsBuffer(v) then Str("<buffer>")
    else v
  }

  /** A FormData object matches both the FormData and the Stream test; the first wins. */
  lemma FormDataTakesFirstPlaceholder()
    ensures IsFormData(FormDataObj) && IsStream(FormDataObj)
    ensures ReplaceFile(FormDataObj) == Str("<file>")
  {
  }

  /** Every placeholder is a plain string, so a second pass changes nothing. */
  lemma ReplaceFileIdempotent(v: Value)
    ensures ReplaceFile(ReplaceFile(v)) == ReplaceFile(v)
  {
  }

  /** A value changes exactly when it is file-like, and then into a non-empty string. */
  lemma ReplaceFileChanges(v: Value)
    ensures ReplaceFile(v) != v <==> IsFileLike(v)
    ensures IsFileLike(v) ==> ReplaceFile(v).Str? && Truthy(ReplaceFile(v))
  {
  }
}
