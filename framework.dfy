/** Terraform framework values and the provider's rules for moving between them and API values.
    A framework attribute is null, unknown (not yet known at plan time) or a known value; an API
    value is a Go value, a pointer (`Option`) or a slice (`seq`). */
module Framework {
  import opened Wrappers
  import opened Text

  datatype TfValue<T> = Null | Unknown | Known(value: T)

  type TfString = TfValue<string>
  type TfInt = TfValue<int>
  type TfBool = TfValue<bool>
  /** `types.List` of strings: the list itself may be null or unknown, and so may each element. */
  type TfList = TfValue<seq<TfString>>

  /** `ValueString()`, `ValueBool()`, `ValueInt64()`: the value, or the type's zero value when the
      attribute is null or unknown. */
  function ValueOr<T>(v: TfValue<T>, zero: T): (r: T)
    ensures v.Known? ==> r == v.value
    ensures !v.Known? ==> r == zero
  {
    if v.Known? then v.value else zero
  }

  /** `stringOrEmpty` (and `stringValue`, `attrStringValue`, which are the same rule):
      "" for null or unknown, the value otherwise. Also what `ValueString()` returns. */
  function StringOrEmpty(v: TfString): string
  {
    ValueOr(v, "")
  }

  /** `stringOrNull`: the empty string becomes null, anything else a known value. */
  function StringOrNull(s: string): TfString
  {
    if s == "" then Null else Known(s)
  }

  /** `stringOrNullValue`: a string that is empty or only white space becomes null. The Go tests
      `strings.TrimSpace(s) == ""`, which `BlankOrNullTrims` shows is the same test. */
  function BlankOrNull(s: string): (r: TfString)
    ensures r.Known? ==> r.value == s
    ensures !r.Unknown?
  {
    if AllSpace(s) then Null else Known(s)
  }

  /** A string becomes null exactly when trimming leaves nothing of it, and otherwise it is kept
      whole, untrimmed. */
  lemma BlankOrNullTrims(s: string)
    ensures BlankOrNull(s).Null? <==> TrimSpace(s) == ""
    ensures BlankOrNull(s).Known? <==> TrimSpace(s) != ""
    ensures TrimSpace(s) != "" ==> BlankOrNull(s) == Known(s)
  {
  }

  /** `boolPointerOrNull`, `int64PointerOrNull` and the `if p != nil { X = Value(*p) } else
      { X = Null() }` blocks: a nil pointer becomes null, a present one its value. */
  function PointerOrNull<T>(p: Option<T>): TfValue<T>
  {
    match p
    case None => Null
    case Some(v) => Known(v)
  }

  /** `boolPointer` and the `if !v.IsNull() && !v.IsUnknown() { x := v.Value(); p = &x }` blocks:
      null or unknown is absent, a known value is pointed to. */
  function Pointer<T>(v: TfValue<T>): Option<T>
  {
    if v.Known? then Some(v.value) else None
  }

  /** The empty-string-to-null rule loses nothing: reading back a null gives "". The other way,
      only a null or a known non-empty value survives a round trip; an unknown or a known ""
      comes back as something else. */
  lemma StringOrNullRoundTrip(s: string, v: TfString)
    ensures StringOrEmpty(StringOrNull(s)) == s
    ensures StringOrNull(s).Null? <==> s == ""
    ensures StringOrNull(StringOrEmpty(v)) == v <==> (v.Null? || (v.Known? && v.value != ""))
  {
  }

  /** Pointer and null-or-value are inverse: no pointer is lost, and only unknown is not
      recovered (it becomes null). */
  lemma PointerRoundTrip<T>(p: Option<T>, v: TfValue<T>)
    ensures Pointer(PointerOrNull(p)) == p
    ensures PointerOrNull(p).Null? <==> p.None?
    ensures PointerOrNull(Pointer(v)) == v <==> !v.Unknown?
    ensures Pointer(v).None? <==> (v.Null? || v.Unknown?)
  {
  }

  // ---------------------------------------------------------------- lists of strings

  /** What `listOfStrings` and `stringSliceToList` build: null for an empty slice, otherwise a known
      list holding every element, known, in order. */
  function StringList(values: seq<string>): (r: TfList)
    ensures r.Null? <==> values == []
    ensures !r.Unknown?
    ensures r.Known? ==> |r.value| == |values| && forall i :: 0 <= i < |values| ==> r.value[i] == Known(values[i])
  {
    if values == [] then Null else Known(seq(|values|, i requires 0 <= i < |values| => Known(values[i])))
  }

  /** `listOfStrings` / `stringSliceToValue` (and `stringSliceToList`), as the Go writes them:
      an append loop over the slice. */
  method ListOfStrings(values: seq<string>) returns (r: TfList)
    ensures r == StringList(values)
  {
    if |values| == 0 {
      return Null;
    }
    var elements: seq<TfString> := [];
    for i := 0 to |values|
      invariant |elements| == i
      invariant forall j :: 0 <= j < i ==> elements[j] == Known(values[j])
    {
      elements := elements + [Known(values[i])];
    }
    assert elements == StringList(values).value;
    r := Known(elements);
  }

  /** What `stringList` returns: nothing (a nil slice) for a null or unknown list, otherwise every
      element's `ValueString()` in order. */
  function ElementStrings(list: TfList): (r: seq<string>)
    ensures !list.Known? ==> r == []
    ensures list.Known? ==> |r| == |list.value| && forall i :: 0 <= i < |r| ==> r[i] == StringOrEmpty(list.value[i])
  {
    if list.Known? then seq(|list.value|, i requires 0 <= i < |list.value| => StringOrEmpty(list.value[i])) else []
  }

  /** `stringList`, as the Go writes it: an append loop over the list's elements. */
  method StringListValues(list: TfList) returns (values: seq<string>)
    ensures values == ElementStrings(list)
  {
    if !list.Known? {
      return [];
    }
    var elements := list.value;
    values := [];
    for i := 0 to |elements|
      invariant |values| == i
      invariant forall j :: 0 <= j < i ==> values[j] == StringOrEmpty(elements[j])
    {
      values := values + [StringOrEmpty(elements[i])];
    }
  }

  /** A slice written out as a list and read back is the same slice (an empty slice goes to null and
      comes back empty, which Go treats the same as nil). */
  lemma StringListRoundTrip(values: seq<string>)
    ensures ElementStrings(StringList(values)) == values
  {
  }

  /** `list.ElementsAs(ctx, &[]string{}, false)`: the element values, or an error when some element
      is null or unknown (a Go string cannot hold either). */
  function KnownElements(elements: seq<TfString>): (r: Option<seq<string>>)
    ensures r.Some? <==> forall i :: 0 <= i < |elements| ==> elements[i].Known?
    ensures r.Some? ==> |r.value| == |elements| && forall i :: 0 <= i < |elements| ==> r.value[i] == elements[i].value
  {
    if forall i :: 0 <= i < |elements| ==> elements[i].Known? then
      Some(seq(|elements|, i requires 0 <= i < |elements| => elements[i].value))
    else
      None
  }

  // ---------------------------------------------------------------- diagnostics

  /** An error diagnostic: a summary and a detail, reported against an attribute or not. */
  datatype Diagnostic = Diagnostic(attribute: Option<string>, summary: string, detail: string)

  /** A value, or the error diagnostic that stopped it from being produced. */
  datatype Diagnosed<+T> = Valid(value: T) | Invalid(diag: Diagnostic)
}
