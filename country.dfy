/** The country record the quiz works with: a code, a display name and a
    capital. It is the output of the API conversion and the input of the
    button builder. */
module Countries {

  /** A string-typed field as it can be at run time: a string, or
      `undefined` when it was read from past the end of an array. */
  datatype Text = Str(value: string) | Undefined

  /** Reading `s[i]` from an array of strings: the element when `i` is in
      range, `undefined` otherwise. */
  function ElementAt(s: seq<string>, i: nat): (r: Text)
    ensures r.Undefined? <==> i >= |s|
    ensures r.Str? ==> i < |s| && r.value == s[i]
  {
    if i < |s| then Str(s[i]) else Undefined
  }

  datatype Country = Country(code: string, name: string, capital: Text)

}
