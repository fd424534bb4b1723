/** Argument checks shared by the stores (pkg/util/util.go). */
module Util {
  import opened Errors

  /** CheckKey: the empty key is refused with ErrEmptyKey, any other key passes. */
  function CheckKey(k: string): (r: MaybeError)
    ensures r.Err? <==> k == ""
    ensures r.Err? ==> r.error == EmptyKey
  {
    if k == "" then Err(EmptyKey) else Nil
  }

  /** CheckVal accepts every value: despite its name it never reports a nil value. */
  function CheckVal<V>(v: V): (r: MaybeError)
    ensures r == Nil
  {
    Nil
  }

  /** CheckKeyAndValue checks the key first and only then the value. */
  function CheckKeyAndValue<V>(k: string, v: V): (r: MaybeError)
    ensures r == CheckKey(k)
  {
    var keyErr := CheckKey(k);
    if keyErr.Err? then keyErr else CheckVal(v)
  }
}
