/** Optional values: TypeScript's `undefined`/`null` next to a present value. */
module Wrappers {

  datatype Option<+T> = None | Some(value: T)

  /** JavaScript truthiness of an optional string: present and not the empty string. */
  predicate TruthyText(o: Option<string>) {
    o.Some? && o.value != ""
  }

  /** `o || fallback` for an optional string. */
  function TextOr(o: Option<string>, fallback: string): (r: string)
    ensures TruthyText(o) ==> r == o.value
    ensures !TruthyText(o) ==> r == fallback
  {
    if TruthyText(o) then o.value else fallback
  }

  /** `s || undefined`: the empty string becomes absent. */
  function EmptyToAbsent(s: string): (r: Option<string>)
    ensures r == None <==> s == ""
    ensures r.Some? ==> r.value == s
  {
    if s == "" then None else Some(s)
  }

  /** Normalising "" to absent and back with `|| ''` loses nothing. */
  lemma EmptyToAbsentRoundTrip(s: string)
    ensures TextOr(EmptyToAbsent(s), "") == s
  {
  }
}
