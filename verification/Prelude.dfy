// Shared helper types for the GTX Broker verification project.
module Prelude {

  datatype Option<+T> = None | Some(value: T)

  /** Python truthiness of an optional text column: absent and empty are both false. */
  predicate Given(text: Option<string>) {
    text.Some? && text.value != ""
  }

  predicate StartsWith(text: string, prefix: string) {
    |prefix| <= |text| && text[..|prefix|] == prefix
  }

  /** Dropping the element just appended gives the original back. */
  lemma DropAppended<T>(s: seq<T>, x: T)
    ensures (s + [x])[..|s|] == s && (s + [x])[|s|] == x
  {
  }
}
