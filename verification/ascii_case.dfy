/** Case-insensitive string comparison in the manner of `String.equalsIgnoreCase`, over ASCII letters. */
module AsciiCase {

  /** `Character.toUpperCase` restricted to ASCII: lower-case letters map to upper case, all else is kept. */
  function ToUpper(c: char): char {
    if 'a' <= c <= 'z' then (c as int - 32) as char else c
  }

  predicate EqualsIgnoreCase(a: string, b: string) {
    |a| == |b| && forall i :: 0 <= i < |a| ==> ToUpper(a[i]) == ToUpper(b[i])
  }

}
