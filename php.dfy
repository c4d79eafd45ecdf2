/**
 * The two PHP conversions of a string to a boolean that the plugin relies on.
 * `empty($s)` and `!$s` agree on strings: both hold exactly for "" and "0".
 */
module Php {

  /** `empty($s)` for a string `$s`. */
  predicate Empty(s: string)
    ensures Empty(s) ==> |s| <= 1
  {
    s == "" || s == "0"
  }

  /** `if ($s)` for a string `$s`: every string except "" and "0" is truthy. */
  predicate Truthy(s: string)
    ensures |s| >= 2 ==> Truthy(s)
    ensures Truthy(s) ==> s != ""
  {
    !Empty(s)
  }

}
