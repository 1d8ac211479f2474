/** The string tests of Go's `strings` package that main.go uses on the
    host and that the URL readers reuse. */
module Strings {

  /** `strings.HasPrefix(s, p)`. */
  predicate HasPrefix(s: string, p: string) {
    |p| <= |s| && s[..|p|] == p
  }

  /** `strings.HasSuffix(s, p)`. */
  predicate HasSuffix(s: string, p: string) {
    |p| <= |s| && s[|s| - |p|..] == p
  }

  /** A non-empty string that does not end in "/" has a last character
      other than '/'. */
  lemma LastCharOfNonSlashSuffix(w: string)
    requires |w| > 0
    requires !HasSuffix(w, "/")
    ensures w[|w| - 1] != '/'
  {
  }
}
