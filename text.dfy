/** String helpers shared by the server and the front-end client. */
module Text {
  /** `s` begins with `prefix`, character by character (Go's `strings.HasPrefix`, JavaScript's `startsWith`). */
  predicate HasPrefix(s: string, prefix: string) {
    |prefix| <= |s| && s[..|prefix|] == prefix
  }
}
