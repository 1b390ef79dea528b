/**
 * `isRegexMatched(string, pattern:)`: compile `pattern` with
 * `NSRegularExpression` and report whether it matches anywhere in `string`.
 * The regular-expression engine is foreign code, so the model takes it as a
 * value with two parts:
 *  - `compiles(pattern)`: the pattern is accepted (the `try?` does not give `nil`);
 *  - `matchesAt(pattern, s, i)`: the compiled pattern has a match in `s`
 *    starting at position `i`. The engine sees the whole of `s`, so anchors,
 *    word boundaries and lookbehind can depend on the text before `i`.
 */
module Regex {

  datatype Engine = Engine(compiles: string -> bool, matchesAt: (string, string, nat) -> bool)

  /**
   * `matches(in:range:)` over the whole string is non-empty: some match starts
   * at a position of `s` (including the end, for patterns that match the empty
   * string). A pattern that does not compile matches nothing.
   */
  predicate IsRegexMatched(engine: Engine, s: string, pattern: string)
  {
    engine.compiles(pattern) && exists i: nat :: i <= |s| && engine.matchesAt(pattern, s, i)
  }

  /** An invalid pattern never matches: `try?` gives `nil`, and `nil ?? []` is empty. */
  lemma InvalidPatternNeverMatches(engine: Engine, s: string, pattern: string)
    requires !engine.compiles(pattern)
    ensures !IsRegexMatched(engine, s, pattern)
  {
  }

  /**
   * The abstraction can answer as `NSRegularExpression` does on anchored
   * patterns: an engine whose `^a` matches only at the start of the string
   * finds it in "a" and not in "ba".
   */
  lemma AnchorsAreExpressible()
    ensures var startsWithA := Engine(p => true, (p, s: string, i: nat) => i == 0 && |s| > 0 && s[0] == 'a');
      && IsRegexMatched(startsWithA, "a", "^a")
      && !IsRegexMatched(startsWithA, "ba", "^a")
  {
    var startsWithA := Engine(p => true, (p, s: string, i: nat) => i == 0 && |s| > 0 && s[0] == 'a');
    assert startsWithA.matchesAt("^a", "a", 0);
  }
}
