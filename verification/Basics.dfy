/** What several modules count and search with. */
module Basics {
  function Min(a: nat, b: nat): nat { if a < b then a else b }

  // Whether `line` holds `word` at position i.
  predicate WordAt(line: string, word: string, i: nat) { i + |word| <= |line| && line[i..i + |word|] == word }
}
