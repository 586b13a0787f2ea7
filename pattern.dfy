/**
 * The anchored regular expressions the backend tests strings against
 * (`/^#[0-9A-Fa-f]{6}$/` for colour codes, `/^\+[0-9]{1,4}[0-9]{9,10}$/` for
 * phone numbers) are sequences of literal characters and bounded runs of a
 * character class. `Matches` is their meaning, with the backtracking over run
 * lengths written as an existential.
 */
module Pattern {
  import opened Text

  datatype CharClass = Digit | HexDigit

  /** One element of a pattern: a literal character, or `cls{lo,hi}`. */
  datatype Piece = Lit(c: char) | Run(cls: CharClass, lo: nat, hi: nat)

  predicate InClass(cls: CharClass, c: char) {
    match cls
    case Digit => IsDigit(c)
    case HexDigit => IsHexDigit(c)
  }

  predicate AllIn(cls: CharClass, s: string) {
    forall i :: 0 <= i < |s| ==> InClass(cls, s[i])
  }

  /** `^p$` matches the whole of `s`. */
  predicate Matches(p: seq<Piece>, s: string)
    decreases |p|
  {
    if p == [] then s == []
    else match p[0]
      case Lit(c) => s != [] && s[0] == c && Matches(p[1..], s[1..])
      case Run(cls, lo, hi) =>
        exists k :: lo <= k <= hi && k <= |s| && AllIn(cls, s[..k]) && Matches(p[1..], s[k..])
  }

  /** A pattern that starts with a literal matches exactly the strings that start with it. */
  lemma LitThen(c: char, rest: seq<Piece>, s: string)
    ensures Matches([Lit(c)] + rest, s) <==> s != [] && s[0] == c && Matches(rest, s[1..])
  {
    assert ([Lit(c)] + rest)[1..] == rest;
  }

  /** A single run anchored at both ends matches the strings of its class with a length in range. */
  lemma SingleRun(cls: CharClass, lo: nat, hi: nat, s: string)
    ensures Matches([Run(cls, lo, hi)], s) <==> lo <= |s| <= hi && AllIn(cls, s)
  {
    var p := [Run(cls, lo, hi)];
    assert p[1..] == [];
    if lo <= |s| <= hi && AllIn(cls, s) {
      assert s[..|s|] == s;
      assert s[|s|..] == [];
    }
  }

  /** A string is in a class exactly when both parts of any split of it are. */
  lemma AllInSplit(cls: CharClass, s: string, k: nat)
    requires k <= |s|
    ensures AllIn(cls, s) <==> AllIn(cls, s[..k]) && AllIn(cls, s[k..])
  {
    if AllIn(cls, s[..k]) && AllIn(cls, s[k..]) {
      forall i | 0 <= i < |s| ensures InClass(cls, s[i]) {
        if i < k { assert s[i] == s[..k][i]; } else { assert s[i] == s[k..][i - k]; }
      }
    }
  }

  /** Two runs in a row: the second run's side of `Matches`. */
  lemma TwoRunsUnfold(cls: CharClass, lo1: nat, hi1: nat, lo2: nat, hi2: nat, s: string)
    ensures Matches([Run(cls, lo1, hi1), Run(cls, lo2, hi2)], s)
        <==> exists k :: lo1 <= k <= hi1 && k <= |s| && AllIn(cls, s[..k]) && Matches([Run(cls, lo2, hi2)], s[k..])
  {
    assert [Run(cls, lo1, hi1), Run(cls, lo2, hi2)][1..] == [Run(cls, lo2, hi2)];
  }

  /**
   * Two consecutive runs of one class match exactly the strings of that class
   * whose length lies between the sums of the bounds.
   */
  lemma TwoRuns(cls: CharClass, lo1: nat, hi1: nat, lo2: nat, hi2: nat, s: string)
    requires lo1 <= hi1 && lo2 <= hi2
    ensures Matches([Run(cls, lo1, hi1), Run(cls, lo2, hi2)], s)
        <==> lo1 + lo2 <= |s| <= hi1 + hi2 && AllIn(cls, s)
  {
    TwoRunsUnfold(cls, lo1, hi1, lo2, hi2, s);
    if Matches([Run(cls, lo1, hi1), Run(cls, lo2, hi2)], s) {
      var k :| lo1 <= k <= hi1 && k <= |s| && AllIn(cls, s[..k]) && Matches([Run(cls, lo2, hi2)], s[k..]);
      SingleRun(cls, lo2, hi2, s[k..]);
      AllInSplit(cls, s, k);
    }
    if lo1 + lo2 <= |s| <= hi1 + hi2 && AllIn(cls, s) {
      var k := if |s| - hi2 > lo1 then |s| - hi2 else lo1;
      SingleRun(cls, lo2, hi2, s[k..]);
      AllInSplit(cls, s, k);
    }
  }
}
