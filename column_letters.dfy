/**
 * Spreadsheet column letters (1 -> "A", 26 -> "Z", 27 -> "AA"): the key under
 * which a column's width is stored, and the column part of a range such as "O2:O51".
 */
module ColumnLetters {

  predicate IsUpper(c: char) { 'A' <= c <= 'Z' }

  predicate AllUpper(s: string) { forall i :: 0 <= i < |s| ==> IsUpper(s[i]) }

  function Letter(d: nat): (c: char)
    requires d < 26
    ensures IsUpper(c)
  {
    ('A' as int + d) as char
  }

  function LetterValue(c: char): nat
    requires IsUpper(c)
  {
    c as int - 'A' as int
  }

  /** Bijective base-26 name of the 1-based column index `n`. */
  function ColumnLetter(n: nat): (s: string)
    requires n >= 1
    ensures |s| >= 1 && AllUpper(s)
    ensures |s| == 1 <==> n <= 26
    decreases n
  {
    if n <= 26 then [Letter(n - 1)]
    else ColumnLetter((n - 1) / 26) + [Letter((n - 1) % 26)]
  }

  /** The 1-based column index a column name denotes. */
  function ColumnIndex(s: string): nat
    requires |s| >= 1 && AllUpper(s)
  {
    if |s| == 1 then LetterValue(s[0]) + 1
    else 26 * ColumnIndex(s[..|s| - 1]) + LetterValue(s[|s| - 1]) + 1
  }

  /** Reading a column name back gives the index it was made from. */
  lemma {:induction false} ColumnLetterRoundTrip(n: nat)
    requires n >= 1
    ensures ColumnIndex(ColumnLetter(n)) == n
    decreases n
  {
    if n > 26 {
      var s := ColumnLetter(n);
      assert s[..|s| - 1] == ColumnLetter((n - 1) / 26);
      ColumnLetterRoundTrip((n - 1) / 26);
    }
  }

  /** Distinct columns have distinct names, so no width overwrites another's. */
  lemma ColumnLetterInjective(a: nat, b: nat)
    requires a >= 1 && b >= 1 && ColumnLetter(a) == ColumnLetter(b)
    ensures a == b
  {
    ColumnLetterRoundTrip(a);
    ColumnLetterRoundTrip(b);
  }
}
