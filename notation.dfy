/**
 * A1 column letters (A = 1, ..., Z = 26, AA = 27, ...) and how
 * get_row_by_column turns a column given as letters into a 0-based index.
 */
module Notation {

  predicate IsLetter(c: char) {
    'A' <= c <= 'Z' || 'a' <= c <= 'z'
  }

  /** `str.isalpha()`, restricted to ASCII letters. */
  predicate IsAlpha(s: string) {
    |s| > 0 && forall i :: 0 <= i < |s| ==> IsLetter(s[i])
  }

  /** The value of one letter after `str.upper()`: A = 1, ..., Z = 26. */
  function LetterValue(c: char): (v: nat)
    requires IsLetter(c)
    ensures 1 <= v <= 26
  {
    if 'A' <= c <= 'Z' then (c as int - 'A' as int) + 1 else (c as int - 'a' as int) + 1
  }

  /** The column number that A1 letters denote (bijective base 26). */
  function ColumnNumber(s: string): (n: nat)
    requires forall i :: 0 <= i < |s| ==> IsLetter(s[i])
    ensures s != [] ==> n >= 1
  {
    if s == [] then 0
    else ColumnNumber(s[..|s| - 1]) * 26 + LetterValue(s[|s| - 1])
  }

  /** The upper-case A1 letters of column number n (n >= 1). */
  function ColumnLetters(n: nat): (s: string)
    requires n >= 1
    ensures IsAlpha(s)
    decreases n
  {
    var last := ((n - 1) % 26 + 'A' as int) as char;
    if (n - 1) / 26 == 0 then [last] else ColumnLetters((n - 1) / 26) + [last]
  }

  /** Letters and numbers are two names for the same column. */
  lemma {:induction false} ColumnLettersRoundTrip(n: nat)
    requires n >= 1
    ensures ColumnNumber(ColumnLetters(n)) == n
    decreases n
  {
    var s := ColumnLetters(n);
    var q := (n - 1) / 26;
    assert LetterValue(s[|s| - 1]) == (n - 1) % 26 + 1;
    if q == 0 {
      assert s[..|s| - 1] == [];
    } else {
      assert s[..|s| - 1] == ColumnLetters(q);
      ColumnLettersRoundTrip(q);
    }
  }

  /**
   * `a1_to_rowcol(letters.upper() + "1")`: the (row, column) pair of the cell
   * in row 1 under the given column letters.
   */
  function TopCellRowCol(letters: string): (rc: (int, int))
    requires IsAlpha(letters)
    ensures rc.0 == 1 && rc.1 >= 1
  {
    (1, ColumnNumber(letters))
  }

  /**
   * The index get_row_by_column computes, as written: it takes component [0]
   * of the (row, column) pair, which is the row number.
   */
  function LabelIndexAsWritten(letters: string): (i: int)
    requires IsAlpha(letters)
  {
    TopCellRowCol(letters).0 - 1
  }

  /** As written, every column label resolves to the first column. */
  lemma LabelIndexAsWrittenIsFirstColumn(letters: string)
    requires IsAlpha(letters)
    ensures LabelIndexAsWritten(letters) == 0
  {
  }

  /** "B" is resolved to column 0 as written, where column 1 is meant. */
  lemma LabelIndexAsWrittenMissesB()
    ensures LabelIndexAsWritten("B") == 0 && LabelIndex("B") == 1
  {
    assert "B"[..0] == [];
  }

  /** The index meant: component [1] of the pair, the column number, made 0-based. */
  function LabelIndex(letters: string): (i: nat)
    requires IsAlpha(letters)
    ensures i == ColumnNumber(letters) - 1
  {
    TopCellRowCol(letters).1 - 1
  }

  /** The letters of 0-based column i resolve back to i. */
  lemma LabelIndexRoundTrip(i: nat)
    ensures LabelIndex(ColumnLetters(i + 1)) == i
  {
    ColumnLettersRoundTrip(i + 1);
  }
}
