/**
 * ASCII models of the two string normalisations the ledger applies to a
 * transaction: Python's `str.lower` (descriptions) and `str.title`
 * (categories). Only the ASCII letters are cased here; every other
 * character is left as it is.
 */
module Text {

  predicate IsUpper(c: char) { 'A' <= c <= 'Z' }

  predicate IsLower(c: char) { 'a' <= c <= 'z' }

  /** A "cased" character in the sense of Python's `str.title`: a letter. */
  predicate IsCased(c: char) { IsUpper(c) || IsLower(c) }

  function ToLower(c: char): (r: char)
    ensures IsCased(r) <==> IsCased(c)
    ensures !IsUpper(r)
    ensures !IsCased(c) ==> r == c
  {
    if IsUpper(c) then (c as int - 'A' as int + 'a' as int) as char else c
  }

  function ToUpper(c: char): (r: char)
    ensures IsCased(r) <==> IsCased(c)
    ensures !IsLower(r)
    ensures !IsCased(c) ==> r == c
  {
    if IsLower(c) then (c as int - 'a' as int + 'A' as int) as char else c
  }

  /** Changing a letter's case twice keeps only the last change. */
  lemma CaseChangesAbsorb(c: char)
    ensures ToLower(ToLower(c)) == ToLower(c) && ToUpper(ToUpper(c)) == ToUpper(c)
    ensures ToLower(ToUpper(c)) == ToLower(c) && ToUpper(ToLower(c)) == ToUpper(c)
  {
  }

  /** `str.lower`: every character mapped to its lower-case form. */
  function Lower(s: string): (r: string)
    ensures |r| == |s|
    ensures forall i :: 0 <= i < |s| ==> r[i] == ToLower(s[i])
  {
    if s == [] then [] else [ToLower(s[0])] + Lower(s[1..])
  }

  /** A lower-cased string has no upper-case letter. */
  lemma LowerHasNoUpper(s: string)
    ensures forall i :: 0 <= i < |Lower(s)| ==> !IsUpper(Lower(s)[i])
  {
  }

  /** Lower-casing twice is lower-casing once. */
  lemma LowerIdempotent(s: string)
    ensures Lower(Lower(s)) == Lower(s)
  {
    var once := Lower(s);
    forall i | 0 <= i < |s|
      ensures Lower(once)[i] == once[i]
    {
      CaseChangesAbsorb(s[i]);
    }
  }

  /**
   * The scan behind `str.title`: a character that follows a cased character
   * is lower-cased, any other character is upper-cased. `previousCased`
   * says whether the character before `s` was cased.
   */
  function TitleFrom(s: string, previousCased: bool): (r: string)
    ensures |r| == |s|
    ensures forall i :: 0 <= i < |s| ==>
      r[i] == (if (i == 0 && previousCased) || (i > 0 && IsCased(s[i - 1]))
               then ToLower(s[i]) else ToUpper(s[i]))
    decreases |s|
  {
    if s == [] then []
    else
      var c := if previousCased then ToLower(s[0]) else ToUpper(s[0]);
      var rest := TitleFrom(s[1..], IsCased(s[0]));
      assert forall j :: 0 <= j < |s| - 1 ==> s[1..][j] == s[j + 1];
      [c] + rest
  }

  /** Whether the character at `i` of `s` starts a word for `str.title`. */
  predicate StartsWord(s: string, i: int)
    requires 0 <= i < |s|
  {
    i == 0 || !IsCased(s[i - 1])
  }

  /**
   * `str.title`, character by character: a letter that starts a word is
   * upper-cased, every other letter lower-cased, and nothing else changes.
   */
  function Title(s: string): (r: string)
    ensures |r| == |s|
    ensures forall i :: 0 <= i < |s| ==>
      r[i] == (if StartsWord(s, i) then ToUpper(s[i]) else ToLower(s[i]))
  {
    TitleFrom(s, false)
  }

  /** Title-casing twice is title-casing once. */
  lemma TitleIdempotent(s: string)
    ensures Title(Title(s)) == Title(s)
  {
    var once := Title(s);
    forall i | 0 <= i < |s|
      ensures Title(once)[i] == once[i]
    {
      CaseChangesAbsorb(s[i]);
      if i > 0 {
        assert IsCased(once[i - 1]) <==> IsCased(s[i - 1]);
      }
    }
  }

  /** A lower-case category gains a capital initial, and a capitalised one is kept as it is. */
  lemma TitleGroceries()
    ensures Title("groceries") == "Groceries"
    ensures Title("Groceries") == "Groceries"
  {
  }
}
