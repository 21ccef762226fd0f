/**
 * The orchestrator's party-size extraction from free text: the leftmost run of digits
 * that stands as a whole word wins; failing that, the French number words `deux` to
 * `dix` are looked up, in the order of the word table, among the whitespace-separated
 * tokens of the lower-cased text. Neither `un` nor `une` is in the table, so an
 * indefinite article ("une table") never reads as one person.
 */
module Quantities {
  import opened Wrappers
  import opened PyText

  // ---------------------------------------------------------------- re.search(r'\b(\d+)\b', t)

  /** `t[i..j]` is a match of `\b(\d+)\b`: a run of digits with a word boundary on each side. */
  ghost predicate IsDigitToken(t: string, i: int, j: int) {
    && 0 <= i < j <= |t|
    && (forall k :: i <= k < j ==> IsDigit(t[k]))
    && (i == 0 || !IsWordChar(t[i - 1]))
    && (j == |t| || !IsWordChar(t[j]))
  }

  /** `t[i..j]` is the match `re.search` reports: no match starts further left. */
  ghost predicate IsLeftmostDigitToken(t: string, i: int, j: int) {
    IsDigitToken(t, i, j) && forall i', j' :: 0 <= i' < i ==> !IsDigitToken(t, i', j')
  }

  ghost predicate NoDigitToken(t: string) {
    forall i, j :: !IsDigitToken(t, i, j)
  }

  /** A match is determined by where it starts: a digit run ends in one place. */
  lemma DigitTokenEnd(t: string, i: int, j: int, j': int)
    requires IsDigitToken(t, i, j) && IsDigitToken(t, i, j')
    ensures j == j'
  {
  }

  /** End of the run of digits that starts at `i`. */
  function DigitRunEnd(t: string, i: nat): (j: nat)
    requires i <= |t|
    ensures i <= j <= |t|
    ensures forall k :: i <= k < j ==> IsDigit(t[k])
    ensures j < |t| ==> !IsDigit(t[j])
    decreases |t| - i
  {
    if i < |t| && IsDigit(t[i]) then DigitRunEnd(t, i + 1) else i
  }

  /** The leftmost match of `\b(\d+)\b` in `t` that starts at `from` or later. */
  function SearchDigitToken(t: string, from: nat): (m: Option<(nat, nat)>)
    requires from <= |t|
    ensures m.Some? ==> from <= m.value.0 && IsDigitToken(t, m.value.0, m.value.1)
    ensures m.Some? ==> forall i, j :: from <= i < m.value.0 ==> !IsDigitToken(t, i, j)
    ensures m.None? ==> forall i, j :: from <= i ==> !IsDigitToken(t, i, j)
    decreases |t| - from
  {
    if from == |t| then None
    else if IsDigit(t[from]) && (from == 0 || !IsWordChar(t[from - 1])) then
      var j := DigitRunEnd(t, from);
      if j == |t| || !IsWordChar(t[j]) then Some((from, j))
      else
        NoDigitTokenAt(t, from, j);
        SearchDigitToken(t, from + 1)
    else
      SearchDigitToken(t, from + 1)
  }

  /** A digit run glued to a following letter is not a match, nor is any prefix of it. */
  lemma NoDigitTokenAt(t: string, i: nat, j: nat)
    requires i < j < |t| && IsWordChar(t[j])
    requires forall k :: i <= k < j ==> IsDigit(t[k])
    requires !IsDigit(t[j])
    ensures forall j' :: !IsDigitToken(t, i, j')
  {
    forall j' | IsDigitToken(t, i, j') ensures false {
      if j' < j {
        assert IsWordChar(t[j']);
      }
    }
  }

  /** The leftmost match, once found, is the only leftmost one. */
  lemma SearchFindsLeftmost(t: string, i: int, j: int)
    requires IsLeftmostDigitToken(t, i, j)
    ensures SearchDigitToken(t, 0) == Some((i, j))
  {
    var m := SearchDigitToken(t, 0);
    assert m.Some?;
    var (i0, j0) := m.value;
    assert i0 == i;
    DigitTokenEnd(t, i, j, j0);
  }

  // ---------------------------------------------------------------- the word table

  /** `words_to_num`, in its (insertion) order. */
  const WordsToNum: seq<(string, nat)> := [
    ("deux", 2), ("trois", 3), ("quatre", 4), ("cinq", 5),
    ("six", 6), ("sept", 7), ("huit", 8), ("neuf", 9), ("dix", 10)
  ]

  lemma WordsAreTokens()
    ensures forall k :: 0 <= k < |WordsToNum| ==> IsToken(WordsToNum[k].0)
    ensures forall k :: 0 <= k < |WordsToNum| ==> 2 <= WordsToNum[k].1 <= 10
  {
  }

  /** Entry `k` is the first entry, in table order, whose word stands alone in `t`. */
  ghost predicate IsFirstWordEntry(t: string, k: int) {
    0 <= k < |WordsToNum| && StandsAlone(t, WordsToNum[k].0)
    && forall k' :: 0 <= k' < k ==> !StandsAlone(t, WordsToNum[k'].0)
  }

  // ---------------------------------------------------------------- _extract_number

  /**
   * `_extract_number(text)`. The digit path wins; the word path reads the table in its own
   * order (not the order of the text), yields 2 to 10 only and never 1; with neither a
   * digit match nor a standing number word the result is `None`.
   */
  method ExtractNumber(text: string) returns (r: Option<int>)
    ensures var t := Lower(text);
      forall i, j :: IsLeftmostDigitToken(t, i, j) ==> r == Some(DigitsValue(t[i..j]))
    ensures var t := Lower(text);
      NoDigitToken(t) ==>
        && (r.None? <==> forall k :: 0 <= k < |WordsToNum| ==> !StandsAlone(t, WordsToNum[k].0))
        && (r.Some? ==> exists k :: IsFirstWordEntry(t, k) && r == Some(WordsToNum[k].1))
        && (r.Some? ==> 2 <= r.value <= 10)
  {
    var t := Lower(text);
    // The test for "une table", "un table", "une reservation" and "une réservation" that
    // precedes this point has an empty body: it cannot influence the result.

    // 2. explicit digits
    var m := SearchDigitToken(t, 0);
    if m.Some? {
      var (i, j) := m.value;
      forall i', j' | IsLeftmostDigitToken(t, i', j') ensures i' == i && j' == j {
        SearchFindsLeftmost(t, i', j');
      }
      return Some(DigitsValue(t[i..j]));
    }

    // 3. number words, in table order, among the whitespace-separated tokens
    var tokens := Split(t);
    WordsAreTokens();
    forall k | 0 <= k < |WordsToNum| ensures WordsToNum[k].0 in tokens <==> StandsAlone(t, WordsToNum[k].0) {
      SplitMembership(t, WordsToNum[k].0);
    }
    var k := 0;
    while k < |WordsToNum|
      invariant 0 <= k <= |WordsToNum|
      invariant forall k' :: 0 <= k' < k ==> WordsToNum[k'].0 !in tokens
    {
      var (w, n) := WordsToNum[k];
      if w in tokens {
        assert IsFirstWordEntry(t, k);
        return Some(n);
      }
      k := k + 1;
    }
    return None;
  }

  // ---------------------------------------------------------------- properties

  /** Without any digit in the text there is no digit match. */
  lemma NoDigitsNoToken(t: string)
    requires forall k :: 0 <= k < |t| ==> !IsDigit(t[k])
    ensures NoDigitToken(t)
  {
    forall i, j | 0 <= i < |t| ensures !IsDigitToken(t, i, j) {
      assert !IsDigit(t[i]);
    }
  }

  /** A lone run of digits preceded by no digit at all is the match `re.search` reports. */
  lemma LoneNumberIsLeftmost(t: string, i: nat, j: nat)
    requires IsDigitToken(t, i, j)
    requires forall k :: 0 <= k < i ==> !IsDigit(t[k])
    ensures IsLeftmostDigitToken(t, i, j)
  {
    forall i', j' | 0 <= i' < i ensures !IsDigitToken(t, i', j') {
      assert !IsDigit(t[i']);
    }
  }

  // ---------------------------------------------------------------- examples

  /** A digit wins even after an indefinite article. */
  method DigitAfterArticleExample() {
    var t := Lower("une table pour 4");
    assert t == "une table pour 4";
    assert t[15..16] == "4" && IsDigitToken(t, 15, 16);
    LoneNumberIsLeftmost(t, 15, 16);
    assert DigitsValue("4") == 4;
    var r := ExtractNumber("une table pour 4");
    assert r == Some(4);
  }

  lemma NoDigitInArticleExample()
    ensures NoDigitToken("une table, merci")
  {
    NoDigitsNoToken("une table, merci");
  }

  lemma NoWordInArticleExample()
    ensures forall k :: 0 <= k < |WordsToNum| ==> !StandsAlone("une table, merci", WordsToNum[k].0)
  {
    var t := "une table, merci";
    forall k | 0 <= k < |WordsToNum| ensures !StandsAlone(t, WordsToNum[k].0) {
      var c := "doqqxphfd"[k];
      assert c in WordsToNum[k].0 && c !in t;
      MissingCharacter(t, WordsToNum[k].0, c);
    }
  }

  /** An indefinite article alone gives no party size. */
  method ArticleAloneExample() {
    assert Lower("une table, merci") == "une table, merci";
    NoDigitInArticleExample();
    NoWordInArticleExample();
    var r := ExtractNumber("une table, merci");
    assert r == None;
  }

  lemma QuatreInExample()
    ensures StandsAt("quatre personnes", "quatre", 0)
  {
    var parts := "quatre" + " personnes";
    assert parts == "quatre personnes";
    assert parts[0..6] == "quatre";
  }

  lemma QuatreFirstInExample()
    ensures NoDigitToken("quatre personnes") && IsFirstWordEntry("quatre personnes", 2)
  {
    var t := "quatre personnes";
    NoDigitsNoToken(t);
    MissingCharacter(t, WordsToNum[0].0, 'd');
    MissingCharacter(t, WordsToNum[1].0, 'i');
    QuatreInExample();
  }

  lemma LowerQuatreExample()
    ensures Lower("Quatre personnes") == "quatre personnes"
  {
    assert LowerChar('Q') == 'q';
  }

  /** A number word gives the party size. */
  method NumberWordExample() {
    LowerQuatreExample();
    QuatreFirstInExample();
    var r := ExtractNumber("Quatre personnes");
    assert r == Some(4);
  }

  lemma DeuxInExample()
    ensures StandsAt("dix ou deux personnes", "deux", 7)
  {
    var parts := "dix ou " + "deux" + " personnes";
    assert parts == "dix ou deux personnes";
    assert parts[7..11] == "deux";
  }

  /** The word table is read in its own order: `deux` is found before `dix`, whatever the text says first. */
  method TableOrderExample() {
    var t := Lower("dix ou deux personnes");
    assert t == "dix ou deux personnes";
    NoDigitsNoToken(t);
    DeuxInExample();
    assert IsFirstWordEntry(t, 0);
    var r := ExtractNumber("dix ou deux personnes");
    assert r == Some(2);
  }
}
