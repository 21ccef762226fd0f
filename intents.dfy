/**
 * The orchestrator's intent detection: the lower-cased utterance is tested against four
 * keyword lists in a fixed priority order (reservation, menu, order, info); the first
 * list with a keyword occurring anywhere in the text decides, and `unknown` is the
 * fall-back.
 */
module Intents {
  import PyText

  /** The literal type `Intent`. */
  datatype Intent = Reservation | Menu | Order | Info | Unknown

  /** The string value of an intent, as it is written into prompts. */
  function Label(intent: Intent): (s: string)
    ensures |s| > 0
  {
    match intent
    case Reservation => "reservation"
    case Menu => "menu"
    case Order => "order"
    case Info => "info"
    case Unknown => "unknown"
  }

  const ReservationKeywords: seq<string> := ["réserver", "reservation", "table", "book", "booking"]
  const MenuKeywords: seq<string> := ["menu", "plat", "dish", "allergène", "allergen"]
  const OrderKeywords: seq<string> := ["à emporter", "emporter", "take away", "takeaway", "commande"]
  const InfoKeywords: seq<string> := ["horaire", "heures", "ouvert", "adresse", "location"]

  /** `any(w in text for w in keywords)`, evaluated left to right. */
  predicate AnyIn(keywords: seq<string>, text: string) {
    |keywords| > 0 && (PyText.Contains(text, keywords[0]) || AnyIn(keywords[1..], text))
  }

  /** Some keyword of the list occurs somewhere in `text`. */
  ghost predicate Mentions(text: string, keywords: seq<string>) {
    exists k, i :: 0 <= k < |keywords| && PyText.OccursAt(text, keywords[k], i)
  }

  lemma {:induction false} AnyInIff(keywords: seq<string>, text: string)
    ensures AnyIn(keywords, text) <==> Mentions(text, keywords)
  {
    if |keywords| > 0 {
      PyText.ContainsIff(text, keywords[0]);
      AnyInIff(keywords[1..], text);
      if Mentions(text, keywords[1..]) {
        var k, i :| 0 <= k < |keywords[1..]| && PyText.OccursAt(text, keywords[1..][k], i);
        assert PyText.OccursAt(text, keywords[k + 1], i);
      }
      if Mentions(text, keywords) {
        var k, i :| 0 <= k < |keywords| && PyText.OccursAt(text, keywords[k], i);
        if k > 0 {
          assert PyText.OccursAt(text, keywords[1..][k - 1], i);
        }
      }
    }
  }

  /**
   * `_detect_intent(user_text)`. Every text gets exactly one intent, and a category wins
   * only when no category of higher priority is mentioned.
   */
  function DetectIntent(userText: string): (r: Intent)
    ensures var text := PyText.Lower(userText);
      && (r == Reservation <==> Mentions(text, ReservationKeywords))
      && (r == Menu <==> !Mentions(text, ReservationKeywords) && Mentions(text, MenuKeywords))
      && (r == Order <==> !Mentions(text, ReservationKeywords) && !Mentions(text, MenuKeywords)
                          && Mentions(text, OrderKeywords))
      && (r == Info <==> !Mentions(text, ReservationKeywords) && !Mentions(text, MenuKeywords)
                         && !Mentions(text, OrderKeywords) && Mentions(text, InfoKeywords))
      && (r == Unknown <==> !Mentions(text, ReservationKeywords) && !Mentions(text, MenuKeywords)
                            && !Mentions(text, OrderKeywords) && !Mentions(text, InfoKeywords))
  {
    var text := PyText.Lower(userText);
    AnyInIff(ReservationKeywords, text);
    AnyInIff(MenuKeywords, text);
    AnyInIff(OrderKeywords, text);
    AnyInIff(InfoKeywords, text);
    if AnyIn(ReservationKeywords, text) then Reservation
    else if AnyIn(MenuKeywords, text) then Menu
    else if AnyIn(OrderKeywords, text) then Order
    else if AnyIn(InfoKeywords, text) then Info
    else Unknown
  }

  /** Case does not matter: upper-case letters are classified like their lower-case forms. */
  lemma DetectIntentIgnoresCase(userText: string)
    ensures DetectIntent(PyText.Lower(userText)) == DetectIntent(userText)
  {
    PyText.LowerIdempotent(userText);
  }

  /** A reservation keyword decides, whatever else the utterance mentions. */
  lemma ReservationKeywordWins(s: string, k: nat, i: nat)
    requires k < |ReservationKeywords|
    requires i + |ReservationKeywords[k]| <= |s| && s[i..i + |ReservationKeywords[k]|] == ReservationKeywords[k]
    ensures DetectIntent(s) == Reservation
  {
    var w := ReservationKeywords[k];
    var text := PyText.Lower(s);
    assert PyText.Lower(w) == w;
    assert text[i..i + |w|] == PyText.Lower(w);
    assert PyText.OccursAt(text, ReservationKeywords[k], i);
  }

  lemma ExampleReservation()
    ensures DetectIntent("Je veux réserver une table pour 4") == Reservation
  {
    var s := "Je veux " + "réserver" + " une table pour 4";
    assert s == "Je veux réserver une table pour 4";
    assert s[8..16] == "réserver";
    ReservationKeywordWins(s, 0, 8);
  }

  lemma MenuInExample()
    ensures PyText.OccursAt("le menu et les horaires", "menu", 3)
  {
    var parts := "le " + "menu" + " et les horaires";
    assert parts == "le menu et les horaires";
    assert parts[3..7] == "menu";
  }

  lemma MenuOnlyInExample()
    ensures !Mentions("le menu et les horaires", ReservationKeywords)
    ensures Mentions("le menu et les horaires", MenuKeywords)
  {
    var text := "le menu et les horaires";
    PyText.MissingCharacter(text, "réserver", 'é');
    PyText.MissingCharacter(text, "reservation", 'v');
    PyText.MissingCharacter(text, "table", 'b');
    PyText.MissingCharacter(text, "book", 'b');
    PyText.MissingCharacter(text, "booking", 'b');
    forall k, i | 0 <= k < |ReservationKeywords| ensures !PyText.OccursAt(text, ReservationKeywords[k], i) {
      assert k == 0 || k == 1 || k == 2 || k == 3 || k == 4;
    }
    MenuInExample();
    assert PyText.OccursAt(text, MenuKeywords[0], 3);
  }

  lemma LowerExample()
    ensures PyText.Lower("Le MENU et les horaires") == "le menu et les horaires"
  {
  }

  lemma ExampleMenuBeatsInfo()
    ensures DetectIntent("Le MENU et les horaires") == Menu
  {
    LowerExample();
    MenuOnlyInExample();
  }
}
