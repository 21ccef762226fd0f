/**
 * The conversation turn: classify the utterance; for a reservation, ask the generator
 * for the party size as JSON, match it against the inventory and have the generator
 * rephrase a fixed intermediate text; for any other intent, have the generator answer
 * directly. Every outgoing request carries the "rephrase only, invent nothing" directive.
 */
module Orchestration {
  import opened Wrappers
  import opened PyText
  import opened Intents
  import opened ReservationAgents
  import opened LlmClient

  /** The dataclass `OrchestratorResponse`. */
  datatype OrchestratorResponse = OrchestratorResponse(intent: Intent, assistantText: string)

  /** A turn completes, or stops at the first generator call that fails (the error propagates). */
  datatype Outcome<T> = Done(value: T) | GenerationUnavailable

  /** What `json.loads` makes of a reply, as far as the orchestrator looks at it. */
  datatype JsonValue = JNull | JInt(n: int)
  datatype Decoded =
    | Malformed                                  // json.loads raises
    | NotAnObject                                // valid JSON without a `.get` (a list, a number, ...)
    | Object(entries: map<string, JsonValue>)    // a JSON object

  // ---------------------------------------------------------------- prompts

  const ExtractionPrompt: string :=
    "Analyse le message utilisateur et renvoie STRICTEMENT un JSON de la forme : "
    + "{\"people\": <nombre ou null>}.\n"
    + "N'invente rien. Si le nombre n'est pas clair, people = null."

  const SystemPrompt: string :=
    "Tu es un assistant virtuel de restaurant. "
    + "Tu reformules la réponse que je t\U{2019}envoie, en français, de manière claire et polie. "
    + "\U{26A0}\U{FE0F} Très important : tu ne dois JAMAIS confirmer une réservation, ni inventer une disponibilité, "
    + "ni proposer spontanément une table. "
    + "Tu ne fais QUE reformuler le texte fourni. "
    + "Tu ne dois rien ajouter, rien déduire, rien inventer."

  /** The structured-extraction request of `_extract_via_llm`. */
  function ExtractionRequest(userText: string): seq<Message> {
    [Message(System, ExtractionPrompt), Message(User, userText)]
  }

  /** The request asking the generator to rephrase the intermediate text of a reservation. */
  function RephraseRequest(resultText: string): seq<Message> {
    [Message(System, SystemPrompt),
     Message(User, "Reformule ce texte sans rien ajouter ni interpréter :\n" + resultText)]
  }

  /** The request for every intent other than a reservation. */
  function ComposeRequest(intent: Intent, userText: string): seq<Message> {
    [Message(System, SystemPrompt),
     Message(User, "Intent détecté : " + Label(intent) + ". Demande du client : " + userText)]
  }

  // ---------------------------------------------------------------- intermediate texts

  const AskPartySizeText: string := "Pour quelle taille de groupe souhaitez-vous réserver ?"
  const NoTableText: string := "Je suis désolé, aucune table n\U{2019}est disponible pour le moment."

  function TableFoundText(numPeople: int, tableId: string): string {
    "Très bien, j\U{2019}ai une table disponible pour " + Show(numPeople)
    + " personnes : la table " + tableId + ". Souhaitez-vous confirmer ?"
  }

  function AlternativeText(numPeople: int, alternative: int): string {
    "Je n\U{2019}ai pas de table parfaite pour " + Show(numPeople)
    + " personnes, mais une table alternative est disponible : table " + Show(alternative)
    + ". Souhaitez-vous la réserver ?"
  }

  /** An optional identifier as an f-string writes it. */
  function IdText(id: Option<int>): string {
    match id
    case Some(k) => Show(k)
    case None => "None"
  }

  /** Python truthiness of an optional integer: `None` and `0` are false. */
  predicate Truthy(x: Option<int>) {
    x.Some? && x.value != 0
  }

  /** The intermediate text chosen from a party size and the result of `find_table`. */
  function ResultText(numPeople: int, res: ReservationResult): string {
    if res.success then TableFoundText(numPeople, IdText(res.tableId))
    else if Truthy(res.alternative) then AlternativeText(numPeople, res.alternative.value)
    else NoTableText
  }

  /** The intermediate text of a reservation turn, for the party size obtained (if any). */
  function ReservationText(numPeople: Option<int>, tables: seq<Table>): string {
    match numPeople
    case None => AskPartySizeText
    case Some(n) => ResultText(n, Match(tables, n))
  }

  // ---------------------------------------------------------------- the reply of the extraction call

  /**
   * The `try` block of `_extract_via_llm`: `data.get("people", None)`, with every parse
   * failure, and every reply without a `.get`, degraded to `None`.
   */
  function PeopleFrom(d: Decoded): (r: Option<int>)
    ensures r.Some? <==> d.Object? && "people" in d.entries && d.entries["people"].JInt?
    ensures r.Some? ==> r.value == d.entries["people"].n
  {
    match d
    case Malformed => None
    case NotAnObject => None
    case Object(entries) =>
      if "people" in entries then
        match entries["people"]
        case JNull => None
        case JInt(n) => Some(n)
      else None
  }

  /** A completed turn carries the generator's answer verbatim; a failed call ends it. */
  function Reply(intent: Intent, answer: Option<string>): Outcome<OrchestratorResponse> {
    match answer
    case None => GenerationUnavailable
    case Some(text) => Done(OrchestratorResponse(intent, text))
  }

  // ---------------------------------------------------------------- which text a reservation turn rephrases

  /** With a table that fits, the first such table is announced. */
  lemma TableFoundWhenFit(n: int, tables: seq<Table>, i: int)
    requires IsFirstFit(tables, n, i)
    ensures ReservationText(Some(n), tables) == TableFoundText(n, Show(tables[i].tableId))
  {
    var res := Match(tables, n);
    var i' :| IsFirstFit(tables, n, i') && res.tableId == Some(tables[i'].tableId);
    assert i' == i;
  }

  /** Without a table that fits, the first available table is offered, unless its id is 0. */
  lemma AlternativeWhenNoFit(n: int, tables: seq<Table>, i: int)
    requires forall j :: 0 <= j < |tables| ==> !Fits(tables[j], n)
    requires IsFirstAvailable(tables, i) && tables[i].tableId != 0
    ensures ReservationText(Some(n), tables) == AlternativeText(n, tables[i].tableId)
  {
    var res := Match(tables, n);
    var i' :| IsFirstAvailable(tables, i') && res.alternative == Some(tables[i'].tableId);
    assert i' == i;
  }

  /**
   * The apology is sent when nothing fits and no table is available, and also when the
   * first available table has id 0, which Python's truth test reads as "no alternative".
   */
  lemma ApologyOtherwise(n: int, tables: seq<Table>)
    requires forall j :: 0 <= j < |tables| ==> !Fits(tables[j], n)
    requires (forall j :: 0 <= j < |tables| ==> !tables[j].available)
             || (exists i :: IsFirstAvailable(tables, i) && tables[i].tableId == 0)
    ensures ReservationText(Some(n), tables) == NoTableText
  {
    var res := Match(tables, n);
    if res.alternative.Some? {
      var i' :| IsFirstAvailable(tables, i') && res.alternative == Some(tables[i'].tableId);
      var i :| IsFirstAvailable(tables, i) && tables[i].tableId == 0;
      assert i' == i;
    }
  }

  /** Without a party size the clarification question is sent, whatever the inventory. */
  lemma AskWithoutPartySize(tables: seq<Table>, tables': seq<Table>)
    ensures ReservationText(None, tables) == ReservationText(None, tables') == AskPartySizeText
  {
  }

  /** The four intermediate texts can be told apart, and only the apology is not a question. */
  lemma IntermediateTextsDistinct(n: int, id: string, m: int, alt: int)
    ensures AskPartySizeText != TableFoundText(n, id)
    ensures AskPartySizeText != AlternativeText(m, alt)
    ensures AskPartySizeText != NoTableText
    ensures TableFoundText(n, id) != AlternativeText(m, alt)
    ensures TableFoundText(n, id) != NoTableText
    ensures AlternativeText(m, alt) != NoTableText
    ensures var t := TableFoundText(n, id); t[|t| - 1] == '?'
    ensures var t := AlternativeText(m, alt); t[|t| - 1] == '?'
    ensures AskPartySizeText[|AskPartySizeText| - 1] == '?' && NoTableText[|NoTableText| - 1] == '.'
  {
    var found := TableFoundText(n, id);
    var other := AlternativeText(m, alt);
    var ask := AskPartySizeText;
    assert found[|found| - 5] == 'm';
    assert other[|other| - 5] == 'v' && other[|other| - 12] == 'a';
    assert ask[|ask| - 5] == 'v' && ask[|ask| - 12] == 's';
  }

  /** A JSON `null`, a missing key or an unparsable reply all leave the party size unknown. */
  lemma ExtractionFailuresDegrade(entries: map<string, JsonValue>)
    ensures PeopleFrom(Malformed) == None && PeopleFrom(NotAnObject) == None
    ensures "people" !in entries ==> PeopleFrom(Object(entries)) == None
    ensures PeopleFrom(Object(entries["people" := JNull])) == None
    ensures forall n :: PeopleFrom(Object(entries["people" := JInt(n)])) == Some(n)
  {
  }

  // ---------------------------------------------------------------- the orchestrator

  class Orchestrator {
    const llm: Generator
    const reservationAgent: ReservationAgent
    /** `json.loads`, seen through `Decoded`. */
    const jsonLoads: string -> Decoded

    constructor (llm: Generator, reservationAgent: ReservationAgent, jsonLoads: string -> Decoded)
      ensures this.llm == llm && this.reservationAgent == reservationAgent && this.jsonLoads == jsonLoads
    {
      this.llm := llm;
      this.reservationAgent := reservationAgent;
      this.jsonLoads := jsonLoads;
    }

    /** `_extract_via_llm(user_text)`: one extraction request; a failed call propagates. */
    method ExtractViaLlm(userText: string) returns (r: Outcome<Option<int>>)
      modifies llm
      ensures llm.log == old(llm.log) + [ExtractionRequest(userText)]
      ensures llm.outcomes == Later(old(llm.outcomes))
      ensures r == match NextOutcome(old(llm.outcomes))
                   case None => GenerationUnavailable
                   case Some(raw) => Done(PeopleFrom(jsonLoads(Strip(raw))))
    {
      var raw := llm.Generate(ExtractionRequest(userText));
      if raw.None? {
        return GenerationUnavailable;
      }
      var data := jsonLoads(Strip(raw.value));
      return Done(PeopleFrom(data));
    }

    /** `handle_user_input(user_text)`. */
    method HandleUserInput(userText: string) returns (r: Outcome<OrchestratorResponse>)
      modifies llm
      // the response carries the detected intent
      ensures r.Done? ==> r.value.intent == DetectIntent(userText)
      // any intent but a reservation: one request, answered verbatim
      ensures DetectIntent(userText) != Reservation ==>
        && llm.log == old(llm.log) + [ComposeRequest(DetectIntent(userText), userText)]
        && r == Reply(DetectIntent(userText), NextOutcome(old(llm.outcomes)))
      // a reservation: the extraction request, then the rephrasing of the intermediate text
      ensures DetectIntent(userText) == Reservation && NextOutcome(old(llm.outcomes)).None? ==>
        && llm.log == old(llm.log) + [ExtractionRequest(userText)]
        && r == GenerationUnavailable
      ensures DetectIntent(userText) == Reservation && NextOutcome(old(llm.outcomes)).Some? ==>
        var numPeople := PeopleFrom(jsonLoads(Strip(NextOutcome(old(llm.outcomes)).value)));
        && llm.log == old(llm.log) + [ExtractionRequest(userText),
                                      RephraseRequest(ReservationText(numPeople, reservationAgent.tables))]
        && r == Reply(Reservation, NextOutcome(Later(old(llm.outcomes))))
      // the answers consumed: two when the extraction call succeeds, one otherwise
      ensures llm.outcomes ==
        if DetectIntent(userText) == Reservation && NextOutcome(old(llm.outcomes)).Some?
        then Later(Later(old(llm.outcomes)))
        else Later(old(llm.outcomes))
      // two calls for a reservation, one otherwise; the answer is that of the last call
      ensures var calls := |llm.log| - |old(llm.log)|;
        && 1 <= calls <= 2
        && (r.Done? ==> calls == if DetectIntent(userText) == Reservation then 2 else 1)
        && (r.Done? ==> calls <= |old(llm.outcomes)| && old(llm.outcomes)[calls - 1] == Some(r.value.assistantText))
    {
      var intent := DetectIntent(userText);

      if intent == Reservation {
        var extracted := ExtractViaLlm(userText);
        if extracted.GenerationUnavailable? {
          return GenerationUnavailable;
        }
        var numPeople := extracted.value;

        var resultText;
        if numPeople.None? {
          resultText := AskPartySizeText;
        } else {
          var res := reservationAgent.FindTable(numPeople.value);
          if res.success {
            resultText := TableFoundText(numPeople.value, IdText(res.tableId));
          } else {
            var alt := res.alternative;
            if Truthy(alt) {
              resultText := AlternativeText(numPeople.value, alt.value);
            } else {
              resultText := NoTableText;
            }
          }
        }

        var answer := llm.Generate(RephraseRequest(resultText));
        return Reply(intent, answer);
      }

      var answer := llm.Generate(ComposeRequest(intent, userText));
      return Reply(intent, answer);
    }
  }

  // ---------------------------------------------------------------- a turn, end to end

  lemma StripExampleReply()
    ensures Strip("{\"people\": 4}\n") == "{\"people\": 4}"
  {
    var raw := "{\"people\": 4}\n";
    assert LeadingSpace(raw) == 0;
    assert TrailingSpace(raw[..|raw| - 1]) == 0;
    assert TrailingSpace(raw) == 1;
  }

  /** "Je veux réserver une table pour 4" against the inventory [(1, 2, free), (2, 6, free)]. */
  method ReservationTurnExample() {
    var agent := new ReservationAgent([Table(1, 2, true), Table(2, 6, true)]);
    var llm := new Generator([Some("{\"people\": 4}\n"), Some("La table 2 vous attend-elle ?")]);
    var loads := (raw: string) => if raw == "{\"people\": 4}" then Object(map["people" := JInt(4)]) else Malformed;
    var orchestrator := new Orchestrator(llm, agent, loads);
    Intents.ExampleReservation();
    StripExampleReply();
    TableFoundWhenFit(4, agent.tables, 1);
    var r := orchestrator.HandleUserInput("Je veux réserver une table pour 4");
    assert r == Done(OrchestratorResponse(Reservation, "La table 2 vous attend-elle ?"));
    assert llm.log == [ExtractionRequest("Je veux réserver une table pour 4"),
                       RephraseRequest(TableFoundText(4, "2"))];
  }

  /** Any other intent: one request, whose answer is the reply. */
  method MenuTurnExample() {
    var agent := new ReservationAgent([]);
    var llm := new Generator([Some("Voici le menu.")]);
    var orchestrator := new Orchestrator(llm, agent, (raw: string) => Malformed);
    Intents.ExampleMenuBeatsInfo();
    var r := orchestrator.HandleUserInput("Le MENU et les horaires");
    assert r == Done(OrchestratorResponse(Menu, "Voici le menu."));
    assert llm.log == [ComposeRequest(Menu, "Le MENU et les horaires")];
  }

  /** Two turns on one orchestrator, as the user interface keeps it: each turn gets its own answer. */
  method TwoTurnsExample() {
    var agent := new ReservationAgent([]);
    var llm := new Generator([Some("A"), Some("B")]);
    var orchestrator := new Orchestrator(llm, agent, (raw: string) => Malformed);
    Intents.ExampleMenuBeatsInfo();
    var first := orchestrator.HandleUserInput("Le MENU et les horaires");
    var second := orchestrator.HandleUserInput("Le MENU et les horaires");
    assert first == Done(OrchestratorResponse(Menu, "A"));
    assert second == Done(OrchestratorResponse(Menu, "B"));
    assert llm.outcomes == [];
  }

  /** A failing extraction call ends the turn; nothing is rephrased. */
  method UnavailableExample() {
    var agent := new ReservationAgent([Table(1, 2, true)]);
    var llm := new Generator([None]);
    var orchestrator := new Orchestrator(llm, agent, (raw: string) => Malformed);
    Intents.ExampleReservation();
    var r := orchestrator.HandleUserInput("Je veux réserver une table pour 4");
    assert r == GenerationUnavailable;
    assert |llm.log| == 1;
  }
}
