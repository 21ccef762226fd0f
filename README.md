# Restaurant assistant core in Dafny

This project models the decision logic of a voice/text restaurant assistant and proves
properties of that logic. The assistant does four things:

- It classifies an utterance into one of five intents (`reservation`, `menu`, `order`,
  `info`, `unknown`) by keyword lists tested in priority order.
- For a reservation, it asks an external text generator (an LLM) for the party size as a
  JSON object `{"people": ...}`. Any unusable reply is read as "size unknown".
- It matches the party size against the table inventory. The policy is: the first available
  table that is large enough; otherwise the first available table of any size (an
  "alternative"); otherwise nothing.
- It sends a fixed intermediate text to the generator to be rephrased, and returns the
  generator's answer.

The repository also has a free-text party-size extractor, `_extract_number`: a word-bounded
digit run wins, otherwise a French number word `deux`…`dix` is used. It is modelled and
proved on its own, because `handle_user_input` never calls it.

Modules, one for each concern of the source:

- `Wrappers`: the `Option` type (Python's `Optional`).
- `PyText`: the parts of Python's `str` and `re` that the core relies on. This covers
  `lower()`, `isspace()`, `split()`, `strip()`, substring `in`, `\w`, `\d`, `int()` of
  digits and `str()` of integers. Character classes match Python exactly on Latin-1
  (U+0000..U+00FF). `isspace()` is modelled on all of Unicode.
- `ReservationAgents`: `ReservationResult` and `ReservationAgent.find_table`.
  - `Match` is the pure statement of the matching policy.
  - `ReservationAgent.FindTable` is the loop from the source, proved equal to `Match`.
- `Intents`: `_detect_intent`.
- `Quantities`: `_extract_number`.
  - The regex search is the recursive `SearchDigitToken`, proved to find the leftmost `\b\d+\b` match.
  - The loop over the word table is a `while` loop.
  - Example methods call `ExtractNumber` on sample inputs and assert the results its contract proves.
- `LlmClient`: the generator behind `LLMClient.generate`, modelled as an oracle.
  - Its answers are given in advance as `outcomes`.
  - `None`, or no answer left, means that call raises.
  - A ghost `log` records every request.
- `Orchestration`: `_extract_via_llm` and `handle_user_input`.
  - `json.loads` is a function handed to the orchestrator.
  - Example methods at the end call `HandleUserInput` on sample inputs, including two turns on one
    orchestrator, and assert the results its contract proves.

Behaviour of the code worth knowing:

- The party size of a reservation turn comes from the generator's JSON reply
  (`_extract_via_llm`). `_extract_number` is not called anywhere in the orchestrator.
- The alternative table is always too small for the party (`AlternativeIsTooSmall`),
  although the comment at agents/reservation_agent.py:33 calls it "trop grande".
- Table ids are not required to be unique or positive. A first available table with id `0`
  is read as "no alternative" by the truth test `if alt:`, so the apology is sent
  (`ApologyOtherwise`).

## Model

| member | source | states |
|---|---|---|
| `ReservationAgents.FirstFit` | agents/reservation_agent.py:25-26 | the first pass stops at the first position whose table is available with capacity >= n, and at none when no such table exists |
| `ReservationAgents.AvailableTables` | agents/reservation_agent.py:34-36 | the filter keeps exactly the available tables; it is empty iff no table is available; its head is the first available table in inventory order |
| `ReservationAgents.Match` | agents/reservation_agent.py:23-50 | success iff some table fits, and then the id and message of the first fitting table with no alternative. Otherwise no table id; the alternative is the first available table whatever its capacity. Both ids are absent (with the "no table" message) iff no table is available |
| `ReservationAgents.ReservationAgent.constructor` | agents/reservation_agent.py:15-17 | the agent holds the given inventory |
| `ReservationAgents.ReservationAgent.FindTable` | agents/reservation_agent.py:23-50 | the scan loop with early return, then the filter, returns exactly `Match(tables, n)` and leaves the inventory unchanged |
| `ReservationAgents.AlternativeIsTooSmall` | agents/reservation_agent.py:25-44 | whenever an alternative is offered, every available table, the alternative included, seats fewer than n people |
| `ReservationAgents.MatchIdsFromInventory` | agents/reservation_agent.py:23-50 | a returned table id belongs to a fitting inventory table, a returned alternative to an available one, and never both are set |
| `ReservationAgents.FirstFitWins` | agents/reservation_agent.py:25-31 | a fitting table placed first in the inventory is the one chosen, whatever follows it |
| `ReservationAgents.ExampleExact` | agents/reservation_agent.py:25-31 | tables (1,2,free),(2,6,free) and 4 people give success with table 2 |
| `ReservationAgents.ExampleAlternative` | agents/reservation_agent.py:34-44 | table (1,2,free) and 4 people give alternative 1 and no table id |
| `ReservationAgents.ExampleNone` | agents/reservation_agent.py:46-50 | table (1,6,taken) and 4 people give neither a table id nor an alternative |
| `PyText.Lower` | agents/orchestrator.py:29 | `lower()` leaves no upper-case letter, keeps the length, and returns a text without upper-case letters unchanged |
| `PyText.MissingCharacter` | agents/orchestrator.py:31-37 | a word containing a character the text lacks occurs nowhere in the text |
| `PyText.ContainsIff` | agents/orchestrator.py:31 | the substring test `w in text` holds iff `w` occurs in `text` at some index |
| `PyText.Split` | agents/orchestrator.py:92 | every token of `split()` is non-empty and free of whitespace |
| `PyText.SplitMembership` | agents/orchestrator.py:92-94 | a token is in `text.split()` iff it occurs in the text with whitespace or an end of the text on both sides |
| `PyText.SplitJoin` | agents/orchestrator.py:92 | splitting tokens joined by single spaces gives the tokens back |
| `PyText.Strip` | agents/orchestrator.py:61 | the result has no leading or trailing whitespace and is the input with only whitespace removed at both ends |
| `PyText.ShowNatValue` | agents/orchestrator.py:83 | `int()` of the decimal text of n is n |
| `Intents.DetectIntent` | agents/orchestrator.py:28-39 | every text gets exactly one intent. `reservation` iff a reservation keyword occurs in the lower-cased text. `menu` iff none of those occurs and a menu keyword does; `order` and `info` likewise. `unknown` iff no keyword of any list occurs |
| `Intents.AnyInIff` | agents/orchestrator.py:31-37 | the `any(...)` scan over a keyword list holds iff some keyword of the list occurs in the text |
| `Intents.ReservationKeywordWins` | agents/orchestrator.py:31-32 | a reservation keyword anywhere in the text gives `reservation`, whatever else the text mentions |
| `Intents.DetectIntentIgnoresCase` | agents/orchestrator.py:29 | lower-casing the text first does not change the intent |
| `Intents.ExampleReservation` | agents/orchestrator.py:31-32 | "Je veux réserver une table pour 4" is a reservation |
| `Intents.ExampleMenuBeatsInfo` | agents/orchestrator.py:33-38 | "Le MENU et les horaires" is `menu`, not `info`, by priority |
| `Quantities.SearchDigitToken` | agents/orchestrator.py:81 | the regex search returns a run of digits bounded by non-word characters or the ends, with no such run starting further left; it returns none when no run qualifies |
| `Quantities.DigitTokenEnd` | agents/orchestrator.py:81 | a bounded digit run is determined by its start |
| `Quantities.SearchFindsLeftmost` | agents/orchestrator.py:81-83 | the search reports exactly the leftmost bounded digit run |
| `Quantities.WordsAreTokens` | agents/orchestrator.py:86-89 | every number word is a whitespace-free token and maps to a value in 2..10 |
| `Quantities.ExtractNumber` | agents/orchestrator.py:72-98 | the leftmost bounded digit run of the lower-cased text gives its integer value. Without one: `None` iff no number word stands alone in the text; otherwise the value of the first word in table order (not text order) that does, which lies in 2..10 and so is never 1 |
| `Quantities.NoDigitsNoToken` | agents/orchestrator.py:81 | a text without digits has no digit match |
| `Quantities.LoneNumberIsLeftmost` | agents/orchestrator.py:81 | a bounded digit run with no digit before it is the match the search reports |
| `LlmClient.Generator.constructor` | app/llm_client.py:8-17 | a fresh generator has the given coming answers and an empty request log |
| `LlmClient.Generator.Generate` | app/llm_client.py:11-17 | one call appends its request to the log and returns the next scripted outcome, which it consumes |
| `Orchestration.PeopleFrom` | agents/orchestrator.py:63-68 | the party size is present iff the reply decodes to an object whose `people` entry is an integer, and it is that integer |
| `Orchestration.ExtractionFailuresDegrade` | agents/orchestrator.py:63-68 | a malformed reply, a non-object, a missing key or a JSON null all give `None`; an integer entry gives that integer |
| `Orchestration.TableFoundWhenFit` | agents/orchestrator.py:121-124 | when some table fits, the text announcing the first fitting table is sent for rephrasing |
| `Orchestration.AlternativeWhenNoFit` | agents/orchestrator.py:125-128 | when nothing fits, the text offering the first available table is sent, provided its id is not 0 |
| `Orchestration.ApologyOtherwise` | agents/orchestrator.py:125-130 | when nothing fits and either no table is available or the first available one has id 0, the apology is sent |
| `Orchestration.AskWithoutPartySize` | agents/orchestrator.py:118-119 | without a party size the clarification question is sent, independent of the inventory (it is never consulted) |
| `Orchestration.IntermediateTextsDistinct` | agents/orchestrator.py:118-130 | the four intermediate texts are pairwise distinct, whatever the numbers and ids; all three questions end in a question mark and the apology in a full stop |
| `Orchestration.StripExampleReply` | agents/orchestrator.py:61 | a reply with a trailing newline is stripped before parsing |
| `Orchestration.Orchestrator.constructor` | agents/orchestrator.py:24-26 | the orchestrator holds the given generator, agent and JSON decoder |
| `Orchestration.Orchestrator.ExtractViaLlm` | agents/orchestrator.py:42-68 | one extraction request is sent. A failed call propagates; otherwise the result is the party size read from the stripped, decoded reply |
| `Orchestration.Orchestrator.HandleUserInput` | agents/orchestrator.py:101-158 | states the whole turn: see below |

`HandleUserInput` states the following:
- The response intent is `DetectIntent(user_text)`.
- For a non-reservation intent, exactly one compose request is sent, and its answer is
  returned verbatim.
- For a reservation, the extraction request is sent first, and then the rephrasing request
  for the text chosen from the party size and the inventory.
- The answers consumed are exactly those of the calls made: two when the extraction call
  succeeds, one otherwise. A later turn on the same orchestrator therefore sees the
  remaining answers, as the user interface reuses one orchestrator across turns
  (ui/streamlit_app.py:19-20, 34, 47).
- A completed turn made two calls for a reservation and one otherwise, and its text is the
  answer to the last call.
- A failing call ends the turn with `GenerationUnavailable`.

## Left out

- `ReservationAgent._load_tables` (file and JSON I/O): the inventory is a constructor parameter.
- `LocalOllamaLLMClient` (an HTTP POST) and `get_llm_client`. The generator is an oracle whose
  answers are given in advance. If the answers run out, further calls are treated as failing.
- `json.loads` internals. The decoder is an abstract function from the stripped reply to
  "malformed", "not an object", or an object.
- Orchestration.PeopleFrom: JSON values of `people` are only null or integers. Strings,
  floats, booleans, lists and objects are not modelled. In Python they all reach `find_table`.
  A string, list or object raises `TypeError` out of `handle_user_input` at the first
  available table, where `t["capacity"] >= num_people` compares it with an integer (with no
  table available it is never compared, and the apology is sent). A float or a boolean
  compares numerically and is formatted into the text as Python prints it (`4.0`, `True`).
- The kind of error a failing generator call raises. All failures are one outcome,
  `GenerationUnavailable`.
- PyText.Lower: `str.lower()` is exact on Latin-1 only. Outside it (e.g. `Œ`, or `İ`, which
  lowers to two characters) characters are left unchanged.
- PyText.IsWordChar and PyText.IsDigit: `\w`, `\d` and `int()` on non-ASCII digits and
  word characters beyond Latin-1 are not modelled.
- The test at agents/orchestrator.py:76-78 has an empty body, so the model does not evaluate it.
  `ExtractNumber`'s contract determines the result without it.
- The `message` strings of `ReservationResult` are modelled, but the orchestrator never reads them.
- The `getattr` defaults at agents/orchestrator.py:122-126 are never used, because the data
  class always has these attributes.
- Speech-to-text, text-to-speech, the Streamlit UI and the configuration module are I/O or
  constants with no decision logic.
- What the generator does with the prompts (for example, whether it obeys the "never
  confirm" directive) is outside anything the core can state.
