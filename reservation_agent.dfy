/**
 * The table matcher of the reservation agent: a party size is matched against the
 * restaurant's table inventory, in inventory order, under a two-pass policy
 * (first an available table that is large enough, then any available table).
 */
module ReservationAgents {
  import opened Wrappers
  import PyText

  /** One entry of the inventory: the keys `table_id`, `capacity` and `available`. */
  datatype Table = Table(tableId: int, capacity: int, available: bool)

  /** The dataclass `ReservationResult`; `tableId` and `alternative` default to `None`. */
  datatype ReservationResult = ReservationResult(
    success: bool,
    message: string,
    tableId: Option<int>,
    alternative: Option<int>)

  const AlternativeMessage: string := "Aucune table parfaite disponible, mais alternative trouvée."
  const NoTableMessage: string := "Aucune table n\U{2019}est disponible."

  function FoundMessage(tableId: int): string {
    "Table trouvée : " + PyText.Show(tableId)
  }

  /** The first-pass test: the table is free and seats at least `n` people. */
  predicate Fits(t: Table, n: int) {
    t.available && t.capacity >= n
  }

  /** `i` is the first position of the inventory holding a table that fits `n`. */
  ghost predicate IsFirstFit(ts: seq<Table>, n: int, i: int) {
    0 <= i < |ts| && Fits(ts[i], n) && forall j :: 0 <= j < i ==> !Fits(ts[j], n)
  }

  /** `i` is the first position of the inventory holding an available table. */
  ghost predicate IsFirstAvailable(ts: seq<Table>, i: int) {
    0 <= i < |ts| && ts[i].available && forall j :: 0 <= j < i ==> !ts[j].available
  }

  /** The position the first pass stops at, if any. */
  function FirstFit(ts: seq<Table>, n: int): (r: Option<nat>)
    ensures r.Some? ==> IsFirstFit(ts, n, r.value)
    ensures r.None? ==> forall j :: 0 <= j < |ts| ==> !Fits(ts[j], n)
  {
    if ts == [] then None
    else if Fits(ts[0], n) then Some(0)
    else match FirstFit(ts[1..], n)
      case None => None
      case Some(i) => Some(i + 1)
  }

  /** `[t for t in tables if t["available"]]`: the available tables, in inventory order. */
  function AvailableTables(ts: seq<Table>): (r: seq<Table>)
    ensures forall t :: t in r <==> t in ts && t.available
    ensures r == [] <==> forall j :: 0 <= j < |ts| ==> !ts[j].available
    ensures r != [] ==> exists i :: IsFirstAvailable(ts, i) && r[0] == ts[i]
  {
    if ts == [] then []
    else
      var rest := AvailableTables(ts[1..]);
      if ts[0].available then
        assert IsFirstAvailable(ts, 0);
        [ts[0]] + rest
      else
        FirstAvailableShift(ts);
        rest
  }

  lemma FirstAvailableShift(ts: seq<Table>)
    requires ts != [] && !ts[0].available
    ensures forall i :: IsFirstAvailable(ts[1..], i) ==> IsFirstAvailable(ts, i + 1)
  {
    forall i | IsFirstAvailable(ts[1..], i) ensures IsFirstAvailable(ts, i + 1) {
      assert forall j :: 1 <= j < i + 1 ==> ts[j] == ts[1..][j - 1];
    }
  }

  /**
   * What `find_table` answers for the inventory `ts` and a party of `n`: the first table
   * that fits, else the first available table as an alternative, else nothing.
   */
  function Match(ts: seq<Table>, n: int): (r: ReservationResult)
    // first pass: an exact match exists exactly when some table fits
    ensures r.success <==> exists j :: 0 <= j < |ts| && Fits(ts[j], n)
    ensures r.success ==>
      exists i :: IsFirstFit(ts, n, i) && r.tableId == Some(ts[i].tableId) && r.alternative.None?
               && r.message == FoundMessage(ts[i].tableId)
    // second pass: otherwise the first available table, whatever its capacity
    ensures !r.success ==> r.tableId.None?
    ensures !r.success && r.alternative.Some? ==>
      exists i :: IsFirstAvailable(ts, i) && r.alternative == Some(ts[i].tableId) && r.message == AlternativeMessage
    ensures !r.success && r.alternative.None? <==> forall j :: 0 <= j < |ts| ==> !ts[j].available
    ensures !r.success && r.alternative.None? ==> r.message == NoTableMessage
  {
    match FirstFit(ts, n)
    case Some(i) =>
      ReservationResult(true, FoundMessage(ts[i].tableId), Some(ts[i].tableId), None)
    case None =>
      var possible := AvailableTables(ts);
      if |possible| > 0 then
        ReservationResult(false, AlternativeMessage, None, Some(possible[0].tableId))
      else
        ReservationResult(false, NoTableMessage, None, None)
  }

  /** The agent object; `tables` is read once at construction and never changed. */
  class ReservationAgent {
    var tables: seq<Table>

    constructor (tables: seq<Table>)
      ensures this.tables == tables
    {
      this.tables := tables;
    }

    /** `find_table(num_people)`; it changes nothing, the inventory included. */
    method FindTable(numPeople: int) returns (r: ReservationResult)
      ensures r == Match(tables, numPeople)
    {
      // 1. the first table that fits, in inventory order
      var i := 0;
      while i < |tables|
        invariant 0 <= i <= |tables|
        invariant forall j :: 0 <= j < i ==> !Fits(tables[j], numPeople)
      {
        var t := tables[i];
        if t.available && t.capacity >= numPeople {
          assert IsFirstFit(tables, numPeople, i);
          return ReservationResult(true, FoundMessage(t.tableId), Some(t.tableId), None);
        }
        i := i + 1;
      }
      // 2. any available table
      var possibleAlternatives := AvailableTables(tables);
      if |possibleAlternatives| > 0 {
        var alt := possibleAlternatives[0];
        return ReservationResult(false, AlternativeMessage, None, Some(alt.tableId));
      }
      // 3. no table at all
      return ReservationResult(false, NoTableMessage, None, None);
    }
  }

  // ---------------------------------------------------------------- properties

  /** An alternative is only ever offered when every available table is too small for the party. */
  lemma AlternativeIsTooSmall(ts: seq<Table>, n: int)
    requires Match(ts, n).alternative.Some?
    ensures forall t :: t in ts && t.available ==> t.capacity < n
    ensures exists t :: t in ts && t.available && Some(t.tableId) == Match(ts, n).alternative && t.capacity < n
  {
    var r := Match(ts, n);
    var i :| IsFirstAvailable(ts, i) && r.alternative == Some(ts[i].tableId);
    assert ts[i] in ts;
  }

  /** Any identifier in the result is that of a table of the inventory, and the verdict is one of three. */
  lemma MatchIdsFromInventory(ts: seq<Table>, n: int)
    ensures var r := Match(ts, n);
      (r.tableId.Some? ==> exists t :: t in ts && Fits(t, n) && t.tableId == r.tableId.value)
      && (r.alternative.Some? ==> exists t :: t in ts && t.available && t.tableId == r.alternative.value)
      && !(r.tableId.Some? && r.alternative.Some?)
  {
    var r := Match(ts, n);
    if r.tableId.Some? {
      var i :| IsFirstFit(ts, n, i) && r.tableId == Some(ts[i].tableId);
      assert ts[i] in ts;
    }
    if r.alternative.Some? {
      var i :| IsFirstAvailable(ts, i) && r.alternative == Some(ts[i].tableId);
      assert ts[i] in ts;
    }
  }

  /** Putting a table that fits the party before the inventory makes it the one offered. */
  lemma {:induction false} FirstFitWins(t: Table, ts: seq<Table>, n: int)
    requires Fits(t, n)
    ensures Match([t] + ts, n).tableId == Some(t.tableId)
  {
    assert IsFirstFit([t] + ts, n, 0);
  }

  lemma ExampleExact()
    ensures Match([Table(1, 2, true), Table(2, 6, true)], 4)
         == ReservationResult(true, "Table trouvée : 2", Some(2), None)
  {
  }

  lemma ExampleAlternative()
    ensures Match([Table(1, 2, true)], 4)
         == ReservationResult(false, AlternativeMessage, None, Some(1))
  {
  }

  lemma ExampleNone()
    ensures Match([Table(1, 6, false)], 4)
         == ReservationResult(false, NoTableMessage, None, None)
  {
  }
}
