/**
 * The shared cargo store of the front end: the warehouse, history and truck
 * lists, the `loading` flag and the error message. Each operation first asks
 * the server; when that fails, most of them apply the same change to the local
 * lists instead.
 *
 * A server call is modelled by its outcome, passed in: a boolean for the write,
 * a `Fetch` for the three reads of a refresh, and a `Backup` for the lists
 * found in local storage.
 */
module CargoContext {
  import opened Wrappers
  import opened CargoTypes

  /** The three lists the store holds. */
  datatype Lists = Lists(warehouse: seq<Cargo>, history: seq<Cargo>, trucks: seq<TruckCargo>)

  /** The outcome of the three reads of a refresh. */
  datatype Fetch = Fetched(lists: Lists) | FetchFailed

  /** The backup copies in local storage; a missing key is `None`. */
  datatype Backup = Backup(warehouse: Option<seq<Cargo>>, history: Option<seq<Cargo>>, trucks: Option<seq<TruckCargo>>)

  /** The error the store reports. */
  datatype ContextError = LoadFailed | AddFailed | ShipFailed | LoadToTruckFailed | UndoFailed

  /** The message the store sets for each error. */
  function ErrorText(e: ContextError): string {
    match e
    case LoadFailed => "Failed to load data from server"
    case AddFailed => "Failed to add cargo"
    case ShipFailed => "Failed to ship cargo"
    case LoadToTruckFailed => "Failed to load cargo to truck"
    case UndoFailed => "Failed to undo shipment"
  }

  predicate UniqueCargoIds(s: seq<Cargo>) {
    forall i, j :: 0 <= i < j < |s| ==> s[i].id != s[j].id
  }

  /** `items.find(item => item.id === id)`: the first item with that id. */
  function FindById(items: seq<Cargo>, id: string): (r: Option<Cargo>)
    ensures r.None? <==> forall i :: 0 <= i < |items| ==> items[i].id != id
    ensures r.Some? ==> r.value.id == id && r.value in items
    ensures r.Some? ==> exists i :: 0 <= i < |items| && items[i] == r.value &&
                          forall j :: 0 <= j < i ==> items[j].id != id
  {
    if items == [] then None
    else if items[0].id == id then Some(items[0])
    else
      var r := FindById(items[1..], id);
      assert forall i :: 1 <= i < |items| ==> items[i] == items[1..][i - 1];
      r
  }

  /** `items.filter(item => item.id !== id)`. */
  function WithoutId(items: seq<Cargo>, id: string): (r: seq<Cargo>)
    ensures |r| <= |items|
    ensures forall c :: c in r <==> c in items && c.id != id
  {
    if items == [] then []
    else if items[0].id == id then WithoutId(items[1..], id)
    else [items[0]] + WithoutId(items[1..], id)
  }

  lemma {:induction false} WithoutAbsentId(items: seq<Cargo>, id: string)
    requires forall i :: 0 <= i < |items| ==> items[i].id != id
    ensures WithoutId(items, id) == items
  {
    if items != [] {
      WithoutAbsentId(items[1..], id);
    }
  }

  /**
   * Among items with distinct ids, removing the one found by id takes exactly
   * that one item out.
   */
  lemma {:induction false} WithoutFoundId(items: seq<Cargo>, id: string)
    requires UniqueCargoIds(items) && FindById(items, id).Some?
    ensures multiset(WithoutId(items, id)) + multiset{FindById(items, id).value} == multiset(items)
  {
    if items[0].id == id {
      assert FindById(items, id) == Some(items[0]);
      WithoutAbsentId(items[1..], id);
      assert items == [items[0]] + items[1..];
    } else {
      assert FindById(items, id) == FindById(items[1..], id);
      WithoutFoundId(items[1..], id);
      assert items == [items[0]] + items[1..];
    }
  }

  /**
   * The local move of `shipCargo` and `undoShipment`: when `from` holds the id,
   * remove it there and prepend the cargo found to `to`; otherwise change nothing.
   */
  function Move(from: seq<Cargo>, to: seq<Cargo>, id: string): (r: (seq<Cargo>, seq<Cargo>))
    ensures forall c :: c in r.0 <==> c in from && c.id != id
    ensures (forall i :: 0 <= i < |from| ==> from[i].id != id) ==> r == (from, to)
    ensures (exists i :: 0 <= i < |from| && from[i].id == id) ==>
      (|r.1| == |to| + 1 && r.1[1..] == to && r.1[0].id == id &&
       exists i :: 0 <= i < |from| && from[i] == r.1[0] && forall j :: 0 <= j < i ==> from[j].id != id)
  {
    match FindById(from, id)
    case None => (from, to)
    case Some(c) => (WithoutId(from, id), [c] + to)
  }

  /**
   * With distinct ids in the source list, a move keeps the combined multiset of
   * the two lists, and afterwards the source list no longer holds the id.
   */
  lemma MoveKeepsCargo(from: seq<Cargo>, to: seq<Cargo>, id: string)
    requires UniqueCargoIds(from)
    ensures multiset(Move(from, to, id).0) + multiset(Move(from, to, id).1) == multiset(from) + multiset(to)
    ensures forall c :: c in Move(from, to, id).0 ==> c.id != id
  {
    if FindById(from, id).Some? {
      WithoutFoundId(from, id);
    }
  }

  /** The truck loads with the cargo of that id removed. */
  function StripCargo(trucks: seq<TruckCargo>, id: string): (r: seq<TruckCargo>)
    ensures |r| == |trucks|
    ensures forall k :: 0 <= k < |trucks| ==> r[k] == trucks[k].(cargos := WithoutId(trucks[k].cargos, id))
  {
    if trucks == [] then []
    else [trucks[0].(cargos := WithoutId(trucks[0].cargos, id))] + StripCargo(trucks[1..], id)
  }

  /** The truck loads that still carry something. */
  function DropEmpty(trucks: seq<TruckCargo>): (r: seq<TruckCargo>)
    ensures |r| <= |trucks|
    ensures forall t :: t in r <==> t in trucks && t.cargos != []
  {
    if trucks == [] then []
    else if trucks[0].cargos == [] then DropEmpty(trucks[1..])
    else [trucks[0]] + DropEmpty(trucks[1..])
  }

  /** Dropping the empty loads keeps the order of the rest: it distributes over concatenation. */
  lemma {:induction false} DropEmptyKeepsOrder(a: seq<TruckCargo>, b: seq<TruckCargo>)
    ensures DropEmpty(a + b) == DropEmpty(a) + DropEmpty(b)
  {
    if a != [] {
      assert (a + b)[1..] == a[1..] + b;
      DropEmptyKeepsOrder(a[1..], b);
    } else {
      assert a + b == b;
    }
  }

  /** The trucks after the local `undoShipment`. */
  function StripFromTrucks(trucks: seq<TruckCargo>, id: string): seq<TruckCargo> {
    DropEmpty(StripCargo(trucks, id))
  }

  /**
   * After the id is stripped from the trucks, no truck carries it and none is
   * empty; every truck left is one of the old ones with only that cargo removed.
   */
  lemma StripLeavesNoTrace(trucks: seq<TruckCargo>, id: string)
    ensures forall t :: t in StripFromTrucks(trucks, id) ==>
      t.cargos != [] && forall c :: c in t.cargos ==> c.id != id
    ensures forall t :: t in StripFromTrucks(trucks, id) ==>
      exists k :: 0 <= k < |trucks| && t == trucks[k].(cargos := WithoutId(trucks[k].cargos, id))
  {
    forall t | t in StripFromTrucks(trucks, id)
      ensures exists k :: 0 <= k < |trucks| && t == trucks[k].(cargos := WithoutId(trucks[k].cargos, id))
    {
      var s := StripCargo(trucks, id);
      assert t in s;
      var k :| 0 <= k < |s| && s[k] == t;
      assert t == trucks[k].(cargos := WithoutId(trucks[k].cargos, id));
    }
  }

  /** The lists after a failed refresh: each list with a backup copy is restored from it. */
  function Restore(current: Lists, backup: Backup): Lists {
    Lists(if backup.warehouse.Some? then backup.warehouse.value else current.warehouse,
          if backup.history.Some? then backup.history.value else current.history,
          if backup.trucks.Some? then backup.trucks.value else current.trucks)
  }

  /** The lists and error a refresh leaves behind. */
  function RefreshOutcome(current: Lists, fetch: Fetch, backup: Backup): (Lists, Option<ContextError>) {
    if fetch.Fetched? then (fetch.lists, None) else (Restore(current, backup), Some(LoadFailed))
  }

  /** The store. */
  class CargoStore {
    var warehouseItems: seq<Cargo>
    var historyItems: seq<Cargo>
    var truckItems: seq<TruckCargo>
    var loading: bool
    var error: Option<ContextError>

    function Contents(): Lists
      reads this
    {
      Lists(warehouseItems, historyItems, truckItems)
    }

    /** The initial state, before the first refresh. */
    constructor()
      ensures Contents() == Lists([], [], []) && !loading && error.None?
    {
      warehouseItems := [];
      historyItems := [];
      truckItems := [];
      loading := false;
      error := None;
    }

    /** `refreshData`: take the server's lists, or on failure report it and restore the backups. */
    method RefreshData(fetch: Fetch, backup: Backup)
      modifies this
      ensures (Contents(), error) == RefreshOutcome(old(Contents()), fetch, backup)
      ensures !loading
    {
      loading := true;
      error := None;
      if fetch.Fetched? {
        warehouseItems := fetch.lists.warehouse;
        historyItems := fetch.lists.history;
        truckItems := fetch.lists.trucks;
      } else {
        error := Some(LoadFailed);
        if backup.warehouse.Some? {
          warehouseItems := backup.warehouse.value;
        }
        if backup.history.Some? {
          historyItems := backup.history.value;
        }
        if backup.trucks.Some? {
          truckItems := backup.trucks.value;
        }
      }
      loading := false;
    }

    /** `addCargo`: on a failed create, prepend the cargo to the warehouse and leave the rest. */
    method AddCargo(cargo: Cargo, created: bool, fetch: Fetch, backup: Backup)
      modifies this
      ensures created ==> (Contents(), error) == RefreshOutcome(old(Contents()), fetch, backup)
      ensures !created ==> (error == Some(AddFailed) &&
        Contents() == Lists([cargo] + old(warehouseItems), old(historyItems), old(truckItems)))
      ensures !loading
    {
      loading := true;
      error := None;
      if created {
        RefreshData(fetch, backup);
      } else {
        error := Some(AddFailed);
        warehouseItems := [cargo] + warehouseItems;
      }
      loading := false;
    }

    /** `shipCargo`: on a failed update, move the cargo from the warehouse to history when it is there. */
    method ShipCargo(id: string, updated: bool, fetch: Fetch, backup: Backup)
      modifies this
      ensures updated ==> (Contents(), error) == RefreshOutcome(old(Contents()), fetch, backup)
      ensures !updated ==> (error == Some(ShipFailed) && truckItems == old(truckItems) &&
        (warehouseItems, historyItems) == Move(old(warehouseItems), old(historyItems), id))
      ensures !updated && UniqueCargoIds(old(warehouseItems)) ==>
        multiset(warehouseItems) + multiset(historyItems) == multiset(old(warehouseItems)) + multiset(old(historyItems))
      ensures !loading
    {
      loading := true;
      error := None;
      if updated {
        RefreshData(fetch, backup);
      } else {
        error := Some(ShipFailed);
        var found := FindById(warehouseItems, id);
        if found.Some? {
          if UniqueCargoIds(warehouseItems) {
            MoveKeepsCargo(warehouseItems, historyItems, id);
          }
          warehouseItems := WithoutId(warehouseItems, id);
          historyItems := [found.value] + historyItems;
        }
      }
      loading := false;
    }

    /** `loadToTruck`: no local fallback; a failure only sets the error. */
    method LoadToTruck(cargoIds: seq<string>, loaded: bool, fetch: Fetch, backup: Backup)
      modifies this
      ensures loaded ==> (Contents(), error) == RefreshOutcome(old(Contents()), fetch, backup)
      ensures !loaded ==> error == Some(LoadToTruckFailed) && Contents() == old(Contents())
      ensures !loading
    {
      loading := true;
      error := None;
      if loaded {
        RefreshData(fetch, backup);
      } else {
        error := Some(LoadToTruckFailed);
      }
      loading := false;
    }

    /**
     * `undoShipment`: on a failed update, when history holds the id, move the
     * cargo back to the warehouse and strip it from every truck.
     */
    method UndoShipment(id: string, updated: bool, fetch: Fetch, backup: Backup)
      modifies this
      ensures updated ==> (Contents(), error) == RefreshOutcome(old(Contents()), fetch, backup)
      ensures !updated ==> (error == Some(UndoFailed) &&
        (historyItems, warehouseItems) == Move(old(historyItems), old(warehouseItems), id) &&
        truckItems == (if FindById(old(historyItems), id).Some? then StripFromTrucks(old(truckItems), id) else old(truckItems)))
      ensures !updated && UniqueCargoIds(old(historyItems)) ==>
        multiset(historyItems) + multiset(warehouseItems) == multiset(old(historyItems)) + multiset(old(warehouseItems))
      ensures !updated && FindById(old(historyItems), id).Some? ==>
        forall t :: t in truckItems ==> t.cargos != [] && forall c :: c in t.cargos ==> c.id != id
      ensures !loading
    {
      loading := true;
      error := None;
      if updated {
        RefreshData(fetch, backup);
      } else {
        error := Some(UndoFailed);
        var found := FindById(historyItems, id);
        if found.Some? {
          if UniqueCargoIds(historyItems) {
            MoveKeepsCargo(historyItems, warehouseItems, id);
          }
          StripLeavesNoTrace(truckItems, id);
          historyItems := WithoutId(historyItems, id);
          truckItems := StripFromTrucks(truckItems, id);
          warehouseItems := [found.value] + warehouseItems;
        }
      }
      loading := false;
    }
  }
}
