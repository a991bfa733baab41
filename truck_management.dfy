/**
 * The fleet page: the list of trucks with its add/edit form, deletion, status
 * changes, the search filter and the per-status counts.
 *
 * The list operations are pure functions over `seq<Truck>`; the page itself is
 * a class whose `trucks`, `editingTruck` and `formData` fields the handlers
 * replace, as the page's state hooks do.
 */
module TruckManagement {
  import opened Wrappers
  import opened CargoTypes
  import opened Text

  /** The add/edit form. */
  datatype TruckForm = TruckForm(name: string, maxWeight: real, maxVolume: real, selfWeight: real, notes: string)

  const EmptyForm := TruckForm("", 0.0, 0.0, 0.0, "")

  /** Why a submission was refused. */
  datatype SubmitError =
    | InvalidNumbers     // a limit is not positive or the self weight is negative
    | SelfWeightTooHigh  // the self weight reaches the load limit

  /** The two guards of `handleSubmit`, in order. */
  function Validate(form: TruckForm): (r: Option<SubmitError>)
    ensures r == Some(InvalidNumbers) <==> form.maxWeight <= 0.0 || form.maxVolume <= 0.0 || form.selfWeight < 0.0
    ensures r == Some(SelfWeightTooHigh) <==>
      form.maxWeight > 0.0 && form.maxVolume > 0.0 && form.selfWeight >= 0.0 && form.selfWeight >= form.maxWeight
    ensures r.None? ==> form.maxWeight - form.selfWeight > 0.0 && form.maxVolume > 0.0 && form.selfWeight >= 0.0
  {
    if form.maxWeight <= 0.0 || form.maxVolume <= 0.0 || form.selfWeight < 0.0 then Some(InvalidNumbers)
    else if form.selfWeight >= form.maxWeight then Some(SelfWeightTooHigh)
    else None
  }

  /**
   * The invariant every truck the page creates or edits satisfies: positive
   * limits, a nonnegative self weight and a positive remaining capacity equal
   * to the load limit minus the self weight.
   */
  predicate WellFormed(t: Truck) {
    t.maxWeight > 0.0 && t.maxVolume > 0.0 && t.selfWeight >= 0.0 &&
    t.availableWeight == t.maxWeight - t.selfWeight && t.availableWeight > 0.0
  }

  predicate AllWellFormed(trucks: seq<Truck>) {
    forall i :: 0 <= i < |trucks| ==> WellFormed(trucks[i])
  }

  /** `{...truck, ...formData, availableWeight}`: the form's fields over a stored truck. */
  function EditedTruck(t: Truck, form: TruckForm): (r: Truck)
    ensures r.id == t.id && r.status == t.status && r.createdAt == t.createdAt
    ensures r.name == form.name && r.maxWeight == form.maxWeight && r.maxVolume == form.maxVolume
    ensures r.selfWeight == form.selfWeight && r.notes == Some(form.notes)
    ensures Validate(form).None? ==> WellFormed(r)
  {
    t.(name := form.name, maxWeight := form.maxWeight, maxVolume := form.maxVolume,
       selfWeight := form.selfWeight, notes := Some(form.notes),
       availableWeight := form.maxWeight - form.selfWeight)
  }

  /** The truck that adding creates: available, with a generated id and creation time. */
  function NewTruck(form: TruckForm, id: string, now: string): (r: Truck)
    ensures r.id == id && r.status == Available && r.createdAt == now
    ensures r.name == form.name && r.maxWeight == form.maxWeight && r.maxVolume == form.maxVolume
    ensures r.selfWeight == form.selfWeight && r.notes == Some(form.notes)
    ensures Validate(form).None? ==> WellFormed(r)
  {
    Truck(id, form.name, form.maxWeight, form.maxVolume, form.selfWeight,
          form.maxWeight - form.selfWeight, Available, Some(form.notes), now)
  }

  /** `trucks.map(t => t.id === id ? edited : t)`. */
  function ApplyEdit(trucks: seq<Truck>, id: string, form: TruckForm): (r: seq<Truck>)
    ensures |r| == |trucks|
    ensures forall i :: 0 <= i < |trucks| ==>
      r[i] == if trucks[i].id == id then EditedTruck(trucks[i], form) else trucks[i]
  {
    if trucks == [] then []
    else [if trucks[0].id == id then EditedTruck(trucks[0], form) else trucks[0]] + ApplyEdit(trucks[1..], id, form)
  }

  /** `trucks.filter(t => t.id !== id)`. */
  function WithoutTruck(trucks: seq<Truck>, id: string): (r: seq<Truck>)
    ensures |r| <= |trucks|
    ensures forall t :: t in r <==> t in trucks && t.id != id
  {
    if trucks == [] then []
    else if trucks[0].id == id then WithoutTruck(trucks[1..], id)
    else [trucks[0]] + WithoutTruck(trucks[1..], id)
  }

  /** Deleting keeps the order of the rest: it distributes over concatenation. */
  lemma {:induction false} WithoutTruckKeepsOrder(a: seq<Truck>, b: seq<Truck>, id: string)
    ensures WithoutTruck(a + b, id) == WithoutTruck(a, id) + WithoutTruck(b, id)
  {
    if a != [] {
      assert (a + b)[1..] == a[1..] + b;
      WithoutTruckKeepsOrder(a[1..], b, id);
    } else {
      assert a + b == b;
    }
  }

  /** Deleting an id no truck has changes nothing. */
  lemma {:induction false} WithoutAbsentTruck(trucks: seq<Truck>, id: string)
    requires forall i :: 0 <= i < |trucks| ==> trucks[i].id != id
    ensures WithoutTruck(trucks, id) == trucks
  {
    if trucks != [] {
      WithoutAbsentTruck(trucks[1..], id);
    }
  }

  /** `trucks.map(t => t.id === id ? {...t, status} : t)`. */
  function SetStatus(trucks: seq<Truck>, id: string, status: TruckStatus): (r: seq<Truck>)
    ensures |r| == |trucks|
    ensures forall i :: 0 <= i < |trucks| ==>
      r[i] == if trucks[i].id == id then trucks[i].(status := status) else trucks[i]
  {
    if trucks == [] then []
    else [if trucks[0].id == id then trucks[0].(status := status) else trucks[0]] + SetStatus(trucks[1..], id, status)
  }

  /** Editing with a valid form keeps every truck well formed. */
  lemma EditKeepsWellFormed(trucks: seq<Truck>, id: string, form: TruckForm)
    requires AllWellFormed(trucks) && Validate(form).None?
    ensures AllWellFormed(ApplyEdit(trucks, id, form))
  {
    var r := ApplyEdit(trucks, id, form);
    forall i | 0 <= i < |r| ensures WellFormed(r[i]) {
      assert WellFormed(trucks[i]);
    }
  }

  /** Adding a truck from a valid form keeps every truck well formed. */
  lemma AddKeepsWellFormed(trucks: seq<Truck>, form: TruckForm, id: string, now: string)
    requires AllWellFormed(trucks) && Validate(form).None?
    ensures AllWellFormed([NewTruck(form, id, now)] + trucks)
  {
    var added := [NewTruck(form, id, now)] + trucks;
    forall i | 0 <= i < |added| ensures WellFormed(added[i]) {
      if i > 0 {
        assert added[i] == trucks[i - 1];
      }
    }
  }

  /** Deleting keeps every remaining truck well formed. */
  lemma DeleteKeepsWellFormed(trucks: seq<Truck>, id: string)
    requires AllWellFormed(trucks)
    ensures AllWellFormed(WithoutTruck(trucks, id))
  {
    var w := WithoutTruck(trucks, id);
    forall i | 0 <= i < |w| ensures WellFormed(w[i]) {
      assert w[i] in trucks;
    }
  }

  /** A status change keeps every truck well formed. */
  lemma SetStatusKeepsWellFormed(trucks: seq<Truck>, id: string, status: TruckStatus)
    requires AllWellFormed(trucks)
    ensures AllWellFormed(SetStatus(trucks, id, status))
  {
    var r := SetStatus(trucks, id, status);
    forall i | 0 <= i < |r| ensures WellFormed(r[i]) {
      assert WellFormed(trucks[i]);
    }
  }

  /** `trucks.filter(t => t.status === status).length`. */
  function CountStatus(trucks: seq<Truck>, status: TruckStatus): (n: nat)
    ensures n <= |trucks|
  {
    if trucks == [] then 0
    else (if trucks[0].status == status then 1 else 0) + CountStatus(trucks[1..], status)
  }

  /** The four status counts of `stats` add up to the total. */
  lemma {:induction false} StatsSumToTotal(trucks: seq<Truck>)
    ensures CountStatus(trucks, Available) + CountStatus(trucks, Loading)
          + CountStatus(trucks, Dispatched) + CountStatus(trucks, Maintenance) == |trucks|
  {
    if trucks != [] {
      StatsSumToTotal(trucks[1..]);
    }
  }

  /** A status change moves one truck from the count of its old status to that of the new. */
  lemma {:induction false} SetStatusMovesCount(trucks: seq<Truck>, i: nat, status: TruckStatus)
    requires i < |trucks| && trucks[i].status != status
    requires forall j :: 0 <= j < |trucks| && j != i ==> trucks[j].id != trucks[i].id
    ensures CountStatus(SetStatus(trucks, trucks[i].id, status), status) == CountStatus(trucks, status) + 1
    ensures CountStatus(SetStatus(trucks, trucks[i].id, status), trucks[i].status) == CountStatus(trucks, trucks[i].status) - 1
  {
    var id := trucks[i].id;
    var r := SetStatus(trucks, id, status);
    assert r[0] == if trucks[0].id == id then trucks[0].(status := status) else trucks[0];
    if i == 0 {
      assert SetStatus(trucks[1..], id, status) == trucks[1..] by {
        SetStatusAbsent(trucks[1..], id, status);
      }
    } else {
      assert trucks[1..][i - 1] == trucks[i];
      SetStatusMovesCount(trucks[1..], i - 1, status);
    }
  }

  lemma {:induction false} SetStatusAbsent(trucks: seq<Truck>, id: string, status: TruckStatus)
    requires forall j :: 0 <= j < |trucks| ==> trucks[j].id != id
    ensures SetStatus(trucks, id, status) == trucks
  {
    if trucks != [] {
      SetStatusAbsent(trucks[1..], id, status);
    }
  }

  /** The status filter of the page: all statuses, or one. */
  datatype StatusFilter = AllStatuses | OnlyStatus(status: TruckStatus)

  /** The search box matches the name, or the notes when there are any, ignoring letter case. */
  predicate MatchesSearch(t: Truck, term: string) {
    Contains(Lower(t.name), Lower(term)) || (t.notes.Some? && Contains(Lower(t.notes.value), Lower(term)))
  }

  predicate MatchesStatus(t: Truck, filter: StatusFilter) {
    filter.AllStatuses? || t.status == filter.status
  }

  /** `filteredTrucks`: the trucks matching both the search term and the status filter, in order. */
  function FilteredTrucks(trucks: seq<Truck>, term: string, filter: StatusFilter): (r: seq<Truck>)
    ensures forall t :: t in r <==> t in trucks && MatchesSearch(t, term) && MatchesStatus(t, filter)
  {
    if trucks == [] then []
    else
      var rest := FilteredTrucks(trucks[1..], term, filter);
      if MatchesSearch(trucks[0], term) && MatchesStatus(trucks[0], filter) then [trucks[0]] + rest else rest
  }

  /** The filter keeps the order of the trucks it shows: it distributes over concatenation. */
  lemma {:induction false} FilteredTrucksKeepsOrder(a: seq<Truck>, b: seq<Truck>, term: string, filter: StatusFilter)
    ensures FilteredTrucks(a + b, term, filter) == FilteredTrucks(a, term, filter) + FilteredTrucks(b, term, filter)
  {
    if a != [] {
      assert (a + b)[1..] == a[1..] + b;
      FilteredTrucksKeepsOrder(a[1..], b, term, filter);
    } else {
      assert a + b == b;
    }
  }

  /** With an empty search term and all statuses, the whole fleet is shown. */
  lemma {:induction false} EmptySearchShowsAll(trucks: seq<Truck>)
    ensures FilteredTrucks(trucks, "", AllStatuses) == trucks
  {
    if trucks != [] {
      ContainsEmptyAndSelf(Lower(trucks[0].name));
      EmptySearchShowsAll(trucks[1..]);
    }
  }

  /** The page state. */
  class TruckManagementPage {
    var trucks: seq<Truck>
    var editingTruck: Option<Truck>
    var formData: TruckForm

    /** Mount: the stored list when there is one, otherwise an empty fleet. */
    constructor(stored: Option<seq<Truck>>)
      ensures trucks == (if stored.Some? then stored.value else [])
      ensures editingTruck.None? && formData == EmptyForm
    {
      trucks := if stored.Some? then stored.value else [];
      editingTruck := None;
      formData := EmptyForm;
    }

    /** `handleEdit`: remember the truck and fill the form with its values. */
    method HandleEdit(t: Truck)
      modifies this
      ensures trucks == old(trucks) && editingTruck == Some(t)
      ensures formData == TruckForm(t.name, t.maxWeight, t.maxVolume, t.selfWeight,
                                    if t.notes.Some? then t.notes.value else "")
    {
      editingTruck := Some(t);
      formData := TruckForm(t.name, t.maxWeight, t.maxVolume, t.selfWeight,
                            if t.notes.Some? then t.notes.value else "");
    }

    /**
     * `handleSubmit`: refuse an invalid form and change nothing; otherwise edit
     * the truck being edited or prepend a new available truck, then reset the form.
     */
    method HandleSubmit(newId: string, now: string) returns (r: Option<SubmitError>)
      modifies this
      ensures r == Validate(old(formData))
      ensures r.Some? ==> trucks == old(trucks) && editingTruck == old(editingTruck) && formData == old(formData)
      ensures r.None? && old(editingTruck).Some? ==>
        trucks == ApplyEdit(old(trucks), old(editingTruck).value.id, old(formData))
      ensures r.None? && old(editingTruck).None? ==> trucks == [NewTruck(old(formData), newId, now)] + old(trucks)
      ensures r.None? ==> editingTruck.None? && formData == EmptyForm
      ensures r.None? && AllWellFormed(old(trucks)) ==> AllWellFormed(trucks)
    {
      r := Validate(formData);
      if r.Some? {
        return;
      }
      if editingTruck.Some? {
        if AllWellFormed(trucks) {
          EditKeepsWellFormed(trucks, editingTruck.value.id, formData);
        }
        trucks := ApplyEdit(trucks, editingTruck.value.id, formData);
        editingTruck := None;
      } else {
        if AllWellFormed(trucks) {
          AddKeepsWellFormed(trucks, formData, newId, now);
        }
        trucks := [NewTruck(formData, newId, now)] + trucks;
      }
      formData := EmptyForm;
    }

    /** `handleDelete`: after confirmation, drop every truck with that id. */
    method HandleDelete(id: string, confirmed: bool)
      modifies this
      ensures trucks == if confirmed then WithoutTruck(old(trucks), id) else old(trucks)
      ensures editingTruck == old(editingTruck) && formData == old(formData)
      ensures AllWellFormed(old(trucks)) ==> AllWellFormed(trucks)
    {
      if confirmed {
        if AllWellFormed(trucks) {
          DeleteKeepsWellFormed(trucks, id);
        }
        trucks := WithoutTruck(trucks, id);
      }
    }

    /** `updateTruckStatus`: set the status of the truck with that id. */
    method UpdateTruckStatus(id: string, status: TruckStatus)
      modifies this
      ensures trucks == SetStatus(old(trucks), id, status)
      ensures editingTruck == old(editingTruck) && formData == old(formData)
      ensures AllWellFormed(old(trucks)) ==> AllWellFormed(trucks)
    {
      if AllWellFormed(trucks) {
        SetStatusKeepsWellFormed(trucks, id, status);
      }
      trucks := SetStatus(trucks, id, status);
    }
  }
}
