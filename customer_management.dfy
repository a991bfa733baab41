/**
 * The customer page: the customer list with its add/edit form, deletion, the
 * search and tier filters and the per-tier counts.
 *
 * The list operations are pure functions over `seq<Customer>`; the page is a
 * class whose `customers`, `editingCustomer` and `formData` fields the
 * handlers replace.
 */
module CustomerManagement {
  import opened Wrappers
  import opened CargoTypes
  import opened Text

  /** The add/edit form. */
  datatype CustomerForm = CustomerForm(name: string, kind: CustomerType, contactInfo: string, address: string, notes: string)

  const EmptyForm := CustomerForm("", Medium, "", "", "")

  /** The only guard of `handleSubmit`: a blank name is refused. */
  function Accepts(form: CustomerForm): (ok: bool)
    ensures ok <==> !IsBlank(form.name)
  {
    TrimEmptyIffBlank(form.name);
    Trim(form.name) != ""
  }

  /** `{...customer, ...formData}`: the form's fields over a stored customer. */
  function EditedCustomer(c: Customer, form: CustomerForm): (r: Customer)
    ensures r.id == c.id && r.createdAt == c.createdAt
    ensures r.name == form.name && r.kind == form.kind
    ensures r.contactInfo == Some(form.contactInfo) && r.address == Some(form.address) && r.notes == Some(form.notes)
  {
    c.(name := form.name, kind := form.kind, contactInfo := Some(form.contactInfo),
       address := Some(form.address), notes := Some(form.notes))
  }

  /** The added customer: a generated id and the creation time over the form. */
  function NewCustomer(form: CustomerForm, id: string, now: string): (r: Customer)
    ensures r.id == id && r.createdAt == now
    ensures r.name == form.name && r.kind == form.kind
    ensures r.contactInfo == Some(form.contactInfo) && r.address == Some(form.address) && r.notes == Some(form.notes)
  {
    Customer(id, form.name, form.kind, Some(form.contactInfo), Some(form.address), Some(form.notes), now)
  }

  /** `customers.map(c => c.id === id ? edited : c)`. */
  function EditById(customers: seq<Customer>, id: string, form: CustomerForm): (r: seq<Customer>)
    ensures |r| == |customers|
    ensures forall i :: 0 <= i < |customers| ==>
      r[i] == if customers[i].id == id then EditedCustomer(customers[i], form) else customers[i]
  {
    if customers == [] then []
    else [if customers[0].id == id then EditedCustomer(customers[0], form) else customers[0]] + EditById(customers[1..], id, form)
  }

  /** `customers.filter(c => c.id !== id)`. */
  function WithoutCustomer(customers: seq<Customer>, id: string): (r: seq<Customer>)
    ensures |r| <= |customers|
    ensures forall c :: c in r <==> c in customers && c.id != id
  {
    if customers == [] then []
    else if customers[0].id == id then WithoutCustomer(customers[1..], id)
    else [customers[0]] + WithoutCustomer(customers[1..], id)
  }

  /** Deleting keeps the order of the rest: it distributes over concatenation. */
  lemma {:induction false} WithoutCustomerKeepsOrder(a: seq<Customer>, b: seq<Customer>, id: string)
    ensures WithoutCustomer(a + b, id) == WithoutCustomer(a, id) + WithoutCustomer(b, id)
  {
    if a != [] {
      assert (a + b)[1..] == a[1..] + b;
      WithoutCustomerKeepsOrder(a[1..], b, id);
    } else {
      assert a + b == b;
    }
  }

  /** `customers.filter(c => c.type === kind).length`. */
  function CountKind(customers: seq<Customer>, kind: CustomerType): (n: nat)
    ensures n <= |customers|
  {
    if customers == [] then 0
    else (if customers[0].kind == kind then 1 else 0) + CountKind(customers[1..], kind)
  }

  /** The large, medium and small counts of `stats` add up to the total. */
  lemma {:induction false} TierCountsSumToTotal(customers: seq<Customer>)
    ensures CountKind(customers, Large) + CountKind(customers, Medium) + CountKind(customers, Small) == |customers|
  {
    if customers != [] {
      TierCountsSumToTotal(customers[1..]);
    }
  }

  /** An optional text field matches when present and containing the lowered term. */
  predicate FieldMatches(field: Option<string>, term: string) {
    field.Some? && Contains(Lower(field.value), Lower(term))
  }

  /** The search box matches the name, the contact or the address, ignoring letter case. */
  predicate MatchesSearch(c: Customer, term: string) {
    Contains(Lower(c.name), Lower(term)) || FieldMatches(c.contactInfo, term) || FieldMatches(c.address, term)
  }

  /** The tier filter of the page: all tiers, or one. */
  datatype KindFilter = AllKinds | OnlyKind(kind: CustomerType)

  predicate MatchesKind(c: Customer, filter: KindFilter) {
    filter.AllKinds? || c.kind == filter.kind
  }

  /** `filteredCustomers`: the customers matching both the search term and the tier filter, in order. */
  function FilteredCustomers(customers: seq<Customer>, term: string, filter: KindFilter): (r: seq<Customer>)
    ensures |r| <= |customers|
    ensures forall c :: c in r <==> c in customers && MatchesSearch(c, term) && MatchesKind(c, filter)
  {
    if customers == [] then []
    else
      var rest := FilteredCustomers(customers[1..], term, filter);
      if MatchesSearch(customers[0], term) && MatchesKind(customers[0], filter) then [customers[0]] + rest else rest
  }

  /** The table shows the matches in stored order: filtering distributes over concatenation. */
  lemma {:induction false} FilteredCustomersKeepsOrder(a: seq<Customer>, b: seq<Customer>, term: string, filter: KindFilter)
    ensures FilteredCustomers(a + b, term, filter) == FilteredCustomers(a, term, filter) + FilteredCustomers(b, term, filter)
  {
    if a != [] {
      assert (a + b)[1..] == a[1..] + b;
      FilteredCustomersKeepsOrder(a[1..], b, term, filter);
    } else {
      assert a + b == b;
    }
  }

  /** The search matches alone, in order. */
  function SearchMatches(customers: seq<Customer>, term: string): (r: seq<Customer>)
    ensures forall c :: c in r <==> c in customers && MatchesSearch(c, term)
  {
    if customers == [] then []
    else
      var rest := SearchMatches(customers[1..], term);
      if MatchesSearch(customers[0], term) then [customers[0]] + rest else rest
  }

  /** With the tier filter on all, the filtered list is exactly the search matches. */
  lemma {:induction false} AllKindsIsSearchOnly(customers: seq<Customer>, term: string)
    ensures FilteredCustomers(customers, term, AllKinds) == SearchMatches(customers, term)
  {
    if customers != [] {
      AllKindsIsSearchOnly(customers[1..], term);
    }
  }

  /** With an empty term and all tiers, every customer is shown. */
  lemma {:induction false} EmptySearchShowsAll(customers: seq<Customer>)
    ensures FilteredCustomers(customers, "", AllKinds) == customers
  {
    if customers != [] {
      ContainsEmptyAndSelf(Lower(customers[0].name));
      EmptySearchShowsAll(customers[1..]);
    }
  }

  /** The page state. */
  class CustomerManagementPage {
    var customers: seq<Customer>
    var editingCustomer: Option<Customer>
    var formData: CustomerForm

    /** Mount: the stored customers when there are any, otherwise none. */
    constructor(stored: Option<seq<Customer>>)
      ensures customers == (if stored.Some? then stored.value else [])
      ensures editingCustomer.None? && formData == EmptyForm
    {
      customers := if stored.Some? then stored.value else [];
      editingCustomer := None;
      formData := EmptyForm;
    }

    /** `handleEdit`: remember the customer and fill the form, missing texts as empty. */
    method HandleEdit(c: Customer)
      modifies this
      ensures customers == old(customers) && editingCustomer == Some(c)
      ensures formData == CustomerForm(c.name, c.kind,
        if c.contactInfo.Some? then c.contactInfo.value else "",
        if c.address.Some? then c.address.value else "",
        if c.notes.Some? then c.notes.value else "")
    {
      editingCustomer := Some(c);
      formData := CustomerForm(c.name, c.kind,
        if c.contactInfo.Some? then c.contactInfo.value else "",
        if c.address.Some? then c.address.value else "",
        if c.notes.Some? then c.notes.value else "");
    }

    /**
     * `handleSubmit`: refuse a blank name and change nothing; otherwise edit the
     * customer being edited or prepend a new one, then reset the form.
     */
    method HandleSubmit(newId: string, now: string) returns (ok: bool)
      modifies this
      ensures ok == Accepts(old(formData))
      ensures !ok ==> customers == old(customers) && editingCustomer == old(editingCustomer) && formData == old(formData)
      ensures ok && old(editingCustomer).Some? ==>
        customers == EditById(old(customers), old(editingCustomer).value.id, old(formData))
      ensures ok && old(editingCustomer).None? ==> customers == [NewCustomer(old(formData), newId, now)] + old(customers)
      ensures ok ==> editingCustomer.None? && formData == EmptyForm
    {
      ok := Accepts(formData);
      if !ok {
        return;
      }
      if editingCustomer.Some? {
        customers := EditById(customers, editingCustomer.value.id, formData);
        editingCustomer := None;
      } else {
        customers := [NewCustomer(formData, newId, now)] + customers;
      }
      formData := EmptyForm;
    }

    /** `handleDelete`: after confirmation, drop every customer with that id. */
    method HandleDelete(id: string, confirmed: bool)
      modifies this
      ensures customers == if confirmed then WithoutCustomer(old(customers), id) else old(customers)
      ensures editingCustomer == old(editingCustomer) && formData == old(formData)
    {
      if confirmed {
        customers := WithoutCustomer(customers, id);
      }
    }
  }
}
