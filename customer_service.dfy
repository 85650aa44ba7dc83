/** The customer directory: customers are keyed in practice by phone number,
    and a credit sale either refreshes the customer with that phone or
    registers a new one. */
module CustomerService {
  import opened Seqs
  import opened Records
  import opened Store

  function PhoneIs(phone: string): Doc<Customer> -> bool
  {
    (d: Doc<Customer>) => d.data.phone == phone
  }

  /** `findCustomerByPhone`: nothing when no customer has that phone,
      otherwise the first one that does, with its id. */
  function FindCustomerByPhone(docs: seq<Doc<Customer>>, phone: string): (r: Option<Doc<Customer>>)
    ensures r.None? <==> forall i :: 0 <= i < |docs| ==> docs[i].data.phone != phone
    ensures r.Some? ==> r.value.data.phone == phone
    ensures r.Some? ==> exists k :: 0 <= k < |docs| && docs[k] == r.value &&
                          forall i :: 0 <= i < k ==> docs[i].data.phone != phone
  {
    match IndexWhere(docs, PhoneIs(phone))
    case None => None
    case Some(k) => Some(docs[k])
  }

  /** `Partial<Customer>` for `updateCustomer`. */
  datatype CustomerPatch = CustomerPatch(
    name: Option<string>,
    phone: Option<string>,
    address: Option<string>,
    notes: Option<string>,
    createdAt: Option<string>)

  function MergeCustomer(c: Customer, patch: CustomerPatch): Customer
  {
    Customer(
      if patch.name.Some? then patch.name.value else c.name,
      if patch.phone.Some? then patch.phone.value else c.phone,
      if patch.address.Some? then patch.address.value else c.address,
      if patch.notes.Some? then patch.notes.value else c.notes,
      if patch.createdAt.Some? then patch.createdAt.value else c.createdAt)
  }

  /** The patch `getOrCreateCustomer` sends for a returning customer. */
  function Refresh(name: string, address: string, notes: string): CustomerPatch
  {
    CustomerPatch(Some(name), None, Some(address), Some(notes), None)
  }

  /** A supplied field takes the supplied value and an omitted field keeps
      the stored one; in particular a refresh never touches the phone or
      the creation date. */
  lemma MergeCustomerSpec(c: Customer, patch: CustomerPatch, name: string, address: string, notes: string)
    ensures patch.name.Some? ==> MergeCustomer(c, patch).name == patch.name.value
    ensures patch.name.None? ==> MergeCustomer(c, patch).name == c.name
    ensures patch.phone.Some? ==> MergeCustomer(c, patch).phone == patch.phone.value
    ensures patch.phone.None? ==> MergeCustomer(c, patch).phone == c.phone
    ensures patch.address.Some? ==> MergeCustomer(c, patch).address == patch.address.value
    ensures patch.address.None? ==> MergeCustomer(c, patch).address == c.address
    ensures patch.notes.Some? ==> MergeCustomer(c, patch).notes == patch.notes.value
    ensures patch.notes.None? ==> MergeCustomer(c, patch).notes == c.notes
    ensures patch.createdAt.Some? ==> MergeCustomer(c, patch).createdAt == patch.createdAt.value
    ensures patch.createdAt.None? ==> MergeCustomer(c, patch).createdAt == c.createdAt
    ensures MergeCustomer(c, Refresh(name, address, notes)) ==
      Customer(name, c.phone, address, notes, c.createdAt)
    ensures MergeCustomer(MergeCustomer(c, patch), patch) == MergeCustomer(c, patch)
  {
  }

  /** `createCustomer`: the record is stored under a new id. */
  method CreateCustomer(db: Database, data: Customer) returns (id: Id)
    requires db.Valid()
    modifies db
    ensures db.Valid()
    ensures Lookup(old(db.customers), id).None?
    ensures db.customers == old(db.customers) + [Doc(id, data)]
    ensures id == old(db.nextId) && db.nextId == old(db.nextId) + 1
    ensures db.products == old(db.products) && db.credits == old(db.credits)
    ensures db.sales == old(db.sales) && db.cuts == old(db.cuts) && db.expenses == old(db.expenses)
  {
    id := db.FreshId();
    AppendHealthy(db.customers, Doc(id, data), db.nextId);
    db.customers := db.customers + [Doc(id, data)];
  }

  /** `updateCustomer`: fails when no customer has that id. */
  method UpdateCustomer(db: Database, id: Id, patch: CustomerPatch) returns (ok: bool)
    requires db.Valid()
    modifies db
    ensures db.Valid()
    ensures ok <==> Lookup(old(db.customers), id).Some?
    ensures ok ==> db.customers == Replace(old(db.customers), id, MergeCustomer(Lookup(old(db.customers), id).value, patch))
    ensures !ok ==> db.customers == old(db.customers)
    ensures db.products == old(db.products) && db.credits == old(db.credits) && db.nextId == old(db.nextId)
    ensures db.sales == old(db.sales) && db.cuts == old(db.cuts) && db.expenses == old(db.expenses)
  {
    var current := Lookup(db.customers, id);
    if current.None? {
      return false;
    }
    ReplaceHealthy(db.customers, id, MergeCustomer(current.value, patch), db.nextId);
    db.customers := Replace(db.customers, id, MergeCustomer(current.value, patch));
    ok := true;
  }

  /** How `getOrCreateCustomer` changes the directory: a customer with that
      phone keeps its id, its phone and its creation date and gets the new
      name, address and notes; otherwise a new customer registered at `now`
      is added under an unused id. Either way `id` names a customer with
      that phone. */
  ghost predicate Upserted(before: seq<Doc<Customer>>, after: seq<Doc<Customer>>, id: Id,
                           name: string, phone: string, address: string, notes: string, now: string)
  {
    && Lookup(after, id).Some? && Lookup(after, id).value.phone == phone
    && (FindCustomerByPhone(before, phone).Some? ==>
          && id == FindCustomerByPhone(before, phone).value.id
          && var c := FindCustomerByPhone(before, phone).value.data;
             after == Replace(before, id, Customer(name, c.phone, address, notes, c.createdAt)))
    && (FindCustomerByPhone(before, phone).None? ==>
          && Lookup(before, id).None?
          && after == before + [Doc(id, Customer(name, phone, address, notes, now))])
  }

  /** `getOrCreateCustomer`. */
  method GetOrCreateCustomer(db: Database, name: string, phone: string, address: string, notes: string, now: string)
    returns (id: Id)
    requires db.Valid()
    modifies db
    ensures db.Valid()
    ensures Upserted(old(db.customers), db.customers, id, name, phone, address, notes, now)
    ensures FindCustomerByPhone(old(db.customers), phone).Some? ==> db.nextId == old(db.nextId)
    ensures FindCustomerByPhone(old(db.customers), phone).None? ==> db.nextId == old(db.nextId) + 1
    ensures db.products == old(db.products) && db.credits == old(db.credits)
    ensures db.sales == old(db.sales) && db.cuts == old(db.cuts) && db.expenses == old(db.expenses)
  {
    var existing := FindCustomerByPhone(db.customers, phone);
    if existing.Some? {
      id := existing.value.id;
      ghost var k :| 0 <= k < |db.customers| && db.customers[k] == existing.value;
      LookupMember(db.customers, db.nextId, k);
      var ok := UpdateCustomer(db, id, Refresh(name, address, notes));
      MergeCustomerSpec(existing.value.data, Refresh(name, address, notes), name, address, notes);
      LookupReplace(old(db.customers), id, Customer(name, phone, address, notes, existing.value.data.createdAt), id);
      return;
    }
    id := CreateCustomer(db, Customer(name, phone, address, notes, now));
    LookupMember(db.customers, db.nextId, |db.customers| - 1);
  }

  /** After a get-or-create, looking the phone up again finds the id that
      was returned: refreshing a customer leaves every phone where it was,
      and a new customer is found when no earlier one had the phone. */
  lemma FindAfterGetOrCreate(docs: seq<Doc<Customer>>, phone: string, name: string, address: string, notes: string, now: string, newId: Id)
    ensures var found := FindCustomerByPhone(docs, phone);
      found.Some? ==>
        FindCustomerByPhone(Replace(docs, found.value.id, Customer(name, found.value.data.phone, address, notes, found.value.data.createdAt)), phone)
          == Some(Doc(found.value.id, Customer(name, phone, address, notes, found.value.data.createdAt)))
    ensures FindCustomerByPhone(docs, phone).None? ==>
      FindCustomerByPhone(docs + [Doc(newId, Customer(name, phone, address, notes, now))], phone)
        == Some(Doc(newId, Customer(name, phone, address, notes, now)))
  {
    var found := FindCustomerByPhone(docs, phone);
    if found.Some? {
      var c := Customer(name, found.value.data.phone, address, notes, found.value.data.createdAt);
      var r := Replace(docs, found.value.id, c);
      var k :| 0 <= k < |docs| && docs[k] == found.value && forall i :: 0 <= i < k ==> docs[i].data.phone != phone;
      assert PhoneIs(phone)(r[k]);
      var j := IndexWhere(r, PhoneIs(phone));
      assert j.Some? && j.value <= k;
      assert r[j.value] == Doc(found.value.id, c);
    } else {
      var d := Doc(newId, Customer(name, phone, address, notes, now));
      var s := docs + [d];
      IndexWhereAt(s, PhoneIs(phone), |docs|);
    }
  }
}
