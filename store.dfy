/** The hosted document store, reduced to what the services use: named
    collections of documents with generated ids, read by id, replaced by id,
    deleted by id and appended to. */
module Store {
  import opened Seqs
  import opened Records

  datatype Doc<T> = Doc(id: Id, data: T)

  function HasId<T>(id: Id): Doc<T> -> bool
  {
    (d: Doc<T>) => d.id == id
  }

  function LacksId<T>(id: Id): Doc<T> -> bool
  {
    (d: Doc<T>) => d.id != id
  }

  /** The id of the `i`-th document; the distinct-ids clause below is
      triggered on it, so that it is only used where a proof asks for it. */
  function IdAt<T>(docs: seq<Doc<T>>, i: nat): Id
    requires i < |docs|
  {
    docs[i].id
  }

  /** Every id was generated before `bound`, and no two documents share one. */
  ghost predicate Healthy<T>(docs: seq<Doc<T>>, bound: nat)
  {
    && (forall i :: 0 <= i < |docs| ==> docs[i].id < bound)
    && (forall i, j {:trigger IdAt(docs, i), IdAt(docs, j)} :: 0 <= i < j < |docs| ==> IdAt(docs, i) != IdAt(docs, j))
  }

  /** Two different documents of a healthy collection have different ids. */
  lemma Distinct<T>(docs: seq<Doc<T>>, bound: nat, i: nat, j: nat)
    requires Healthy(docs, bound) && i < |docs| && j < |docs| && i != j
    ensures docs[i].id != docs[j].id
  {
    if i < j {
      assert IdAt(docs, i) != IdAt(docs, j);
    } else {
      assert IdAt(docs, j) != IdAt(docs, i);
    }
  }

  /** `getDoc`: the data of the document with that id, if there is one. */
  function Lookup<T>(docs: seq<Doc<T>>, id: Id): (r: Option<T>)
    ensures r.None? <==> forall i :: 0 <= i < |docs| ==> docs[i].id != id
    ensures r.Some? ==> Doc(id, r.value) in docs
  {
    match IndexWhere(docs, HasId(id))
    case None => None
    case Some(k) => Some(docs[k].data)
  }

  /** `updateDoc`/`setDoc` on one id: that document gets `data`, the others
      stay where and what they were. */
  function Replace<T>(docs: seq<Doc<T>>, id: Id, data: T): (r: seq<Doc<T>>)
    ensures |r| == |docs|
    ensures forall i :: 0 <= i < |r| ==> r[i].id == docs[i].id
    ensures forall i :: 0 <= i < |r| && docs[i].id != id ==> r[i] == docs[i]
  {
    seq(|docs|, i requires 0 <= i < |docs| => if docs[i].id == id then Doc(id, data) else docs[i])
  }

  /** `deleteDoc`: every document with that id goes, the rest stay in order. */
  function Remove<T>(docs: seq<Doc<T>>, id: Id): seq<Doc<T>>
  {
    Filter(docs, LacksId(id))
  }

  lemma {:induction false} IndexWhereSameIds<T>(a: seq<Doc<T>>, b: seq<Doc<T>>, id: Id)
    requires |a| == |b| && forall i :: 0 <= i < |a| ==> a[i].id == b[i].id
    ensures IndexWhere(a, HasId(id)) == IndexWhere(b, HasId(id))
    decreases |a|
  {
    if a != [] {
      IndexWhereSameIds(a[1..], b[1..], id);
    }
  }

  /** Collections with the same ids in the same places hold the same ids. */
  lemma LookupSameIds<T, U>(a: seq<Doc<T>>, b: seq<Doc<U>>, id: Id)
    requires |a| == |b| && forall i :: 0 <= i < |a| ==> a[i].id == b[i].id
    ensures Lookup(a, id).Some? <==> Lookup(b, id).Some?
  {
  }

  /** Reading back after a replace: the replaced id reads the new data,
      every other id reads what it did before. */
  lemma LookupReplace<T>(docs: seq<Doc<T>>, id: Id, data: T, q: Id)
    ensures Lookup(Replace(docs, id, data), q) ==
      (if q == id && Lookup(docs, id).Some? then Some(data) else Lookup(docs, q))
  {
    IndexWhereSameIds(Replace(docs, id, data), docs, q);
  }

  /** After a delete, no document has that id and every other document is
      still there. */
  lemma RemoveSpec<T>(docs: seq<Doc<T>>, id: Id)
    ensures forall i :: 0 <= i < |Remove(docs, id)| ==> Remove(docs, id)[i].id != id
    ensures forall d :: d in docs && d.id != id ==> d in Remove(docs, id)
    ensures forall d :: d in Remove(docs, id) ==> d in docs
    ensures Lookup(Remove(docs, id), id).None?
  {
    var r := Remove(docs, id);
    forall d | d in docs && d.id != id ensures d in r {
      var i :| 0 <= i < |docs| && docs[i] == d;
    }
    forall d | d in r ensures d in docs {
      var i :| 0 <= i < |r| && r[i] == d;
    }
  }

  /** No document of `docs` has id `x`. */
  ghost predicate IdAbsent<T>(docs: seq<Doc<T>>, x: Id)
  {
    forall i :: 0 <= i < |docs| ==> docs[i].id != x
  }

  lemma HealthyInit<T>(docs: seq<Doc<T>>, bound: nat)
    requires docs != [] && Healthy(docs, bound)
    ensures Healthy(docs[..|docs| - 1], bound)
    ensures IdAbsent(docs[..|docs| - 1], docs[|docs| - 1].id)
    ensures docs[|docs| - 1].id < bound
  {
    var init := docs[..|docs| - 1];
    forall i, j | 0 <= i < j < |init| ensures IdAt(init, i) != IdAt(init, j) {
      assert init[i] == docs[i] && init[j] == docs[j];
      Distinct(docs, bound, i, j);
    }
    forall i | 0 <= i < |init| ensures init[i].id != docs[|docs| - 1].id {
      assert init[i] == docs[i];
      Distinct(docs, bound, i, |docs| - 1);
    }
  }

  lemma HealthySnoc<T>(docs: seq<Doc<T>>, d: Doc<T>, bound: nat)
    requires Healthy(docs, bound) && IdAbsent(docs, d.id) && d.id < bound
    ensures Healthy(docs + [d], bound)
  {
    var g := docs + [d];
    forall i, j | 0 <= i < j < |g| ensures IdAt(g, i) != IdAt(g, j) {
      assert g[i] == docs[i];
      if j < |docs| {
        assert g[j] == docs[j];
        Distinct(docs, bound, i, j);
      }
    }
  }

  lemma FilterIdAbsent<T>(docs: seq<Doc<T>>, p: Doc<T> -> bool, x: Id)
    requires IdAbsent(docs, x)
    ensures IdAbsent(Filter(docs, p), x)
  {
    var f := Filter(docs, p);
    forall i | 0 <= i < |f| ensures f[i].id != x {
      var j :| 0 <= j < |docs| && docs[j] == f[i];
    }
  }

  lemma {:induction false} FilterHealthy<T>(docs: seq<Doc<T>>, p: Doc<T> -> bool, bound: nat)
    requires Healthy(docs, bound)
    ensures Healthy(Filter(docs, p), bound)
    decreases |docs|
  {
    if docs != [] {
      var init, last := docs[..|docs| - 1], docs[|docs| - 1];
      HealthyInit(docs, bound);
      FilterHealthy(init, p, bound);
      FilterIdAbsent(init, p, last.id);
      if p(last) {
        assert Filter(docs, p) == Filter(init, p) + [last];
        HealthySnoc(Filter(init, p), last, bound);
      } else {
        assert Filter(docs, p) == Filter(init, p) + [];
        assert Filter(init, p) + [] == Filter(init, p);
      }
    }
  }

  /** In a healthy collection, looking up a document's own id finds it. */
  lemma LookupMember<T>(docs: seq<Doc<T>>, bound: nat, i: nat)
    requires Healthy(docs, bound) && i < |docs|
    ensures Lookup(docs, docs[i].id) == Some(docs[i].data)
  {
    assert HasId(docs[i].id)(docs[i]);
    var k := IndexWhere(docs, HasId(docs[i].id)).value;
    if k != i {
      Distinct(docs, bound, k, i);
    }
  }

  lemma AppendHealthy<T>(docs: seq<Doc<T>>, d: Doc<T>, bound: nat)
    requires Healthy(docs, d.id) && d.id < bound
    ensures Healthy(docs + [d], bound)
  {
    RaiseBound(docs, d.id, bound);
    HealthySnoc(docs, d, bound);
  }

  /** Replacing a document's data keeps every id where it was. */
  lemma ReplaceHealthy<T>(docs: seq<Doc<T>>, id: Id, data: T, bound: nat)
    requires Healthy(docs, bound)
    ensures Healthy(Replace(docs, id, data), bound)
  {
    var r := Replace(docs, id, data);
    forall i, j | 0 <= i < j < |r| ensures IdAt(r, i) != IdAt(r, j) {
      Distinct(docs, bound, i, j);
    }
  }

  lemma RaiseBound<T>(docs: seq<Doc<T>>, bound: nat, bound': nat)
    requires Healthy(docs, bound) && bound <= bound'
    ensures Healthy(docs, bound')
  {
  }

  /** The `products`, `credits`, `customers`, `sales`, `cash_cuts` and
      `expenses` collections. Sales, cuts and expenses are only ever
      appended to and listed, so their ids are not kept. */
  class Database {
    var products: seq<Doc<Product>>
    var credits: seq<Doc<CreditSale>>
    var customers: seq<Doc<Customer>>
    var sales: seq<Sale>
    var cuts: seq<CashCut>
    var expenses: seq<Expense>
    var nextId: nat

    ghost predicate Valid()
      reads this
    {
      Healthy(products, nextId) && Healthy(credits, nextId) && Healthy(customers, nextId)
    }

    constructor ()
      ensures Valid()
      ensures products == [] && credits == [] && customers == []
      ensures sales == [] && cuts == [] && expenses == []
    {
      products, credits, customers := [], [], [];
      sales, cuts, expenses := [], [], [];
      nextId := 0;
    }

    /** Generates an id that no document of any collection carries. */
    method FreshId() returns (id: Id)
      requires Valid()
      modifies this`nextId
      ensures Valid() && id == old(nextId) && nextId == id + 1
      ensures Healthy(products, id) && Healthy(credits, id) && Healthy(customers, id)
    {
      id := nextId;
      nextId := nextId + 1;
      RaiseBound(products, id, nextId);
      RaiseBound(credits, id, nextId);
      RaiseBound(customers, id, nextId);
    }
  }
}
