/** A branch and its customer list, unique by customer identifier. */
module Branches {
  import opened Wrappers
  import opened Accounts

  /** `customers.some(c => c.getId() === id)`: some customer carries the identifier. */
  function HasId(cs: seq<Customer>, id: int): (r: bool)
    ensures r <==> exists i :: 0 <= i < |cs| && cs[i].id == id
  {
    if cs == [] then false
    else cs[0].id == id || HasId(cs[1..], id)
  }

  ghost predicate DistinctIds(cs: seq<Customer>)
  {
    forall i, j :: 0 <= i < j < |cs| ==> cs[i].id != cs[j].id
  }

  /** The position of the first customer carrying `id`, if any. */
  function FirstIdIndex(cs: seq<Customer>, id: int): (r: Option<nat>)
    ensures r.None? <==> !HasId(cs, id)
    ensures r.Some? ==> r.value < |cs| && cs[r.value].id == id
    ensures r.Some? ==> forall j :: 0 <= j < r.value ==> cs[j].id != id
  {
    if cs == [] then None
    else if cs[0].id == id then Some(0)
    else match FirstIdIndex(cs[1..], id)
      case None => None
      case Some(k) => Some(k + 1)
  }

  /** `customers.find(c => c.getId() === id)`. */
  function FindById(cs: seq<Customer>, id: int): (r: Option<Customer>)
    ensures r.Some? <==> HasId(cs, id)
    ensures r.Some? ==> r.value in cs && r.value.id == id
  {
    match FirstIdIndex(cs, id)
    case None => None
    case Some(k) => Some(cs[k])
  }

  /** With distinct identifiers, the customer found by `id` is the only one carrying it. */
  lemma FindByIdUnique(cs: seq<Customer>, id: int, i: nat)
    requires DistinctIds(cs)
    requires i < |cs| && cs[i].id == id
    ensures FindById(cs, id) == Some(cs[i])
  {
    var k := FirstIdIndex(cs, id).value;
    assert !(k < i) && !(i < k);
  }

  /** Appending a customer whose identifier is new keeps identifiers distinct. */
  lemma AppendKeepsDistinctIds(cs: seq<Customer>, c: Customer)
    requires DistinctIds(cs) && !HasId(cs, c.id)
    ensures DistinctIds(cs + [c])
  {
    forall i, j | 0 <= i < j < |cs + [c]|
      ensures (cs + [c])[i].id != (cs + [c])[j].id
    {
      if j == |cs| {
        assert cs[i].id != c.id;
      }
    }
  }

  class Branch {
    const name: string
    var customers: seq<Customer>

    /** No two customers of the branch share an identifier. */
    ghost predicate Valid()
      reads this
    {
      DistinctIds(customers)
    }

    constructor (name: string)
      ensures this.name == name && customers == [] && Valid()
    {
      this.name := name;
      customers := [];
    }

    /**
     * `addCustomer`: appends `customer` and answers true when no customer of
     * the branch has its identifier; otherwise answers false and changes nothing.
     */
    method AddCustomer(customer: Customer) returns (ok: bool)
      modifies this
      ensures ok <==> !HasId(old(customers), customer.id)
      ensures customers == if ok then old(customers) + [customer] else old(customers)
      ensures old(Valid()) ==> Valid()
    {
      if HasId(customers, customer.id) {
        return false;
      }
      if Valid() {
        AppendKeepsDistinctIds(customers, customer);
      }
      customers := customers + [customer];
      ok := true;
    }

    /**
     * `addCustomerTransaction`: posts to the first customer carrying
     * `customerId`. Answers false when there is none, or when that customer
     * rejects the amount; only the customer found can change.
     */
    method AddCustomerTransaction(customerId: int, amount: real, now: Date) returns (ok: bool)
      modifies customers
      ensures ok <==> HasId(customers, customerId) && amount >= 0.0
      ensures forall c :: c in customers ==>
        c.transactions == if ok && FindById(customers, customerId) == Some(c)
                          then old(c.transactions) + [Transaction(amount, now)]
                          else old(c.transactions)
    {
      var k := FirstIdIndex(customers, customerId);
      if k.None? {
        return false;
      }
      ok := customers[k.value].AddTransaction(amount, now);
    }
  }
}
