/** The bank: an ordered list of branches, unique by name, and the operations that route into them. */
module Banking {
  import opened Wrappers
  import opened Text
  import opened Accounts
  import opened Branches

  /** `branches.some(b => b.getName() === name)`: some branch carries the name. */
  function HasName(bs: seq<Branch>, name: string): (r: bool)
    ensures r <==> exists i :: 0 <= i < |bs| && bs[i].name == name
  {
    if bs == [] then false
    else bs[0].name == name || HasName(bs[1..], name)
  }

  ghost predicate DistinctNames(bs: seq<Branch>)
  {
    forall i, j :: 0 <= i < j < |bs| ==> bs[i].name != bs[j].name
  }

  /** `branches.find(b => b.getName() === name)`, as the position of the first match. */
  function FirstNameIndex(bs: seq<Branch>, name: string): (r: Option<nat>)
    ensures r.None? <==> !HasName(bs, name)
    ensures r.Some? ==> r.value < |bs| && bs[r.value].name == name
    ensures r.Some? ==> forall j :: 0 <= j < r.value ==> bs[j].name != name
  {
    if bs == [] then None
    else if bs[0].name == name then Some(0)
    else match FirstNameIndex(bs[1..], name)
      case None => None
      case Some(k) => Some(k + 1)
  }

  /** `branches.filter(b => b.getName() === name)`: the matching branches, in order. */
  function FilterByName(bs: seq<Branch>, name: string): (r: seq<Branch>)
    ensures |r| <= |bs|
    ensures forall i :: 0 <= i < |r| ==> r[i] in bs && r[i].name == name
    ensures forall i :: 0 <= i < |bs| && bs[i].name == name ==> bs[i] in r
  {
    if bs == [] then []
    else (if bs[0].name == name then [bs[0]] else []) + FilterByName(bs[1..], name)
  }

  /** A branch occurs in the filter as often as in the list when it has the name, and not at all otherwise. */
  lemma {:induction false} FilterByNameCount(bs: seq<Branch>, name: string, b: Branch)
    ensures multiset(FilterByName(bs, name))[b] == if b.name == name then multiset(bs)[b] else 0
  {
    if bs != [] {
      assert bs == [bs[0]] + bs[1..];
      FilterByNameCount(bs[1..], name, b);
    }
  }

  /** Filtering keeps order: the filter of a concatenation is the concatenation of the filters. */
  lemma {:induction false} FilterByNameAppend(a: seq<Branch>, b: seq<Branch>, name: string)
    ensures FilterByName(a + b, name) == FilterByName(a, name) + FilterByName(b, name)
  {
    if a == [] {
      assert a + b == b;
    } else {
      assert (a + b)[0] == a[0] && (a + b)[1..] == a[1..] + b;
      FilterByNameAppend(a[1..], b, name);
    }
  }

  /** Under distinct names the filter holds at most the branch that `find` returns. */
  lemma {:induction false} FilterByNameUnique(bs: seq<Branch>, name: string)
    requires DistinctNames(bs)
    ensures FilterByName(bs, name) == match FirstNameIndex(bs, name)
                                      case None => []
                                      case Some(i) => [bs[i]]
  {
    if bs != [] {
      assert DistinctNames(bs[1..]) by {
        forall i, j | 0 <= i < j < |bs[1..]| ensures bs[1..][i].name != bs[1..][j].name {
          assert bs[1..][i] == bs[i + 1] && bs[1..][j] == bs[j + 1];
        }
      }
      FilterByNameUnique(bs[1..], name);
      if bs[0].name == name {
        assert !HasName(bs[1..], name) by {
          forall i | 0 <= i < |bs[1..]| ensures bs[1..][i].name != name {
            assert bs[1..][i] == bs[i + 1];
          }
        }
      }
    }
  }

  /** Appending a branch whose name is new keeps names distinct. */
  lemma AppendKeepsDistinctNames(bs: seq<Branch>, b: Branch)
    requires DistinctNames(bs) && !HasName(bs, b.name)
    ensures DistinctNames(bs + [b])
  {
    forall i, j | 0 <= i < j < |bs + [b]|
      ensures (bs + [b])[i].name != (bs + [b])[j].name
    {
      if j == |bs| {
        assert bs[i].name != b.name;
      }
    }
  }

  /** Every customer reachable through one of the branches. */
  ghost function CustomersOf(bs: seq<Branch>): set<Customer>
    reads bs
  {
    set b, c | b in bs && c in b.customers :: c
  }

  /**
   * The customer a bank-level posting reaches: the first customer carrying
   * `customerId` in the first branch named `branchName`.
   */
  function Route(bs: seq<Branch>, branchName: string, customerId: int): (r: Option<Customer>)
    reads bs
    ensures !HasName(bs, branchName) ==> r.None?
    ensures r.Some? ==> r.value.id == customerId && r.value in CustomersOf(bs)
  {
    match FirstNameIndex(bs, branchName)
    case None => None
    case Some(k) => FindById(bs[k].customers, customerId)
  }

  /**
   * The search predicate: the lower-cased name contains the lower-cased
   * keyword, or the identifier's string form equals the keyword.
   */
  function Matches(c: Customer, keyword: string): (r: bool)
    ensures r <==> (exists i :: OccursAt(ToLower(c.name), ToLower(keyword), i)) || IdString(c.id) == keyword
  {
    if Contains(ToLower(c.name), ToLower(keyword)) then
      assert exists i :: OccursAt(ToLower(c.name), ToLower(keyword), i);
      true
    else
      IdString(c.id) == keyword
  }

  /** The matching customers of one list, in order, duplicates kept. */
  function MatchesIn(cs: seq<Customer>, keyword: string): (r: seq<Customer>)
    ensures forall i :: 0 <= i < |r| ==> r[i] in cs && Matches(r[i], keyword)
    ensures forall i :: 0 <= i < |cs| && Matches(cs[i], keyword) ==> cs[i] in r
  {
    if cs == [] then []
    else
      var last := cs[|cs| - 1];
      assert cs == cs[..|cs| - 1] + [last];
      MatchesIn(cs[..|cs| - 1], keyword) + (if Matches(last, keyword) then [last] else [])
  }

  /** A customer occurs in the matches as often as in the list when it matches, and not at all otherwise. */
  lemma {:induction false} MatchesInCount(cs: seq<Customer>, keyword: string, c: Customer)
    ensures multiset(MatchesIn(cs, keyword))[c] == if Matches(c, keyword) then multiset(cs)[c] else 0
  {
    if cs != [] {
      var last := cs[|cs| - 1];
      assert cs == cs[..|cs| - 1] + [last];
      MatchesInCount(cs[..|cs| - 1], keyword, c);
    }
  }

  /** The nested traversal of `searchCustomers`: branch by branch, customer by customer. */
  function Search(bs: seq<Branch>, keyword: string): (r: seq<Customer>)
    reads bs
    ensures forall i :: 0 <= i < |r| ==> Matches(r[i], keyword)
  {
    if bs == [] then []
    else Search(bs[..|bs| - 1], keyword) + MatchesIn(bs[|bs| - 1].customers, keyword)
  }

  /** Scanning one more customer extends the matches by that customer when it matches. */
  lemma MatchesInAppend(cs: seq<Customer>, c: Customer, keyword: string)
    ensures MatchesIn(cs + [c], keyword) == MatchesIn(cs, keyword) + if Matches(c, keyword) then [c] else []
  {
    assert (cs + [c])[..|cs|] == cs;
  }

  /** How many of the branches list `c`. */
  ghost function BranchCount(bs: seq<Branch>, c: Customer): nat
    reads bs
  {
    if bs == [] then 0
    else BranchCount(bs[..|bs| - 1], c) + (if c in bs[|bs| - 1].customers then 1 else 0)
  }

  /** `c` belongs to at least one of the branches. */
  ghost predicate InSomeBranch(bs: seq<Branch>, c: Customer)
    reads bs
  {
    exists i :: 0 <= i < |bs| && c in bs[i].customers
  }

  class Bank {
    const name: string
    var branches: seq<Branch>

    /** No two branches of the bank share a name. */
    ghost predicate Valid()
      reads this
    {
      DistinctNames(branches)
    }

    constructor (name: string)
      ensures this.name == name && branches == [] && Valid()
    {
      this.name := name;
      branches := [];
    }

    /**
     * `addBranch`: appends `branch` and answers true when no branch of the
     * bank has its name; otherwise answers false and changes nothing.
     */
    method AddBranch(branch: Branch) returns (ok: bool)
      modifies this
      ensures ok <==> !HasName(old(branches), branch.name)
      ensures branches == if ok then old(branches) + [branch] else old(branches)
      ensures old(Valid()) ==> Valid()
    {
      if HasName(branches, branch.name) {
        return false;
      }
      if Valid() {
        AppendKeepsDistinctNames(branches, branch);
      }
      branches := branches + [branch];
      ok := true;
    }

    /** `addCustomer`: hands the customer to the given branch, owned by this bank or not. */
    method AddCustomer(branch: Branch, customer: Customer) returns (ok: bool)
      modifies branch
      ensures ok <==> !HasId(old(branch.customers), customer.id)
      ensures branch.customers == if ok then old(branch.customers) + [customer] else old(branch.customers)
      ensures old(branch.Valid()) ==> branch.Valid()
    {
      ok := branch.AddCustomer(customer);
    }

    /**
     * `addCustomerTransaction`: routes by the branch's NAME to the first owned
     * branch carrying it, which posts to its first customer with
     * `customerId`. Answers false and changes nothing when either lookup
     * fails or the amount is negative; only the customer reached can change.
     */
    method AddCustomerTransaction(branch: Branch, customerId: int, amount: real, now: Date) returns (ok: bool)
      modifies CustomersOf(branches)
      ensures !HasName(branches, branch.name) ==> !ok
      ensures ok <==> Route(branches, branch.name, customerId).Some? && amount >= 0.0
      ensures forall c :: c in CustomersOf(branches) ==>
        c.transactions == if ok && Route(branches, branch.name, customerId) == Some(c)
                          then old(c.transactions) + [Transaction(amount, now)]
                          else old(c.transactions)
    {
      var k := FirstNameIndex(branches, branch.name);
      if k.None? {
        return false;
      }
      var found := branches[k.value];
      assert forall c :: c in found.customers ==> c in CustomersOf(branches);
      ok := found.AddCustomerTransaction(customerId, amount, now);
    }

    /** `findBranchByName`: the owned branches named `branchName`, in order. */
    function FindBranchByName(branchName: string): (r: seq<Branch>)
      reads this
      ensures forall i :: 0 <= i < |r| ==> r[i] in branches && r[i].name == branchName
      ensures forall i :: 0 <= i < |branches| && branches[i].name == branchName ==> branches[i] in r
    {
      FilterByName(branches, branchName)
    }

    /** `checkBranch`: membership of this very object, not of its name. */
    function CheckBranch(branch: Branch): (r: bool)
      reads this
      ensures r <==> exists i :: 0 <= i < |branches| && branches[i] == branch
    {
      branch in branches
    }

    /**
     * `listCustomers`: the listing itself is console output; what remains is
     * whether a branch of that name was found (index.js answers null when not).
     */
    method ListCustomers(branch: Branch, includeTransactions: bool) returns (listed: bool)
      ensures listed <==> HasName(branches, branch.name)
    {
      var k := FirstNameIndex(branches, branch.name);
      listed := k.Some?;
    }

    /** `searchCustomers`: the nested loops collecting every matching customer. */
    method SearchCustomers(keyword: string) returns (found: seq<Customer>)
      ensures found == Search(branches, keyword)
    {
      found := [];
      var i := 0;
      while i < |branches|
        invariant 0 <= i <= |branches|
        invariant found == Search(branches[..i], keyword)
      {
        var cs := branches[i].customers;
        var j := 0;
        while j < |cs|
          invariant 0 <= j <= |cs|
          invariant found == Search(branches[..i], keyword) + MatchesIn(cs[..j], keyword)
        {
          if Matches(cs[j], keyword) {
            found := found + [cs[j]];
          }
          assert cs[..j + 1][..j] == cs[..j];
          j := j + 1;
        }
        assert cs[..j] == cs;
        assert branches[..i + 1][..i] == branches[..i];
        i := i + 1;
      }
      assert branches[..i] == branches;
    }
  }

  /** Under the bank's invariant, the lookup by name yields at most one branch: the one `find` reaches. */
  lemma FindBranchByNameUnique(bank: Bank, branchName: string)
    requires bank.Valid()
    ensures bank.FindBranchByName(branchName) == match FirstNameIndex(bank.branches, branchName)
                                                 case None => []
                                                 case Some(i) => [bank.branches[i]]
    ensures |bank.FindBranchByName(branchName)| <= 1
  {
    FilterByNameUnique(bank.branches, branchName);
  }

  /**
   * The lookup by name keeps the bank's order and multiplicity: split the
   * branches anywhere and the result splits there too, and each branch of
   * that name occurs as often as the bank lists it.
   */
  lemma FindBranchByNameOrder(bank: Bank, branchName: string, k: nat, b: Branch)
    requires k <= |bank.branches|
    ensures bank.FindBranchByName(branchName)
         == FilterByName(bank.branches[..k], branchName) + FilterByName(bank.branches[k..], branchName)
    ensures multiset(bank.FindBranchByName(branchName))[b]
         == if b.name == branchName then multiset(bank.branches)[b] else 0
  {
    assert bank.branches == bank.branches[..k] + bank.branches[k..];
    FilterByNameAppend(bank.branches[..k], bank.branches[k..], branchName);
    FilterByNameCount(bank.branches, branchName, b);
  }

  /**
   * An owned branch is the only result of the lookup by its name, so a
   * different object with the same name is not owned.
   */
  lemma CheckBranchIsIdentity(bank: Bank, branch: Branch, other: Branch)
    requires bank.Valid() && bank.CheckBranch(branch)
    requires other != branch && other.name == branch.name
    ensures bank.FindBranchByName(branch.name) == [branch]
    ensures !bank.CheckBranch(other)
  {
    FilterByNameUnique(bank.branches, branch.name);
  }

  /** A customer is found exactly when it matches and some branch lists it. */
  lemma {:induction false} SearchMembership(bs: seq<Branch>, keyword: string, c: Customer)
    ensures c in Search(bs, keyword) <==> Matches(c, keyword) && InSomeBranch(bs, c)
  {
    if bs != [] {
      var init, last := bs[..|bs| - 1], bs[|bs| - 1];
      SearchMembership(init, keyword, c);
      MatchesInCount(last.customers, keyword, c);
      assert InSomeBranch(bs, c) <==> InSomeBranch(init, c) || c in last.customers by {
        if InSomeBranch(bs, c) {
          var i :| 0 <= i < |bs| && c in bs[i].customers;
          if i < |bs| - 1 {
            assert init[i] == bs[i];
          }
        }
        if InSomeBranch(init, c) {
          var i :| 0 <= i < |init| && c in init[i].customers;
          assert bs[i] == init[i];
        }
      }
    }
  }

  /** Within one branch of distinct identifiers a customer occurs at most once. */
  lemma {:induction false} DistinctIdsOccurOnce(cs: seq<Customer>, c: Customer)
    requires DistinctIds(cs)
    ensures multiset(cs)[c] == if c in cs then 1 else 0
  {
    if cs != [] {
      var init, last := cs[..|cs| - 1], cs[|cs| - 1];
      assert cs == init + [last];
      assert DistinctIds(init) by {
        forall i, j | 0 <= i < j < |init| ensures init[i].id != init[j].id {
          assert init[i] == cs[i] && init[j] == cs[j];
        }
      }
      DistinctIdsOccurOnce(init, c);
      if c == last {
        forall i | 0 <= i < |init| ensures init[i] != c {
          assert init[i] == cs[i] && cs[i].id != cs[|cs| - 1].id;
        }
      }
    }
  }

  /**
   * No de-duplication: when every branch keeps its identifiers distinct, a
   * matching customer is found once per branch that lists it.
   */
  lemma {:induction false} SearchCount(bs: seq<Branch>, keyword: string, c: Customer)
    requires forall i :: 0 <= i < |bs| ==> bs[i].Valid()
    ensures multiset(Search(bs, keyword))[c] == if Matches(c, keyword) then BranchCount(bs, c) else 0
  {
    if bs != [] {
      var init, last := bs[..|bs| - 1], bs[|bs| - 1];
      assert forall i :: 0 <= i < |init| ==> init[i] == bs[i];
      SearchCount(init, keyword, c);
      MatchesInCount(last.customers, keyword, c);
      DistinctIdsOccurOnce(last.customers, c);
    }
  }

  /** A name that literally contains the keyword matches, whatever the letter case. */
  lemma LiteralNameMatches(c: Customer, keyword: string)
    requires Contains(c.name, keyword)
    ensures Matches(c, keyword)
  {
    CaseInsensitiveContains(c.name, keyword);
  }

  /**
   * The identifier's string form finds the customer; and when the keyword
   * does not occur in the name, a customer found by an identifier string
   * carries exactly that identifier.
   */
  lemma IdKeywordMatches(c: Customer, n: int)
    ensures c.id == n ==> Matches(c, IdString(n))
    ensures Matches(c, IdString(n)) && !Contains(ToLower(c.name), ToLower(IdString(n))) ==> c.id == n
  {
    if IdString(c.id) == IdString(n) {
      IdStringInjective(c.id, n);
    }
  }
}
