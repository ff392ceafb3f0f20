/**
 * The sample run of the source as a verified client: the bank "Arizona",
 * its West and Sun branches, and customers shared between them.
 */
module Scenario {
  import opened Wrappers
  import opened Text
  import opened Accounts
  import opened Branches
  import opened Banking

  /** Opens the bank with its two branches; adding West a second time is refused. */
  method OpenBranches() returns (bank: Bank, west: Branch, sun: Branch, readded: bool)
    ensures fresh(bank) && fresh(west) && fresh(sun) && west != sun
    ensures !readded && bank.Valid()
    ensures bank.branches == [west, sun]
    ensures west.name == "West Branch" && sun.name == "Sun Branch"
    ensures west.customers == [] && sun.customers == []
  {
    bank := new Bank("Arizona");
    west := new Branch("West Branch");
    sun := new Branch("Sun Branch");
    var ok := bank.AddBranch(west);
    assert bank.branches == [west];
    assert west.name[0] != sun.name[0];
    ok := bank.AddBranch(sun);
    assert bank.branches == [west, sun];
    assert bank.branches[0].name == west.name;
    readded := bank.AddBranch(west);
  }

  /** Enrols John in both branches, the other John in West and Anna in both. */
  method Enrol(bank: Bank, west: Branch, sun: Branch, john: Customer, anna: Customer, otherJohn: Customer)
    requires west != sun && john.id == 1 && anna.id == 2 && otherJohn.id == 3
    requires west.customers == [] && sun.customers == []
    modifies west, sun
    ensures west.customers == [john, otherJohn, anna] && sun.customers == [john, anna]
  {
    var ok := bank.AddCustomer(west, john);
    assert west.customers == [john];
    ok := bank.AddCustomer(west, otherJohn);
    assert west.customers == [john, otherJohn];
    ok := bank.AddCustomer(sun, john);
    assert sun.customers == [john];
    ok := bank.AddCustomer(sun, anna);
    assert sun.customers == [john, anna];
    ok := bank.AddCustomer(west, anna);
  }

  /**
   * The sample set-up: West and Sun (adding West twice leaves it once), John
   * in both, the other John in West, Anna in both, all of them shared objects.
   */
  method Open() returns (bank: Bank, west: Branch, sun: Branch, john: Customer, anna: Customer, otherJohn: Customer, readded: bool)
    ensures fresh(bank) && fresh(west) && fresh(sun) && fresh(john) && fresh(anna) && fresh(otherJohn)
    ensures john != anna && john != otherJohn && anna != otherJohn && west != sun
    ensures !readded && bank.Valid()
    ensures bank.branches == [west, sun]
    ensures west.name == "West Branch" && sun.name == "Sun Branch"
    ensures west.customers == [john, otherJohn, anna] && sun.customers == [john, anna]
    ensures john.name == "John" && john.id == 1 && john.transactions == []
    ensures anna.name == "Anna" && anna.id == 2 && anna.transactions == []
    ensures otherJohn.name == "John" && otherJohn.id == 3 && otherJohn.transactions == []
  {
    bank, west, sun, readded := OpenBranches();
    john := new Customer("John", 1);
    anna := new Customer("Anna", 2);
    otherJohn := new Customer("John", 3);
    Enrol(bank, west, sun, john, anna, otherJohn);
  }

  /** Where postings through West by identifier 1 and 2 land in the sample data. */
  lemma WestRoutes(bank: Bank, west: Branch, sun: Branch, john: Customer, anna: Customer, otherJohn: Customer)
    requires bank.branches == [west, sun] && west.name == "West Branch"
    requires west.customers == [john, otherJohn, anna] && sun.customers == [john, anna]
    requires john.id == 1 && anna.id == 2 && otherJohn.id == 3
    ensures Route(bank.branches, west.name, 1) == Some(john)
    ensures Route(bank.branches, west.name, 2) == Some(anna)
    ensures CustomersOf(bank.branches) == {john, otherJohn, anna}
  {
    assert FirstNameIndex(bank.branches, west.name) == Some(0);
    assert FirstIdIndex(west.customers, 1) == Some(0);
    assert west.customers[2].id == 2 && HasId(west.customers, 2);
    assert FirstIdIndex(west.customers, 2) == Some(2);
    assert west in bank.branches && john in west.customers && otherJohn in west.customers && anna in west.customers;
  }

  /**
   * Three postings through West reach John (id 1) twice and Anna (id 2)
   * once; the other John is not touched.
   */
  method PostThroughWest(bank: Bank, west: Branch, sun: Branch, john: Customer, anna: Customer, otherJohn: Customer, t1: Date, t2: Date, t3: Date)
    requires john != anna && john != otherJohn && anna != otherJohn
    requires bank.branches == [west, sun] && west.name == "West Branch"
    requires west.customers == [john, otherJohn, anna] && sun.customers == [john, anna]
    requires john.id == 1 && anna.id == 2 && otherJohn.id == 3
    modifies john, anna, otherJohn
    ensures john.transactions == old(john.transactions) + [Transaction(3000.0, t1), Transaction(2000.0, t2)]
    ensures anna.transactions == old(anna.transactions) + [Transaction(3000.0, t3)]
    ensures otherJohn.transactions == old(otherJohn.transactions)
  {
    WestRoutes(bank, west, sun, john, anna, otherJohn);
    var ok := bank.AddCustomerTransaction(west, 1, 3000.0, t1);
    assert john.transactions == old(john.transactions) + [Transaction(3000.0, t1)];
    assert anna.transactions == old(anna.transactions);
    WestRoutes(bank, west, sun, john, anna, otherJohn);
    ok := bank.AddCustomerTransaction(west, 1, 2000.0, t2);
    assert john.transactions == old(john.transactions) + [Transaction(3000.0, t1), Transaction(2000.0, t2)];
    assert anna.transactions == old(anna.transactions);
    WestRoutes(bank, west, sun, john, anna, otherJohn);
    ok := bank.AddCustomerTransaction(west, 2, 3000.0, t3);
    assert Some(anna) != Some(john);
  }

  /**
   * The sample run: after the postings through West, the direct -1000
   * posting is refused, so John's balance is 5000, and the same object seen
   * through the Sun branch shows it.
   */
  method Arizona(t1: Date, t2: Date, t3: Date, t4: Date) returns (readded: bool, posted: bool, balance: real, viaSun: real)
    ensures !readded && !posted
    ensures balance == 5000.0 && viaSun == 5000.0
  {
    var bank, west, sun, john, anna, otherJohn;
    bank, west, sun, john, anna, otherJohn, readded := Open();
    PostThroughWest(bank, west, sun, john, anna, otherJohn, t1, t2, t3);

    posted := john.AddTransaction(-1000.0, t4);
    balance := john.Balance();
    assert Sum(john.transactions[1..]) == 2000.0;
    viaSun := sun.customers[0].Balance();
  }

  /**
   * Searching "John" in the sample data finds John in West, the other John
   * in West and John again in Sun: no de-duplication.
   */
  method SearchJohn() returns (ids: seq<int>)
    ensures ids == [1, 3, 1]
  {
    var bank, west, sun, john, anna, otherJohn, readded := Open();
    var found := bank.SearchCustomers("John");
    assert found == [john, otherJohn, john] by {
      SampleMatches(john, anna, otherJohn);
      SearchList(west, sun, john, anna, otherJohn, "John");
    }
    ids := IdsOf(found);
  }

  /** Searching "2" in the sample data finds Anna by her identifier, once per branch. */
  method SearchTwo() returns (ids: seq<int>)
    ensures ids == [2, 2]
  {
    var bank, west, sun, john, anna, otherJohn, readded := Open();
    var found := bank.SearchCustomers("2");
    assert found == [anna, anna] by {
      SampleMatches(john, anna, otherJohn);
      SearchList(west, sun, john, anna, otherJohn, "2");
    }
    ids := IdsOf(found);
  }

  /** The identifiers of a list of customers, in order. */
  function IdsOf(cs: seq<Customer>): (r: seq<int>)
    ensures |r| == |cs| && forall i :: 0 <= i < |cs| ==> r[i] == cs[i].id
  {
    if cs == [] then [] else [cs[0].id] + IdsOf(cs[1..])
  }

  /** Which sample customers the two sample keywords select. */
  lemma SampleMatches(john: Customer, anna: Customer, otherJohn: Customer)
    requires john.name == "John" && john.id == 1
    requires anna.name == "Anna" && anna.id == 2
    requires otherJohn.name == "John" && otherJohn.id == 3
    ensures Matches(john, "John") && Matches(otherJohn, "John") && !Matches(anna, "John")
    ensures !Matches(john, "2") && !Matches(otherJohn, "2") && Matches(anna, "2")
  {
    assert ToLower("John") == "john" && ToLower("Anna") == "anna" && ToLower("2") == "2";
    assert Contains("john", "john");
    assert !Contains("anna", "john");
    assert !Contains("john", "2") && !Contains("anna", "2");
    assert IdString(1) == "1" && IdString(2) == "2" && IdString(3) == "3";
  }

  /** The search over the two sample branches, unfolded customer by customer. */
  lemma SearchList(west: Branch, sun: Branch, john: Customer, anna: Customer, otherJohn: Customer, keyword: string)
    requires west.customers == [john, otherJohn, anna] && sun.customers == [john, anna]
    ensures Search([west, sun], keyword) ==
      (if Matches(john, keyword) then [john] else []) + (if Matches(otherJohn, keyword) then [otherJohn] else [])
      + (if Matches(anna, keyword) then [anna] else [])
      + (if Matches(john, keyword) then [john] else []) + (if Matches(anna, keyword) then [anna] else [])
  {
    SearchPair(west, sun, keyword);
    MatchesInTriple(john, otherJohn, anna, keyword);
    MatchesInPair(john, anna, keyword);
  }

  lemma SearchPair(b1: Branch, b2: Branch, keyword: string)
    ensures Search([b1, b2], keyword) == MatchesIn(b1.customers, keyword) + MatchesIn(b2.customers, keyword)
  {
    assert [b1, b2][..1] == [b1] && [b1][..0] == [];
    assert Search([b1], keyword) == MatchesIn(b1.customers, keyword);
  }

  lemma MatchesInPair(c1: Customer, c2: Customer, keyword: string)
    ensures MatchesIn([c1, c2], keyword) ==
      (if Matches(c1, keyword) then [c1] else []) + (if Matches(c2, keyword) then [c2] else [])
  {
    MatchesInAppend([], c1, keyword);
    MatchesInAppend([c1], c2, keyword);
    assert [c1] == [] + [c1] && [c1, c2] == [c1] + [c2];
  }

  lemma MatchesInTriple(c1: Customer, c2: Customer, c3: Customer, keyword: string)
    ensures MatchesIn([c1, c2, c3], keyword) ==
      (if Matches(c1, keyword) then [c1] else []) + (if Matches(c2, keyword) then [c2] else [])
      + (if Matches(c3, keyword) then [c3] else [])
  {
    MatchesInPair(c1, c2, keyword);
    MatchesInAppend([c1, c2], c3, keyword);
    assert [c1, c2, c3] == [c1, c2] + [c3];
  }
}
