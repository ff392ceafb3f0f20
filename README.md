# Banking ledger — a verified Dafny model

This project models an in-memory banking ledger. A **Bank** owns an ordered
list of **Branch**es that is unique by name. A branch owns an ordered list of
**Customer**s that is unique by identifier. A customer owns an append-only
list of **Transaction**s, and its balance is the sum of their amounts. The
repository has the ledger twice: `src/index.ts` (TypeScript) and `index.js`
(JavaScript). Their classes and methods match line for line, so one model
covers both. The table cites `src/index.ts`. The matching `index.js` lines are:
Bank 8-69, Branch 71-116, Customer 118-150, Transaction 1-6 and the sample run 152-182.

Modules, one per part of the program:

- `Wrappers` (`wrappers.dfy`): `Option`. It stands for the `undefined` that `find` returns when nothing matches.
- `Text` (`text.dfy`): the string operations used by the search. These are ASCII `toLowerCase`, `includes` and
  `toString` of an integer identifier. A decimal parser is added as the inverse of `toString`.
- `Accounts` (`accounts.dfy`): the `Transaction` value (`src/index.ts:1-9`), a datatype of
  amount and date because no method changes a transaction after it is made; the balance as a fold (`reduce`) and
  as a reference sum, and the `Customer` class.
- `Branches` (`branches.dfy`): the `Branch` class, lookup by identifier (`some`, `find`), and
  the distinct-identifier invariant.
- `Banking` (`banking.dfy`): the `Bank` class and routing by branch name (`find`, `filter`,
  `includes`). It also holds the customer search and its nested loops.
- `Scenario` (`scenario.dfy`): the sample run at the bottom of both source files, written as
  verified client methods.

Each entity the source updates in place is a Dafny `class`. `Customer.transactions`,
`Branch.customers` and `Bank.branches` are `seq` fields, and the methods reassign
them (the source's `push`). Names and identifiers are never reassigned, so they
are `const` fields. Each branch holds Customer objects by reference. The same
customer can therefore sit in several branches, as John does in West and Sun. A
posting through one branch shows through the other (`Scenario.Arizona`). The
frame of `Bank.AddCustomerTransaction` is every customer reachable from the owned
branches, and its postcondition says that only the customer it reaches changes.

Each class has a `Valid()` invariant. For a bank it is "no two branches share a
name". For a branch it is "no two customers share an identifier". For a customer
it is "every amount is non-negative". The constructors establish it. Every method
that can break it ensures `old(Valid()) ==> Valid()`. The source's fields are
public, so the methods do not *require* the invariant. Their behaviour does not
depend on it.

## Model

| member | source | states |
|---|---|---|
| Text.ToLower | src/index.ts:66 | same length, and each character is its ASCII lower-case form |
| Text.Contains | src/index.ts:66 | `includes` holds exactly when the keyword occurs at some position of the name (the empty keyword occurs everywhere) |
| Text.CaseInsensitiveContains | src/index.ts:66 | if the keyword occurs literally in the name, it still occurs after both are lower-cased |
| Text.NatString | src/index.ts:67 | the decimal form of an identifier is a non-empty run of digits with no leading zero |
| Text.NatStringRoundTrip | src/index.ts:67 | reading back the digits of n gives n |
| Text.IdString | src/index.ts:67 | `id.toString()` starts with a minus sign exactly for negative ids, and parsing it gives back the id |
| Text.IdStringInjective | src/index.ts:67 | two identifiers have the same string form only when they are equal |
| Accounts.Reduce | src/index.ts:147 | the left fold of `reduce` started at `total` equals `total` plus the sum of the amounts |
| Accounts.Customer.Balance | src/index.ts:146-148 | `getBalance` is the sum of the transaction amounts |
| Accounts.SumAppend | src/index.ts:150-158 | appending one transaction raises the sum by exactly its amount |
| Accounts.SumNonNegative | src/index.ts:150-154 | if every amount passed the `amount < 0` gate, the sum is non-negative |
| Accounts.SumMonotone | src/index.ts:150-158 | appending any accepted (non-negative) postings never lowers the sum |
| Accounts.BalanceNonNegative | src/index.ts:146-154 | a customer whose history keeps the invariant has a non-negative balance |
| Accounts.Customer.constructor | src/index.ts:129-132 | a new customer has the given name and id, no transactions, and satisfies the invariant |
| Accounts.Customer.AddTransaction | src/index.ts:150-158 | ok iff amount >= 0; if rejected, nothing changes; if accepted, exactly one transaction with that amount and date is appended; the balance grows by exactly the amount and never decreases; the invariant is kept |
| Branches.HasId | src/index.ts:94 | `some` by id holds exactly when some customer of the list carries the id |
| Branches.FirstIdIndex | src/index.ts:106 | `find` by id: none exactly when no customer has the id; otherwise the first position that has it |
| Branches.FindById | src/index.ts:106 | the customer found exists exactly when some customer has the id; it belongs to the list and carries the id |
| Branches.FindByIdUnique | src/index.ts:93-106 | when ids are distinct, `find` returns the one customer with that id |
| Branches.AppendKeepsDistinctIds | src/index.ts:93-103 | appending a customer whose id is new keeps ids distinct |
| Branches.Branch.constructor | src/index.ts:77-83 | a new branch has the given name, no customers, and satisfies the invariant |
| Branches.Branch.AddCustomer | src/index.ts:93-103 | ok iff no customer of the branch has the id; if ok, the customer is appended; otherwise nothing changes; ids stay unique |
| Branches.Branch.AddCustomerTransaction | src/index.ts:105-111 | ok iff some customer has the id and the amount is non-negative; only the first customer with that id can change, and it gains exactly one transaction when ok |
| Banking.HasName | src/index.ts:20 | `some` by name holds exactly when some branch of the list carries the name |
| Banking.FirstNameIndex | src/index.ts:37 | `find` by name: none exactly when no branch has the name; otherwise the first position that has it |
| Banking.FilterByName | src/index.ts:45 | `filter` by name keeps exactly the branches with that name, and never more than the input |
| Banking.FilterByNameCount | src/index.ts:45 | each branch with that name occurs in the filter as often as in the list; any other branch does not occur |
| Banking.FilterByNameAppend | src/index.ts:45 | the filter keeps order: filtering a concatenation concatenates the filters |
| Banking.FilterByNameUnique | src/index.ts:44-46 | when names are distinct, the filter is empty or holds exactly the branch that `find` reaches |
| Banking.AppendKeepsDistinctNames | src/index.ts:19-27 | appending a branch whose name is new keeps names distinct |
| Banking.Route | src/index.ts:36-42 | a bank-level posting reaches nothing when no owned branch has the name; whatever it reaches carries the id and sits in an owned branch |
| Banking.Matches | src/index.ts:65-68 | a customer matches exactly when the lower-cased keyword occurs at some position of the lower-cased name, or the id's string form equals the keyword |
| Banking.MatchesIn | src/index.ts:64-71 | the inner loop keeps exactly the customers that match the keyword |
| Banking.MatchesInCount | src/index.ts:64-71 | no de-duplication: a matching customer is kept as often as it occurs in the list, and a non-matching one never |
| Banking.MatchesInAppend | src/index.ts:64-71 | unfolding helper for the scenario: one more customer of the inner loop is appended exactly when it matches |
| Banking.Search | src/index.ts:61-74 | every customer the search returns matches the keyword (membership and counts are the two lemmas below) |
| Banking.SearchMembership | src/index.ts:61-74 | a customer is in the search result iff it matches and some owned branch lists it |
| Banking.DistinctIdsOccurOnce | src/index.ts:93-103 | in a branch with distinct ids, a customer occurs at most once |
| Banking.SearchCount | src/index.ts:61-74 | when every branch keeps ids distinct, a matching customer is returned once for each branch that lists it, and a non-matching one never |
| Banking.LiteralNameMatches | src/index.ts:65-68 | a customer whose name literally contains the keyword is found, whatever the letter case |
| Banking.IdKeywordMatches | src/index.ts:65-68 | the keyword equal to the id's string finds that customer; when that keyword does not occur in the name, only the customer with that id matches it |
| Banking.Bank.constructor | src/index.ts:11-17 | a new bank has the given name, no branches, and satisfies the invariant |
| Banking.Bank.AddBranch | src/index.ts:19-27 | ok iff no owned branch has the name; if ok, the branch is appended; otherwise branches are unchanged; names stay unique |
| Banking.Bank.AddCustomer | src/index.ts:29-34 | delegation: same outcome and same new customer list as the branch's own `addCustomer` |
| Banking.Bank.AddCustomerTransaction | src/index.ts:36-42 | false when no owned branch has the name; ok iff the first such branch has the customer id and the amount is non-negative; only that customer can change, gaining exactly one transaction |
| Banking.Bank.FindBranchByName | src/index.ts:44-46 | the result holds exactly the owned branches with that name |
| Banking.FindBranchByNameOrder | src/index.ts:44-46 | the result keeps the bank's order (it splits wherever the branch list splits) and multiplicity (each branch with that name as often as the bank lists it) |
| Banking.FindBranchByNameUnique | src/index.ts:44-46 | under the bank's invariant the result is empty or is the single branch that `find` reaches |
| Banking.Bank.CheckBranch | src/index.ts:48-50 | true iff this very object is among the owned branches |
| Banking.CheckBranchIsIdentity | src/index.ts:48-50 | an owned branch is the only result of the lookup by its name; a different object with the same name is not owned |
| Banking.Bank.ListCustomers | index.js:47-55 | the result is null (false) exactly when no owned branch has the name |
| Banking.Bank.SearchCustomers | src/index.ts:61-74 | the nested loops return exactly the search specification: branch by branch, customer by customer, matches only, no de-duplication |
| Scenario.Open | src/index.ts:161-176 | adding West twice leaves it once; West lists John, other John, Anna; Sun lists John, Anna; all are the same shared objects |
| Scenario.PostThroughWest | src/index.ts:178-180 | postings routed by the name "West Branch" reach John twice and Anna once, and not the other John |
| Scenario.Arizona | src/index.ts:178-183 | re-adding the West branch is refused and the -1000 posting is not posted (`posted` is false); John's balance is 5000, whether read directly or through the Sun branch |
| Scenario.SearchJohn | src/index.ts:187 | searching "John" returns ids [1, 3, 1]: John is returned once per branch |
| Scenario.SearchTwo | src/index.ts:65-68 | searching "2" returns Anna by her id, once per branch: ids [2, 2] |

## Left out

- Console output is not modelled. This covers the messages of `Branch.listCustomers`, `Bank.listCustomers` and the `console.error` calls. `Branch.listCustomers` has no other effect and no model.
- Banking.Bank.ListCustomers: only the found / not-found outcome is modelled. In `index.js` "not found" returns `null`. `src/index.ts:52-59` returns nothing in both cases.
- The clock read `new Date()` becomes the caller-supplied `now: Date`. The model never inspects a date.
- Amounts are mathematical `real`s, not IEEE doubles. Rounding, `NaN` and infinities are not modelled.
- The `instanceof` checks in `Bank.addCustomer` always pass in a typed model. The method is plain delegation.
- `toLowerCase` is restricted to ASCII letters. Full Unicode case mapping is not modelled.
- `toString` is modelled for integer identifiers only. Fractional ids and the exponent form JavaScript uses from 1e21 up are not modelled.
- The getters (`getName`, `getId`, `getCustomers`, `getTransactions`) become plain field reads. In the source, `getCustomers` and `getTransactions` return the live array, which a caller could mutate. In the model the lists are `seq` values, so that path is not modelled.
- The `Transaction` constructor accepts any amount, as the source's does. Non-negativity is kept by `Customer.Valid()`, because the only writer of `transactions` is `AddTransaction`.
