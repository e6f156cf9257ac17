/** The account repository's read side
    (backend/internal/infrastructure/persistence/postgres/account_repository.go):
    turning stored rows into accounts, building the hierarchy, and the meaning of
    the two balance queries as aggregates over the split table. */
module AccountRepository {
  import opened Wrappers
  import opened Rational
  import opened Entity
  import opened Tables

  // ---------------------------------------------------------------------------
  // Rows

  /** An `accounts` row as scanned; `hidden` and `placeholder` are stored as integers. */
  datatype AccountRow = AccountRow(
    guid: string,
    name: string,
    accountType: AccountType,
    commodityGuid: Option<string>,
    commoditySCU: int,
    parentGuid: Option<string>,
    code: Option<string>,
    description: Option<string>,
    hidden: int,
    placeholder: int,
    commodityMnemonic: string)

  /** scanAccount: every column is copied, and the two flags are true exactly when
      the stored integer is non-zero. Balance fields are left at their zero values. */
  function ScanAccount(row: AccountRow): (a: Account)
    ensures a.hidden <==> row.hidden != 0
    ensures a.placeholder <==> row.placeholder != 0
    ensures a.guid == row.guid && a.name == row.name && a.accountType == row.accountType
    ensures a.parentGuid == row.parentGuid && a.commodityMnemonic == row.commodityMnemonic
    ensures a.commodityGuid == row.commodityGuid && a.commoditySCU == row.commoditySCU
    ensures a.code == row.code && a.description == row.description
    ensures a.balance == 0.0 && a.balanceNum == 0 && a.balanceDenom == 0
  {
    Account(row.guid, row.name, row.accountType, row.commodityGuid, row.commoditySCU,
            row.parentGuid, row.code, row.description, row.hidden != 0, row.placeholder != 0,
            0.0, 0, 0, row.commodityMnemonic)
  }

  // ---------------------------------------------------------------------------
  // FindHierarchy

  /** The GUIDs present in the list. */
  function Guids(accounts: seq<Account>): set<string> {
    set i | 0 <= i < |accounts| :: accounts[i].guid
  }

  /** Proper subsets are smaller. */
  lemma SubsetSmaller<T>(a: set<T>, b: set<T>)
    requires a < b
    ensures |a| < |b|
  {
    var d := b - a;
    assert b == a + d && a !! d;
    assert d != {};
  }

  /** `accountMap` after its filling loop, as positions in the list: each GUID maps
      to the position of the last account carrying it (a later map assignment
      overwrites an earlier one). */
  function GuidIndex(accounts: seq<Account>): (m: map<string, nat>)
    ensures m.Keys == Guids(accounts)
    ensures forall g :: g in m ==> m[g] < |accounts| && accounts[m[g]].guid == g
  {
    if accounts == [] then map[]
    else
      var last := |accounts| - 1;
      var init := accounts[..last];
      var m := GuidIndex(init);
      assert forall i :: 0 <= i < |init| ==> init[i] == accounts[i];
      assert Guids(accounts) == Guids(init) + {accounts[last].guid} by {
        forall g | g in Guids(accounts) ensures g in Guids(init) + {accounts[last].guid} {
          var i :| 0 <= i < |accounts| && accounts[i].guid == g;
          if i < last { assert init[i].guid == g; }
        }
      }
      m[accounts[last].guid := last]
  }

  /** A later account with the same GUID wins: the position is the last one. */
  lemma {:induction false} GuidIndexIsLast(accounts: seq<Account>, g: string, j: nat)
    requires g in GuidIndex(accounts) && GuidIndex(accounts)[g] < j < |accounts|
    ensures accounts[j].guid != g
  {
    var last := |accounts| - 1;
    var init := accounts[..last];
    if accounts[last].guid != g {
      assert GuidIndex(accounts)[g] == GuidIndex(init)[g];
      if j < last {
        GuidIndexIsLast(init, g, j);
        assert init[j] == accounts[j];
      }
    }
  }

  /** A root for FindHierarchy: no parent, or an empty parent GUID. */
  predicate IsRoot(a: Account) {
    a.parentGuid.None? || a.parentGuid.value == ""
  }

  /** Positions below `n` of the roots, in list order. */
  function RootsBelow(accounts: seq<Account>, n: nat): (r: seq<nat>)
    requires n <= |accounts|
    ensures forall k :: 0 <= k < |r| ==> r[k] < n
    ensures forall i: nat :: i in r <==> i < n && IsRoot(accounts[i])
    ensures forall k, l :: 0 <= k < l < |r| ==> r[k] < r[l]
  {
    if n == 0 then []
    else RootsBelow(accounts, n - 1) + (if IsRoot(accounts[n - 1]) then [n - 1] else [])
  }

  /** Handling one more account adds its position to the roots exactly when it is a root. */
  lemma RootsStep(accounts: seq<Account>, i: nat)
    requires i < |accounts|
    ensures RootsBelow(accounts, i + 1) == RootsBelow(accounts, i) + (if IsRoot(accounts[i]) then [i] else [])
  {
  }

  /** Positions below `n` of the non-root accounts whose parent GUID is `g`, in list order. */
  function ChildrenBelow(accounts: seq<Account>, n: nat, g: string): (r: seq<nat>)
    requires n <= |accounts|
    ensures forall k :: 0 <= k < |r| ==> r[k] < n
    ensures forall i: nat :: i in r <==> i < n && !IsRoot(accounts[i]) && accounts[i].parentGuid.value == g
    ensures forall k, l :: 0 <= k < l < |r| ==> r[k] < r[l]
  {
    if n == 0 then []
    else
      var a := accounts[n - 1];
      ChildrenBelow(accounts, n - 1, g) + (if !IsRoot(a) && a.parentGuid.value == g then [n - 1] else [])
  }

  /** The linked hierarchy, over positions in the input list: the root positions,
      and for every position the positions of its children (its `Children` slice). */
  datatype Hierarchy = Hierarchy(roots: seq<nat>, children: seq<seq<nat>>)

  /** The `Children` slice of position `p` once the first `n` accounts are linked:
      the account that `index` keeps for its GUID collects the non-root accounts
      naming that GUID as parent; any other account keeps an empty slice. */
  function ExpectedChildren(accounts: seq<Account>, index: map<string, nat>, n: nat, p: nat): seq<nat>
    requires n <= |accounts| && p < |accounts|
  {
    var g := accounts[p].guid;
    if g in index && index[g] == p then ChildrenBelow(accounts, n, g) else []
  }

  /** Every `Children` slice once the first `n` accounts are linked. */
  function Linked(accounts: seq<Account>, index: map<string, nat>, n: nat): (r: seq<seq<nat>>)
    requires n <= |accounts|
    ensures |r| == |accounts|
  {
    seq(|accounts|, p requires 0 <= p < |accounts| => ExpectedChildren(accounts, index, n, p))
  }

  /** The hierarchy FindHierarchy builds: roots in list order; under the last
      account carrying a GUID, every non-root account naming that GUID as parent,
      in list order; every other `Children` slice empty. */
  ghost predicate IsFindHierarchyResult(accounts: seq<Account>, h: Hierarchy) {
    && h.roots == RootsBelow(accounts, |accounts|)
    && h.children == Linked(accounts, GuidIndex(accounts), |accounts|)
  }

  /** Linking a root, or an account whose parent is absent, changes no slice. */
  lemma LinkSkip(accounts: seq<Account>, index: map<string, nat>, i: nat)
    requires i < |accounts|
    requires IsRoot(accounts[i]) || accounts[i].parentGuid.value !in index
    requires forall g :: g in index ==> index[g] < |accounts| && accounts[index[g]].guid == g
    ensures Linked(accounts, index, i + 1) == Linked(accounts, index, i)
  {
    forall p | 0 <= p < |accounts|
      ensures ExpectedChildren(accounts, index, i + 1, p) == ExpectedChildren(accounts, index, i, p)
    {
    }
  }

  /** Linking an account whose parent is present appends it to the slice of the
      account `index` keeps for the parent GUID, and to no other. */
  lemma LinkAppend(accounts: seq<Account>, index: map<string, nat>, i: nat, parent: nat)
    requires i < |accounts|
    requires !IsRoot(accounts[i]) && accounts[i].parentGuid.value in index
    requires parent == index[accounts[i].parentGuid.value]
    requires forall g :: g in index ==> index[g] < |accounts| && accounts[index[g]].guid == g
    ensures parent < |accounts|
    ensures Linked(accounts, index, i + 1)
         == Linked(accounts, index, i)[parent := Linked(accounts, index, i)[parent] + [i]]
  {
    var before, after := Linked(accounts, index, i), Linked(accounts, index, i + 1);
    forall p | 0 <= p < |accounts|
      ensures after[p] == before[parent := before[parent] + [i]][p]
    {
      if p == parent {
        assert ChildrenBelow(accounts, i + 1, accounts[p].guid) == ChildrenBelow(accounts, i, accounts[p].guid) + [i];
      }
    }
  }

  /** The first loop of FindHierarchy: records each account under its GUID and
      empties every `Children` slice. */
  method IndexAccounts(accounts: seq<Account>) returns (accountMap: map<string, nat>, children: seq<seq<nat>>)
    ensures accountMap == GuidIndex(accounts)
    ensures children == Linked(accounts, accountMap, 0)
  {
    accountMap := map[];
    children := [];
    var i := 0;
    while i < |accounts|
      invariant 0 <= i <= |accounts|
      invariant accountMap == GuidIndex(accounts[..i])
      invariant |children| == i && forall p :: 0 <= p < i ==> children[p] == []
    {
      assert accounts[..i + 1][..i] == accounts[..i];
      accountMap := accountMap[accounts[i].guid := i];
      children := children + [[]];
      i := i + 1;
    }
    assert accounts[..|accounts|] == accounts;
  }

  /** FindHierarchy (account_repository.go:93-120), after FindAll has returned the
      list: every `Children` slice is reset, then each account is appended to the
      roots or to its parent's children, or dropped when its parent is absent. */
  method FindHierarchy(accounts: seq<Account>) returns (h: Hierarchy)
    ensures IsFindHierarchyResult(accounts, h)
  {
    var accountMap, children := IndexAccounts(accounts);
    var roots: seq<nat> := [];
    var i := 0;
    while i < |accounts|
      invariant 0 <= i <= |accounts|
      invariant roots == RootsBelow(accounts, i)
      invariant children == Linked(accounts, accountMap, i)
    {
      var account := accounts[i];
      RootsStep(accounts, i);
      if account.parentGuid.None? || account.parentGuid.value == "" {
        LinkSkip(accounts, accountMap, i);
        roots := roots + [i];
      } else if account.parentGuid.value in accountMap {
        var parent := accountMap[account.parentGuid.value];
        LinkAppend(accounts, accountMap, i, parent);
        children := children[parent := children[parent] + [i]];
      } else {
        LinkSkip(accounts, accountMap, i);
      }
      i := i + 1;
    }
    h := Hierarchy(roots, children);
  }

  /** The roots are exactly the accounts without a (non-empty) parent, in list order. */
  lemma {:induction false} FindHierarchyRoots(accounts: seq<Account>, h: Hierarchy, i: nat)
    requires IsFindHierarchyResult(accounts, h) && i < |accounts|
    ensures i in h.roots <==> IsRoot(accounts[i])
    ensures forall k, l :: 0 <= k < l < |h.roots| ==> h.roots[k] < h.roots[l]
  {
  }

  /** An account whose parent is in the list sits in exactly one `Children`
      slice, that of the (last) account carrying the parent GUID, and is not a root. */
  lemma FindHierarchyLinksChild(accounts: seq<Account>, h: Hierarchy, i: nat)
    requires IsFindHierarchyResult(accounts, h) && i < |accounts|
    requires !IsRoot(accounts[i]) && accounts[i].parentGuid.value in Guids(accounts)
    ensures i !in h.roots
    ensures i in h.children[GuidIndex(accounts)[accounts[i].parentGuid.value]]
    ensures forall p :: 0 <= p < |accounts| && i in h.children[p] ==> p == GuidIndex(accounts)[accounts[i].parentGuid.value]
  {
    var index := GuidIndex(accounts);
    var g := accounts[i].parentGuid.value;
    assert accounts[index[g]].guid == g;
    forall p | 0 <= p < |accounts| && i in h.children[p]
      ensures p == index[g]
    {
      assert index[accounts[p].guid] == p;
    }
  }

  /** An account whose non-empty parent GUID names no account in the list appears
      nowhere in the result: neither as a root nor as anybody's child. */
  lemma FindHierarchyDropsOrphans(accounts: seq<Account>, h: Hierarchy, i: nat)
    requires IsFindHierarchyResult(accounts, h) && i < |accounts|
    requires !IsRoot(accounts[i]) && accounts[i].parentGuid.value !in Guids(accounts)
    ensures i !in h.roots
    ensures forall p :: 0 <= p < |h.children| ==> i !in h.children[p]
  {
    forall p | 0 <= p < |h.children|
      ensures i !in h.children[p]
    {
      assert accounts[p].guid in Guids(accounts);
    }
  }

  // ---------------------------------------------------------------------------
  // The account tree of the recursive query in GetBalanceWithChildren

  /** GUIDs of the accounts whose parent GUID is in `s` (one step of the recursive query). */
  function ChildGuids(accounts: seq<Account>, s: set<string>): (r: set<string>)
    ensures r <= Guids(accounts)
  {
    set i | 0 <= i < |accounts| && accounts[i].parentGuid.Some? && accounts[i].parentGuid.value in s :: accounts[i].guid
  }

  /** Repeats the recursive step until nothing new is added: `s` together with
      every account reachable from it through parent links. */
  function Closure(accounts: seq<Account>, s: set<string>): (r: set<string>)
    ensures s <= r
    ensures ChildGuids(accounts, r) <= r
    decreases |Guids(accounts) - s|
  {
    var next := s + ChildGuids(accounts, s);
    if next <= s then s
    else
      SubsetSmaller(Guids(accounts) - next, Guids(accounts) - s);
      Closure(accounts, next)
  }

  /** The closure is the least set that contains the start and is closed under the
      child step: it holds no account unreachable from the start. */
  lemma {:induction false} ClosureLeast(accounts: seq<Account>, s: set<string>, t: set<string>)
    requires s <= t && ChildGuids(accounts, t) <= t
    ensures Closure(accounts, s) <= t
    decreases |Guids(accounts) - s|
  {
    var next := s + ChildGuids(accounts, s);
    if !(next <= s) {
      SubsetSmaller(Guids(accounts) - next, Guids(accounts) - s);
      assert ChildGuids(accounts, s) <= ChildGuids(accounts, t);
      ClosureLeast(accounts, next, t);
    }
  }

  /** `account_tree`: the requested account and all its descendants; empty when no
      account has that GUID (the anchor row selects nothing). Cycles cannot make it
      diverge here: the set only grows and is bounded by the accounts' GUIDs. */
  function AccountTree(accounts: seq<Account>, guid: string): (r: set<string>)
    ensures guid in Guids(accounts) ==> guid in r
    ensures r <= Guids(accounts)
    ensures ChildGuids(accounts, r) <= r
  {
    if guid in Guids(accounts) then
      ClosureLeast(accounts, {guid}, Guids(accounts));
      Closure(accounts, {guid})
    else {}
  }

  // ---------------------------------------------------------------------------
  // Split aggregates

  /** `SUM(s.quantity_num)` over the splits posted to an account in `accts` (0 when none). */
  function SumQuantity(splits: seq<SplitRow>, accts: set<string>): int {
    if splits == [] then 0
    else
      var s := splits[|splits| - 1];
      SumQuantity(splits[..|splits| - 1], accts) + (if s.accountGuid in accts then s.quantityNum else 0)
  }

  /** `MAX(s.quantity_denom)` over the splits posted to an account in `accts`, None when none. */
  function MaxDenom(splits: seq<SplitRow>, accts: set<string>): (r: Option<Int64>)
    ensures r.None? <==> forall k :: 0 <= k < |splits| ==> splits[k].accountGuid !in accts
    ensures r.Some? ==> exists k :: 0 <= k < |splits| && splits[k].accountGuid in accts && splits[k].quantityDenom == r.value
    ensures r.Some? ==> forall k :: 0 <= k < |splits| && splits[k].accountGuid in accts ==> splits[k].quantityDenom <= r.value
  {
    if splits == [] then None
    else
      var s := splits[|splits| - 1];
      var init := splits[..|splits| - 1];
      var m := MaxDenom(init, accts);
      assert forall k :: 0 <= k < |init| ==> init[k] == splits[k];
      if s.accountGuid !in accts then m
      else if m.None? || m.value < s.quantityDenom then Some(s.quantityDenom)
      else m
  }

  /** Sums over disjoint sets of accounts add up: the rollup total is the sum of
      the totals of its parts. */
  lemma {:induction false} SumQuantityDisjointUnion(splits: seq<SplitRow>, a: set<string>, b: set<string>)
    requires a !! b
    ensures SumQuantity(splits, a + b) == SumQuantity(splits, a) + SumQuantity(splits, b)
  {
    if splits != [] {
      SumQuantityDisjointUnion(splits[..|splits| - 1], a, b);
    }
  }

  /** Splits on accounts outside `accts` do not change the sum. */
  lemma {:induction false} SumQuantityNone(splits: seq<SplitRow>, accts: set<string>)
    ensures (forall k :: 0 <= k < |splits| ==> splits[k].accountGuid !in accts) ==> SumQuantity(splits, accts) == 0
  {
    if splits != [] {
      SumQuantityNone(splits[..|splits| - 1], accts);
    }
  }

  /** The aggregate row `(COALESCE(SUM(quantity_num), 0), COALESCE(MAX(quantity_denom), 100))`,
      scanned into two int64s; a sum outside the int64 range fails to scan. */
  function Aggregate(splits: seq<SplitRow>, accts: set<string>, failure: string): (r: Result<(Int64, Int64)>)
    ensures r.Ok? <==> MinInt64 <= SumQuantity(splits, accts) <= MaxInt64
    ensures r.Ok? ==> r.value.0 == SumQuantity(splits, accts)
    ensures r.Ok? && MaxDenom(splits, accts).None? ==> r.value.1 == 100
    ensures r.Ok? && MaxDenom(splits, accts).Some? ==> r.value.1 == MaxDenom(splits, accts).value
  {
    var total := SumQuantity(splits, accts);
    if MinInt64 <= total <= MaxInt64 then
      Ok((total, match MaxDenom(splits, accts) case None => 100 case Some(d) => d))
    else Err(failure)
  }

  /** GetBalance (account_repository.go:145-160): the raw (not sign-normalised)
      total of the quantities posted to exactly this account, over the largest
      quantity denominator; 0/100 when the account has no splits. */
  function GetBalance(splits: seq<SplitRow>, guid: string): (r: Result<(Int64, Int64)>)
    ensures (forall k :: 0 <= k < |splits| ==> splits[k].accountGuid != guid) ==> r == Ok((0, 100))
    ensures r.Ok? <==> MinInt64 <= SumQuantity(splits, {guid}) <= MaxInt64
    ensures r.Ok? ==> r.value.0 == SumQuantity(splits, {guid})
    ensures r.Ok? ==> r.value.1 == (match MaxDenom(splits, {guid}) case None => 100 case Some(d) => d)
  {
    SumQuantityNone(splits, {guid});
    Aggregate(splits, {guid}, "failed to calculate balance")
  }

  /** FindByGUID: the first account carrying the GUID, or the not-found error. */
  function FindByGuid(accounts: seq<Account>, guid: string): (r: Result<Account>)
    ensures r.Ok? <==> guid in Guids(accounts)
    ensures r.Ok? ==> r.value.guid == guid && r.value in accounts
  {
    if accounts == [] then Err("failed to find account")
    else if accounts[0].guid == guid then Ok(accounts[0])
    else
      var rest := FindByGuid(accounts[1..], guid);
      assert Guids(accounts) == {accounts[0].guid} + Guids(accounts[1..]) by {
        forall g | g in Guids(accounts) ensures g in {accounts[0].guid} + Guids(accounts[1..]) {
          var i :| 0 <= i < |accounts| && accounts[i].guid == g;
          if i > 0 { assert accounts[1..][i - 1] == accounts[i]; }
        }
      }
      rest
  }

  /** GetBalanceWithChildren (account_repository.go:163-194): an unknown GUID is an
      error before anything is summed; otherwise the quantities of the account and
      all its descendants are summed and the sign is normalised once, by the
      requested account's own polarity. */
  function GetBalanceWithChildren(accounts: seq<Account>, splits: seq<SplitRow>, guid: string): (r: Result<(Int64, Int64)>)
    ensures guid !in Guids(accounts) ==> r.Err?
    ensures r.Ok? <==> guid in Guids(accounts) && MinInt64 <= SumQuantity(splits, AccountTree(accounts, guid)) <= MaxInt64
    ensures r.Ok? ==> r.value.1 == (match MaxDenom(splits, AccountTree(accounts, guid)) case None => 100 case Some(d) => d)
    ensures r.Ok? ==>
      r.value.0 == NormalizeSign(SumQuantity(splits, AccountTree(accounts, guid)), IsDebitAccount(FindByGuid(accounts, guid).value))
  {
    match FindByGuid(accounts, guid)
    case Err(e) => Err(e)
    case Ok(account) =>
      match Aggregate(splits, AccountTree(accounts, guid), "failed to calculate balance with children")
      case Err(e) => Err(e)
      case Ok((numerator, denominator)) => Ok((NormalizeSign(numerator, IsDebitAccount(account)), denominator))
  }

  /** The rollup numerator, before the sign rule, is the account's own total plus
      the total of its descendants. */
  lemma RollupSplitsIntoOwnAndDescendants(accounts: seq<Account>, splits: seq<SplitRow>, guid: string)
    requires guid in Guids(accounts)
    ensures SumQuantity(splits, AccountTree(accounts, guid))
         == SumQuantity(splits, {guid}) + SumQuantity(splits, AccountTree(accounts, guid) - {guid})
  {
    var tree := AccountTree(accounts, guid);
    assert tree == {guid} + (tree - {guid});
    SumQuantityDisjointUnion(splits, {guid}, tree - {guid});
  }

  /** For an account without children the rollup balance is its own balance with
      the sign rule applied once. */
  lemma LeafRollupIsOwnBalance(accounts: seq<Account>, splits: seq<SplitRow>, guid: string)
    requires guid in Guids(accounts)
    requires forall i :: 0 <= i < |accounts| ==> accounts[i].parentGuid != Some(guid)
    requires GetBalance(splits, guid).Ok?
    ensures GetBalanceWithChildren(accounts, splits, guid).Ok?
    ensures GetBalanceWithChildren(accounts, splits, guid).value
         == (NormalizeSign(GetBalance(splits, guid).value.0, IsDebitAccount(FindByGuid(accounts, guid).value)),
             GetBalance(splits, guid).value.1)
  {
    assert ChildGuids(accounts, {guid}) <= {guid};
    ClosureLeast(accounts, {guid}, {guid});
    assert AccountTree(accounts, guid) == {guid};
  }
}
