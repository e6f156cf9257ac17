/** The account formatting of the MCP tools (backend/internal/infrastructure/mcp/tools.go):
    one account as a JSON-ready record, and the nested account tree that the
    `accounts_hierarchy` tool returns. Accounts are referred to by their position
    in the input list. */
module McpTools {
  import opened Wrappers
  import opened Rational
  import opened Entity
  import opened AccountRepository

  // ---------------------------------------------------------------------------
  // formatAccount

  /** The JSON object of one account; `parentGuid` is None when the key is absent. */
  datatype FormattedAccount = FormattedAccount(
    guid: string,
    name: string,
    accountType: string,
    description: Option<string>,
    code: Option<string>,
    hidden: bool,
    placeholder: bool,
    commodity: string,
    balance: string,
    balanceNum: Int64,
    balanceDenom: Int64,
    parentGuid: Option<string>)

  /** A node of the account tree: the formatted account, and its "children" list
      when the key is present. */
  datatype Node = Node(account: FormattedAccount, children: Option<seq<Node>>)

  /** formatAccount: the account's columns, the balance as a two-place string, and
      "parent_guid" only for an account that has a parent. */
  function FormatAccount(acc: Account): (r: FormattedAccount)
    ensures r.parentGuid.Some? <==> acc.parentGuid.Some?
    ensures acc.parentGuid.Some? ==> r.parentGuid.value == acc.parentGuid.value
    ensures r.guid == acc.guid && r.name == acc.name && r.accountType == acc.accountType
    ensures r.description == acc.description && r.code == acc.code && r.commodity == acc.commodityMnemonic
    ensures r.hidden == acc.hidden && r.placeholder == acc.placeholder
    ensures r.balanceNum == acc.balanceNum && r.balanceDenom == acc.balanceDenom
  {
    FormattedAccount(acc.guid, acc.name, acc.accountType, acc.description, acc.code,
                     acc.hidden, acc.placeholder, acc.commodityMnemonic, StringFixed2(acc.balance),
                     acc.balanceNum, acc.balanceDenom, acc.parentGuid)
  }

  /** Different displayed balances come from balances that round to different hundredths. */
  lemma FormattedBalanceDistinguishes(a: Account, b: Account)
    requires FormatAccount(a).balance == FormatAccount(b).balance
    ensures RoundHalfAway(a.balance * 100.0) == RoundHalfAway(b.balance * 100.0)
  {
    StringFixed2Reads(a.balance);
    StringFixed2Reads(b.balance);
    assert ParseCents(FormatAccount(a).balance) == ParseCents(FormatAccount(b).balance);
  }

  /** The displayed balance reads back as the balance's nearest hundredths. */
  lemma FormattedBalanceReads(acc: Account)
    ensures ParseCents(FormatAccount(acc).balance) == Some(RoundHalfAway(acc.balance * 100.0))
  {
    StringFixed2Reads(acc.balance);
  }

  // ---------------------------------------------------------------------------
  // The maps of formatAccountHierarchy

  /** Positions below `n` of the accounts whose parent GUID is exactly `g`, in list order. */
  function ChildPositions(accounts: seq<Account>, n: nat, g: string): (r: seq<nat>)
    requires n <= |accounts|
    ensures forall k :: 0 <= k < |r| ==> r[k] < n && accounts[r[k]].parentGuid == Some(g)
  {
    if n == 0 then []
    else ChildPositions(accounts, n - 1, g) + (if accounts[n - 1].parentGuid == Some(g) then [n - 1] else [])
  }

  /** Every account below `n` naming `g` as parent is listed, in increasing order. */
  lemma {:induction false} ChildPositionsComplete(accounts: seq<Account>, n: nat, g: string)
    requires n <= |accounts|
    ensures forall i :: 0 <= i < n && accounts[i].parentGuid == Some(g) ==> i in ChildPositions(accounts, n, g)
    ensures forall k, l :: 0 <= k < l < |ChildPositions(accounts, n, g)| ==>
              ChildPositions(accounts, n, g)[k] < ChildPositions(accounts, n, g)[l]
  {
    if n > 0 {
      ChildPositionsComplete(accounts, n - 1, g);
    }
  }

  /** `childMap` after its loop has seen the first `n` accounts: every parent GUID
      named so far, mapped to the positions naming it. */
  function ChildMapBelow(accounts: seq<Account>, n: nat): map<string, seq<nat>>
    requires n <= |accounts|
  {
    if n == 0 then map[]
    else
      var m := ChildMapBelow(accounts, n - 1);
      match accounts[n - 1].parentGuid
      case None => m
      case Some(g) => m[g := (if g in m then m[g] else []) + [n - 1]]
  }

  /** The complete `childMap`. */
  function ChildMap(accounts: seq<Account>): map<string, seq<nat>> {
    ChildMapBelow(accounts, |accounts|)
  }

  /** A GUID is a key of `childMap` exactly when some account names it as parent,
      and then it maps to all such accounts in list order. */
  lemma {:induction false} ChildMapMeaning(accounts: seq<Account>, n: nat, g: string)
    requires n <= |accounts|
    ensures g in ChildMapBelow(accounts, n) <==> ChildPositions(accounts, n, g) != []
    ensures g in ChildMapBelow(accounts, n) ==> ChildMapBelow(accounts, n)[g] == ChildPositions(accounts, n, g)
  {
    if n > 0 {
      ChildMapMeaning(accounts, n - 1, g);
    }
  }

  /** `childMap` has a key for `g` exactly when some account names `g` as parent. */
  lemma ChildMapKeys(accounts: seq<Account>, g: string)
    ensures g in ChildMap(accounts) <==> exists i :: 0 <= i < |accounts| && accounts[i].parentGuid == Some(g)
  {
    ChildMapMeaning(accounts, |accounts|, g);
    ChildPositionsComplete(accounts, |accounts|, g);
    var cs := ChildPositions(accounts, |accounts|, g);
    if cs != [] {
      assert accounts[cs[0]].parentGuid == Some(g);
    }
  }

  /** A root of the MCP tree: no parent, or a parent GUID that no account in the list carries. */
  predicate IsTreeRoot(accounts: seq<Account>, i: nat)
    requires i < |accounts|
  {
    accounts[i].parentGuid.None? || accounts[i].parentGuid.value !in Guids(accounts)
  }

  /** Positions below `n` of the tree roots, in list order. */
  function TreeRootsBelow(accounts: seq<Account>, n: nat): (r: seq<nat>)
    requires n <= |accounts|
    ensures forall k :: 0 <= k < |r| ==> r[k] < n && IsTreeRoot(accounts, r[k])
  {
    if n == 0 then []
    else TreeRootsBelow(accounts, n - 1) + (if IsTreeRoot(accounts, n - 1) then [n - 1] else [])
  }

  /** Every tree root is listed, in increasing order. */
  lemma {:induction false} TreeRootsComplete(accounts: seq<Account>, n: nat)
    requires n <= |accounts|
    ensures forall i :: 0 <= i < n && IsTreeRoot(accounts, i) ==> i in TreeRootsBelow(accounts, n)
    ensures forall k, l :: 0 <= k < l < |TreeRootsBelow(accounts, n)| ==>
              TreeRootsBelow(accounts, n)[k] < TreeRootsBelow(accounts, n)[l]
  {
    if n > 0 {
      TreeRootsComplete(accounts, n - 1);
    }
  }

  /** Unlike FindHierarchy, which drops an account whose parent is missing, the MCP
      tree promotes it to a root. */
  lemma OrphanPromotedToRoot(accounts: seq<Account>, i: nat, h: Hierarchy)
    requires i < |accounts| && IsFindHierarchyResult(accounts, h)
    requires accounts[i].parentGuid.Some? && accounts[i].parentGuid.value != ""
    requires accounts[i].parentGuid.value !in Guids(accounts)
    ensures i in TreeRootsBelow(accounts, |accounts|)
    ensures i !in h.roots && forall p :: 0 <= p < |h.children| ==> i !in h.children[p]
  {
    TreeRootsComplete(accounts, |accounts|);
    FindHierarchyDropsOrphans(accounts, h, i);
  }

  // ---------------------------------------------------------------------------
  // buildTree

  /** GUIDs are the table's primary key: no two accounts share one. */
  predicate UniqueGuids(accounts: seq<Account>) {
    forall i, j :: 0 <= i < j < |accounts| ==> accounts[i].guid != accounts[j].guid
  }

  /** Two different positions carry different GUIDs. */
  lemma DistinctGuids(accounts: seq<Account>, a: nat, b: nat)
    requires UniqueGuids(accounts) && a < |accounts| && b < |accounts| && a != b
    ensures accounts[a].guid != accounts[b].guid
  {
    if b < a {
      assert accounts[b].guid != accounts[a].guid;
    }
  }

  /** The accounts on the way from a tree root down to the last one: each names the
      previous one as parent, and none repeats. */
  ghost predicate IsChain(accounts: seq<Account>, path: seq<nat>) {
    && |path| >= 1
    && (forall k :: 0 <= k < |path| ==> path[k] < |accounts|)
    && IsTreeRoot(accounts, path[0])
    && (forall k :: 0 <= k < |path| - 1 ==> accounts[path[k + 1]].parentGuid == Some(accounts[path[k]].guid))
    && (forall k, l :: 0 <= k < l < |path| ==> path[k] != path[l])
  }

  /** A child of the last account of a chain is not on the chain yet, so the chain
      extends by it. */
  lemma ChainExtend(accounts: seq<Account>, path: seq<nat>, c: nat)
    requires UniqueGuids(accounts) && IsChain(accounts, path)
    requires c < |accounts| && accounts[c].parentGuid == Some(accounts[path[|path| - 1]].guid)
    ensures c !in path
    ensures IsChain(accounts, path + [c])
  {
    var last := |path| - 1;
    assert accounts[path[last]].guid in Guids(accounts);
    forall j | 0 <= j < |path| ensures path[j] != c {
      if j > 0 {
        DistinctGuids(accounts, path[j - 1], path[last]);
      }
    }
    var path' := path + [c];
    assert forall k :: 0 <= k < |path| ==> path'[k] == path[k];
  }

  /** The positions not on the path: the measure that makes buildTree stop. */
  ghost function Unvisited(accounts: seq<Account>, path: seq<nat>): set<nat> {
    set x | x in Positions(|accounts|) && x !in path
  }

  /** The positions 0 .. n - 1. */
  ghost function Positions(n: nat): (r: seq<nat>)
    ensures |r| == n && forall i :: 0 <= i < n ==> r[i] == i
  {
    seq(n, i requires 0 <= i < n => i)
  }

  lemma UnvisitedShrinks(accounts: seq<Account>, path: seq<nat>, c: nat)
    requires c < |accounts| && c !in path
    ensures Unvisited(accounts, path + [c]) < Unvisited(accounts, path)
  {
    assert Positions(|accounts|)[c] == c;
    assert c in Unvisited(accounts, path);
    assert c !in Unvisited(accounts, path + [c]);
  }

  /** One node of the tree: the formatted account and, when some account names it
      as parent, the nodes of those accounts in list order. `path` is the chain of
      ancestors that leads here from a root. */
  function BuildTree(accounts: seq<Account>, cm: map<string, seq<nat>>, p: nat, ghost path: seq<nat>): (r: Node)
    requires cm == ChildMap(accounts) && UniqueGuids(accounts)
    requires IsChain(accounts, path) && path[|path| - 1] == p
    ensures r.account == FormatAccount(accounts[p])
    decreases Unvisited(accounts, path), 1, 0
  {
    var g := accounts[p].guid;
    if g in cm then
      ChildMapMeaning(accounts, |accounts|, g);
      Node(FormatAccount(accounts[p]), Some(BuildChildren(accounts, cm, p, path, cm[g])))
    else
      Node(FormatAccount(accounts[p]), None)
  }

  /** The nodes of the listed children of `p`, in order. */
  function BuildChildren(accounts: seq<Account>, cm: map<string, seq<nat>>, p: nat, ghost path: seq<nat>, cs: seq<nat>): (r: seq<Node>)
    requires cm == ChildMap(accounts) && UniqueGuids(accounts)
    requires IsChain(accounts, path) && path[|path| - 1] == p
    requires forall k :: 0 <= k < |cs| ==> cs[k] < |accounts| && accounts[cs[k]].parentGuid == Some(accounts[p].guid)
    ensures |r| == |cs|
    ensures forall k :: 0 <= k < |cs| ==> r[k].account == FormatAccount(accounts[cs[k]])
    decreases Unvisited(accounts, path), 0, |cs|
  {
    if cs == [] then []
    else
      ChainExtend(accounts, path, cs[0]);
      UnvisitedShrinks(accounts, path, cs[0]);
      [BuildTree(accounts, cm, cs[0], path + [cs[0]])] + BuildChildren(accounts, cm, p, path, cs[1..])
  }

  /** Each child node is the whole subtree of that child, one level further down
      the chain, so the structure repeats at every depth. */
  lemma {:induction false} BuildChildrenSubtrees(accounts: seq<Account>, cm: map<string, seq<nat>>, p: nat, path: seq<nat>, cs: seq<nat>)
    requires cm == ChildMap(accounts) && UniqueGuids(accounts)
    requires IsChain(accounts, path) && path[|path| - 1] == p
    requires forall k :: 0 <= k < |cs| ==> cs[k] < |accounts| && accounts[cs[k]].parentGuid == Some(accounts[p].guid)
    ensures forall k :: 0 <= k < |cs| ==>
      IsChain(accounts, path + [cs[k]])
      && BuildChildren(accounts, cm, p, path, cs)[k] == BuildTree(accounts, cm, cs[k], path + [cs[k]])
  {
    if cs != [] {
      ChainExtend(accounts, path, cs[0]);
      BuildChildrenSubtrees(accounts, cm, p, path, cs[1..]);
      assert forall k :: 1 <= k < |cs| ==> cs[k] == cs[1..][k - 1];
    }
  }

  /** A node carries the "children" key exactly when some account names it as
      parent; the children are then the nodes of all such accounts, in list order. */
  lemma NodeChildren(accounts: seq<Account>, p: nat, path: seq<nat>)
    requires UniqueGuids(accounts) && IsChain(accounts, path) && path[|path| - 1] == p
    ensures var node := BuildTree(accounts, ChildMap(accounts), p, path);
      && (node.children.Some? <==> exists i :: 0 <= i < |accounts| && accounts[i].parentGuid == Some(accounts[p].guid))
      && (node.children.Some? ==>
            var cs := ChildPositions(accounts, |accounts|, accounts[p].guid);
            && |node.children.value| == |cs|
            && (forall k :: 0 <= k < |cs| ==> node.children.value[k].account == FormatAccount(accounts[cs[k]]))
            && forall k :: 0 <= k < |cs| ==>
                 IsChain(accounts, path + [cs[k]])
                 && node.children.value[k] == BuildTree(accounts, ChildMap(accounts), cs[k], path + [cs[k]]))
  {
    var g := accounts[p].guid;
    ChildMapKeys(accounts, g);
    ChildMapMeaning(accounts, |accounts|, g);
    if g in ChildMap(accounts) {
      BuildChildrenSubtrees(accounts, ChildMap(accounts), p, path, ChildMap(accounts)[g]);
    }
  }

  // ---------------------------------------------------------------------------
  // Parent links and cycles

  /** The account reached from `p` by following `k` parent links, None once a
      parent is missing. */
  function Ancestor(accounts: seq<Account>, p: nat, k: nat): (r: Option<nat>)
    requires p < |accounts|
    ensures r.Some? ==> r.value < |accounts|
    decreases k
  {
    if k == 0 then Some(p)
    else
      var index := GuidIndex(accounts);
      match accounts[p].parentGuid
      case None => None
      case Some(g) => if g in index then Ancestor(accounts, index[g], k - 1) else None
  }

  /** `p` lies on a parent-link cycle. */
  ghost predicate OnCycle(accounts: seq<Account>, p: nat)
    requires p < |accounts|
  {
    exists k: nat :: k >= 1 && Ancestor(accounts, p, k) == Some(p)
  }

  /** Following `k` links up a chain lands on the chain's `k`-th last account, and
      following more links than the chain is long leaves the list. */
  lemma {:induction false} AncestorOnChain(accounts: seq<Account>, path: seq<nat>, k: nat)
    requires UniqueGuids(accounts) && IsChain(accounts, path)
    ensures k < |path| ==> Ancestor(accounts, path[|path| - 1], k) == Some(path[|path| - 1 - k])
    ensures k >= |path| ==> Ancestor(accounts, path[|path| - 1], k) == None
    decreases |path|
  {
    var last := |path| - 1;
    var p := path[last];
    var index := GuidIndex(accounts);
    if k > 0 {
      if last == 0 {
        match accounts[p].parentGuid
        case None =>
        case Some(g) => assert g !in Guids(accounts);
      } else {
        var q := path[last - 1];
        var g := accounts[q].guid;
        assert accounts[p].parentGuid == Some(g);
        assert g in Guids(accounts);
        assert index[g] == q by {
          if index[g] != q {
            DistinctGuids(accounts, index[g], q);
          }
        }
        var prefix := path[..last];
        assert IsChain(accounts, prefix);
        AncestorOnChain(accounts, prefix, k - 1);
      }
    }
  }

  /** Every node buildTree is asked for ends a chain from a root, so no account on a
      parent-link cycle ever appears in the tree. */
  lemma TreeNodeNotOnCycle(accounts: seq<Account>, path: seq<nat>)
    requires UniqueGuids(accounts) && IsChain(accounts, path)
    ensures !OnCycle(accounts, path[|path| - 1])
  {
    var p := path[|path| - 1];
    if OnCycle(accounts, p) {
      var k: nat :| k >= 1 && Ancestor(accounts, p, k) == Some(p);
      AncestorOnChain(accounts, path, k);
      assert false;
    }
  }

  // ---------------------------------------------------------------------------
  // formatAccountHierarchy

  /** The first loop of formatAccountHierarchy: `accountMap` records each account
      under its GUID, `childMap` appends each account to its parent GUID's list. */
  method BuildMaps(accounts: seq<Account>) returns (accountMap: map<string, nat>, childMap: map<string, seq<nat>>)
    ensures accountMap.Keys == Guids(accounts)
    ensures childMap == ChildMap(accounts)
  {
    accountMap := map[];
    childMap := map[];
    var i := 0;
    while i < |accounts|
      invariant 0 <= i <= |accounts|
      invariant accountMap == GuidIndex(accounts[..i])
      invariant childMap == ChildMapBelow(accounts, i)
    {
      assert accounts[..i + 1][..i] == accounts[..i];
      var acc := accounts[i];
      accountMap := accountMap[acc.guid := i];
      if acc.parentGuid.Some? {
        var g := acc.parentGuid.value;
        childMap := childMap[g := (if g in childMap then childMap[g] else []) + [i]];
      }
      i := i + 1;
    }
    assert accounts[..|accounts|] == accounts;
  }

  /** The second loop: the accounts without a parent, or whose parent is not in
      `accountMap`, in list order. */
  method CollectRoots(accounts: seq<Account>, accountMap: map<string, nat>) returns (roots: seq<nat>)
    requires accountMap.Keys == Guids(accounts)
    ensures roots == TreeRootsBelow(accounts, |accounts|)
  {
    roots := [];
    var i := 0;
    while i < |accounts|
      invariant 0 <= i <= |accounts|
      invariant roots == TreeRootsBelow(accounts, i)
    {
      var acc := accounts[i];
      if acc.parentGuid.None? || acc.parentGuid.value !in accountMap {
        roots := roots + [i];
      }
      i := i + 1;
    }
  }

  /** A tree root alone is a chain. */
  lemma RootChain(accounts: seq<Account>, r: nat)
    requires r < |accounts| && IsTreeRoot(accounts, r)
    ensures IsChain(accounts, [r])
  {
  }

  /** One tree per listed root, in order. */
  function Forest(accounts: seq<Account>, cm: map<string, seq<nat>>, roots: seq<nat>): (r: seq<Node>)
    requires cm == ChildMap(accounts) && UniqueGuids(accounts)
    requires forall k :: 0 <= k < |roots| ==> roots[k] < |accounts| && IsTreeRoot(accounts, roots[k])
    ensures |r| == |roots|
    ensures forall k :: 0 <= k < |roots| ==> r[k].account == FormatAccount(accounts[roots[k]])
  {
    seq(|roots|, k requires 0 <= k < |roots| =>
      RootChain(accounts, roots[k]);
      BuildTree(accounts, cm, roots[k], [roots[k]]))
  }

  /** formatAccountHierarchy (tools.go:31-70): builds the maps, collects the roots,
      and builds one tree per root; the count is that of all input accounts,
      emitted or not. */
  method FormatAccountHierarchy(accounts: seq<Account>) returns (hierarchy: seq<Node>, count: int)
    requires UniqueGuids(accounts)
    ensures count == |accounts|
    ensures hierarchy == Forest(accounts, ChildMap(accounts), TreeRootsBelow(accounts, |accounts|))
  {
    var accountMap, childMap := BuildMaps(accounts);
    var roots := CollectRoots(accounts, accountMap);
    ghost var forest := Forest(accounts, childMap, roots);
    hierarchy := [];
    var i := 0;
    while i < |roots|
      invariant 0 <= i <= |roots|
      invariant hierarchy == forest[..i]
    {
      RootChain(accounts, roots[i]);
      hierarchy := hierarchy + [BuildTree(accounts, childMap, roots[i], [roots[i]])];
      i := i + 1;
    }
    count := |accounts|;
  }
}
