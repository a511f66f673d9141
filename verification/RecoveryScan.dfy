/** The startup scan for staging leaves, and what a clear scan rules out. */
module RecoveryScan {
  import opened Text
  import opened Volume
  import opened Lifecycle

  const MAX_DEPTH := 32
  const MAX_INDEX_ENTRIES := 10_000

  /** One entry of a directory as the volume enumerates it; `id` identifies a subdirectory. */
  datatype DirEntry = DirEntry(name: string, isDirectory: bool, id: string)

  /** The complete enumeration of every directory. */
  type Listing = map<string, seq<DirEntry>>

  /** What the scan looks at: the listing and the names it may enter (canonical and not hard-denied). */
  datatype Tree = Tree(listing: Listing, enter: string -> bool)

  predicate IsStagingLeaf(name: string) {
    |name| > |STAGING_PREFIX| && Fold(name[..|STAGING_PREFIX|]) == STAGING_PREFIX
  }

  predicate Entered(t: Tree, e: DirEntry) {
    !IsStagingLeaf(e.name) && e.isDirectory && t.enter(e.name)
  }

  function Children(t: Tree, entries: seq<DirEntry>): seq<DirEntry> {
    if entries == [] then []
    else (if Entered(t, entries[0]) then [entries[0]] else []) + Children(t, entries[1..])
  }

  function StagingIn(entries: seq<DirEntry>): nat {
    if entries == [] then 0 else (if IsStagingLeaf(entries[0].name) then 1 else 0) + StagingIn(entries[1..])
  }

  /** Every directory the scan enters below `d` can be opened and is within the depth limit. */
  predicate Fits(t: Tree, d: string, depth: nat)
    decreases MAX_DEPTH + 1 - depth, 1, 0
  {
    depth <= MAX_DEPTH && d in t.listing && AllFit(t, Children(t, t.listing[d]), depth + 1)
  }

  predicate AllFit(t: Tree, children: seq<DirEntry>, depth: nat)
    requires depth <= MAX_DEPTH + 1
    decreases MAX_DEPTH + 1 - depth, 2, |children|
  {
    children == [] || (Fits(t, children[0].id, depth) && AllFit(t, children[1..], depth))
  }

  /** The entries and the staging leaves the scan meets from `d` down. */
  function Tally(t: Tree, d: string, depth: nat): (nat, nat)
    requires Fits(t, d, depth)
    decreases MAX_DEPTH + 1 - depth, 1, 0
  {
    var (entries, staging) := TallyAll(t, Children(t, t.listing[d]), depth + 1);
    (|t.listing[d]| + entries, StagingIn(t.listing[d]) + staging)
  }

  function TallyAll(t: Tree, children: seq<DirEntry>, depth: nat): (nat, nat)
    requires depth <= MAX_DEPTH + 1 && AllFit(t, children, depth)
    decreases MAX_DEPTH + 1 - depth, 2, |children|
  {
    if children == [] then (0, 0)
    else
      var (e1, s1) := Tally(t, children[0].id, depth);
      var (e2, s2) := TallyAll(t, children[1..], depth);
      (e1 + e2, s1 + s2)
  }

  datatype ScanResult = ScanOk | ScanLimit | ScanFailed

  /** The scan's budget and findings, shared by all directories it visits. */
  class Scan {
    var entriesRemaining: nat
    var pendingStaging: nat
    var truncated: bool

    constructor (budget: nat)
      ensures entriesRemaining == budget && pendingStaging == 0 && !truncated
    {
      entriesRemaining, pendingStaging, truncated := budget, 0, false;
    }

    /** `scanStagingDirectory`. */
    method ScanDirectory(t: Tree, entries: seq<DirEntry>) returns (result: ScanResult, children: seq<DirEntry>)
      modifies this
      ensures result != ScanFailed && (result == ScanOk <==> |entries| <= old(entriesRemaining))
      ensures result == ScanOk ==>
        && entriesRemaining == old(entriesRemaining) - |entries|
        && pendingStaging == old(pendingStaging) + StagingIn(entries)
        && children == Children(t, entries) && truncated == old(truncated)
    {
      children := [];
      var i := 0;
      while i < |entries|
        invariant i <= |entries|
        invariant i <= old(entriesRemaining) && entriesRemaining == old(entriesRemaining) - i
        invariant pendingStaging + StagingIn(entries[i..]) == old(pendingStaging) + StagingIn(entries)
        invariant children + Children(t, entries[i..]) == Children(t, entries) && truncated == old(truncated)
      {
        if entriesRemaining == 0 { return ScanLimit, children; }
        entriesRemaining := entriesRemaining - 1;
        var e := entries[i];
        assert entries[i..][0] == e && entries[i..][1..] == entries[i + 1..];
        if IsStagingLeaf(e.name) {
          pendingStaging := pendingStaging + 1;
        } else if e.isDirectory && t.enter(e.name) {
          children := children + [e];
        }
        i := i + 1;
      }
      result := ScanOk;
    }

    /** `collectPendingStaging`. */
    method Collect(t: Tree, d: string, depth: nat) returns (result: ScanResult)
      modifies this
      decreases MAX_DEPTH + 1 - depth, 0
      ensures result == ScanOk <==> Fits(t, d, depth) && Tally(t, d, depth).0 <= old(entriesRemaining)
      ensures result == ScanOk ==>
        && entriesRemaining == old(entriesRemaining) - Tally(t, d, depth).0
        && pendingStaging == old(pendingStaging) + Tally(t, d, depth).1 && truncated == old(truncated)
    {
      if depth > MAX_DEPTH {
        truncated := true;
        return ScanLimit;
      }
      if d !in t.listing { return ScanFailed; }
      var children;
      result, children := ScanDirectory(t, t.listing[d]);
      if result != ScanOk { return; }
      result := CollectAll(t, children, depth + 1);
    }

    /** The loop over one directory's subdirectories. */
    method CollectAll(t: Tree, children: seq<DirEntry>, depth: nat) returns (result: ScanResult)
      requires depth <= MAX_DEPTH + 1
      modifies this
      decreases MAX_DEPTH + 1 - depth, 1
      ensures result == ScanOk <==> AllFit(t, children, depth) && TallyAll(t, children, depth).0 <= old(entriesRemaining)
      ensures result == ScanOk ==>
        && entriesRemaining == old(entriesRemaining) - TallyAll(t, children, depth).0
        && pendingStaging == old(pendingStaging) + TallyAll(t, children, depth).1 && truncated == old(truncated)
    {
      var i := 0;
      while i < |children|
        invariant i <= |children| && truncated == old(truncated)
        invariant AllFit(t, children, depth) <==> AllFit(t, children[i..], depth)
        invariant AllFit(t, children, depth) ==>
          && entriesRemaining - TallyAll(t, children[i..], depth).0 == old(entriesRemaining) - TallyAll(t, children, depth).0
          && pendingStaging + TallyAll(t, children[i..], depth).1 == old(pendingStaging) + TallyAll(t, children, depth).1
      {
        assert children[i..][1..] == children[i + 1..];
        result := Collect(t, children[i].id, depth);
        if result != ScanOk { return; }
        i := i + 1;
      }
      result := ScanOk;
    }
  }

  datatype WalBinding = WalBinding(rootId: nat, stageCreated: bool)

  /** `pendingMutationWalBindings`. */
  method PendingWalBindings(bindings: seq<WalBinding>, rootId: nat) returns (pending: nat)
    ensures pending == 0 <==> forall b | b in bindings :: !(b.rootId == rootId && b.stageCreated)
  {
    pending := 0;
    for i := 0 to |bindings|
      invariant pending == 0 <==> forall b | b in bindings[..i] :: !(b.rootId == rootId && b.stageCreated)
    {
      if bindings[i].rootId == rootId && bindings[i].stageCreated {
        pending := pending + 1;
      }
    }
  }

  datatype ScanState = Clear | RecoveryRequired | ScanError

  /** `scanMutationRecovery`: clear exactly when the whole reachable tree was seen within the budget and the depth
      limit, no staging leaf was met and no binding of this root has created a stage. */
  method ScanMutationRecovery(t: Tree, root: string, rootId: nat, bindings: seq<WalBinding>) returns (state: ScanState)
    ensures state == Clear <==>
      && Fits(t, root, 0) && Tally(t, root, 0).0 <= MAX_INDEX_ENTRIES && Tally(t, root, 0).1 == 0
      && forall b | b in bindings :: !(b.rootId == rootId && b.stageCreated)
  {
    var scan := new Scan(MAX_INDEX_ENTRIES);
    var result := scan.Collect(t, root, 0);
    var truncated := scan.truncated || result == ScanLimit;
    if result == ScanFailed { return ScanError; }
    var pendingWal := PendingWalBindings(bindings, rootId);
    state := if truncated || scan.pendingStaging != 0 || pendingWal != 0 then RecoveryRequired else Clear;
  }

  // ---------- what a clear scan means ----------

  /** `path` leads from directory `d` to directory `end` through entries the scan may enter. */
  predicate Leads(t: Tree, d: string, path: seq<DirEntry>, end: string)
    decreases |path|
  {
    if path == [] then d == end
    else d in t.listing && path[0] in t.listing[d] && Entered(t, path[0]) && Leads(t, path[0].id, path[1..], end)
  }

  lemma {:induction false} ChildrenAreEntered(t: Tree, entries: seq<DirEntry>, e: DirEntry)
    requires e in entries && Entered(t, e)
    ensures e in Children(t, entries)
  {
    if entries[0] != e {
      ChildrenAreEntered(t, entries[1..], e);
    }
  }

  lemma {:induction false} NoStagingIn(entries: seq<DirEntry>, e: DirEntry)
    requires e in entries && StagingIn(entries) == 0
    ensures !IsStagingLeaf(e.name)
  {
    if entries[0] != e {
      NoStagingIn(entries[1..], e);
    }
  }

  lemma {:induction false} ChildFits(t: Tree, children: seq<DirEntry>, depth: nat, e: DirEntry)
    requires depth <= MAX_DEPTH + 1 && AllFit(t, children, depth) && e in children
    ensures Fits(t, e.id, depth) && Tally(t, e.id, depth).1 <= TallyAll(t, children, depth).1
  {
    if children[0] != e {
      ChildFits(t, children[1..], depth, e);
    }
  }

  /** A clean tally leaves no staging leaf in any directory that a path of any length can reach. */
  lemma {:induction false} CleanEverywhere(t: Tree, d: string, depth: nat, path: seq<DirEntry>, end: string)
    requires Fits(t, d, depth) && Tally(t, d, depth).1 == 0 && Leads(t, d, path, end)
    ensures end in t.listing && forall e | e in t.listing[end] :: !IsStagingLeaf(e.name)
    decreases |path|
  {
    if path == [] {
      forall e | e in t.listing[end] ensures !IsStagingLeaf(e.name) {
        NoStagingIn(t.listing[end], e);
      }
    } else {
      var children := Children(t, t.listing[d]);
      ChildrenAreEntered(t, t.listing[d], path[0]);
      ChildFits(t, children, depth + 1, path[0]);
      CleanEverywhere(t, path[0].id, depth + 1, path[1..], end);
    }
  }

  /** The listing enumerates every entry of the namespace under its spelling on disk. */
  predicate Enumerates(t: Tree, ns: Namespace) {
    forall k | k in ns && k.dir in t.listing :: exists e :: e in t.listing[k.dir] && e.name == ns[k].leaf
  }

  ghost predicate IsClear(t: Tree, root: string) {
    Fits(t, root, 0) && Tally(t, root, 0).1 == 0
  }

  ghost predicate Reaches(t: Tree, root: string, dir: string) {
    exists path :: Leads(t, root, path, dir)
  }

  /** After a clear scan no staging leaf stands in any directory the scan may enter. */
  lemma ClearMeansClear(t: Tree, root: string, ns: Namespace, k: Key)
    requires IsClear(t, root) && Enumerates(t, ns) && Reaches(t, root, k.dir) && k in ns
    ensures !IsStagingLeaf(ns[k].leaf)
  {
    var path :| Leads(t, root, path, k.dir);
    CleanEverywhere(t, root, 0, path, k.dir);
  }

  /** The scan's test ignores case, as the volume does: whatever spelling stands at the key of a staging leaf is counted. */
  lemma StagingKeyIsStaging(ns: Namespace, name: Name, token: string)
    requires IsFolded(ns) && name.At() in ns && name.leaf == StagingLeaf(token) && token != ""
    ensures IsStagingLeaf(ns[name.At()].leaf)
  {
    var leaf := ns[name.At()].leaf;
    assert Fold(leaf) == Fold(name.leaf) && |leaf| == |name.leaf|;
    forall i | 0 <= i < |STAGING_PREFIX| ensures Fold(leaf[..|STAGING_PREFIX|])[i] == STAGING_PREFIX[i] {
      assert Fold(leaf)[i] == FoldChar(STAGING_PREFIX[i]) == STAGING_PREFIX[i];
    }
  }

  /** So a clear scan leaves the key of a staging leaf free. */
  lemma ClearLeavesStagingFree(t: Tree, root: string, ns: Namespace, name: Name, token: string)
    requires IsClear(t, root) && Enumerates(t, ns) && Reaches(t, root, name.dir)
    requires IsFolded(ns) && name.leaf == StagingLeaf(token) && token != ""
    ensures Free(ns, name)
  {
    if !Free(ns, name) {
      ClearMeansClear(t, root, ns, name.At());
      StagingKeyIsStaging(ns, name, token);
    }
  }

  lemma StagingLeavesAreStaging(token: string)
    requires token != ""
    ensures IsStagingLeaf(StagingLeaf(token))
  {
    assert StagingLeaf(token)[..|STAGING_PREFIX|] == STAGING_PREFIX;
    assert Fold(STAGING_PREFIX) == STAGING_PREFIX;
  }
}
