/**
 * The resolver that gathers the patches declared in the root package's
 * `extra.patches` map (src/Resolvers/RootComposer.php).
 */
module RootComposer {
  import opened Php
  import opened Operation
  import opened Collection
  import opened ResolverBase

  /** Patches declared in the root package are root patches. */
  const PatchType: string := TypeRootPatch

  /** The map the resolver walks: `extra['patches']` when it is set, nothing otherwise. */
  function DeclaredPatches(extra: seq<(string, Value)>): seq<(string, Value)> {
    if IsSet(extra, "patches") then Iterate(Lookup(extra, "patches").value) else []
  }

  /**
   * What `resolve` appends to the collection: nothing when `extra['patches']`
   * is unset or null; otherwise one root operation per declared entry, in
   * map order then list order, up to the first entry that fails to convert.
   */
  function Gathered(extra: seq<(string, Value)>, fromJson: FromJson): (r: Appended)
    ensures !IsSet(extra, "patches") ==> r == NothingAppended
    ensures r == Flatten(DeclaredPatches(extra), fromJson, PatchType)
    ensures r.thrown.None? ==> |r.ops| == EntryCount(DeclaredPatches(extra))
  {
    if !IsSet(extra, "patches") then NothingAppended
    else Flatten(Iterate(Lookup(extra, "patches").value), fromJson, PatchType)
  }

  /**
   * `resolve`: appends what Gathered describes after the collection's
   * existing operations, and ends with the exception a conversion threw, if any.
   */
  method Resolve(collection: PatchCollection, extra: seq<(string, Value)>, fromJson: FromJson)
    returns (thrown: Option<Exception>)
    modifies collection
    ensures collection.patchOperations == old(collection.patchOperations) + Gathered(extra, fromJson).ops
    ensures thrown == Gathered(extra, fromJson).thrown
  {
    if !IsSet(extra, "patches") {
      return None;
    }
    thrown := AddDeclarations(collection, Iterate(Lookup(extra, "patches").value), fromJson, PatchType);
  }

  /**
   * With a `createFromJsonObject` that behaves as its tests assert, every
   * operation the resolver appends is a root patch of a package named in
   * `extra['patches']`.
   */
  lemma GatheredOperationsAreRootPatches(extra: seq<(string, Value)>, fromJson: FromJson)
    requires FollowsDeclarationContract(fromJson)
    ensures forall op :: op in Gathered(extra, fromJson).ops ==>
      op.patchType == TypeRootPatch && op.package.name in Keys(DeclaredPatches(extra))
  {
    FlattenedOperationsAreAttributed(DeclaredPatches(extra), fromJson, PatchType);
  }

  /** A set but empty `patches` map appends nothing. */
  lemma EmptyMapAddsNothing(extra: seq<(string, Value)>, fromJson: FromJson)
    requires Lookup(extra, "patches") == Some(Array([]))
    ensures Gathered(extra, fromJson) == NothingAppended
  {
  }

  /**
   * One package with one entry that converts appends exactly the operation
   * created from that entry.
   */
  lemma {:induction false} OneEntryAddsOne(extra: seq<(string, Value)>, name: string, key: string, entry: Value, fromJson: FromJson)
    requires Lookup(extra, "patches") == Some(Array([(name, Array([(key, entry)]))]))
    requires fromJson(name, entry, PatchType).Success?
    ensures Gathered(extra, fromJson) == Appended([fromJson(name, entry, PatchType).value], None)
  {
    var patches := [(name, Array([(key, entry)]))];
    var decls := PackageDeclarations(patches[0]);
    PackageDeclarationAt(patches[0], 0);
    assert decls == [(name, entry)];
    assert DeclarationsUpTo(patches, 1) == [] + decls;
  }
}
