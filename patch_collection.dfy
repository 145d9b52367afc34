/**
 * The ordered list of patch operations gathered by the resolvers
 * (src/PatchCollection.php). Operations are only ever appended; queries
 * return them in insertion order, optionally filtered by type.
 */
module Collection {
  import opened Operation

  /** a can be obtained from b by deleting elements: same relative order, no element invented. */
  ghost predicate SubsequenceOf<T>(a: seq<T>, b: seq<T>)
    decreases |b|
  {
    a == [] || (b != [] && ((a[0] == b[0] && SubsequenceOf(a[1..], b[1..])) || SubsequenceOf(a, b[1..])))
  }

  /** Which operations a query keeps. */
  datatype Criterion = OfType(patchType: string) | ForPackage(name: string)

  predicate Matches(op: PatchOperation, c: Criterion) {
    match c
    case OfType(t) => op.patchType == t
    case ForPackage(name) => op.package.name == name
  }

  /**
   * `array_filter` over the operations, keeping those that match c: everything
   * kept matches.
   */
  function Select(ops: seq<PatchOperation>, c: Criterion): (r: seq<PatchOperation>)
    ensures |r| <= |ops|
    ensures forall k :: 0 <= k < |r| ==> Matches(r[k], c)
  {
    if ops == [] then []
    else if Matches(ops[0], c) then [ops[0]] + Select(ops[1..], c)
    else Select(ops[1..], c)
  }

  /**
   * A selection holds the matching operations in their original order, each
   * exactly as often as it occurs, and nothing else.
   */
  lemma {:induction false} SelectKeepsMatches(ops: seq<PatchOperation>, c: Criterion)
    ensures SubsequenceOf(Select(ops, c), ops)
    ensures forall op :: multiset(Select(ops, c))[op] == if Matches(op, c) then multiset(ops)[op] else 0
  {
    if ops != [] {
      SelectKeepsMatches(ops[1..], c);
      assert ops == [ops[0]] + ops[1..];
      var rest := Select(ops[1..], c);
      if Matches(ops[0], c) {
        assert ([ops[0]] + rest)[1..] == rest;
      }
    }
  }

  /** Selecting from a concatenation selects from each part. */
  lemma {:induction false} SelectAppend(a: seq<PatchOperation>, b: seq<PatchOperation>, c: Criterion)
    ensures Select(a + b, c) == Select(a, c) + Select(b, c)
  {
    if a == [] {
      assert a + b == b;
    } else {
      var ab := a + b;
      assert ab[0] == a[0] && ab[1..] == a[1..] + b;
      SelectAppend(a[1..], b, c);
      if Matches(a[0], c) {
        var rest, tail := Select(a[1..], c), Select(b, c);
        assert Select(ab, c) == [a[0]] + (rest + tail);
        assert Select(a, c) == [a[0]] + rest;
        assert [a[0]] + (rest + tail) == ([a[0]] + rest) + tail;
      }
    }
  }

  /**
   * When every operation carries one of the two admitted types, the root
   * and dependency selections together account for the whole list.
   */
  lemma {:induction false} TypeSelectionsPartition(ops: seq<PatchOperation>)
    requires forall i :: 0 <= i < |ops| ==> IsPatchType(ops[i].patchType)
    ensures |Select(ops, OfType(TypeRootPatch))| + |Select(ops, OfType(TypeDependencyPatch))| == |ops|
  {
    if ops != [] {
      TypeSelectionsPartition(ops[1..]);
    }
  }

  class PatchCollection {
    /** The operations in insertion order. */
    var patchOperations: seq<PatchOperation>

    constructor ()
      ensures patchOperations == []
    {
      patchOperations := [];
    }

    /** `addPatch`: appends the operation; nothing is deduplicated or reordered. */
    method AddPatch(operation: PatchOperation)
      modifies this
      ensures patchOperations == old(patchOperations) + [operation]
    {
      patchOperations := patchOperations + [operation];
    }

    /**
     * `getPatches($type)`: for 'root' or 'dependency', exactly the operations
     * of that type in insertion order; for 'all' or any other argument, every
     * operation in insertion order.
     */
    function GetPatches(patchType: string): (r: seq<PatchOperation>)
      reads this
      ensures IsPatchType(patchType) ==> SubsequenceOf(r, patchOperations)
      ensures IsPatchType(patchType) ==>
        forall op :: multiset(r)[op] == if op.patchType == patchType then multiset(patchOperations)[op] else 0
      ensures !IsPatchType(patchType) ==> r == patchOperations
    {
      SelectKeepsMatches(patchOperations, OfType(patchType));
      match patchType
      case "root" => Select(patchOperations, OfType(TypeRootPatch))
      case "dependency" => Select(patchOperations, OfType(TypeDependencyPatch))
      case _ => patchOperations
    }
  }

  /**
   * The counts asserted by the collection's unit test: three root and three
   * dependency operations added in that order give 6 in all, 3 of each type.
   */
  lemma CollectionTestCounts(r1: PatchOperation, r2: PatchOperation, r3: PatchOperation,
                             d1: PatchOperation, d2: PatchOperation, d3: PatchOperation)
    requires r1.patchType == r2.patchType == r3.patchType == TypeRootPatch
    requires d1.patchType == d2.patchType == d3.patchType == TypeDependencyPatch
    ensures var ops := [r1, r2, r3, d1, d2, d3];
      |ops| == 6 && |Select(ops, OfType(TypeRootPatch))| == 3 && |Select(ops, OfType(TypeDependencyPatch))| == 3
  {
    var roots, deps := [r1, r2, r3], [d1, d2, d3];
    assert [r1, r2, r3, d1, d2, d3] == roots + deps;
    SelectAppend(roots, deps, OfType(TypeRootPatch));
    SelectAppend(roots, deps, OfType(TypeDependencyPatch));
    assert roots == [r1] + [r2, r3] && [r2, r3] == [r2] + [r3];
    assert deps == [d1] + [d2, d3] && [d2, d3] == [d2] + [d3];
    SelectAppend([r1], [r2, r3], OfType(TypeRootPatch));
    SelectAppend([r2], [r3], OfType(TypeRootPatch));
    SelectAppend([r1], [r2, r3], OfType(TypeDependencyPatch));
    SelectAppend([r2], [r3], OfType(TypeDependencyPatch));
    SelectAppend([d1], [d2, d3], OfType(TypeRootPatch));
    SelectAppend([d2], [d3], OfType(TypeRootPatch));
    SelectAppend([d1], [d2, d3], OfType(TypeDependencyPatch));
    SelectAppend([d2], [d3], OfType(TypeDependencyPatch));
  }
}
