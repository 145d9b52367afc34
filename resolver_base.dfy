/**
 * What the patch resolvers (src/Resolvers/) have in common: a resolver
 * reads a `package name => [declaration, ...]` map and appends one patch
 * operation per declaration to the shared collection, package by package and
 * declaration by declaration, stopping at the first exception.
 */
module ResolverBase {
  import opened Php
  import opened Operation
  import opened Collection

  /**
   * What a resolver did to the shared collection: the operations it
   * appended, in order, and the exception it ended with, if any.
   */
  datatype Appended = Appended(ops: seq<PatchOperation>, thrown: Option<Exception>)

  /** Nothing appended, no exception. */
  const NothingAppended := Appended([], None)

  /** Running one step after another: the second runs only if the first returned normally. */
  function Then(first: Appended, second: Appended): Appended {
    if first.thrown.Some? then first else Appended(first.ops + second.ops, second.thrown)
  }

  /**
   * `Patch::createFromJsonObject($packageName, $entry, $type)`: called by both
   * resolvers but not part of the modelled sources, so it is a parameter.
   */
  type FromJson = (string, Value, string) -> Result<PatchOperation, Exception>

  /**
   * What the unit tests assert of `createFromJsonObject`: an
   * InvalidPatchException raised for a declaration without a description or
   * url carries the message 'All patches must have a description and URL.'
   * (the tests check the message only if that exception is raised); a created
   * patch carries the package name, the type, and the declaration's
   * description and url.
   */
  ghost predicate FollowsDeclarationContract(fromJson: FromJson) {
    && (forall name, entry, patchType ::
          fromJson(name, entry, patchType).Success? ==>
            var op := fromJson(name, entry, patchType).value;
            && op.package.name == name
            && op.patchType == patchType
            && Lookup(Iterate(entry), "description") == Some(Str(op.patch.description))
            && Lookup(Iterate(entry), "url") == Some(Str(op.patch.url)))
    && (forall name, entry, patchType ::
          (!HasKey(Iterate(entry), "description") || !HasKey(Iterate(entry), "url")) &&
          fromJson(name, entry, patchType).Failure? && fromJson(name, entry, patchType).error.InvalidPatchException? ==>
            fromJson(name, entry, patchType).error == InvalidPatchException("All patches must have a description and URL."))
  }

  /** The (package name, declaration) pairs of one package's list, in list order. */
  function PackageDeclarations(package: (string, Value)): (r: seq<(string, Value)>)
    ensures |r| == |Iterate(package.1)|
  {
    seq(|Iterate(package.1)|, j requires 0 <= j < |Iterate(package.1)| => (package.0, Iterate(package.1)[j].1))
  }

  /** Helper: the j-th declaration of a package is its name paired with the j-th entry of its list. */
  lemma PackageDeclarationAt(package: (string, Value), j: nat)
    requires j < |Iterate(package.1)|
    ensures PackageDeclarations(package)[j] == (package.0, Iterate(package.1)[j].1)
  {
  }

  /**
   * The declarations the nested `foreach` visits in the first n packages:
   * packages in map order, and within each package its list in order.
   */
  function DeclarationsUpTo(patches: seq<(string, Value)>, n: nat): seq<(string, Value)>
    requires n <= |patches|
  {
    if n == 0 then [] else DeclarationsUpTo(patches, n - 1) + PackageDeclarations(patches[n - 1])
  }

  /** All the declarations the nested `foreach` visits. */
  function Declarations(patches: seq<(string, Value)>): seq<(string, Value)> {
    DeclarationsUpTo(patches, |patches|)
  }

  /** The number of entries in the lists of the first n packages. */
  function EntryCountUpTo(patches: seq<(string, Value)>, n: nat): nat
    requires n <= |patches|
  {
    if n == 0 then 0 else EntryCountUpTo(patches, n - 1) + |Iterate(patches[n - 1].1)|
  }

  /** The number of entries in all the lists of a patches map. */
  function EntryCount(patches: seq<(string, Value)>): nat {
    EntryCountUpTo(patches, |patches|)
  }

  lemma {:induction false} DeclarationsCountUpTo(patches: seq<(string, Value)>, n: nat)
    requires n <= |patches|
    ensures |DeclarationsUpTo(patches, n)| == EntryCountUpTo(patches, n)
  {
    if n > 0 {
      DeclarationsCountUpTo(patches, n - 1);
    }
  }

  /** There is one declaration per list entry, whatever the map holds. */
  lemma DeclarationsCount(patches: seq<(string, Value)>)
    ensures |Declarations(patches)| == EntryCount(patches)
  {
    DeclarationsCountUpTo(patches, |patches|);
  }

  lemma {:induction false} DeclarationNamesAreKeysUpTo(patches: seq<(string, Value)>, n: nat)
    requires n <= |patches|
    ensures forall k :: 0 <= k < |DeclarationsUpTo(patches, n)| ==> DeclarationsUpTo(patches, n)[k].0 in Keys(patches)
  {
    if n > 0 {
      DeclarationNamesAreKeysUpTo(patches, n - 1);
      KeyAt(patches, n - 1);
    }
  }

  /** Every declaration is attributed to a package name that is a key of the map. */
  lemma DeclarationNamesAreKeys(patches: seq<(string, Value)>)
    ensures forall k :: 0 <= k < |Declarations(patches)| ==> Declarations(patches)[k].0 in Keys(patches)
  {
    DeclarationNamesAreKeysUpTo(patches, |patches|);
  }

  /**
   * Creates one operation per declaration, in order, until the first
   * creation that throws.
   */
  function Build(decls: seq<(string, Value)>, fromJson: FromJson, patchType: string): (r: Appended)
    ensures |r.ops| <= |decls|
  {
    if decls == [] then NothingAppended
    else
      match fromJson(decls[0].0, decls[0].1, patchType)
      case Failure(e) => Appended([], Some(e))
      case Success(op) =>
        var rest := Build(decls[1..], fromJson, patchType);
        Appended([op] + rest.ops, rest.thrown)
  }

  /**
   * The k-th operation built is the one created from the k-th declaration;
   * building covers every declaration unless a creation throws, and then
   * the exception is the one from the first declaration not built.
   */
  lemma {:induction false} BuildCreatesInOrder(decls: seq<(string, Value)>, fromJson: FromJson, patchType: string)
    ensures var r := Build(decls, fromJson, patchType);
      && (r.thrown.None? ==> |r.ops| == |decls|)
      && (forall k :: 0 <= k < |r.ops| ==> fromJson(decls[k].0, decls[k].1, patchType) == Success(r.ops[k]))
      && (r.thrown.Some? ==> |r.ops| < |decls| && fromJson(decls[|r.ops|].0, decls[|r.ops|].1, patchType) == Failure(r.thrown.value))
  {
    if decls != [] && fromJson(decls[0].0, decls[0].1, patchType).Success? {
      BuildCreatesInOrder(decls[1..], fromJson, patchType);
      var r := Build(decls, fromJson, patchType);
      var rest := Build(decls[1..], fromJson, patchType);
      assert r.ops == [r.ops[0]] + rest.ops;
      forall k | 1 <= k < |r.ops| ensures fromJson(decls[k].0, decls[k].1, patchType) == Success(r.ops[k]) {
        assert r.ops[k] == rest.ops[k - 1] && decls[k] == decls[1..][k - 1];
      }
      if r.thrown.Some? {
        assert decls[|r.ops|] == decls[1..][|rest.ops|];
      }
    }
  }

  /** Building from a concatenation builds the first part, then the second if the first did not throw. */
  lemma {:induction false} BuildAppend(a: seq<(string, Value)>, b: seq<(string, Value)>, fromJson: FromJson, patchType: string)
    ensures Build(a + b, fromJson, patchType) == Then(Build(a, fromJson, patchType), Build(b, fromJson, patchType))
  {
    if a == [] {
      assert a + b == b;
    } else {
      var ab := a + b;
      assert ab[0] == a[0] && ab[1..] == a[1..] + b;
      BuildAppend(a[1..], b, fromJson, patchType);
      match fromJson(a[0].0, a[0].1, patchType)
      case Failure(e) =>
        assert Build(ab, fromJson, patchType) == Appended([], Some(e)) == Build(a, fromJson, patchType);
      case Success(op) =>
        var ra, rb := Build(a[1..], fromJson, patchType), Build(b, fromJson, patchType);
        var rab := Then(ra, rb);
        assert Build(ab, fromJson, patchType) == Appended([op] + rab.ops, rab.thrown);
        assert Build(a, fromJson, patchType) == Appended([op] + ra.ops, ra.thrown);
        if ra.thrown.None? {
          assert [op] + (ra.ops + rb.ops) == ([op] + ra.ops) + rb.ops;
        }
    }
  }

  /**
   * With a `createFromJsonObject` that behaves as its tests assert, every
   * created operation carries its declaration's package name and the
   * resolver's type.
   */
  lemma BuiltOperationsAreAttributed(decls: seq<(string, Value)>, fromJson: FromJson, patchType: string)
    requires FollowsDeclarationContract(fromJson)
    ensures var r := Build(decls, fromJson, patchType);
      forall k :: 0 <= k < |r.ops| ==> r.ops[k].package.name == decls[k].0 && r.ops[k].patchType == patchType
  {
    var r := Build(decls, fromJson, patchType);
    BuildCreatesInOrder(decls, fromJson, patchType);
    forall k | 0 <= k < |r.ops| ensures r.ops[k].package.name == decls[k].0 && r.ops[k].patchType == patchType {
      assert fromJson(decls[k].0, decls[k].1, patchType).Success?;
    }
  }

  /** Building the first n packages' declarations builds the first n - 1, then the n-th package's list. */
  lemma BuildUpToStep(patches: seq<(string, Value)>, n: nat, fromJson: FromJson, patchType: string)
    requires 0 < n <= |patches|
    ensures Build(DeclarationsUpTo(patches, n), fromJson, patchType)
      == Then(Build(DeclarationsUpTo(patches, n - 1), fromJson, patchType), Build(PackageDeclarations(patches[n - 1]), fromJson, patchType))
  {
    BuildAppend(DeclarationsUpTo(patches, n - 1), PackageDeclarations(patches[n - 1]), fromJson, patchType);
  }

  /**
   * What the nested `foreach` of a resolver appends for a patches map: one
   * operation per declaration, in map order then list order, created from
   * that declaration with the resolver's type, until the first creation
   * that throws. An empty map appends nothing.
   */
  function Flatten(patches: seq<(string, Value)>, fromJson: FromJson, patchType: string): (r: Appended)
    ensures patches == [] ==> r == NothingAppended
    ensures |r.ops| <= |Declarations(patches)| == EntryCount(patches)
    ensures r.thrown.None? ==> |r.ops| == EntryCount(patches)
    ensures forall k :: 0 <= k < |r.ops| ==>
      fromJson(Declarations(patches)[k].0, Declarations(patches)[k].1, patchType) == Success(r.ops[k])
    ensures r.thrown.Some? ==>
      && |r.ops| < EntryCount(patches)
      && fromJson(Declarations(patches)[|r.ops|].0, Declarations(patches)[|r.ops|].1, patchType) == Failure(r.thrown.value)
  {
    DeclarationsCount(patches);
    BuildCreatesInOrder(Declarations(patches), fromJson, patchType);
    Build(Declarations(patches), fromJson, patchType)
  }

  /**
   * With a `createFromJsonObject` that behaves as its tests assert, every
   * operation a resolver appends has the resolver's type and is attributed
   * to a package named by a key of the map.
   */
  lemma FlattenedOperationsAreAttributed(patches: seq<(string, Value)>, fromJson: FromJson, patchType: string)
    requires FollowsDeclarationContract(fromJson)
    ensures forall op :: op in Flatten(patches, fromJson, patchType).ops ==> op.patchType == patchType && op.package.name in Keys(patches)
  {
    var r := Flatten(patches, fromJson, patchType);
    BuiltOperationsAreAttributed(Declarations(patches), fromJson, patchType);
    DeclarationNamesAreKeys(patches);
    forall op | op in r.ops ensures op.patchType == patchType && op.package.name in Keys(patches) {
      var k :| 0 <= k < |r.ops| && r.ops[k] == op;
      assert Declarations(patches)[k].0 in Keys(patches);
    }
  }

  /**
   * The nested `foreach` of both resolvers: for each package, for each
   * entry of its list, create an operation and add it to the collection.
   */
  method AddDeclarations(collection: PatchCollection, patches: seq<(string, Value)>, fromJson: FromJson, patchType: string)
    returns (thrown: Option<Exception>)
    modifies collection
    ensures collection.patchOperations == old(collection.patchOperations) + Build(Declarations(patches), fromJson, patchType).ops
    ensures thrown == Build(Declarations(patches), fromJson, patchType).thrown
  {
    ghost var start := collection.patchOperations;
    var i := 0;
    while i < |patches|
      invariant 0 <= i <= |patches|
      invariant Build(DeclarationsUpTo(patches, i), fromJson, patchType).thrown == None
      invariant collection.patchOperations == start + Build(DeclarationsUpTo(patches, i), fromJson, patchType).ops
    {
      ghost var before := collection.patchOperations;
      var t := AddPackageDeclarations(collection, patches[i], fromJson, patchType);
      AddedPackage(patches, i, fromJson, patchType, start, before, collection.patchOperations, t);
      if t.Some? {
        // The exception ends both loops; what was added so far stays.
        return t;
      }
      i := i + 1;
    }
    return None;
  }

  /** The inner `foreach`: one package's list, entry by entry. */
  method AddPackageDeclarations(collection: PatchCollection, package: (string, Value), fromJson: FromJson, patchType: string)
    returns (thrown: Option<Exception>)
    modifies collection
    ensures collection.patchOperations == old(collection.patchOperations) + Build(PackageDeclarations(package), fromJson, patchType).ops
    ensures thrown == Build(PackageDeclarations(package), fromJson, patchType).thrown
  {
    var packageName := package.0;
    var list := Iterate(package.1);
    ghost var decls := PackageDeclarations(package);
    var j := 0;
    while j < |list|
      invariant 0 <= j <= |list|
      invariant Build(decls[..j], fromJson, patchType).thrown == None
      invariant collection.patchOperations == old(collection.patchOperations) + Build(decls[..j], fromJson, patchType).ops
    {
      var created := fromJson(packageName, list[j].1, patchType);
      PackageDeclarationAt(package, j);
      BuiltEntry(decls, j, fromJson, patchType);
      if created.Failure? {
        return Some(created.error);
      }
      collection.AddPatch(created.value);
      j := j + 1;
    }
    assert decls[..|list|] == decls;
    return None;
  }

  /**
   * One turn of the outer loop: adding the i-th package's list after the
   * first i packages gives the first i + 1; if it threw, that is the
   * outcome of the whole loop.
   */
  lemma AddedPackage(patches: seq<(string, Value)>, i: nat, fromJson: FromJson, patchType: string,
                     start: seq<PatchOperation>, before: seq<PatchOperation>, after: seq<PatchOperation>, t: Option<Exception>)
    requires i < |patches|
    requires Build(DeclarationsUpTo(patches, i), fromJson, patchType).thrown == None
    requires before == start + Build(DeclarationsUpTo(patches, i), fromJson, patchType).ops
    requires after == before + Build(PackageDeclarations(patches[i]), fromJson, patchType).ops
    requires t == Build(PackageDeclarations(patches[i]), fromJson, patchType).thrown
    ensures after == start + Build(DeclarationsUpTo(patches, i + 1), fromJson, patchType).ops
    ensures t == Build(DeclarationsUpTo(patches, i + 1), fromJson, patchType).thrown
    ensures t.Some? ==> Build(Declarations(patches), fromJson, patchType) == Build(DeclarationsUpTo(patches, i + 1), fromJson, patchType)
  {
    BuildUpToStep(patches, i + 1, fromJson, patchType);
    ThenExtends(start, before, after, Build(DeclarationsUpTo(patches, i), fromJson, patchType), Build(PackageDeclarations(patches[i]), fromJson, patchType));
    if t.Some? {
      BuildStops(patches, i + 1, |patches|, fromJson, patchType);
    }
  }

  /**
   * One turn of the inner loop: after the first j declarations returned
   * normally, the j-th either extends them by its operation or throws, and
   * then nothing after it is built.
   */
  lemma BuiltEntry(decls: seq<(string, Value)>, j: nat, fromJson: FromJson, patchType: string)
    requires j < |decls|
    requires Build(decls[..j], fromJson, patchType).thrown == None
    ensures var created := fromJson(decls[j].0, decls[j].1, patchType);
      && (created.Success? ==>
            Build(decls[..j + 1], fromJson, patchType) == Appended(Build(decls[..j], fromJson, patchType).ops + [created.value], None))
      && (created.Failure? ==>
            Build(decls, fromJson, patchType) == Appended(Build(decls[..j], fromJson, patchType).ops, Some(created.error)))
  {
    assert decls[..j + 1] == decls[..j] + [decls[j]];
    BuildAppend(decls[..j], [decls[j]], fromJson, patchType);
    assert decls == decls[..j + 1] + decls[j + 1..];
    BuildAppend(decls[..j + 1], decls[j + 1..], fromJson, patchType);
  }

  /** A step after one that threw does not run. */
  lemma ThenStops(prior: Appended, step: Appended)
    requires prior.thrown.Some?
    ensures Then(prior, step) == prior
  {
  }

  /** Appending a step's operations after a prefix that returned normally is appending their chaining. */
  lemma ThenExtends(start: seq<PatchOperation>, before: seq<PatchOperation>, after: seq<PatchOperation>, prior: Appended, step: Appended)
    requires prior.thrown == None && before == start + prior.ops && after == before + step.ops
    ensures after == start + Then(prior, step).ops && Then(prior, step).thrown == step.thrown
  {
    assert start + prior.ops + step.ops == start + (prior.ops + step.ops);
  }

  /** Once the first n packages have thrown, the later packages change nothing. */
  lemma {:induction false} BuildStops(patches: seq<(string, Value)>, n: nat, m: nat, fromJson: FromJson, patchType: string)
    requires n <= m <= |patches|
    requires Build(DeclarationsUpTo(patches, n), fromJson, patchType).thrown.Some?
    ensures Build(DeclarationsUpTo(patches, m), fromJson, patchType) == Build(DeclarationsUpTo(patches, n), fromJson, patchType)
    decreases m
  {
    if m > n {
      BuildStops(patches, n, m - 1, fromJson, patchType);
      BuildStopsAtPackage(patches, m, fromJson, patchType);
    }
  }

  lemma BuildStopsAtPackage(patches: seq<(string, Value)>, m: nat, fromJson: FromJson, patchType: string)
    requires 0 < m <= |patches|
    requires Build(DeclarationsUpTo(patches, m - 1), fromJson, patchType).thrown.Some?
    ensures Build(DeclarationsUpTo(patches, m), fromJson, patchType) == Build(DeclarationsUpTo(patches, m - 1), fromJson, patchType)
  {
    BuildUpToStep(patches, m, fromJson, patchType);
    ThenStops(Build(DeclarationsUpTo(patches, m - 1), fromJson, patchType), Build(PackageDeclarations(patches[m - 1]), fromJson, patchType));
  }
}
