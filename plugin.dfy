/**
 * The plugin object (src/Patches.php): its activation, the gathering of
 * resolvers from resolver-provider capabilities, the one-shot resolution of
 * patches into the shared collection, and the recording of a package's
 * patches in its `extra` data.
 */
module Plugin {
  import opened Php
  import opened Operation
  import opened Collection
  import opened ResolverBase
  import RootComposer
  import PatchesFile

  /** The resolvers a capability can hand back. */
  datatype Resolver =
    | RootComposerResolver
    | PatchesFileResolver
      /** A resolver supplied by another plugin, known only by what it appends. */
    | OtherResolver(id: nat)

  /** One element of the array a capability's `getResolvers()` returns. */
  datatype Candidate = ResolverInstance(resolver: Resolver) | NotAResolver

  /** What a capability's `getResolvers()` returned. */
  datatype Returned = NotAnArray | AnArray(items: seq<Candidate>)

  /** A resolver-provider capability: its class name and what `getResolvers()` returns. */
  datatype Capability = Capability(className: string, returned: Returned)

  /** Every element is a resolver. */
  predicate AllResolvers(items: seq<Candidate>) {
    forall j :: 0 <= j < |items| ==> items[j].ResolverInstance?
  }

  /** The capability passes both checks of `getPatchResolvers`. */
  predicate ValidCapability(c: Capability) {
    c.returned.AnArray? && AllResolvers(c.returned.items)
  }

  function ResolversOf(items: seq<Candidate>): (r: seq<Resolver>)
    requires AllResolvers(items)
    ensures |r| == |items| && forall j :: 0 <= j < |items| ==> items[j] == ResolverInstance(r[j])
  {
    seq(|items|, j requires 0 <= j < |items| => items[j].resolver)
  }

  /** The resolvers one capability contributes, or the exception its check throws. */
  function CapabilityResolvers(c: Capability): (r: Result<seq<Resolver>, Exception>)
    ensures r.Success? <==> ValidCapability(c)
    ensures c.returned.NotAnArray? ==> r == Failure(UnexpectedValueException(
      "Plugin capability " + c.className + " failed to return an array from getResolvers()."))
    ensures c.returned.AnArray? && !AllResolvers(c.returned.items) ==> r == Failure(UnexpectedValueException(
      "Plugin capability " + c.className + " returned an invalid value."))
  {
    match c.returned
    case NotAnArray =>
      Failure(UnexpectedValueException("Plugin capability " + c.className + " failed to return an array from getResolvers()."))
    case AnArray(items) =>
      if !AllResolvers(items) then
        Failure(UnexpectedValueException("Plugin capability " + c.className + " returned an invalid value."))
      else Success(ResolversOf(items))
  }

  /** The outcome of the capability loop after the first n capabilities. */
  function CollectUpTo(caps: seq<Capability>, n: nat): Result<seq<Resolver>, Exception>
    requires n <= |caps|
  {
    if n == 0 then Success([])
    else
      match CollectUpTo(caps, n - 1)
      case Failure(e) => Failure(e)
      case Success(rs) =>
        match CapabilityResolvers(caps[n - 1])
        case Failure(e) => Failure(e)
        case Success(more) => Success(rs + more)
  }

  /** What `getPatchResolvers` returns or throws for the given capabilities. */
  function CollectResolvers(caps: seq<Capability>): Result<seq<Resolver>, Exception> {
    CollectUpTo(caps, |caps|)
  }

  /** The concatenation of every capability's resolvers, in capability order. */
  function Provided(caps: seq<Capability>): seq<Resolver>
    requires forall i :: 0 <= i < |caps| ==> ValidCapability(caps[i])
  {
    if caps == [] then []
    else
      assert ValidCapability(caps[0]);
      ResolversOf(caps[0].returned.items) + Provided(caps[1..])
  }

  lemma {:induction false} ProvidedSnoc(caps: seq<Capability>, c: Capability)
    requires forall i :: 0 <= i < |caps| ==> ValidCapability(caps[i])
    requires ValidCapability(c)
    ensures Provided(caps + [c]) == Provided(caps) + ResolversOf(c.returned.items)
  {
    if caps == [] {
      assert caps + [c] == [c];
      assert [c][1..] == [];
    } else {
      assert (caps + [c])[1..] == caps[1..] + [c];
      ProvidedSnoc(caps[1..], c);
      var head := ResolversOf(caps[0].returned.items);
      assert head + (Provided(caps[1..]) + ResolversOf(c.returned.items))
          == (head + Provided(caps[1..])) + ResolversOf(c.returned.items);
    }
  }

  /**
   * `getPatchResolvers` succeeds exactly when every capability returns an
   * array of resolvers, and then returns all their resolvers, concatenated
   * in capability order.
   */
  lemma {:induction false} CollectSucceedsIff(caps: seq<Capability>, n: nat)
    requires n <= |caps|
    ensures CollectUpTo(caps, n).Success? <==> forall i :: 0 <= i < n ==> ValidCapability(caps[i])
    ensures CollectUpTo(caps, n).Success? ==> CollectUpTo(caps, n).value == Provided(caps[..n])
  {
    if n > 0 {
      CollectSucceedsIff(caps, n - 1);
      if CollectUpTo(caps, n - 1).Success? && ValidCapability(caps[n - 1]) {
        assert caps[..n] == caps[..n - 1] + [caps[n - 1]];
        ProvidedSnoc(caps[..n - 1], caps[n - 1]);
      }
    }
  }

  /**
   * When `getPatchResolvers` throws, the exception is the one the first
   * failing capability's check throws; every capability before it passed.
   */
  lemma {:induction false} CollectFailsAtFirstInvalid(caps: seq<Capability>, n: nat)
    requires n <= |caps|
    requires CollectUpTo(caps, n).Failure?
    ensures exists i :: (0 <= i < n && !ValidCapability(caps[i])
      && (forall j :: 0 <= j < i ==> ValidCapability(caps[j]))
      && CollectUpTo(caps, n).error == CapabilityResolvers(caps[i]).error)
  {
    var i := FirstInvalid(caps, n);
  }

  /** Helper for CollectFailsAtFirstInvalid: the index of the failing capability. */
  lemma {:induction false} FirstInvalid(caps: seq<Capability>, n: nat) returns (i: nat)
    requires n <= |caps|
    requires CollectUpTo(caps, n).Failure?
    ensures i < n && !ValidCapability(caps[i]) && forall j :: 0 <= j < i ==> ValidCapability(caps[j])
    ensures CollectUpTo(caps, n).error == CapabilityResolvers(caps[i]).error
  {
    if CollectUpTo(caps, n - 1).Failure? {
      i := FirstInvalid(caps, n - 1);
      assert CollectUpTo(caps, n) == CollectUpTo(caps, n - 1);
    } else {
      CollectSucceedsIff(caps, n - 1);
      var rs := CollectUpTo(caps, n - 1).value;
      assert CollectUpTo(caps, n - 1) == Success(rs);
      i := n - 1;
      var c := CapabilityResolvers(caps[i]);
      assert c.Failure?;
      assert CollectUpTo(caps, n) == Failure(c.error);
    }
  }

  /**
   * The inputs a resolver reads: the root package's `extra` data, the
   * filesystem's answer for the patches file and its decoded content, the
   * conversion of declarations to operations, and what each resolver
   * supplied by another plugin appends.
   */
  datatype Environment = Environment(
    rootExtra: seq<(string, Value)>,
    patchesFileReadable: bool,
    patchesFile: PatchesFile.Decoded,
    fromJson: FromJson,
    other: nat -> Appended)

  /** What one resolver's `resolve` appends and throws. */
  function ResolverGathered(r: Resolver, env: Environment): Appended {
    match r
    case RootComposerResolver => RootComposer.Gathered(env.rootExtra, env.fromJson)
    case PatchesFileResolver => PatchesFile.Gathered(env.rootExtra, env.patchesFileReadable, env.patchesFile, env.fromJson)
    case OtherResolver(id) => env.other(id)
  }

  /** The resolver loop after the first n resolvers: each runs only if the ones before returned. */
  function ChainUpTo(rs: seq<Resolver>, n: nat, env: Environment): Appended
    requires n <= |rs|
  {
    if n == 0 then NothingAppended else Then(ChainUpTo(rs, n - 1, env), ResolverGathered(rs[n - 1], env))
  }

  /**
   * What one run of the resolver loop of `resolvePatches` does: the
   * exception of `getPatchResolvers`, or the resolvers run in the order it
   * returned them.
   */
  function Resolution(caps: seq<Capability>, env: Environment): (r: Appended)
    ensures r.thrown.None? <==>
      && (forall i :: 0 <= i < |caps| ==> ValidCapability(caps[i]))
      && (forall k :: 0 <= k < |Provided(caps)| ==> ResolverGathered(Provided(caps)[k], env).thrown.None?)
    ensures r.thrown.None? ==> |r.ops| == TotalAppended(Provided(caps), |Provided(caps)|, env)
    ensures (exists i :: 0 <= i < |caps| && !ValidCapability(caps[i])) ==>
      r.ops == [] && r.thrown.Some? && r.thrown.value.UnexpectedValueException?
  {
    CollectSucceedsIff(caps, |caps|);
    assert caps[..|caps|] == caps;
    match CollectResolvers(caps)
    case Failure(e) =>
      CollectFailsAtFirstInvalid(caps, |caps|);
      Appended([], Some(e))
    case Success(rs) =>
      ChainCompletesIff(rs, |rs|, env);
      ChainUpTo(rs, |rs|, env)
  }

  /**
   * The resolver loop completes exactly when every resolver returns
   * normally, and then it has appended each resolver's operations in
   * resolver order.
   */
  lemma {:induction false} ChainCompletesIff(rs: seq<Resolver>, n: nat, env: Environment)
    requires n <= |rs|
    ensures ChainUpTo(rs, n, env).thrown.None? <==> forall i :: 0 <= i < n ==> ResolverGathered(rs[i], env).thrown.None?
    ensures ChainUpTo(rs, n, env).thrown.None? ==> |ChainUpTo(rs, n, env).ops| == TotalAppended(rs, n, env)
  {
    if n > 0 {
      ChainCompletesIff(rs, n - 1, env);
    }
  }

  /** The number of operations the first n resolvers append between them. */
  function TotalAppended(rs: seq<Resolver>, n: nat, env: Environment): nat
    requires n <= |rs|
  {
    if n == 0 then 0 else TotalAppended(rs, n - 1, env) + |ResolverGathered(rs[n - 1], env).ops|
  }

  /** Once the loop has thrown, the later resolvers do not run. */
  lemma {:induction false} ChainStops(rs: seq<Resolver>, n: nat, m: nat, env: Environment)
    requires n <= m <= |rs|
    requires ChainUpTo(rs, n, env).thrown.Some?
    ensures ChainUpTo(rs, m, env) == ChainUpTo(rs, n, env)
    decreases m
  {
    if m > n {
      ChainStops(rs, n, m - 1, env);
    }
  }

  /**
   * One turn of the resolver loop: running the i-th resolver after the
   * first i gives the first i + 1; if it threw, that is the outcome of the
   * whole loop.
   */
  lemma RanResolver(rs: seq<Resolver>, i: nat, env: Environment,
                    start: seq<PatchOperation>, before: seq<PatchOperation>, after: seq<PatchOperation>, t: Option<Exception>)
    requires i < |rs|
    requires ChainUpTo(rs, i, env).thrown == None && before == start + ChainUpTo(rs, i, env).ops
    requires after == before + ResolverGathered(rs[i], env).ops && t == ResolverGathered(rs[i], env).thrown
    ensures after == start + ChainUpTo(rs, i + 1, env).ops && t == ChainUpTo(rs, i + 1, env).thrown
    ensures t.Some? ==> ChainUpTo(rs, |rs|, env) == ChainUpTo(rs, i + 1, env)
  {
    ThenExtends(start, before, after, ChainUpTo(rs, i, env), ResolverGathered(rs[i], env));
    if t.Some? {
      ChainStops(rs, i + 1, |rs|, env);
    }
  }

  /** `$resolver->resolve($this->patchCollection, $event)`. */
  method RunResolver(r: Resolver, collection: PatchCollection, env: Environment) returns (thrown: Option<Exception>)
    modifies collection
    ensures collection.patchOperations == old(collection.patchOperations) + ResolverGathered(r, env).ops
    ensures thrown == ResolverGathered(r, env).thrown
  {
    match r
    case RootComposerResolver =>
      thrown := RootComposer.Resolve(collection, env.rootExtra, env.fromJson);
    case PatchesFileResolver =>
      thrown := PatchesFile.Resolve(collection, env.rootExtra, env.patchesFileReadable, env.patchesFile, env.fromJson);
    case OtherResolver(id) =>
      var appended := env.other(id);
      var k := 0;
      while k < |appended.ops|
        invariant 0 <= k <= |appended.ops|
        invariant collection.patchOperations == old(collection.patchOperations) + appended.ops[..k]
      {
        collection.AddPatch(appended.ops[k]);
        assert appended.ops[..k + 1] == appended.ops[..k] + [appended.ops[k]];
        k := k + 1;
      }
      assert appended.ops[..k] == appended.ops;
      thrown := appended.thrown;
  }

  /** The resolver loop of `resolvePatches`: runs each resolver in turn until one throws. */
  method RunResolvers(rs: seq<Resolver>, collection: PatchCollection, env: Environment) returns (thrown: Option<Exception>)
    modifies collection
    ensures collection.patchOperations == old(collection.patchOperations) + ChainUpTo(rs, |rs|, env).ops
    ensures thrown == ChainUpTo(rs, |rs|, env).thrown
  {
    ghost var start := collection.patchOperations;
    var i := 0;
    while i < |rs|
      invariant 0 <= i <= |rs|
      invariant ChainUpTo(rs, i, env).thrown == None
      invariant collection.patchOperations == start + ChainUpTo(rs, i, env).ops
    {
      ghost var before := collection.patchOperations;
      var t := RunResolver(rs[i], collection, env);
      RanResolver(rs, i, env, start, before, collection.patchOperations, t);
      if t.Some? {
        return t;
      }
      i := i + 1;
    }
    return None;
  }

  /** The kinds of option the plugin declares. */
  datatype OptionType = BoolOption | ListOption

  /** A default value of an option. */
  datatype ConfigValue = BoolValue(b: bool) | ListValue(items: seq<string>)

  /** One declared option: its type and default. */
  datatype ConfigOption = ConfigOption(optionType: OptionType, defaultValue: ConfigValue)

  /** The option declarations `activate` installs. */
  function DefaultConfiguration(): seq<(string, ConfigOption)> {
    [ ("patching-enabled", ConfigOption(BoolOption, BoolValue(true))),
      ("stop-on-patch-failure", ConfigOption(BoolOption, BoolValue(true))),
      ("ignore-packages", ConfigOption(ListOption, ListValue([]))) ]
  }

  /**
   * Patching is enabled and stops on the first failure by default, no
   * package is ignored, and every default has its option's type.
   */
  lemma DefaultConfigurationValues()
    ensures Lookup(DefaultConfiguration(), "patching-enabled") == Some(ConfigOption(BoolOption, BoolValue(true)))
    ensures Lookup(DefaultConfiguration(), "stop-on-patch-failure") == Some(ConfigOption(BoolOption, BoolValue(true)))
    ensures Lookup(DefaultConfiguration(), "ignore-packages") == Some(ConfigOption(ListOption, ListValue([])))
    ensures forall i :: 0 <= i < |DefaultConfiguration()| ==>
      (DefaultConfiguration()[i].1.optionType == BoolOption <==> DefaultConfiguration()[i].1.defaultValue.BoolValue?)
  {
    var c := DefaultConfiguration();
    LookupCons(c[0], c[1..], "stop-on-patch-failure");
    LookupCons(c[1], c[2..], "stop-on-patch-failure");
    LookupCons(c[0], c[1..], "ignore-packages");
    LookupCons(c[1], c[2..], "ignore-packages");
    assert c == [c[0]] + c[1..] && c[1..] == [c[1]] + c[2..];
  }

  /** A value in a package's `extra` data: plain data, or the list of patches recorded for it. */
  datatype ExtraValue = Plain(value: Value) | PatchList(patches: seq<PatchOperation>)

  /** The installed copy of a package in the local repository, whose `extra` data is rewritten. */
  class LocalPackage {
    var extra: seq<(string, ExtraValue)>

    constructor (extra: seq<(string, ExtraValue)>)
      ensures this.extra == extra
    {
      this.extra := extra;
    }
  }

  /**
   * `getPatchesForPackage($name)` of the collection: the operations for
   * the named package. It is not part of the modelled collection, so it is
   * a parameter.
   */
  type PackageQuery = (seq<PatchOperation>, string) -> seq<PatchOperation>

  /**
   * When the query selects by package name, the rewritten `extra` holds
   * under `patches` exactly that package's operations, in collection order,
   * each as often as it was added; every other key keeps its value and the
   * keys keep their order.
   */
  lemma RecordedPatches(extra: seq<(string, ExtraValue)>, ops: seq<PatchOperation>, name: string)
    ensures var selected := Select(ops, ForPackage(name));
      var r := Assign(extra, "patches", PatchList(selected));
      && Lookup(r, "patches") == Some(PatchList(selected))
      && SubsequenceOf(selected, ops)
      && (forall op :: multiset(selected)[op] == if op.package.name == name then multiset(ops)[op] else 0)
      && (forall k :: k != "patches" ==> Lookup(r, k) == Lookup(extra, k))
      && Keys(r) == if HasKey(extra, "patches") then Keys(extra) else Keys(extra) + ["patches"]
  {
    var selected := Select(ops, ForPackage(name));
    SelectKeepsMatches(ops, ForPackage(name));
    AssignFindsKey(extra, "patches", PatchList(selected));
    AssignKeys(extra, "patches", PatchList(selected));
    forall k | k != "patches" ensures Lookup(Assign(extra, "patches", PatchList(selected)), k) == Lookup(extra, k) {
      AssignKeepsOthers(extra, "patches", PatchList(selected), k);
    }
  }

  class Patches {
    /** The operations gathered by the resolvers; null until activation. */
    var patchCollection: PatchCollection?
    /** Set once a run of the resolver loop has completed. */
    var patchesResolved: bool
    /** The declared options. */
    var configuration: seq<(string, ConfigOption)>

    /** A plugin object before activation: no collection, nothing resolved. */
    constructor ()
      ensures patchCollection == null && !patchesResolved && configuration == []
    {
      patchCollection := null;
      patchesResolved := false;
      configuration := [];
    }

    /**
     * `activate`: a fresh, empty collection and the default option
     * declarations. The resolved flag is left as it was.
     */
    method Activate()
      modifies this
      ensures patchCollection != null && fresh(patchCollection) && patchCollection.patchOperations == []
      ensures configuration == DefaultConfiguration()
      ensures patchesResolved == old(patchesResolved)
    {
      patchCollection := new PatchCollection();
      configuration := DefaultConfiguration();
    }

    /**
     * `getPatchResolvers`: checks each capability in turn, throwing for the
     * first that does not return an array of resolvers, and concatenates
     * their resolvers in capability order.
     */
    method GetPatchResolvers(caps: seq<Capability>) returns (r: Result<seq<Resolver>, Exception>)
      ensures r == CollectResolvers(caps)
    {
      var resolvers: seq<Resolver> := [];
      var i := 0;
      while i < |caps|
        invariant 0 <= i <= |caps|
        invariant CollectUpTo(caps, i) == Success(resolvers)
      {
        var capability := caps[i];
        if capability.returned.NotAnArray? {
          CollectStopsAt(caps, i + 1, |caps|);
          return Failure(UnexpectedValueException("Plugin capability " + capability.className + " failed to return an array from getResolvers()."));
        }
        var newResolvers := capability.returned.items;
        var j := 0;
        while j < |newResolvers|
          invariant 0 <= j <= |newResolvers|
          invariant AllResolvers(newResolvers[..j])
        {
          if newResolvers[j].NotAResolver? {
            assert !AllResolvers(newResolvers);
            CollectStopsAt(caps, i + 1, |caps|);
            return Failure(UnexpectedValueException("Plugin capability " + capability.className + " returned an invalid value."));
          }
          assert newResolvers[..j + 1] == newResolvers[..j] + [newResolvers[j]];
          j := j + 1;
        }
        assert newResolvers[..j] == newResolvers;
        resolvers := resolvers + ResolversOf(newResolvers);
        i := i + 1;
      }
      return Success(resolvers);
    }

    /**
     * `resolvePatches`: does nothing once patches are resolved. Otherwise it
     * runs every resolver `getPatchResolvers` returns, in order, on the
     * shared collection, and sets the resolved flag only when all of them
     * returned; an exception leaves the flag unset, so a later call runs
     * the resolvers again.
     */
    method ResolvePatches(caps: seq<Capability>, env: Environment) returns (thrown: Option<Exception>)
      requires patchCollection != null
      modifies this, patchCollection
      ensures patchCollection == old(patchCollection) && configuration == old(configuration)
      ensures old(patchesResolved) ==>
        patchesResolved && patchCollection.patchOperations == old(patchCollection.patchOperations) && thrown == None
      ensures !old(patchesResolved) ==>
        && patchCollection.patchOperations == old(patchCollection.patchOperations) + Resolution(caps, env).ops
        && thrown == Resolution(caps, env).thrown
        && patchesResolved == thrown.None?
    {
      if patchesResolved {
        return None;
      }
      var resolvers := GetPatchResolvers(caps);
      if resolvers.Failure? {
        return Some(resolvers.error);
      }
      thrown := RunResolvers(resolvers.value, patchCollection, env);
      if thrown.Some? {
        return thrown;
      }
      patchesResolved := true;
    }

    /**
     * `applyPatchesToPackage`: when the query finds no operations for the
     * package, its `extra` data is left alone; otherwise `extra['patches']`
     * is reset to an empty list, the found operations are appended one by
     * one, and the result replaces the package's `extra` data.
     */
    method ApplyPatchesToPackage(package: Package, localPackage: LocalPackage, patchesForPackage: PackageQuery)
      requires patchCollection != null
      modifies localPackage
      ensures var selected := patchesForPackage(patchCollection.patchOperations, package.name);
        && (selected == [] ==> localPackage.extra == old(localPackage.extra))
        && (selected != [] ==> localPackage.extra == Assign(old(localPackage.extra), "patches", PatchList(selected)))
    {
      var selected := patchesForPackage(patchCollection.patchOperations, package.name);
      if |selected| == 0 {
        return;
      }
      var original := localPackage.extra;
      var extra := Assign(original, "patches", PatchList([]));
      var k := 0;
      while k < |selected|
        invariant 0 <= k <= |selected|
        invariant extra == Assign(original, "patches", PatchList(selected[..k]))
      {
        AssignFindsKey(original, "patches", PatchList(selected[..k]));
        var recorded := Lookup(extra, "patches").value.patches;
        extra := Assign(extra, "patches", PatchList(recorded + [selected[k]]));
        AssignTwice(original, "patches", PatchList(selected[..k]), PatchList(recorded + [selected[k]]));
        assert selected[..k + 1] == selected[..k] + [selected[k]];
        k := k + 1;
      }
      assert selected[..k] == selected;
      localPackage.extra := extra;
    }
  }

  /** Once the capability loop has thrown, the later capabilities change nothing. */
  lemma {:induction false} CollectStopsAt(caps: seq<Capability>, n: nat, m: nat)
    requires n <= m <= |caps|
    requires CollectUpTo(caps, n).Failure?
    ensures CollectUpTo(caps, m) == CollectUpTo(caps, n)
    decreases m
  {
    if m > n {
      CollectStopsAt(caps, n, m - 1);
    }
  }
}
