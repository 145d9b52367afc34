# composer-patches: the patch-declaration pipeline in Dafny

This project models the core of the Composer plugin `cweagans/composer-patches`:
how patch declarations become typed values, how they are gathered into one
ordered collection, and how the plugin runs resolution once and records a
package's patches in its `extra` data.

The model has one module per source file, plus a module for PHP's own values:

- `Php` (`php.dfy`): decoded JSON values, the exceptions the code throws, and
  ordered PHP arrays as sequences of key/value pairs. It covers `$a[$key]`,
  `array_key_exists`, `isset`, `$a[$key] = $v` and `foreach` over a value.
- `PatchValue` (`patch.dfy`, src/Patch.php): the `Patch` value. Its smart
  constructor checks the hash and defaults the patch level. `isValidSha1` is
  modelled as a left-to-right scan and proved equal to "forty hex digits in a
  row somewhere in the string".
- `Operation` (`patch_operation.dfy`, src/Operation/PatchOperation.php): the
  `PatchOperation` value, its type check and `__toString`.
- `Collection` (`patch_collection.dfy`, src/PatchCollection.php): the
  append-only `PatchCollection` class and its type filter.
- `ResolverBase` (`resolver_base.dfy`): the nested `foreach` that both
  resolvers share. It turns a `package => [declaration, ...]` map into
  operations, appending them to the collection in map order, then list order,
  up to the first exception. `Flatten` is the specification, and
  `AddDeclarations` is the loop proved against it.
- `RootComposer` (`root_composer.dfy`, src/Resolvers/RootComposer.php) and
  `PatchesFile` (`patches_file.dfy`, src/Resolvers/PatchesFile.php): the two
  resolvers. Each has a `Gathered` function stating what it appends or throws,
  and a `Resolve` method proved to do exactly that to the shared collection.
- `Plugin` (`plugin.dfy`, src/Patches.php): the plugin object.
  - `activate` and the default option declarations.
  - `getPatchResolvers`, which validates and concatenates the capabilities'
    resolver lists.
  - The one-shot `patchesResolved` latch in `resolvePatches`.
  - The rebuild of a package's `extra['patches']` in `applyPatchesToPackage`.

An exception is modelled as a value. A resolver's outcome is an `Appended`:
the operations it added, in order, and the exception it ended with, if any.
Operations added before an exception stay in the collection, as they do in
PHP.

Three calls have no definition in the source files, so they are parameters of
the model:

- `Patch::createFromJsonObject` is the function type `ResolverBase.FromJson`.
  The predicate `ResolverBase.FollowsDeclarationContract` states what its unit
  tests check, and only lemmas assume it. A created operation carries the
  package name, the type, and the declaration's description and url. An
  InvalidPatchException raised for a declaration that lacks a description or a
  url carries the message 'All patches must have a description and URL.'. The
  tests check that message only when the exception is raised, so the predicate
  does not require a failure.
- `PatchCollection::getPatchesForPackage` is the function type
  `Plugin.PackageQuery`.
- A resolver supplied by another plugin is known only by what it appends and
  throws (`Environment.other`).

## Notes on the code

- The hash check is the unanchored `/[a-fA-F0-9]{40}/`. Longer strings that
  contain forty hex digits in a row are accepted
  (`PatchValue.SurroundedHashAccepted`). A missing or empty hash is rejected,
  because the constructor has no value that skips the check.
- `applyPatchesToPackage` records every operation that the query returns for
  the package. It applies nothing.
- The patches-file resolver switches itself off with an early return in
  `resolve`. `resolvePatches` never consults `isEnabled`.

## Model

| member | source | states |
|---|---|---|
| PatchValue.NewPatch | src/Patch.php:56-71 | Construction succeeds iff the hash contains forty hex digits in a row. Otherwise it fails with InvalidArgumentException, whose message is "Invalid SHA-1 hash supplied for patch with url " followed by the url. A built patch keeps the description, url and hash. A null patch level becomes 'auto', and any other level, including 0, is kept unchanged. |
| PatchValue.ScanFindsRun | src/Patch.php:111-114 | The left-to-right scan, started with some hex digits already seen, succeeds iff a window of forty hex digits exists that may start in those already-seen digits. |
| PatchValue.IsValidSha1 | src/Patch.php:111-114 | `isValidSha1` holds iff the string contains forty consecutive characters of `[a-fA-F0-9]` somewhere. |
| PatchValue.ShortHashRejected | src/Patch.php:111-114 | Every string shorter than forty characters is rejected. |
| PatchValue.FortyCharacterHash | src/Patch.php:111-114 | A forty-character string is accepted iff every character is a hex digit. |
| PatchValue.SurroundedHashAccepted | src/Patch.php:111-114 | The pattern is unanchored: any prefix and suffix around an accepted hash is accepted. |
| Operation.NewPatchOperation | src/Operation/PatchOperation.php:55-66 | Construction succeeds iff the type is 'root' or 'dependency'. Any other type fails with exactly "Invalid patch type specified: " followed by the type. A built operation returns its package, patch and type unchanged, and its job type is 'patch'. |
| Operation.PatchOperation.ToString | src/Operation/PatchOperation.php:109-113 | The rendering is "Patching ", the package name, ": ", the description, " (", the url and ")." in that order, at those positions, with nothing else. |
| Operation.ConstructedOperationIsTyped | src/Operation/PatchOperation.php:62-65 | Every constructed operation's type is one of the two constants. |
| Operation.ToStringIgnoresType | src/Operation/PatchOperation.php:109-113 | The rendering does not depend on the operation's type. |
| Collection.Select | src/PatchCollection.php:33-40 | The `array_filter` keeps no more operations than it is given, and every operation it keeps matches the criterion. |
| Collection.SelectKeepsMatches | src/PatchCollection.php:33-39 | Filtering keeps the matching operations in their original order (a subsequence), each exactly as often as it occurs, and nothing else. |
| Collection.SelectAppend | src/PatchCollection.php:33-39 | Filtering a concatenation filters each part and concatenates the results. |
| Collection.TypeSelectionsPartition | src/PatchCollection.php:29-45 | When every operation has one of the two admitted types, the root and dependency selections together count every operation. |
| Collection.PatchCollection.constructor | src/PatchCollection.php:12 | A new collection holds no operations. |
| Collection.PatchCollection.AddPatch | src/PatchCollection.php:19-22 | Adding appends exactly the given operation at the end. Earlier operations and their order are unchanged, and nothing is deduplicated. |
| Collection.PatchCollection.GetPatches | src/PatchCollection.php:29-50 | For 'root' or 'dependency', the result is a subsequence holding each operation of that type exactly as often as it was added, and nothing else. For 'all' or any other argument, it is every operation in insertion order. |
| Collection.CollectionTestCounts | tests/unit/PatchCollectionTest.php:19-34 | Three root and three dependency operations give six in all and three of each type. |
| ResolverBase.DeclarationsCount | src/Resolvers/RootComposer.php:32-37 | The nested loop visits one declaration per list entry. Their total is the sum of the list lengths, and a package whose value is not an array contributes none. |
| ResolverBase.DeclarationNamesAreKeys | src/Resolvers/RootComposer.php:32-34 | Every declaration is attributed to a package name that is a key of the map. |
| ResolverBase.BuildCreatesInOrder | src/Resolvers/RootComposer.php:33-36 | The k-th operation built is the one created from the k-th declaration. Building covers every declaration unless a creation throws. If one throws, its exception is the one from the first declaration not built. |
| ResolverBase.BuildAppend | src/Resolvers/RootComposer.php:32-37 | Building a concatenation builds the first part, and then the second part only if the first did not throw. |
| ResolverBase.BuiltOperationsAreAttributed | src/Resolvers/RootComposer.php:34 | If creation behaves as its tests assert, each built operation carries its declaration's package name and the resolver's type. |
| ResolverBase.Flatten | src/Resolvers/RootComposer.php:32-37 | An empty map appends nothing. At most one operation is appended per entry, and exactly one per entry when nothing throws. The k-th operation is the one created from the k-th declaration in map-then-list order. A thrown exception is the one from the first declaration not built. |
| ResolverBase.FlattenedOperationsAreAttributed | src/Resolvers/RootComposer.php:32-37 | If creation behaves as its tests assert, every appended operation has the resolver's type and a package name that is a key of the map. |
| ResolverBase.AddDeclarations | src/Resolvers/PatchesFile.php:44-49 | The nested `foreach` leaves the collection's old operations followed by exactly the built operations of every declaration. It ends with the exception that stopped it, if any. |
| ResolverBase.AddPackageDeclarations | src/Resolvers/RootComposer.php:33-36 | The inner `foreach` appends exactly the operations built from one package's list and ends with the exception that stopped it, if any. |
| RootComposer.Gathered | src/Resolvers/RootComposer.php:22-38 | An unset or null `extra['patches']` appends nothing. Otherwise the result is the flattening of that map as root patches, with one operation per entry when nothing throws. |
| RootComposer.Resolve | src/Resolvers/RootComposer.php:22-38 | The collection becomes its old operations followed by what Gathered describes, and the exception thrown is Gathered's. |
| RootComposer.GatheredOperationsAreRootPatches | src/Resolvers/RootComposer.php:17-34 | If creation behaves as its tests assert, every appended operation is a root patch of a package named in `extra['patches']`. |
| RootComposer.EmptyMapAddsNothing | tests/unit/RootComposerResolverTest.php:49-56 | A set but empty `patches` map appends nothing. |
| RootComposer.OneEntryAddsOne | tests/unit/RootComposerResolverTest.php:58-73 | A map with one package and one convertible entry appends exactly the operation created from it. |
| PatchesFile.JsonErrorMessagesDistinct | src/Resolvers/PatchesFile.php:68-93 | Different listed error codes get different messages. |
| PatchesFile.JsonErrorMessage | src/Resolvers/PatchesFile.php:68-93 | The message mapping is total, and a code gets "Unknown error." exactly when the switch does not list it. |
| PatchesFile.ReadPatchesFile | src/Resolvers/PatchesFile.php:61-105 | Reading succeeds iff decoding reported no error and the document has a top-level `patches` key. It then returns exactly the value under that key. A decoding error throws InvalidPatchesFileException with that code's message, which for a syntax error is "Syntax error, malformed JSON.". A document without the key throws "No patches found.". |
| PatchesFile.Gathered | src/Resolvers/PatchesFile.php:27-50 | Without a `patches-file` key and a readable file, nothing is appended. A read error appends nothing and throws. Otherwise the file's `patches` map is flattened as root patches. |
| PatchesFile.Resolve | src/Resolvers/PatchesFile.php:27-50 | The collection becomes its old operations followed by what Gathered describes, and the exception thrown is Gathered's. |
| PatchesFile.ReadErrorAddsNothing | src/Resolvers/PatchesFile.php:42-49 | A decoding error or a missing `patches` key adds nothing and surfaces as InvalidPatchesFileException. |
| PatchesFile.GatheredFromFile | src/Resolvers/PatchesFile.php:22-49 | When reading succeeds, one operation per entry is appended if nothing throws. If creation behaves as its tests assert, each operation is a root patch of a package the file names. |
| Plugin.CapabilityResolvers | src/Patches.php:139-150 | A capability contributes its resolvers iff it returned an array of resolvers. A non-array throws UnexpectedValueException with the "failed to return an array from getResolvers()." message naming the class. An array with a non-resolver throws UnexpectedValueException with the "returned an invalid value." message. |
| Plugin.ProvidedSnoc | src/Patches.php:150 | Concatenating the resolver lists of one more capability appends its list at the end. |
| Plugin.CollectSucceedsIff | src/Patches.php:132-154 | Gathering resolvers succeeds iff every capability passes both checks. It then returns all their resolvers concatenated in capability order. |
| Plugin.CollectFailsAtFirstInvalid | src/Patches.php:137-148 | A failure is the exception of the first capability that fails a check, and every capability before it passed. |
| Plugin.Resolution | src/Patches.php:179-181 | One run of the resolver loop, including `getPatchResolvers`, completes iff every capability passes both checks and every provided resolver returns normally. The operations it then appends number the sum of what each resolver appends. If any capability fails a check, nothing is appended and an UnexpectedValueException is thrown. |
| Plugin.ChainCompletesIff | src/Patches.php:179-181 | The resolver loop completes iff every resolver returns normally. The operations it then appends number the sum of what each resolver appends. |
| Plugin.ChainStops | src/Patches.php:179-181 | Once a resolver has thrown, later resolvers do not run. |
| Plugin.RunResolver | src/Patches.php:180 | Running a resolver appends exactly what its resolution gathers and throws what it throws. |
| Plugin.RunResolvers | src/Patches.php:179-181 | The resolver loop appends each resolver's operations in the order given, until the first exception. |
| Plugin.DefaultConfigurationValues | src/Patches.php:75-93 | By default 'patching-enabled' and 'stop-on-patch-failure' are boolean options with default true, and 'ignore-packages' is a list option with default empty. Every default has its option's type. |
| Plugin.RecordedPatches | src/Patches.php:234-249 | When the query selects by package name, `extra['patches']` holds exactly that package's operations, in collection order and with multiplicity. Every other key keeps its value, and key order is kept, with a new `patches` key added at the end. |
| Plugin.Patches.constructor | src/Patches.php:56-61 | Before activation there is no collection and nothing is resolved. |
| Plugin.Patches.Activate | src/Patches.php:66-95 | Activation installs a fresh, empty collection and the default option declarations, and leaves the resolved flag as it was. |
| Plugin.Patches.GetPatchResolvers | src/Patches.php:132-154 | The loop returns exactly what CollectResolvers specifies: the concatenated resolvers, or the first failing capability's exception. |
| Plugin.Patches.ResolvePatches | src/Patches.php:171-184 | Once resolved, a call changes nothing. Otherwise the collection gains exactly the resolution's operations after its old ones, the call throws the resolution's exception, and the flag is set iff nothing was thrown, so a failed run is repeated by the next call. |
| Plugin.Patches.ApplyPatchesToPackage | src/Patches.php:215-250 | When the query finds nothing, the package's `extra` is untouched. Otherwise `extra['patches']` is replaced by exactly the found operations in their order, and everything else in `extra` is kept. |

## Left out

- Composer host wiring is not modelled:
  - `getSubscribedEvents`, `getCapabilities`, `applyPatchOnInstall` and `applyPatchOnUpdate`, which are event glue.
  - The plugin manager, `ProcessExecutor` and the repository and installation-manager lookups, including `getInstallPath`.
  - All `io->write` output.
- Plugin.Patches.Activate: the `ConfigurablePlugin` trait's `configure` call is not modelled, because its code is not part of this model. The option declarations are modelled, but the values read from `extra` or the environment are not.
- Plugin.Patches.GetPatchResolvers: a capability's `getResolvers()` result is an input of the model. The model also assumes those arrays have integer keys, which `array_merge` renumbers. With string keys, `array_merge` would let later resolvers replace earlier ones, and the model does not capture that.
- Plugin.Patches.ApplyPatchesToPackage: `findPackage` is assumed to find the installed package. The case where it returns null is a fatal error in PHP and is not modelled.
- Plugin.RunResolver: a resolver supplied by another plugin is reduced to the operations it appends and the exception it throws. Reading the collection or changing it in other ways is not modelled.
- Plugin.Patches.ResolvePatches: requires an activated plugin (a non-null collection). Without one, PHP raises an error on a null object, and that is not modelled.
- Plugin.Patches.ApplyPatchesToPackage: also requires an activated plugin (a non-null collection). Without one, the call on a null collection is an error in PHP, and that is not modelled.
- Operation.NewPatchOperation: the optional `$reason` argument of the constructor, which goes to Composer's base operation class, is dropped. It plays no part in the modelled behaviour.
- ResolverBase.FromJson: yields a `PatchOperation`. The unit tests show `createFromJsonObject` returning a `Patch`, which `addPatch(PatchOperation $operation)` (src/PatchCollection.php:19) would reject with a TypeError. The model does not capture that mismatch.
- `PatchCollection::getPatchesForPackage` and `Patch::createFromJsonObject` have no definition in the modelled files. They are parameters, and only the contract their tests assert is assumed, and only in lemmas.
- The filesystem checks of the patches-file resolver (`realpath`, `file_exists`, `is_readable`) are reduced to one boolean input. `file_get_contents` and `json_decode` are reduced to their decoded value and `json_last_error()` code.
- PatchesFile.ReadPatchesFile: `array_key_exists` on a decoded document that is not an array is treated as "no key", which gives "No patches found.". PHP 7 warns and returns null there, which is falsy, so the outcome is the same. PHP 8 would throw a TypeError instead.
- Collection.PatchCollection.GetPatches: returns a sequence rather than a generator. The collection starts as an empty list, while PHP starts with a null property that the first `addPatch` turns into an array.
- The fixture behind the patches-file resolver's test (four declarations) is not part of this model. The count it checks is covered by PatchesFile.GatheredFromFile for any file.
- Downloading, SHA-1 verification of content, strip-level detection and application of patches are not modelled. They are only exercised by tests, against methods the modelled sources do not define.
- Resolver `isEnabled` flags are not modelled. `resolvePatches` does not consult them.
