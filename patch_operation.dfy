/**
 * A patch operation (src/Operation/PatchOperation.php): a patch bound to the
 * package it applies to, tagged with where it was declared.
 */
module Operation {
  import opened Php
  import opened PatchValue

  /** A patch found in the root package. */
  const TypeRootPatch: string := "root"

  /** A patch found in a dependency package. */
  const TypeDependencyPatch: string := "dependency"

  /** The part of a Composer package the operations use. */
  datatype Package = Package(name: string, version: string)

  /** `getPackage`, `getPatch` and `getPatchType` read these fields back. */
  datatype PatchOperation = PatchOperation(package: Package, patch: Patch, patchType: string)
  {
    /** `getJobType`. */
    function JobType(): string {
      "patch"
    }

    /** `__toString`: "Patching <package>: <description> (<url>)." */
    function ToString(): (r: string)
      ensures |r| == 9 + |package.name| + 2 + |patch.description| + 2 + |patch.url| + 2
      ensures r[..9 + |package.name| + 2] == "Patching " + package.name + ": "
      ensures r[|r| - |patch.url| - 2..] == patch.url + ")."
      ensures r[|r| - |patch.url| - 4 - |patch.description|..|r| - |patch.url| - 2] == patch.description + " ("
    {
      "Patching " + package.name + ": " + patch.description + " (" + patch.url + ")."
    }
  }

  /** The two types the constructor admits. */
  predicate IsPatchType(patchType: string) {
    patchType == TypeRootPatch || patchType == TypeDependencyPatch
  }

  /**
   * `new PatchOperation($package, $patch, $type)`: only 'root' and
   * 'dependency' are admitted; any other type throws an
   * InvalidArgumentException naming it.
   */
  function NewPatchOperation(package: Package, patch: Patch, patchType: string): (r: Result<PatchOperation, Exception>)
    ensures r.Success? <==> IsPatchType(patchType)
    ensures r.Failure? ==> r.error == InvalidArgumentException("Invalid patch type specified: " + patchType)
    ensures r.Success? ==> r.value.package == package && r.value.patch == patch && r.value.patchType == patchType
    ensures r.Success? ==> r.value.JobType() == "patch"
  {
    if patchType != TypeRootPatch && patchType != TypeDependencyPatch then
      Failure(InvalidArgumentException("Invalid patch type specified: " + patchType))
    else
      Success(PatchOperation(package, patch, patchType))
  }

  /** Every operation the constructor returns carries one of the two types. */
  lemma ConstructedOperationIsTyped(package: Package, patch: Patch, patchType: string)
    requires NewPatchOperation(package, patch, patchType).Success?
    ensures IsPatchType(NewPatchOperation(package, patch, patchType).value.patchType)
  {
  }

  /** The rendering does not depend on the operation's type. */
  lemma ToStringIgnoresType(package: Package, patch: Patch, t1: string, t2: string)
    ensures PatchOperation(package, patch, t1).ToString() == PatchOperation(package, patch, t2).ToString()
  {
  }
}
