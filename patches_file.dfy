/**
 * The resolver that gathers patches from a separate JSON file named by the
 * root package's `extra['patches-file']` (src/Resolvers/PatchesFile.php).
 * Patches found there are treated as if declared in the root package.
 */
module PatchesFile {
  import opened Php
  import opened Operation
  import opened Collection
  import opened ResolverBase

  /** Patches from the patches file count as root patches. */
  const PatchType: string := TypeRootPatch

  /** The codes `json_last_error()` reports, with PHP's values. */
  const JsonErrorNone: int := 0
  const JsonErrorDepth: int := 1
  const JsonErrorStateMismatch: int := 2
  const JsonErrorCtrlChar: int := 3
  const JsonErrorSyntax: int := 4
  const JsonErrorUtf8: int := 5

  /**
   * The outcome of `json_decode($text, true)` followed by `json_last_error()`:
   * the decoded value and the error code. Decoding itself is not modelled.
   */
  datatype Decoded = Decoded(value: Value, lastError: int)

  /**
   * The message for each decoding error code: every code has one, and a code
   * gets "Unknown error." exactly when the switch does not name it.
   */
  function JsonErrorMessage(code: int): (r: string)
    ensures r == "Unknown error." <==> !IsListedError(code)
  {
    match code
    case 4 => "Syntax error, malformed JSON."
    case 1 => "Maximum stack depth exceeded."
    case 2 => "Underflow or the modes mismatch."
    case 3 => "Unexpected control character found."
    case 5 => "Malformed UTF-8 characters, possibly incorrectly encoded."
    case _ => "Unknown error."
  }

  /** The codes the switch names. */
  predicate IsListedError(code: int) {
    code in {JsonErrorDepth, JsonErrorStateMismatch, JsonErrorCtrlChar, JsonErrorSyntax, JsonErrorUtf8}
  }

  /**
   * Helper for JsonErrorMessagesDistinct: the length of each message; the two
   * of equal length differ in their second-to-last character.
   */
  lemma MessageShape(code: int)
    ensures |JsonErrorMessage(code)| ==
      match code
      case 1 => 29
      case 2 => 32
      case 3 => 35
      case 4 => 29
      case 5 => 57
      case _ => 14
    ensures code == JsonErrorDepth ==> JsonErrorMessage(code)[27] == 'd'
    ensures code == JsonErrorSyntax ==> JsonErrorMessage(code)[27] == 'N'
  {
  }

  /** Different listed codes get different messages. */
  lemma {:induction false} JsonErrorMessagesDistinct(a: int, b: int)
    requires IsListedError(a) && IsListedError(b) && a != b
    ensures JsonErrorMessage(a) != JsonErrorMessage(b)
  {
    MessageShape(a);
    MessageShape(b);
  }

  /**
   * `readPatchesFile`: a decoding error is reported with its message; a
   * document without a top-level `patches` key is rejected with
   * 'No patches found.'; otherwise the value under `patches` is returned
   * exactly. A document that is not an array has no keys.
   */
  function ReadPatchesFile(decoded: Decoded): (r: Result<Value, Exception>)
    ensures r.Success? <==> decoded.lastError == JsonErrorNone && HasKey(Iterate(decoded.value), "patches")
    ensures r.Success? ==> Some(r.value) == Lookup(Iterate(decoded.value), "patches")
    ensures decoded.lastError != JsonErrorNone ==>
      r == Failure(InvalidPatchesFileException(JsonErrorMessage(decoded.lastError)))
    ensures decoded.lastError == JsonErrorSyntax ==> r == Failure(InvalidPatchesFileException("Syntax error, malformed JSON."))
    ensures decoded.lastError == JsonErrorNone && !HasKey(Iterate(decoded.value), "patches") ==>
      r == Failure(InvalidPatchesFileException("No patches found."))
  {
    if decoded.lastError != JsonErrorNone then
      Failure(InvalidPatchesFileException(JsonErrorMessage(decoded.lastError)))
    else if !HasKey(Iterate(decoded.value), "patches") then
      Failure(InvalidPatchesFileException("No patches found."))
    else
      Success(Lookup(Iterate(decoded.value), "patches").value)
  }

  /**
   * The validity gate of `resolve`: the `patches-file` key is present and
   * names a file that exists and is readable (fileReadable stands for the
   * filesystem's answer).
   */
  predicate ValidPatchesFile(extra: seq<(string, Value)>, fileReadable: bool) {
    HasKey(extra, "patches-file") && fileReadable
  }

  /**
   * What `resolve` appends: nothing without a valid patches file; nothing
   * but the exception when the file cannot be read as a patches document;
   * otherwise the flattening of its `patches` map as root patches.
   */
  function Gathered(extra: seq<(string, Value)>, fileReadable: bool, decoded: Decoded, fromJson: FromJson): (r: Appended)
    ensures !ValidPatchesFile(extra, fileReadable) ==> r == NothingAppended
    ensures ValidPatchesFile(extra, fileReadable) && ReadPatchesFile(decoded).Failure? ==>
      r == Appended([], Some(ReadPatchesFile(decoded).error))
    ensures ValidPatchesFile(extra, fileReadable) && ReadPatchesFile(decoded).Success? ==>
      r == Flatten(Iterate(ReadPatchesFile(decoded).value), fromJson, PatchType)
  {
    if !ValidPatchesFile(extra, fileReadable) then NothingAppended
    else
      match ReadPatchesFile(decoded)
      case Failure(e) => Appended([], Some(e))
      case Success(patches) => Flatten(Iterate(patches), fromJson, PatchType)
  }

  /**
   * `resolve`: the file is read before anything is added, so a read or parse
   * error leaves the collection as it was.
   */
  method Resolve(collection: PatchCollection, extra: seq<(string, Value)>, fileReadable: bool, decoded: Decoded, fromJson: FromJson)
    returns (thrown: Option<Exception>)
    modifies collection
    ensures collection.patchOperations == old(collection.patchOperations) + Gathered(extra, fileReadable, decoded, fromJson).ops
    ensures thrown == Gathered(extra, fileReadable, decoded, fromJson).thrown
  {
    if !ValidPatchesFile(extra, fileReadable) {
      return None;
    }
    var patches := ReadPatchesFile(decoded);
    if patches.Failure? {
      return Some(patches.error);
    }
    thrown := AddDeclarations(collection, Iterate(patches.value), fromJson, PatchType);
  }

  /** A read or parse error adds nothing and surfaces as InvalidPatchesFileException. */
  lemma ReadErrorAddsNothing(extra: seq<(string, Value)>, fileReadable: bool, decoded: Decoded, fromJson: FromJson)
    requires ValidPatchesFile(extra, fileReadable)
    requires decoded.lastError != JsonErrorNone || !HasKey(Iterate(decoded.value), "patches")
    ensures Gathered(extra, fileReadable, decoded, fromJson).ops == []
    ensures Gathered(extra, fileReadable, decoded, fromJson).thrown.Some?
    ensures Gathered(extra, fileReadable, decoded, fromJson).thrown.value.InvalidPatchesFileException?
  {
  }

  /**
   * When nothing throws, one operation per entry of the file's `patches`
   * map is appended; with a `createFromJsonObject` that behaves as its
   * tests assert, each is a root patch of a package the file names.
   */
  lemma GatheredFromFile(extra: seq<(string, Value)>, fileReadable: bool, decoded: Decoded, fromJson: FromJson)
    requires ValidPatchesFile(extra, fileReadable)
    requires ReadPatchesFile(decoded).Success?
    requires FollowsDeclarationContract(fromJson)
    ensures var r := Gathered(extra, fileReadable, decoded, fromJson);
      var patches := Iterate(Lookup(Iterate(decoded.value), "patches").value);
      && (r.thrown.None? ==> |r.ops| == EntryCount(patches))
      && (forall op :: op in r.ops ==> op.patchType == TypeRootPatch && op.package.name in Keys(patches))
  {
    var patches := Iterate(Lookup(Iterate(decoded.value), "patches").value);
    FlattenedOperationsAreAttributed(patches, fromJson, PatchType);
  }
}
