/**
 * A declared patch (src/Patch.php): description, location, SHA-1 hash and
 * patch level, fixed once constructed. Construction rejects a hash that fails
 * the SHA-1 check and defaults the patch level to 'auto'.
 */
module PatchValue {
  import opened Php

  /** The patch level that makes the applier guess the `-p` level itself. */
  const PatchLevelAuto: Value := Str("auto")

  /** Number of hex digits in a SHA-1 digest. */
  const Sha1Length: nat := 40

  /** A patch has no setters: every field is the constructor argument it was built from. */
  datatype Patch = Patch(description: string, url: string, hash: string, patchLevel: Value)

  /** One character of the class `[a-fA-F0-9]`. */
  predicate IsHexDigit(c: char) {
    '0' <= c <= '9' || 'a' <= c <= 'f' || 'A' <= c <= 'F'
  }

  /**
   * Scans s from the left; run counts the hex digits seen in a row just
   * before s. Succeeds once Sha1Length of them have been seen in a row.
   */
  function ScanForHexRun(s: string, run: nat): bool
    decreases |s|
  {
    if run >= Sha1Length then true
    else if s == [] then false
    else ScanForHexRun(s[1..], if IsHexDigit(s[0]) then run + 1 else 0)
  }

  /** Forty hex digits in a row start at index i of s. */
  ghost predicate HexRunAt(s: string, i: int) {
    0 <= i && i + Sha1Length <= |s| && forall j :: i <= j < i + Sha1Length ==> IsHexDigit(s[j])
  }

  /** What the unanchored pattern matches: forty hex digits in a row anywhere in s. */
  ghost predicate ContainsHexRun(s: string) {
    exists i :: HexRunAt(s, i)
  }

  /**
   * A window of forty positions starting at i, where the run positions before
   * s (indices -run up to -1) count as hex digits already seen.
   */
  ghost predicate HexRunAfter(s: string, run: nat, i: int) {
    -(run as int) <= i && i + Sha1Length <= |s| && forall j :: 0 <= j && i <= j < i + Sha1Length ==> IsHexDigit(s[j])
  }

  lemma {:induction false} ScanFindsRun(s: string, run: nat)
    ensures ScanForHexRun(s, run) <==> exists i :: HexRunAfter(s, run, i)
    decreases |s|
  {
    if run >= Sha1Length {
      assert HexRunAfter(s, run, -(run as int));
    } else if s == [] {
      assert forall i :: !HexRunAfter(s, run, i);
    } else {
      var next: nat := if IsHexDigit(s[0]) then run + 1 else 0;
      ScanFindsRun(s[1..], next);
      if ScanForHexRun(s, run) {
        var i :| HexRunAfter(s[1..], next, i);
        assert HexRunAfter(s, run, i + 1) by {
          forall j | 0 <= j && i + 1 <= j < i + 1 + Sha1Length ensures IsHexDigit(s[j]) {
            if j > 0 {
              assert s[j] == s[1..][j - 1];
            }
          }
        }
      }
      if exists i :: HexRunAfter(s, run, i) {
        var i :| HexRunAfter(s, run, i);
        if i <= 0 {
          assert IsHexDigit(s[0]);
        }
        assert HexRunAfter(s[1..], next, i - 1) by {
          forall j | 0 <= j && i - 1 <= j < i - 1 + Sha1Length ensures IsHexDigit(s[1..][j]) {
            assert s[1..][j] == s[j + 1];
          }
        }
      }
    }
  }

  /**
   * `isValidSha1`: the unanchored pattern `/[a-fA-F0-9]{40}/` finds a match
   * somewhere in hash, that is, hash contains forty hex digits in a row.
   */
  predicate IsValidSha1(hash: string)
    ensures IsValidSha1(hash) <==> ContainsHexRun(hash)
  {
    assert ScanForHexRun(hash, 0) <==> ContainsHexRun(hash) by {
      ScanFindsRun(hash, 0);
      if ScanForHexRun(hash, 0) {
        var i :| HexRunAfter(hash, 0, i);
        assert HexRunAt(hash, i);
      }
      if ContainsHexRun(hash) {
        var i :| HexRunAt(hash, i);
        assert HexRunAfter(hash, 0, i);
      }
    }
    ScanForHexRun(hash, 0)
  }

  /** A hash shorter than forty characters is always rejected. */
  lemma ShortHashRejected(hash: string)
    requires |hash| < Sha1Length
    ensures !IsValidSha1(hash)
  {
  }

  /** A string of exactly forty characters passes iff every character is a hex digit. */
  lemma FortyCharacterHash(hash: string)
    requires |hash| == Sha1Length
    ensures IsValidSha1(hash) <==> forall j :: 0 <= j < |hash| ==> IsHexDigit(hash[j])
  {
    if forall j :: 0 <= j < |hash| ==> IsHexDigit(hash[j]) {
      assert HexRunAt(hash, 0);
    }
  }

  /**
   * The pattern is not anchored: any text around an accepted hash is
   * accepted as well.
   */
  lemma SurroundedHashAccepted(prefix: string, hash: string, suffix: string)
    requires IsValidSha1(hash)
    ensures IsValidSha1(prefix + hash + suffix)
  {
    var i :| HexRunAt(hash, i);
    var s := prefix + hash + suffix;
    assert forall j :: i <= j < i + Sha1Length ==> s[|prefix| + j] == hash[j];
    assert HexRunAt(s, |prefix| + i);
  }

  /**
   * `new Patch($description, $url, $hash, $patchLevel)`: fails with
   * InvalidArgumentException naming the url unless the hash passes the SHA-1
   * check; a null patch level is replaced by 'auto', any other is kept as given.
   */
  function NewPatch(description: string, url: string, hash: string, patchLevel: Value): (r: Result<Patch, Exception>)
    ensures r.Success? <==> ContainsHexRun(hash)
    ensures r.Failure? ==> r.error == InvalidArgumentException("Invalid SHA-1 hash supplied for patch with url " + url)
    ensures r.Success? ==> r.value.description == description && r.value.url == url && r.value.hash == hash
    ensures r.Success? && patchLevel == Null ==> r.value.patchLevel == PatchLevelAuto
    ensures r.Success? && patchLevel != Null ==> r.value.patchLevel == patchLevel
  {
    if IsValidSha1(hash) then
      Success(Patch(description, url, hash, if patchLevel != Null then patchLevel else PatchLevelAuto))
    else
      Failure(InvalidArgumentException("Invalid SHA-1 hash supplied for patch with url " + url))
  }
}
