/**
 * Values the plugin receives from the PHP runtime and from Composer: decoded
 * JSON, ordered PHP arrays, and the exceptions the modelled code throws.
 */
module Php {

  datatype Option<+T> = None | Some(value: T)

  datatype Result<+T, +E> = Success(value: T) | Failure(error: E)

  /** The exceptions thrown by the modelled code, each with its message. */
  datatype Exception =
    | InvalidArgumentException(message: string)
    | UnexpectedValueException(message: string)
    | InvalidPatchException(message: string)
    | InvalidPatchesFileException(message: string)
    | OtherException(className: string, message: string)

  /**
   * A PHP value as `json_decode($text, true)` or a package's `extra` block
   * yields it. A PHP array is an ordered list of key/value pairs; keys are
   * kept in their string form.
   */
  datatype Value =
    | Null
    | Bool(b: bool)
    | Int(i: int)
    | Str(s: string)
    | Array(entries: seq<(string, Value)>)

  /** The keys of an ordered PHP array, in order. */
  function Keys<V>(a: seq<(string, V)>): (r: seq<string>)
    ensures |r| == |a|
  {
    if a == [] then [] else [a[0].0] + Keys(a[1..])
  }

  /** The i-th key is the key of the i-th entry. */
  lemma {:induction false} KeyAt<V>(a: seq<(string, V)>, i: nat)
    requires i < |a|
    ensures Keys(a)[i] == a[i].0
  {
    if i > 0 {
      KeyAt(a[1..], i - 1);
    }
  }

  /** `$a[$key]`: the value stored under the first occurrence of key. */
  function Lookup<V>(a: seq<(string, V)>, key: string): (r: Option<V>)
    ensures r.None? <==> forall i :: 0 <= i < |a| ==> a[i].0 != key
  {
    if a == [] then None
    else if a[0].0 == key then Some(a[0].1)
    else Lookup(a[1..], key)
  }

  /** `array_key_exists($key, $a)`. */
  predicate HasKey<V>(a: seq<(string, V)>, key: string) {
    Lookup(a, key).Some?
  }

  /** `isset($a[$key])`: the key is present and its value is not null. */
  predicate IsSet(a: seq<(string, Value)>, key: string) {
    Lookup(a, key).Some? && Lookup(a, key).value != Null
  }

  /**
   * `$a[$key] = $v`: overwrites the value of an existing key in place, or
   * appends the key at the end.
   */
  function Assign<V>(a: seq<(string, V)>, key: string, v: V): seq<(string, V)> {
    if a == [] then [(key, v)]
    else if a[0].0 == key then [(key, v)] + a[1..]
    else [a[0]] + Assign(a[1..], key, v)
  }

  /** After the assignment the key yields the new value. */
  lemma {:induction false} AssignFindsKey<V>(a: seq<(string, V)>, key: string, v: V)
    ensures Lookup(Assign(a, key, v), key) == Some(v)
  {
    if a == [] {
      LookupCons((key, v), [], key);
      assert [(key, v)] == [(key, v)] + [];
    } else if a[0].0 == key {
      LookupCons((key, v), a[1..], key);
    } else {
      AssignFindsKey(a[1..], key, v);
      LookupCons(a[0], Assign(a[1..], key, v), key);
    }
  }

  /** After the assignment every other key yields what it yielded before. */
  lemma {:induction false} AssignKeepsOthers<V>(a: seq<(string, V)>, key: string, v: V, k: string)
    requires k != key
    ensures Lookup(Assign(a, key, v), k) == Lookup(a, k)
  {
    if a == [] {
      LookupCons((key, v), [], k);
      assert [(key, v)] == [(key, v)] + [];
    } else {
      assert a == [a[0]] + a[1..];
      LookupCons(a[0], a[1..], k);
      if a[0].0 == key {
        LookupCons((key, v), a[1..], k);
      } else {
        AssignKeepsOthers(a[1..], key, v, k);
        LookupCons(a[0], Assign(a[1..], key, v), k);
      }
    }
  }

  /** The keys keep their order; an absent key is appended last. */
  lemma {:induction false} AssignKeys<V>(a: seq<(string, V)>, key: string, v: V)
    ensures Keys(Assign(a, key, v)) == if HasKey(a, key) then Keys(a) else Keys(a) + [key]
  {
    if a == [] {
      assert Keys([(key, v)]) == [key] + Keys([(key, v)][1..]);
    } else {
      var r := Assign(a, key, v);
      assert r[1..] == (if a[0].0 == key then a[1..] else Assign(a[1..], key, v));
      assert Keys(r) == [key] + Keys(r[1..]) || Keys(r) == [a[0].0] + Keys(r[1..]);
      if a[0].0 == key {
        assert Keys(r) == Keys(a);
      } else {
        AssignKeys(a[1..], key, v);
        LookupCons(a[0], a[1..], key);
        assert a == [a[0]] + a[1..];
        assert HasKey(a, key) == HasKey(a[1..], key);
        if !HasKey(a, key) {
          assert Keys(r) == [a[0].0] + (Keys(a[1..]) + [key]);
        }
      }
    }
  }

  lemma LookupCons<V>(x: (string, V), s: seq<(string, V)>, key: string)
    ensures Lookup([x] + s, key) == if x.0 == key then Some(x.1) else Lookup(s, key)
  {
    assert ([x] + s)[1..] == s;
  }

  /** Assigning a key twice leaves only the second value, at the same place. */
  lemma {:induction false} AssignTwice<V>(a: seq<(string, V)>, key: string, v: V, w: V)
    ensures Assign(Assign(a, key, v), key, w) == Assign(a, key, w)
  {
    if a != [] && a[0].0 != key {
      AssignTwice(a[1..], key, v, w);
      assert Assign(a, key, v)[1..] == Assign(a[1..], key, v);
    }
  }

  /** What `foreach ($v as $key => $item)` visits: an array's entries in order; nothing for a scalar. */
  function Iterate(v: Value): seq<(string, Value)> {
    if v.Array? then v.entries else []
  }
}
