/**
 * PHP values as the configuration generator sees them. A PHP array is an
 * ordered dictionary; it is modelled as the sequence of its (key, value)
 * entries in iteration order. Keys are integers or strings. PHP turns a
 * decimal-integer string key into an integer key; the datatype does not
 * enforce that, and the model assumes the arrays it is given are built
 * with PHP's keys (no `StrKey` holding a decimal integer).
 */
module PhpArrays {
  import opened Basics

  datatype Key = IntKey(n: int) | StrKey(s: string)

  type Entry = (Key, Value)

  datatype Value =
    | Null
    | Bool(b: bool)
    | Int(i: int)
    | Str(s: string)
    | Arr(entries: seq<Entry>)

  /** PHP arrays never hold two entries with the same key. */
  predicate UniqueKeys(es: seq<Entry>)
  {
    forall i, j :: 0 <= i < j < |es| ==> es[i].0 != es[j].0
  }

  predicate HasKey(es: seq<Entry>, k: Key)
  {
    exists i :: 0 <= i < |es| && es[i].0 == k
  }

  /** `$array[$k]`: the value of the first entry with key `k`, if any. */
  function Lookup(es: seq<Entry>, k: Key): (r: Option<Value>)
    ensures r.Some? <==> HasKey(es, k)
    ensures r.Some? ==> exists i :: 0 <= i < |es| && es[i] == (k, r.value)
  {
    if es == [] then None
    else if es[0].0 == k then Some(es[0].1)
    else
      var r := Lookup(es[1..], k);
      assert forall i :: 0 <= i < |es| - 1 ==> es[1..][i] == es[i + 1];
      assert HasKey(es, k) ==> HasKey(es[1..], k) by {
        if HasKey(es, k) {
          var i :| 0 <= i < |es| && es[i].0 == k;
          assert es[1..][i - 1].0 == k;
        }
      }
      r
  }

  /** With unique keys, the entry at position i is what a lookup of its key finds. */
  lemma {:induction false} LookupAt(es: seq<Entry>, i: nat)
    requires UniqueKeys(es) && i < |es|
    ensures Lookup(es, es[i].0) == Some(es[i].1)
  {
    if i > 0 {
      assert es[1..][i - 1] == es[i];
      assert UniqueKeys(es[1..]) by {
        forall a, b | 0 <= a < b < |es| - 1 ensures es[1..][a].0 != es[1..][b].0 {
          assert es[1..][a] == es[a + 1] && es[1..][b] == es[b + 1];
        }
      }
      LookupAt(es[1..], i - 1);
    }
  }

  /** PHP `isset($array[$k])`: the key is present and its value is not null. */
  predicate IsSet(es: seq<Entry>, k: Key)
  {
    Lookup(es, k).Some? && Lookup(es, k).value != Null
  }

  /** PHP `empty($v)` for the value kinds modelled here. */
  predicate Empty(v: Value)
  {
    match v
    case Null => true
    case Bool(b) => !b
    case Int(i) => i == 0
    case Str(s) => s == "" || s == "0"
    case Arr(es) => es == []
  }

  /** The text PHP gives a key in `(string) $k` or in string concatenation. */
  function KeyText(k: Key): string
  {
    match k
    case IntKey(n) => IntDecimal(n)
    case StrKey(s) => s
  }

  /**
   * `$array[$k] = $v`: the entry with key `k` gets the new value in place,
   * or, when there is none, a new entry is appended.
   */
  function Put(es: seq<Entry>, k: Key, v: Value): (r: seq<Entry>)
    ensures !HasKey(es, k) ==> r == es + [(k, v)]
  {
    if es == [] then [(k, v)]
    else if es[0].0 == k then [(k, v)] + es[1..]
    else
      assert !HasKey(es, k) ==> !HasKey(es[1..], k) by {
        if HasKey(es[1..], k) {
          var i :| 0 <= i < |es| - 1 && es[1..][i].0 == k;
          assert es[i + 1].0 == k;
        }
      }
      [es[0]] + Put(es[1..], k, v)
  }

  /** `unset($array[$k])`: every entry with key `k` is dropped, the rest keep their order. */
  function RemoveKey(es: seq<Entry>, k: Key): (r: seq<Entry>)
    ensures !HasKey(r, k)
    ensures forall e :: e in r <==> e in es && e.0 != k
  {
    if es == [] then []
    else
      var rest := RemoveKey(es[1..], k);
      assert forall e :: e in es <==> e == es[0] || e in es[1..];
      if es[0].0 == k then rest else [es[0]] + rest
  }

  /** Two arrays map every key to the same value (PHP's `==` on arrays, ignoring order). */
  ghost predicate SameMapping(a: seq<Entry>, b: seq<Entry>)
  {
    forall k :: Lookup(a, k) == Lookup(b, k)
  }
}
