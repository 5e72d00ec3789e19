/**
 * Decoded PHP values, as `json_decode($body, true)` produces them and as the
 * plugin reads them with `isset`, `empty` and `$a['key']`.
 *
 * A PHP array is an ordered dictionary: a sequence of (key, value) entries in
 * insertion order. Reading a key takes the first entry with that key;
 * writing a key replaces that entry in place or appends a new one.
 */
module PhpValues {

  datatype Key = IntKey(n: int) | StrKey(s: string)

  datatype Value =
    | Null
    | Bool(b: bool)
    | Int(n: int)
    | Str(s: string)
    | Arr(entries: seq<(Key, Value)>)

  /** True when some entry of `es` has key `k`. */
  predicate HasKey(es: seq<(Key, Value)>, k: Key) {
    exists i :: 0 <= i < |es| && es[i].0 == k
  }

  /** `$a[k]` on an array: the value of the first entry with key `k`, null when there is none. */
  function Lookup(es: seq<(Key, Value)>, k: Key): Value {
    if |es| == 0 then Null
    else if es[0].0 == k then es[0].1
    else Lookup(es[1..], k)
  }

  /**
   * `$a[k] = v` on an array: the first entry with key `k` gets the value `v`
   * in place, or a new entry is appended at the end.
   */
  function Put(es: seq<(Key, Value)>, k: Key, v: Value): (r: seq<(Key, Value)>)
    ensures Lookup(r, k) == v
    ensures forall k' :: k' != k ==> Lookup(r, k') == Lookup(es, k')
    ensures HasKey(es, k) ==> |r| == |es| && forall i :: 0 <= i < |es| ==> r[i].0 == es[i].0
    ensures !HasKey(es, k) ==> r == es + [(k, v)]
  {
    if |es| == 0 then [(k, v)]
    else if es[0].0 == k then [(k, v)] + es[1..]
    else
      assert HasKey(es, k) <==> HasKey(es[1..], k) by {
        if HasKey(es, k) {
          var i :| 0 <= i < |es| && es[i].0 == k;
          assert es[1..][i - 1].0 == k;
        }
        if HasKey(es[1..], k) {
          var i :| 0 <= i < |es[1..]| && es[1..][i].0 == k;
          assert es[i + 1].0 == k;
        }
      }
      assert es == [es[0]] + es[1..];
      [es[0]] + Put(es[1..], k, v)
  }

  /** Reading a key gives the value of its first entry. */
  lemma {:induction false} LookupFirst(es: seq<(Key, Value)>, k: Key, i: nat)
    requires i < |es| && es[i].0 == k
    requires forall j :: 0 <= j < i ==> es[j].0 != k
    ensures Lookup(es, k) == es[i].1
  {
    if i > 0 {
      LookupFirst(es[1..], k, i - 1);
    }
  }

  /** The values of an array in order: what `foreach ( $a as $v )` visits. */
  function Values(es: seq<(Key, Value)>): (vs: seq<Value>)
    ensures |vs| == |es|
    ensures forall i :: 0 <= i < |es| ==> vs[i] == es[i].1
  {
    seq(|es|, i requires 0 <= i < |es| => es[i].1)
  }

  /** `is_array($v)`. */
  predicate IsArray(v: Value) {
    v.Arr?
  }

  /** `$v['k']`: the entry's value on an array; null on anything else. */
  function Index(v: Value, k: string): Value {
    if v.Arr? then Lookup(v.entries, StrKey(k)) else Null
  }

  /** `isset( $v['k'] )`: the key is present and its value is not null. */
  predicate Isset(v: Value, k: string) {
    Index(v, k) != Null
  }

  /** PHP's `empty($v)`: null, false, 0, "", "0" and the empty array. */
  predicate Empty(v: Value) {
    match v
    case Null => true
    case Bool(b) => !b
    case Int(n) => n == 0
    case Str(s) => s == "" || s == "0"
    case Arr(es) => es == []
  }

  /** A PHP list of strings: keys 0, 1, ... in order. */
  function StrList(ss: seq<string>): (v: Value)
    ensures v.Arr? && |v.entries| == |ss|
    ensures forall i :: 0 <= i < |ss| ==> v.entries[i] == (IntKey(i), Str(ss[i]))
  {
    Arr(seq(|ss|, i requires 0 <= i < |ss| => (IntKey(i), Str(ss[i]))))
  }

  /** An associative array literal `[ keys[0] => vals[0], ... ]`. */
  function Entries(keys: seq<string>, vals: seq<Value>): (es: seq<(Key, Value)>)
    requires |keys| == |vals|
    ensures |es| == |keys|
    ensures forall i :: 0 <= i < |keys| ==> es[i] == (StrKey(keys[i]), vals[i])
  {
    seq(|keys|, i requires 0 <= i < |keys| => (StrKey(keys[i]), vals[i]))
  }

  /** Reading a key of an array literal gives the value written at its first occurrence. */
  lemma LookupEntries(keys: seq<string>, vals: seq<Value>, i: nat)
    requires |keys| == |vals| && i < |keys|
    requires forall j :: 0 <= j < i ==> keys[j] != keys[i]
    ensures Lookup(Entries(keys, vals), StrKey(keys[i])) == vals[i]
  {
    LookupFirst(Entries(keys, vals), StrKey(keys[i]), i);
  }

  /** A key that is not among the keys of an array literal is not in it. */
  lemma EntriesWithout(keys: seq<string>, vals: seq<Value>, k: string)
    requires |keys| == |vals|
    requires forall j :: 0 <= j < |keys| ==> keys[j] != k
    ensures !HasKey(Entries(keys, vals), StrKey(k))
  {
  }
}
