/**
 * The slice of PHP's value model that the finishers rely on: scalars, ordered
 * arrays, `array_key_exists`, index reads, index writes, `isset`, `strlen(..) > 0`,
 * truthiness and string conversion. Where PHP versions differ on a type
 * mismatch, PHP 7 behaviour is modelled (an internal function given an array where
 * it wants a string warns and returns null).
 */
module Php {
  import opened Wrappers

  /** An array key. PHP arrays are ordered maps whose keys are integers or strings. */
  datatype Key = IntKey(n: int) | StrKey(s: string)

  /** A PHP value. An array is its entries in insertion order; PHP never holds two entries with one key. */
  datatype Value = Null | Bool(b: bool) | Int(n: int) | Str(s: string) | Arr(entries: seq<Entry>)

  datatype Entry = Entry(key: Key, value: Value)

  /** The position of the entry with key `k`, searching in insertion order. */
  function FindKey(es: seq<Entry>, k: Key): (r: Option<nat>)
    ensures r.None? ==> forall i :: 0 <= i < |es| ==> es[i].key != k
    ensures r.Some? ==> r.value < |es| && es[r.value].key == k
    ensures r.Some? ==> forall i :: 0 <= i < r.value ==> es[i].key != k
  {
    if es == [] then None
    else if es[0].key == k then Some(0)
    else match FindKey(es[1..], k)
      case None => None
      case Some(i) => Some(i + 1)
  }

  /** `array_key_exists(k, v)`; on a value that is not an array PHP 7 warns and returns null, which is falsy. */
  predicate KeyExists(v: Value, k: string) {
    v.Arr? && FindKey(v.entries, StrKey(k)).Some?
  }

  /** `v[k]` read: the entry's value, or null (with a notice) when the key is absent or `v` is not an array. */
  function Lookup(v: Value, k: string): Value {
    if v.Arr? then
      match FindKey(v.entries, StrKey(k))
      case Some(i) => v.entries[i].value
      case None => Null
    else Null
  }

  /** `$v[k] = x` on an array: overwrites the entry in place when the key exists, else appends one. */
  function SetKey(v: Value, k: string, x: Value): (r: Value)
    requires v.Arr?
    ensures r.Arr? && KeyExists(r, k) && Lookup(r, k) == x
    ensures forall k' :: k' != k ==> KeyExists(r, k') == KeyExists(v, k')
    ensures forall k' :: k' != k ==> Lookup(r, k') == Lookup(v, k')
    ensures KeyExists(v, k) ==> |r.entries| == |v.entries|
    ensures !KeyExists(v, k) ==> r.entries == v.entries + [Entry(StrKey(k), x)]
  {
    match FindKey(v.entries, StrKey(k))
    case Some(i) =>
      var es := v.entries[i := Entry(StrKey(k), x)];
      SameKeysSameFind(v.entries, es);
      Arr(es)
    case None =>
      var es := v.entries + [Entry(StrKey(k), x)];
      FindAfterAppend(v.entries, Entry(StrKey(k), x));
      Arr(es)
  }

  /** Writing null under a missing key changes no read: a missing key already reads as null. */
  lemma NullFillKeepsReads(v: Value, k: string)
    requires v.Arr? && !KeyExists(v, k)
    ensures KeyExists(SetKey(v, k, Null), k)
    ensures forall k' :: Lookup(SetKey(v, k, Null), k') == Lookup(v, k')
  {
  }

  /** Lookup by key depends only on the keys, position by position. */
  lemma SameKeysSameFind(a: seq<Entry>, b: seq<Entry>)
    requires |a| == |b|
    requires forall i :: 0 <= i < |a| ==> a[i].key == b[i].key
    ensures forall k :: FindKey(a, k) == FindKey(b, k)
  {
    forall k ensures FindKey(a, k) == FindKey(b, k) {
      var fa, fb := FindKey(a, k), FindKey(b, k);
      if fa.Some? && fb.Some? {
        assert !(fa.value < fb.value) && !(fb.value < fa.value);
      }
    }
  }

  /** Appending an entry leaves earlier finds alone and makes its own key findable. */
  lemma FindAfterAppend(es: seq<Entry>, e: Entry)
    ensures forall k :: FindKey(es, k).Some? ==> FindKey(es + [e], k) == FindKey(es, k)
    ensures forall k :: FindKey(es, k).None? && k != e.key ==> FindKey(es + [e], k).None?
    ensures FindKey(es, e.key).None? ==> FindKey(es + [e], e.key) == Some(|es|)
  {
    var ext := es + [e];
    forall k | FindKey(es, k).Some? ensures FindKey(ext, k) == FindKey(es, k) {
      var i := FindKey(es, k).value;
      assert ext[i] == es[i];
      var f := FindKey(ext, k);
      assert f.Some? && !(f.value < i) && !(i < f.value);
    }
    forall k | FindKey(es, k).None? && k != e.key ensures FindKey(ext, k).None? {
      assert forall i :: 0 <= i < |es| ==> ext[i] == es[i];
    }
    if FindKey(es, e.key).None? {
      var f := FindKey(ext, e.key);
      assert ext[|es|] == e;
      assert f.Some?;
    }
  }

  /** `isset(v[k])`: the key exists and its value is not null; false on a scalar (a string offset by a non-numeric key is never set). */
  predicate IsSet(v: Value, k: string) {
    KeyExists(v, k) && Lookup(v, k) != Null
  }

  /** `count($v)` (and its alias `sizeof`) under PHP 7: an array's number of entries, 0 for null, 1 for any other scalar. */
  function Count(v: Value): nat {
    match v
    case Arr(es) => |es|
    case Null => 0
    case _ => 1
  }

  /** The values of an array in iteration (insertion) order, as `foreach ($v as $x)` visits them. */
  function Elements(v: Value): seq<Value>
    requires v.Arr?
  {
    seq(|v.entries|, i requires 0 <= i < |v.entries| => v.entries[i].value)
  }

  /** PHP's boolean conversion (`if ($v)`). */
  predicate Truthy(v: Value) {
    match v
    case Null => false
    case Bool(b) => b
    case Int(n) => n != 0
    case Str(s) => s != "" && s != "0"
    case Arr(es) => |es| > 0
  }

  /** Decimal digits of a natural number, most significant first. */
  function Digits(n: nat): (r: string)
    ensures |r| >= 1
    ensures forall i :: 0 <= i < |r| ==> '0' <= r[i] <= '9'
    decreases n
  {
    var d := ['0' + (n % 10) as char];
    if n < 10 then d else Digits(n / 10) + d
  }

  /** PHP's conversion of a value to a string (`(string)$v`); an array converts to "Array" with a notice. */
  function ToPhpString(v: Value): string {
    match v
    case Null => ""
    case Bool(b) => if b then "1" else ""
    case Int(n) => if n < 0 then "-" + Digits(-n) else Digits(n)
    case Str(s) => s
    case Arr(_) => "Array"
  }

  /**
   * `strlen($v) > 0`. For a scalar this is "its string form is not empty"; for an array
   * PHP 7's strlen returns null, and `null > 0` is false.
   */
  predicate NonEmptyString(v: Value)
    ensures !v.Arr? ==> (NonEmptyString(v) <==> |ToPhpString(v)| > 0)
    ensures v.Arr? ==> !NonEmptyString(v)
  {
    match v
    case Null => false
    case Bool(b) => b
    case Int(_) => true
    case Str(s) => |s| > 0
    case Arr(_) => false
  }
}
