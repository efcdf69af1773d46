/**
 * PHP arrays with string keys, as the payment code uses them: an ordered
 * list of (key, value) entries in which no key occurs twice. Insertion
 * order is kept, which is what makes `ksort` and "the order in which the
 * fields were written does not matter" statements with content.
 */
module PhpArray {
  import opened PhpText

  /** The scalar values that occur in request and response fields. */
  datatype Value = VNull | VBool(b: bool) | VInt(i: int) | VStr(s: string)

  /** PHP truthiness: what `array_filter` without a callback keeps, and what `if ($v)` accepts. */
  predicate Truthy(v: Value)
  {
    match v
    case VNull => false
    case VBool(b) => b
    case VInt(i) => i != 0
    case VStr(s) => s != "" && s != "0"
  }

  /** `(string)$v`, as used by string concatenation and interpolation. */
  function StrVal(v: Value): string
  {
    match v
    case VNull => ""
    case VBool(b) => if b then "1" else ""
    case VInt(i) => IntToString(i)
    case VStr(s) => s
  }

  /** How `http_build_query` writes a scalar, once `urldecode` has undone the percent-encoding. */
  function Render(v: Value): string
  {
    match v
    case VNull => ""
    case VBool(b) => if b then "1" else "0"
    case VInt(i) => IntToString(i)
    case VStr(s) => s
  }

  /** `(int)$v`. */
  function IntCast(v: Value): int
  {
    match v
    case VNull => 0
    case VBool(b) => if b then 1 else 0
    case VInt(i) => i
    case VStr(s) => StringToInt(s)
  }

  type Entry = (string, Value)

  predicate DistinctKeys(a: seq<Entry>)
  {
    forall i, j :: 0 <= i < j < |a| ==> a[i].0 != a[j].0
  }

  /** A PHP array: insertion-ordered entries, each key once. */
  type PhpArray = a: seq<Entry> | DistinctKeys(a)

  /** `array_keys`, in order. */
  function Keys(a: seq<Entry>): (r: seq<string>)
    ensures |r| == |a|
    ensures forall i :: 0 <= i < |a| ==> r[i] == a[i].0
  {
    if a == [] then [] else [a[0].0] + Keys(a[1..])
  }

  /** The key/value pairs of an array, forgetting their order. */
  function ToMap(a: seq<Entry>): (m: map<string, Value>)
    ensures forall k :: k in m <==> k in Keys(a)
  {
    if a == [] then map[] else ToMap(a[1..])[a[0].0 := a[0].1]
  }

  /** `$a[$k]`: the value, or null when the key is missing. */
  function At(a: seq<Entry>, k: string): Value
  {
    if k in ToMap(a) then ToMap(a)[k] else VNull
  }

  /** `isset($a[$k])`: present and not null. */
  predicate Isset(a: seq<Entry>, k: string)
  {
    At(a, k) != VNull
  }

  lemma DistinctTail(a: PhpArray)
    requires a != []
    ensures DistinctKeys(a[1..])
    ensures forall e :: e in a[1..] ==> e.0 != a[0].0
  {
    forall e | e in a[1..] ensures e.0 != a[0].0 {
      var j :| 0 <= j < |a[1..]| && a[1..][j] == e;
      assert a[j + 1] == e;
    }
  }

  /** In an array without repeated keys, an entry is present exactly when the map says so. */
  lemma {:induction false} EntryInToMap(a: PhpArray, e: Entry)
    ensures e in a <==> e.0 in ToMap(a) && ToMap(a)[e.0] == e.1
  {
    if a != [] {
      DistinctTail(a);
      EntryInToMap(a[1..], e);
      if e.0 == a[0].0 && e.1 != a[0].1 {
        assert e !in a[1..];
      }
    }
  }

  /** The value at a position is what a lookup of its key returns. */
  lemma AtIndex(a: PhpArray, i: int)
    requires 0 <= i < |a|
    ensures At(a, a[i].0) == a[i].1
  {
    EntryInToMap(a, a[i]);
  }

  lemma {:induction false} KeysConcat(a: seq<Entry>, b: seq<Entry>)
    ensures Keys(a + b) == Keys(a) + Keys(b)
  {
  }

  lemma MapUpdatesCommute(m: map<string, Value>, k: string, v: Value, k': string, v': Value)
    requires k != k'
    ensures m[k := v][k' := v'] == m[k' := v'][k := v]
  {
  }

  /** Appending an entry with a new key adds exactly that key and value. */
  lemma {:induction false} ToMapSnoc(a: seq<Entry>, k: string, v: Value)
    requires k !in Keys(a)
    ensures ToMap(a + [(k, v)]) == ToMap(a)[k := v]
  {
    if a == [] {
      assert a + [(k, v)] == [(k, v)];
      assert [(k, v)][1..] == [];
    } else {
      assert (a + [(k, v)])[1..] == a[1..] + [(k, v)];
      assert Keys(a) == [a[0].0] + Keys(a[1..]);
      ToMapSnoc(a[1..], k, v);
      MapUpdatesCommute(ToMap(a[1..]), k, v, a[0].0, a[0].1);
    }
  }

  function Replace(a: seq<Entry>, k: string, v: Value): (r: seq<Entry>)
    ensures Keys(r) == Keys(a)
    ensures forall i :: 0 <= i < |a| ==> r[i] == if a[i].0 == k then (k, v) else a[i]
  {
    if a == [] then [] else (if a[0].0 == k then [(k, v)] else [a[0]]) + Replace(a[1..], k, v)
  }

  lemma MapUpdateTwice(m: map<string, Value>, k: string, v: Value, v': Value)
    ensures m[k := v][k := v'] == m[k := v']
  {
  }

  lemma {:induction false} ReplaceAbsent(a: seq<Entry>, k: string, v: Value)
    requires k !in Keys(a)
    ensures Replace(a, k, v) == a
  {
    if a != [] {
      assert Keys(a) == [a[0].0] + Keys(a[1..]);
      ReplaceAbsent(a[1..], k, v);
    }
  }

  lemma {:induction false} ReplaceToMap(a: seq<Entry>, k: string, v: Value)
    requires k in Keys(a)
    ensures ToMap(Replace(a, k, v)) == ToMap(a)[k := v]
  {
    var r := Replace(a, k, v);
    assert Keys(a) == [a[0].0] + Keys(a[1..]);
    assert r == (if a[0].0 == k then [(k, v)] else [a[0]]) + Replace(a[1..], k, v);
    assert r[1..] == Replace(a[1..], k, v);
    if a[0].0 == k {
      if k in Keys(a[1..]) {
        ReplaceToMap(a[1..], k, v);
        MapUpdateTwice(ToMap(a[1..]), k, v, v);
      } else {
        ReplaceAbsent(a[1..], k, v);
      }
      MapUpdateTwice(ToMap(a[1..]), k, a[0].1, v);
    } else {
      ReplaceToMap(a[1..], k, v);
      MapUpdatesCommute(ToMap(a[1..]), k, v, a[0].0, a[0].1);
    }
  }

  lemma SameKeysDistinct(a: PhpArray, b: seq<Entry>)
    requires Keys(b) == Keys(a)
    ensures DistinctKeys(b)
  {
    forall i, j | 0 <= i < j < |b| ensures b[i].0 != b[j].0 {
      assert b[i].0 == Keys(a)[i] && b[j].0 == Keys(a)[j];
    }
  }

  lemma AppendDistinct(a: PhpArray, e: Entry)
    requires e.0 !in Keys(a)
    ensures DistinctKeys(a + [e])
  {
    forall i, j | 0 <= i < j < |a + [e]| ensures (a + [e])[i].0 != (a + [e])[j].0 {
      if j == |a| {
        assert Keys(a)[i] == a[i].0;
      }
    }
  }

  /** `$a[$k] = $v`: an existing key keeps its position, a new key goes last. */
  function Set(a: PhpArray, k: string, v: Value): (r: PhpArray)
    ensures ToMap(r) == ToMap(a)[k := v]
    ensures k in ToMap(a) ==> Keys(r) == Keys(a)
    ensures k !in ToMap(a) ==> r == a + [(k, v)]
  {
    if k in ToMap(a) then
      ReplaceExisting(a, k, v);
      Replace(a, k, v)
    else
      AppendNew(a, k, v);
      a + [(k, v)]
  }

  lemma ReplaceExisting(a: PhpArray, k: string, v: Value)
    requires k in ToMap(a)
    ensures DistinctKeys(Replace(a, k, v))
    ensures ToMap(Replace(a, k, v)) == ToMap(a)[k := v]
  {
    ReplaceToMap(a, k, v);
    SameKeysDistinct(a, Replace(a, k, v));
  }

  lemma AppendNew(a: PhpArray, k: string, v: Value)
    requires k !in ToMap(a)
    ensures DistinctKeys(a + [(k, v)])
    ensures ToMap(a + [(k, v)]) == ToMap(a)[k := v]
  {
    ToMapSnoc(a, k, v);
    AppendDistinct(a, (k, v));
  }

  /** Setting a new key appends it to the keys. */
  lemma SetNewKey(a: PhpArray, k: string, v: Value)
    requires k !in Keys(a)
    ensures Keys(Set(a, k, v)) == Keys(a) + [k]
    ensures Set(a, k, v) == a + [(k, v)]
  {
    KeysConcat(a, [(k, v)]);
  }

  /** A key no entry has is not in the array. */
  lemma KeyAbsent(a: seq<Entry>, k: string)
    requires forall i :: 0 <= i < |a| ==> a[i].0 != k
    ensures k !in ToMap(a)
  {
  }

  /** Setting a key no entry has appends it. */
  lemma SetFresh(a: PhpArray, k: string, v: Value)
    requires forall i :: 0 <= i < |a| ==> a[i].0 != k
    ensures Set(a, k, v) == a + [(k, v)]
  {
  }

  lemma ConsDistinct(e: Entry, t: PhpArray)
    requires forall x :: x in t ==> x.0 != e.0
    ensures DistinctKeys([e] + t)
  {
    forall i, j | 0 <= i < j < |[e] + t| ensures ([e] + t)[i].0 != ([e] + t)[j].0 {
      if i == 0 {
        assert ([e] + t)[j] == t[j - 1];
        assert t[j - 1] in t;
      } else {
        assert ([e] + t)[i] == t[i - 1] && ([e] + t)[j] == t[j - 1];
      }
    }
  }

  /** `unset($a[$k])`: the entry goes, the others keep their order. */
  function Unset(a: PhpArray, k: string): (r: PhpArray)
    ensures forall e :: e in r <==> e in a && e.0 != k
    ensures k !in ToMap(a) ==> r == a
  {
    if a == [] then []
    else if a[0].0 == k then
      UnsetDropsHead(a);
      a[1..]
    else
      DistinctTail(a);
      var t := Unset(a[1..], k);
      UnsetKeepsHead(a, k, t);
      Cons(a[0], t)
  }

  /** An entry put in front of an array that lacks its key. */
  function Cons(e: Entry, t: PhpArray): (r: PhpArray)
    requires forall x :: x in t ==> x.0 != e.0
    ensures r == [e] + t
  {
    ConsDistinct(e, t);
    [e] + t
  }

  lemma UnsetDropsHead(a: PhpArray)
    requires a != []
    ensures DistinctKeys(a[1..])
    ensures forall e :: e in a[1..] <==> e in a && e.0 != a[0].0
  {
    DistinctTail(a);
    assert a == [a[0]] + a[1..];
  }

  lemma UnsetKeepsHead(a: PhpArray, k: string, t: PhpArray)
    requires a != [] && a[0].0 != k
    requires forall e :: e in t <==> e in a[1..] && e.0 != k
    requires k !in ToMap(a[1..]) ==> t == a[1..]
    ensures forall x :: x in t ==> x.0 != a[0].0
    ensures forall e :: e in [a[0]] + t <==> e in a && e.0 != k
    ensures k !in ToMap(a) ==> [a[0]] + t == a
  {
    DistinctTail(a);
    assert a == [a[0]] + a[1..];
  }

  lemma UnsetHead(a: PhpArray, k: string)
    requires a != [] && a[0].0 == k
    ensures Unset(a, k) == a[1..]
  {
  }

  lemma UnsetPastHead(a: PhpArray, k: string)
    requires a != [] && a[0].0 != k
    ensures DistinctKeys(a[1..])
    ensures Unset(a, k) == [a[0]] + Unset(a[1..], k)
  {
    DistinctTail(a);
  }

  lemma ConsSlices(a: seq<Entry>, i: int)
    requires 0 < i < |a|
    ensures a[..i] + a[i + 1..] == [a[0]] + (a[1..][..i - 1] + a[1..][i..])
  {
  }

  /** Unsetting a present key removes exactly its entry, in place. */
  lemma {:induction false} UnsetAt(a: PhpArray, k: string, i: int)
    requires 0 <= i < |a| && a[i].0 == k
    ensures Unset(a, k) == a[..i] + a[i + 1..]
    decreases i, 1
  {
    if i == 0 {
      UnsetHead(a, k);
    } else {
      assert a[0].0 != a[i].0;
      UnsetAtTail(a, k, i);
    }
  }

  lemma {:induction false} UnsetAtTail(a: PhpArray, k: string, i: int)
    requires 0 < i < |a| && a[i].0 == k && a[0].0 != k
    ensures Unset(a, k) == a[..i] + a[i + 1..]
    decreases i, 0
  {
    UnsetPastHead(a, k);
    assert a[1..][i - 1].0 == k;
    UnsetAt(a[1..], k, i - 1);
    ConsSlices(a, i);
  }

  /** Unsetting the key of an entry between `x` and `y` leaves `x` followed by `y`. */
  lemma UnsetBetween(a: PhpArray, x: seq<Entry>, e: Entry, y: seq<Entry>, k: string)
    requires a == x + [e] + y && e.0 == k
    ensures Unset(a, k) == x + y
  {
    UnsetAt(a, k, |x|);
    assert a[..|x|] == x;
    assert a[|x| + 1..] == y;
  }

  /** Two arrays with the same entries have the same keys and values. */
  lemma SameEntriesSameMap(a: PhpArray, b: PhpArray)
    requires forall e :: e in a <==> e in b
    ensures ToMap(a) == ToMap(b)
  {
    forall k | k in ToMap(a) ensures k in ToMap(b) && ToMap(b)[k] == ToMap(a)[k] {
      EntryInToMap(a, (k, ToMap(a)[k]));
      EntryInToMap(b, (k, ToMap(a)[k]));
    }
    forall k | k in ToMap(b) ensures k in ToMap(a) {
      EntryInToMap(b, (k, ToMap(b)[k]));
      EntryInToMap(a, (k, ToMap(b)[k]));
    }
  }

  /** Conversely, the same keys and values means the same entries, in whatever order. */
  lemma SameMapSameEntries(a: PhpArray, b: PhpArray)
    requires ToMap(a) == ToMap(b)
    ensures forall e :: e in a <==> e in b
  {
    forall e ensures e in a <==> e in b {
      EntryInToMap(a, e);
      EntryInToMap(b, e);
    }
  }

  /** Removing a key that was just appended gives the array back. */
  lemma UnsetAppended(a: PhpArray, k: string, v: Value)
    requires k !in ToMap(a)
    ensures Unset(Set(a, k, v), k) == a
  {
    var s := Set(a, k, v);
    assert s == a + [(k, v)] + [];
    UnsetBetween(s, a, (k, v), [], k);
    assert a + [] == a;
  }

  /** `array_filter($a)`: the entries with a truthy value, in their order. */
  function Filter(a: PhpArray): (r: PhpArray)
    ensures forall e :: e in r <==> e in a && Truthy(e.1)
  {
    if a == [] then []
    else
      DistinctTail(a);
      (if Truthy(a[0].1) then [a[0]] else []) + Filter(a[1..])
  }

  lemma {:induction false} FilterConcat(a: PhpArray, b: PhpArray)
    requires DistinctKeys(a + b)
    ensures Filter(a + b) == Filter(a) + Filter(b)
  {
    if a != [] {
      ghost var ab: PhpArray := a + b;
      assert ab[1..] == a[1..] + b;
      DistinctTail(a);
      FilterConcat(a[1..], b);
    } else {
      assert a + b == b;
    }
  }

  predicate StrictlySorted(s: seq<Entry>)
  {
    forall i, j :: 0 <= i < j < |s| ==> Below(s[i].0, s[j].0)
  }

  lemma SortedDistinct(s: seq<Entry>)
    requires StrictlySorted(s)
    ensures DistinctKeys(s)
  {
    forall i, j | 0 <= i < j < |s| ensures s[i].0 != s[j].0 {
      if s[i].0 == s[j].0 {
        BelowIrreflexive(s[i].0);
      }
    }
  }

  function Insert(e: Entry, s: seq<Entry>): (r: seq<Entry>)
    requires StrictlySorted(s)
    requires forall x :: x in s ==> x.0 != e.0
    ensures StrictlySorted(r)
    ensures multiset(r) == multiset(s) + multiset{e}
  {
    if s == [] then [e]
    else if Below(e.0, s[0].0) then
      InsertFront(e, s);
      [e] + s
    else
      BelowTotal(e.0, s[0].0);
      SortedTail(s);
      var t := Insert(e, s[1..]);
      InsertBehind(e, s, t);
      [s[0]] + t
  }

  lemma SortedTail(s: seq<Entry>)
    requires StrictlySorted(s) && s != []
    ensures StrictlySorted(s[1..])
    ensures forall x :: x in s[1..] ==> x in s && Below(s[0].0, x.0)
  {
    forall x | x in s[1..] ensures x in s && Below(s[0].0, x.0) {
      var j :| 0 <= j < |s[1..]| && s[1..][j] == x;
      assert s[j + 1] == x;
    }
  }

  lemma InsertFront(e: Entry, s: seq<Entry>)
    requires StrictlySorted(s) && s != [] && Below(e.0, s[0].0)
    ensures StrictlySorted([e] + s)
  {
    forall i, j | 0 <= i < j < |[e] + s| ensures Below(([e] + s)[i].0, ([e] + s)[j].0) {
      if i == 0 && j > 1 {
        BelowTransitive(e.0, s[0].0, s[j - 1].0);
      }
    }
  }

  lemma InsertBehind(e: Entry, s: seq<Entry>, t: seq<Entry>)
    requires StrictlySorted(s) && s != [] && Below(s[0].0, e.0)
    requires StrictlySorted(t) && multiset(t) == multiset(s[1..]) + multiset{e}
    ensures StrictlySorted([s[0]] + t)
    ensures multiset([s[0]] + t) == multiset(s) + multiset{e}
  {
    SortedTail(s);
    forall x | x in t ensures Below(s[0].0, x.0) {
      assert x in multiset(t);
    }
    forall i, j | 0 <= i < j < |[s[0]] + t| ensures Below(([s[0]] + t)[i].0, ([s[0]] + t)[j].0) {
      if i == 0 {
        assert ([s[0]] + t)[j] == t[j - 1];
        assert t[j - 1] in t;
      } else {
        assert ([s[0]] + t)[i] == t[i - 1] && ([s[0]] + t)[j] == t[j - 1];
      }
    }
    assert s == [s[0]] + s[1..];
  }

  /** `ksort($a)`: the same entries, in strictly ascending key order. */
  function KSort(a: PhpArray): (r: PhpArray)
    ensures StrictlySorted(r)
    ensures multiset(r) == multiset(a)
  {
    if a == [] then []
    else
      DistinctTail(a);
      var t := KSort(a[1..]);
      KSortStep(a, t);
      Insert(a[0], t)
  }

  lemma KSortStep(a: PhpArray, t: seq<Entry>)
    requires a != [] && StrictlySorted(t) && multiset(t) == multiset(a[1..])
    ensures forall x :: x in t ==> x.0 != a[0].0
    ensures DistinctKeys(Insert(a[0], t)) && multiset(Insert(a[0], t)) == multiset(a)
  {
    DistinctTail(a);
    forall x | x in t ensures x.0 != a[0].0 {
      assert x in multiset(a[1..]);
    }
    SortedDistinct(Insert(a[0], t));
    assert a == [a[0]] + a[1..];
  }

  /** Two strictly sorted lists with the same entries are the same list. */
  lemma {:induction false} SortedUnique(a: seq<Entry>, b: seq<Entry>)
    requires StrictlySorted(a) && StrictlySorted(b)
    requires forall e :: e in a <==> e in b
    ensures a == b
  {
    if a != [] {
      assert a[0] in a;
    }
    if b != [] {
      assert b[0] in b;
    }
    if a == [] || b == [] {
      if a != [] || b != [] {
        assert false;
      }
    } else {
      var i :| 0 <= i < |a| && a[i] == b[0];
      var j :| 0 <= j < |b| && b[j] == a[0];
      if i > 0 && j > 0 {
        assert Below(a[0].0, a[i].0) && Below(b[0].0, b[j].0);
        BelowAsymmetric(a[0].0, b[0].0);
        assert false;
      }
      assert a[0] == b[0];
      forall e ensures e in a[1..] <==> e in b[1..] {
        TailMembers(a, e);
        TailMembers(b, e);
      }
      SortedUnique(a[1..], b[1..]);
      assert a == [a[0]] + a[1..] && b == [b[0]] + b[1..];
    }
  }

  lemma TailMembers(s: seq<Entry>, e: Entry)
    requires StrictlySorted(s) && s != []
    ensures e in s[1..] <==> e in s && e != s[0]
  {
    if e in s[1..] {
      var j :| 0 <= j < |s[1..]| && s[1..][j] == e;
      assert Below(s[0].0, s[j + 1].0);
      BelowIrreflexive(s[0].0);
    }
    if e in s && e != s[0] {
      var j :| 0 <= j < |s| && s[j] == e;
      assert s[1..][j - 1] == e;
    }
  }
}
