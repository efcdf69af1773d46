/**
 * The canonical string that every payment request and response is signed
 * over (`PayAbstract::buildSignQueryString`): drop the falsy fields, sort
 * by key, write `key=value` pairs joined by `&`, with no percent-encoding.
 */
module PayAbstract {
  import opened PhpText
  import opened PhpArray

  /** The entries that take part in signing: the truthy ones, by ascending key (`array_filter`, then `ksort`). */
  function SignPairs(a: PhpArray): (r: PhpArray)
    ensures StrictlySorted(r)
    ensures forall e :: e in r <==> e in a && Truthy(e.1)
  {
    var r := KSort(Filter(a));
    assert forall e :: e in r <==> e in multiset(Filter(a));
    r
  }

  /** The `key=value` items `http_build_query` writes, once `urldecode` has been applied; null values are skipped. */
  function Items(ps: seq<Entry>): seq<string>
  {
    if ps == [] then []
    else (if ps[0].1 == VNull then [] else [ps[0].0 + "=" + Render(ps[0].1)]) + Items(ps[1..])
  }

  /** `implode("&", $xs)`. */
  function Join(xs: seq<string>): string
  {
    if xs == [] then "" else if |xs| == 1 then xs[0] else xs[0] + "&" + Join(xs[1..])
  }

  /** `urldecode(http_build_query($ps))`. */
  function QueryString(ps: seq<Entry>): string
  {
    Join(Items(ps))
  }

  /** `buildSignQueryString($queryParams)`. */
  function BuildSignQueryString(a: PhpArray): string
  {
    QueryString(SignPairs(a))
  }

  /** The signing pairs depend on nothing but the set of truthy entries. */
  lemma SignPairsByEntries(a: PhpArray, b: PhpArray)
    requires forall e :: e in a && Truthy(e.1) <==> e in b && Truthy(e.1)
    ensures SignPairs(a) == SignPairs(b)
  {
    SortedUnique(SignPairs(a), SignPairs(b));
  }

  /** A pair is signed exactly when its key maps to that truthy value; keys are strictly ascending, so each pair is signed once. */
  lemma SignedPairIff(a: PhpArray, k: string, v: Value)
    ensures (k, v) in SignPairs(a) <==> k in ToMap(a) && ToMap(a)[k] == v && Truthy(v)
    ensures forall i, j :: 0 <= i < j < |SignPairs(a)| ==> Below(SignPairs(a)[i].0, SignPairs(a)[j].0)
  {
    EntryInToMap(a, (k, v));
  }

  /** When the first `n` fields are falsy, every signed pair comes from the fields after them. */
  lemma FalsyPrefixUnsigned(a: PhpArray, n: nat, e: Entry)
    requires n <= |a|
    requires forall i :: 0 <= i < n ==> !Truthy(a[i].1)
    requires e in SignPairs(a)
    ensures e in a[n..]
  {
    var i :| 0 <= i < |a| && a[i] == e;
    assert a[n..][i - n] == e;
  }

  /** Adding a field whose value is falsy leaves the signing string unchanged. */
  lemma FalsyFieldIgnored(a: PhpArray, k: string, v: Value)
    requires k !in ToMap(a) && !Truthy(v)
    ensures BuildSignQueryString(Set(a, k, v)) == BuildSignQueryString(a)
  {
    SignPairsByEntries(Set(a, k, v), a);
  }

  /** Removing a field whose value is falsy (or that is missing) leaves the signing string unchanged. */
  lemma FalsyFieldRemoved(a: PhpArray, k: string)
    requires !Truthy(At(a, k))
    ensures BuildSignQueryString(Unset(a, k)) == BuildSignQueryString(a)
  {
    forall e | e in a && Truthy(e.1) ensures e.0 != k {
      EntryInToMap(a, e);
    }
    SignPairsByEntries(Unset(a, k), a);
  }

  /** Arrays holding the same entries, in whatever order, have the same signing string. */
  lemma SameEntriesSameString(a: PhpArray, b: PhpArray)
    requires forall e :: e in a <==> e in b
    ensures BuildSignQueryString(a) == BuildSignQueryString(b)
  {
    SignPairsByEntries(a, b);
  }

  /** The signing string depends only on the key/value pairs, not on the order the fields were written in. */
  lemma OrderIrrelevant(a: PhpArray, b: PhpArray)
    requires ToMap(a) == ToMap(b)
    ensures BuildSignQueryString(a) == BuildSignQueryString(b)
  {
    SameMapSameEntries(a, b);
    SignPairsByEntries(a, b);
  }

  lemma {:induction false} ItemsOfNonNull(ps: seq<Entry>)
    requires forall e :: e in ps ==> e.1 != VNull
    ensures |Items(ps)| == |ps|
    ensures forall i :: 0 <= i < |ps| ==> Items(ps)[i] == ps[i].0 + "=" + Render(ps[i].1)
  {
    if ps != [] {
      assert forall e :: e in ps[1..] ==> e in ps;
      ItemsOfNonNull(ps[1..]);
    }
  }

  /** Every signing pair is written as its key, `=`, and the value exactly as rendered: nothing is escaped. */
  lemma SignItemsVerbatim(a: PhpArray)
    ensures |Items(SignPairs(a))| == |SignPairs(a)|
    ensures forall i :: 0 <= i < |SignPairs(a)| ==>
      Items(SignPairs(a))[i] == SignPairs(a)[i].0 + "=" + Render(SignPairs(a)[i].1)
  {
    ItemsOfNonNull(SignPairs(a));
  }

  lemma {:induction false} JoinEmpty(xs: seq<string>)
    requires forall i :: 0 <= i < |xs| ==> xs[i] != ""
    ensures Join(xs) == "" <==> xs == []
  {
    if |xs| > 1 {
      assert |Join(xs)| >= |xs[0]|;
    }
  }

  /** The signing string is empty exactly when no field has a truthy value (in particular for an empty array). */
  lemma EmptyIffAllFalsy(a: PhpArray)
    ensures BuildSignQueryString(a) == "" <==> forall e :: e in a ==> !Truthy(e.1)
  {
    var ps := SignPairs(a);
    SignItemsVerbatim(a);
    JoinEmpty(Items(ps));
    if ps != [] {
      assert ps[0] in ps;
    }
  }

  /** `explode($c, $s)`: the pieces between the separators. */
  function Explode(c: char, s: string): (r: seq<string>)
    ensures |r| > 0
  {
    if s == [] then [""]
    else
      var rest := Explode(c, s[1..]);
      if s[0] == c then [""] + rest else [[s[0]] + rest[0]] + rest[1..]
  }

  lemma {:induction false} ExplodeNoSeparator(c: char, x: string)
    requires c !in x
    ensures Explode(c, x) == [x]
  {
    if x != [] {
      ExplodeNoSeparator(c, x[1..]);
      assert x == [x[0]] + x[1..];
    }
  }

  lemma {:induction false} ExplodeFirst(c: char, x: string, y: string)
    requires c !in x
    ensures Explode(c, x + [c] + y) == [x] + Explode(c, y)
  {
    if x == [] {
      assert x + [c] + y == [c] + y;
      assert ([c] + y)[1..] == y;
    } else {
      var s := x + [c] + y;
      assert s[1..] == x[1..] + [c] + y;
      ExplodeFirst(c, x[1..], y);
      assert x == [x[0]] + x[1..];
    }
  }

  lemma {:induction false} ExplodeJoin(xs: seq<string>)
    requires xs != []
    requires forall i :: 0 <= i < |xs| ==> '&' !in xs[i]
    ensures Explode('&', Join(xs)) == xs
  {
    if |xs| == 1 {
      ExplodeNoSeparator('&', xs[0]);
    } else {
      ExplodeJoin(xs[1..]);
      assert xs[0] + "&" + Join(xs[1..]) == xs[0] + ['&'] + Join(xs[1..]);
      ExplodeFirst('&', xs[0], Join(xs[1..]));
      assert xs == [xs[0]] + xs[1..];
    }
  }

  /**
   * Splitting the signing string at `&` gives back exactly the pairs, in
   * ascending key order, as long as no signed key or value contains `&`.
   */
  lemma SignStringSplits(a: PhpArray)
    requires exists e :: e in a && Truthy(e.1)
    requires forall e :: e in a && Truthy(e.1) ==> '&' !in e.0 && '&' !in Render(e.1)
    ensures Explode('&', BuildSignQueryString(a)) == Items(SignPairs(a))
    ensures |Items(SignPairs(a))| == |SignPairs(a)|
  {
    var ps := SignPairs(a);
    SignItemsVerbatim(a);
    var e :| e in a && Truthy(e.1);
    assert e in ps;
    forall i | 0 <= i < |ps| ensures '&' !in Items(ps)[i] {
      assert ps[i] in ps;
    }
    ExplodeJoin(Items(ps));
  }

  lemma SignPairsOfSorted(a: PhpArray)
    requires StrictlySorted(a)
    requires forall e :: e in a ==> Truthy(e.1)
    ensures SignPairs(a) == a
  {
    SortedUnique(SignPairs(a), a);
  }

  lemma OneFieldString()
    ensures BuildSignQueryString([("a", VStr("1&b=2"))]) == "a=1&b=2"
  {
    var one: PhpArray := [("a", VStr("1&b=2"))];
    SignPairsOfSorted(one);
    OneFieldQuery();
  }

  lemma OneFieldQuery()
    ensures QueryString([("a", VStr("1&b=2"))]) == "a=1&b=2"
  {
    var one: seq<Entry> := [("a", VStr("1&b=2"))];
    assert Items(one[1..]) == [];
    assert "a" + "=" + "1&b=2" == "a=1&b=2";
    assert Items(one) == ["a=1&b=2"];
  }

  lemma TwoFieldString()
    ensures BuildSignQueryString([("a", VStr("1")), ("b", VStr("2"))]) == "a=1&b=2"
  {
    var two: PhpArray := [("a", VStr("1")), ("b", VStr("2"))];
    assert Below("a", "b");
    SignPairsOfSorted(two);
    TwoFieldQuery();
  }

  lemma TwoFieldQuery()
    ensures QueryString([("a", VStr("1")), ("b", VStr("2"))]) == "a=1&b=2"
  {
    var two: seq<Entry> := [("a", VStr("1")), ("b", VStr("2"))];
    assert two[1..] == [("b", VStr("2"))];
    assert "b" + "=" + "2" == "b=2";
    assert "a" + "=" + "1" == "a=1";
    assert Items(two[1..][1..]) == [];
    assert Items(two) == ["a=1", "b=2"];
    assert QueryString(two) == "a=1" + "&" + "b=2";
  }

  /** Because values are not escaped, a value holding `&` and `=` reads like two fields. */
  lemma UnescapedValuesCollide()
    ensures BuildSignQueryString([("a", VStr("1&b=2"))])
         == BuildSignQueryString([("a", VStr("1")), ("b", VStr("2"))])
  {
    OneFieldString();
    TwoFieldString();
  }
}
