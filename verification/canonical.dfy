// Canonical JSON: keys sorted by Unicode code point at every level.
module Canonical {
  import opened Wrappers
  import opened Json
  import opened JsonRoundTrip

  // ---- key order --------------------------------------------------------

  /** Code point order of two keys, with the value the comparator returns. */
  function Compare(a: string, b: string): int {
    if a == "" || b == "" then |a| - |b|
    else if a[0] != b[0] then a[0] as int - b[0] as int
    else Compare(a[1..], b[1..])
  }

  predicate Less(a: string, b: string) { Compare(a, b) < 0 }

  method CompareUnicodeKeys(a: string, b: string) returns (r: int)
    ensures r == Compare(a, b)
  {
    var len := if |a| < |b| then |a| else |b|;
    assert a == a[0..] && b == b[0..];
    for i := 0 to len
      invariant Compare(a, b) == Compare(a[i..], b[i..])
    {
      if a[i] != b[i] { return a[i] as int - b[i] as int; }
      assert a[i..][1..] == a[i + 1..] && b[i..][1..] == b[i + 1..];
    }
    return |a| - |b|;
  }

  /** The comparator is a strict total order on keys. */
  lemma {:induction false} CompareIsTotalOrder(a: string, b: string, c: string)
    ensures Compare(a, b) == -Compare(b, a)
    ensures Compare(a, b) == 0 <==> a == b
    ensures Less(a, b) && Less(b, c) ==> Less(a, c)
  {
    if a != "" && b != "" && a[0] == b[0] {
      CompareIsTotalOrder(a[1..], b[1..], if c != "" then c[1..] else c);
      assert a == [a[0]] + a[1..] && b == [b[0]] + b[1..];
    }
  }

  // ---- sorting the members of an object -----------------------------------

  predicate SortedByKey(ms: seq<Member>) {
    forall i, j | 0 <= i < j < |ms| :: Less(ms[i].key, ms[j].key)
  }

  function Insert(m: Member, ms: seq<Member>): (r: seq<Member>)
    ensures |r| == |ms| + 1
    ensures forall x :: x in r <==> x == m || x in ms
  {
    if |ms| == 0 || Less(m.key, ms[0].key) then [m] + ms
    else
      assert ms == [ms[0]] + ms[1..];
      [ms[0]] + Insert(m, ms[1..])
  }

  /** What sorting with the comparator returns. */
  function SortMembers(ms: seq<Member>): (r: seq<Member>)
    ensures |r| == |ms|
    ensures forall x :: x in r <==> x in ms
  {
    if |ms| == 0 then []
    else
      assert ms == [ms[0]] + ms[1..];
      Insert(ms[0], SortMembers(ms[1..]))
  }

  lemma {:induction false} InsertSorted(m: Member, ms: seq<Member>)
    requires SortedByKey(ms) && forall i | 0 <= i < |ms| :: ms[i].key != m.key
    ensures SortedByKey(Insert(m, ms))
  {
    if |ms| == 0 {
    } else if Less(m.key, ms[0].key) {
      forall j | 0 <= j < |ms| ensures Less(m.key, ms[j].key) {
        CompareIsTotalOrder(m.key, ms[0].key, ms[j].key);
      }
    } else {
      var tail := ms[1..];
      InsertSorted(m, tail);
      CompareIsTotalOrder(m.key, ms[0].key, m.key);
      var r := Insert(m, tail);
      forall j | 0 <= j < |r| ensures Less(ms[0].key, r[j].key) {
        assert r[j] in r;
        if r[j] in tail { var k :| 0 <= k < |tail| && tail[k] == r[j]; assert ms[k + 1] == r[j]; }
      }
    }
  }

  lemma {:induction false} SortMembersSorted(ms: seq<Member>)
    requires DistinctKeys(ms)
    ensures SortedByKey(SortMembers(ms)) && DistinctKeys(SortMembers(ms))
  {
    if |ms| > 0 {
      var tail := ms[1..];
      assert forall i | 0 <= i < |tail| :: tail[i] == ms[i + 1];
      SortMembersSorted(tail);
      var sorted := SortMembers(tail);
      forall i | 0 <= i < |sorted| ensures sorted[i].key != ms[0].key {
        assert sorted[i] in tail;
      }
      InsertSorted(ms[0], sorted);
    }
    SortedMeansDistinct(SortMembers(ms));
  }

  lemma SortedMeansDistinct(ms: seq<Member>)
    requires SortedByKey(ms)
    ensures DistinctKeys(ms)
  {
    forall i, j | 0 <= i < j < |ms| ensures ms[i].key != ms[j].key {
      CompareIsTotalOrder(ms[i].key, ms[j].key, "");
    }
  }

  /** A sorted member list is determined by its members: any correct sort gives the same list. */
  lemma {:induction false} SortedIsUnique(ms: seq<Member>, ns: seq<Member>)
    requires SortedByKey(ms) && SortedByKey(ns)
    requires forall m :: m in ms <==> m in ns
    ensures ms == ns
  {
    assert |ns| > 0 ==> ns[0] in ns;
    if |ms| > 0 {
      assert ms[0] in ns;
      assert |ns| > 0 && ns[0] in ms;
      var i :| 0 <= i < |ns| && ns[i] == ms[0];
      var j :| 0 <= j < |ms| && ms[j] == ns[0];
      CompareIsTotalOrder(ms[0].key, ns[0].key, "");
      assert i == 0 && j == 0;
      forall m ensures m in ms[1..] <==> m in ns[1..] {
        SortedTail(ms, m);
        SortedTail(ns, m);
      }
      SortedIsUnique(ms[1..], ns[1..]);
    }
  }

  lemma SortedTail(ms: seq<Member>, m: Member)
    requires |ms| > 0 && SortedByKey(ms)
    ensures SortedByKey(ms[1..])
    ensures m in ms[1..] <==> m in ms && m != ms[0]
  {
    assert ms == [ms[0]] + ms[1..];
    CompareIsTotalOrder(ms[0].key, ms[0].key, "");
  }

  /** With distinct keys, lookup is membership. */
  lemma FindIsMembership(ms: seq<Member>, key: string, value: Json)
    requires DistinctKeys(ms)
    ensures Find(ms, key) == Some(value) <==> Member(key, value) in ms
  {
    if Member(key, value) in ms {
      var i :| 0 <= i < |ms| && ms[i] == Member(key, value);
      assert Find(ms, key).Some?;
    }
  }

  // ---- canonical values -------------------------------------------------

  function Canon(v: Json): Json {
    match v
    case Arr(items) => Arr(CanonItems(items))
    case Obj(ms) => Obj(SortMembers(CanonMembers(ms)))
    case _ => v
  }

  function CanonItems(items: seq<Json>): (r: seq<Json>)
    ensures |r| == |items|
    ensures forall i | 0 <= i < |items| :: r[i] == Canon(items[i])
  {
    seq(|items|, i requires 0 <= i < |items| => Canon(items[i]))
  }

  function CanonMembers(ms: seq<Member>): (r: seq<Member>)
    ensures |r| == |ms|
    ensures forall i | 0 <= i < |ms| :: r[i] == Member(ms[i].key, Canon(ms[i].value))
  {
    seq(|ms|, i requires 0 <= i < |ms| => Member(ms[i].key, Canon(ms[i].value)))
  }

  lemma {:induction false} CanonWellFormed(v: Json)
    requires WellFormed(v)
    ensures WellFormed(Canon(v))
    decreases v
  {
    match v
    case Arr(items) =>
      forall i | 0 <= i < |items| ensures WellFormed(Canon(items[i])) { CanonWellFormed(items[i]); }
    case Obj(ms) =>
      var cs := CanonMembers(ms);
      forall i | 0 <= i < |ms| ensures WellFormed(cs[i].value) { CanonWellFormed(ms[i].value); }
      SortMembersSorted(cs);
      var r := SortMembers(cs);
      forall i | 0 <= i < |r| ensures WellFormed(r[i].value) {
        assert r[i] in cs;
        var k :| 0 <= k < |cs| && cs[k] == r[i];
      }
    case _ =>
  }

  /** Canonicalising commutes with reading a member. */
  lemma GetOfCanon(v: Json, key: string)
    requires WellFormed(v)
    ensures Get(Canon(v), key) == match Get(v, key) case None => None case Some(x) => Some(Canon(x))
  {
    if v.Obj? {
      var ms := v.members;
      var cs := CanonMembers(ms);
      SortMembersSorted(cs);
      match Find(ms, key)
      case Some(x) =>
        FindIsMembership(ms, key, x);
        var i :| 0 <= i < |ms| && ms[i] == Member(key, x);
        assert cs[i] == Member(key, Canon(x)) && cs[i] in cs;
        FindIsMembership(SortMembers(cs), key, Canon(x));
      case None =>
        forall x | x in SortMembers(cs) ensures x.key != key {
          var i :| 0 <= i < |cs| && cs[i] == x;
          assert x.key == ms[i].key;
        }
    }
  }

  lemma {:induction false} CanonIdempotent(v: Json)
    requires WellFormed(v)
    ensures Canon(Canon(v)) == Canon(v)
    decreases v
  {
    match v
    case Arr(items) =>
      forall i | 0 <= i < |items| ensures Canon(Canon(items[i])) == Canon(items[i]) { CanonIdempotent(items[i]); }
      assert CanonItems(CanonItems(items)) == CanonItems(items);
    case Obj(ms) =>
      var cs := CanonMembers(ms);
      SortMembersSorted(cs);
      var r := SortMembers(cs);
      forall i | 0 <= i < |r| ensures Canon(r[i].value) == r[i].value {
        assert r[i] in cs;
        var k :| 0 <= k < |cs| && cs[k] == r[i];
        CanonIdempotent(ms[k].value);
      }
      assert CanonMembers(r) == r;
      SortMembersSorted(r);
      SortedIsUnique(SortMembers(r), r);
    case _ =>
  }

  /** Sorting keys leaves the numbers alone. */
  lemma {:induction false} CanonNumbers(v: Json, ok: Json -> bool)
    ensures AllNumbers(Canon(v), ok) <==> AllNumbers(v, ok)
    decreases v
  {
    match v
    case Arr(items) =>
      forall i | 0 <= i < |items| ensures AllNumbers(Canon(items[i]), ok) <==> AllNumbers(items[i], ok) { CanonNumbers(items[i], ok); }
    case Obj(ms) =>
      var cs := CanonMembers(ms);
      var r := SortMembers(cs);
      forall i | 0 <= i < |ms| ensures AllNumbers(cs[i].value, ok) <==> AllNumbers(ms[i].value, ok) { CanonNumbers(ms[i].value, ok); }
      if AllNumbers(Obj(cs), ok) { SameMembersSameNumbers(cs, r, ok); }
      if AllNumbers(Obj(r), ok) { SameMembersSameNumbers(r, cs, ok); }
    case _ =>
  }

  lemma SameMembersSameNumbers(ms: seq<Member>, ns: seq<Member>, ok: Json -> bool)
    requires forall m | m in ns :: m in ms
    requires forall i | 0 <= i < |ms| :: AllNumbers(ms[i].value, ok)
    ensures forall i | 0 <= i < |ns| :: AllNumbers(ns[i].value, ok)
  {
    forall i | 0 <= i < |ns| ensures AllNumbers(ns[i].value, ok) {
      assert ns[i] in ms;
      var k :| 0 <= k < |ms| && ms[k] == ns[i];
    }
  }

  /** The server's `canonical_json_str`. */
  function CanonicalJsonStr(v: Json): string { Render(Canon(v), PythonUtf8) }


  // ---- what the canonical text says ---------------------------------------

  /** Equality of parsed values: objects compare as dictionaries, arrays in order. */
  ghost predicate SameValue(v: Json, w: Json) {
    if v.Arr? && w.Arr? then
      |v.items| == |w.items| && forall i | 0 <= i < |v.items| :: SameValue(v.items[i], w.items[i])
    else if v.Obj? && w.Obj? then
      && (forall i | 0 <= i < |v.members| ::
            var x := Find(w.members, v.members[i].key);
            x.Some? && SameValue(v.members[i].value, x.value))
      && (forall j | 0 <= j < |w.members| :: Find(v.members, w.members[j].key).Some?)
    else v == w
  }

  lemma CanonMemberFound(ms: seq<Member>, ns: seq<Member>, i: nat)
    requires i < |ms| && Find(ns, ms[i].key).Some? && Canon(ms[i].value) == Canon(Find(ns, ms[i].key).value)
    ensures CanonMembers(ms)[i] in CanonMembers(ns)
  {
    hide Canon, Find;
    var x := Find(ns, ms[i].key).value;
    var j :| 0 <= j < |ns| && ns[j] == Member(ms[i].key, x);
    assert CanonMembers(ns)[j] == CanonMembers(ms)[i];
  }

  predicate KeyIn(ms: seq<Member>, key: string) { exists i :: 0 <= i < |ms| && ms[i].key == key }

  lemma CanonKeysFound(ms: seq<Member>, ns: seq<Member>)
    requires forall j | 0 <= j < |ns| :: Find(ms, ns[j].key).Some?
    ensures forall j | 0 <= j < |CanonMembers(ns)| :: KeyIn(CanonMembers(ms), CanonMembers(ns)[j].key)
  {
    hide Canon, Find;
    var cs, ds := CanonMembers(ms), CanonMembers(ns);
    forall j | 0 <= j < |ds| ensures KeyIn(cs, ds[j].key) {
      var i :| 0 <= i < |ms| && ms[i].key == ns[j].key;
      assert cs[i].key == ds[j].key;
    }
  }

  lemma {:induction false} SameValueMeansSameCanon(v: Json, w: Json)
    requires WellFormed(v) && WellFormed(w) && SameValue(v, w)
    ensures Canon(v) == Canon(w)
    decreases v
  {
    hide Find, SortMembers, CanonMembers, KeyIn;
    if v.Arr? && w.Arr? {
      forall i | 0 <= i < |v.items| ensures Canon(v.items[i]) == Canon(w.items[i]) {
        SameValueMeansSameCanon(v.items[i], w.items[i]);
      }
      assert CanonItems(v.items) == CanonItems(w.items);
    } else if v.Obj? && w.Obj? {
      var ms, ns := v.members, w.members;
      forall i | 0 <= i < |ms| ensures CanonMembers(ms)[i] in CanonMembers(ns) {
        var x := Find(ns, ms[i].key).value;
        var j :| 0 <= j < |ns| && ns[j] == Member(ms[i].key, x);
        SameValueMeansSameCanon(ms[i].value, x);
        CanonMemberFound(ms, ns, i);
      }
      CanonKeysFound(ms, ns);
      SameKeysSameSort(CanonMembers(ms), CanonMembers(ns));
    }
  }

  /** Members of one list that are all in another with the same keys sort to the same list. */
  lemma SameKeysSameSort(ms: seq<Member>, ns: seq<Member>)
    requires DistinctKeys(ms) && DistinctKeys(ns)
    requires forall i | 0 <= i < |ms| :: ms[i] in ns
    requires forall j | 0 <= j < |ns| :: KeyIn(ms, ns[j].key)
    ensures SortMembers(ms) == SortMembers(ns)
  {
    forall j | 0 <= j < |ns| ensures ns[j] in ms {
      var i :| 0 <= i < |ms| && ms[i].key == ns[j].key;
      var k :| 0 <= k < |ns| && ns[k] == ms[i];
      assert k == j;
    }
    SortMembersSorted(ms);
    SortMembersSorted(ns);
    hide SortMembers, SortedByKey;
    SortedIsUnique(SortMembers(ms), SortMembers(ns));
  }

  lemma {:induction false} SameCanonMeansSameValue(v: Json, w: Json)
    requires WellFormed(v) && WellFormed(w) && Canon(v) == Canon(w)
    ensures SameValue(v, w)
    decreases v
  {
    if v.Arr? && w.Arr? {
      assert |CanonItems(v.items)| == |CanonItems(w.items)|;
      forall i | 0 <= i < |v.items| ensures SameValue(v.items[i], w.items[i]) {
        assert CanonItems(v.items)[i] == CanonItems(w.items)[i];
        SameCanonMeansSameValue(v.items[i], w.items[i]);
      }
    } else if v.Obj? && w.Obj? {
      var ms, ns := v.members, w.members;
      assert SortMembers(CanonMembers(ms)) == SortMembers(CanonMembers(ns));
      forall i | 0 <= i < |ms|
        ensures Find(ns, ms[i].key).Some? && SameValue(ms[i].value, Find(ns, ms[i].key).value)
      {
        assert CanonMembers(ms)[i] in SortMembers(CanonMembers(ms));
        assert CanonMembers(ms)[i] in CanonMembers(ns);
        var j :| 0 <= j < |ns| && CanonMembers(ns)[j] == CanonMembers(ms)[i];
        FindIsMembership(ns, ms[i].key, ns[j].value);
        SameCanonMeansSameValue(ms[i].value, ns[j].value);
      }
      forall j | 0 <= j < |ns| ensures Find(ms, ns[j].key).Some? {
        assert CanonMembers(ns)[j] in SortMembers(CanonMembers(ns));
        assert CanonMembers(ns)[j] in CanonMembers(ms);
        var i :| 0 <= i < |ms| && CanonMembers(ms)[i] == CanonMembers(ns)[j];
        assert ms[i].key == ns[j].key;
      }
    }
  }

  /** Reading a canonical text back gives the canonical value. */
  lemma ParseOfCanonical(v: Json)
    requires WellFormed(v)
    ensures Parse(CanonicalJsonStr(v)) == Some(Canon(v)) && WellFormed(Canon(v))
  {
    CanonWellFormed(v);
    ParseOfRender(Canon(v), PythonUtf8);
  }

  /** Two values have the same canonical text exactly when they are the same value. */
  lemma SameTextIffSameValue(v: Json, w: Json)
    requires WellFormed(v) && WellFormed(w)
    ensures CanonicalJsonStr(v) == CanonicalJsonStr(w) <==> SameValue(v, w)
  {
    ParseOfCanonical(v);
    ParseOfCanonical(w);
    if CanonicalJsonStr(v) == CanonicalJsonStr(w) { SameCanonMeansSameValue(v, w); }
    if SameValue(v, w) { SameValueMeansSameCanon(v, w); }
  }
}
