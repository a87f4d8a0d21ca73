// The dial table: several prioritised routes per scope. Rows are kept in id order;
// a new row takes the largest id present plus one.
module Dials {
  import opened Wrappers

  datatype DialRow = DialRow(
    id: nat, scope: string, routeType: string, route: string, priority: int,
    endpointKey: Option<string>, createdAt: int, updatedAt: int)

  datatype DialEntry = DialEntry(routeType: string, route: string, priority: int, endpointKey: Option<string>)

  predicate HasKey(r: DialRow, scope: string, routeType: string, route: string) {
    r.scope == scope && r.routeType == routeType && r.route == route
  }

  predicate SameKey(r: DialRow, s: DialRow) { HasKey(r, s.scope, s.routeType, s.route) }

  /** Primary key and unique constraint of the table. */
  predicate TableOk(t: seq<DialRow>) {
    && (forall i, j | 0 <= i < j < |t| :: t[i].id < t[j].id)
    && (forall i, j | 0 <= i < j < |t| :: !SameKey(t[i], t[j]))
  }

  function NextId(t: seq<DialRow>): nat { if |t| == 0 then 1 else t[|t| - 1].id + 1 }

  function KeyIndex(t: seq<DialRow>, scope: string, routeType: string, route: string): (i: nat)
    ensures i <= |t|
    ensures forall j | 0 <= j < i :: !HasKey(t[j], scope, routeType, route)
    ensures i < |t| ==> HasKey(t[i], scope, routeType, route)
  {
    if |t| == 0 || HasKey(t[0], scope, routeType, route) then 0
    else
      var i := KeyIndex(t[1..], scope, routeType, route);
      assert forall j | 0 < j <= i && j < |t| :: t[j] == t[1..][j - 1];
      i + 1
  }

  /** The table seen as a map from (scope, route_type, route) to rows. */
  function Lookup(t: seq<DialRow>, scope: string, routeType: string, route: string): Option<DialRow> {
    var i := KeyIndex(t, scope, routeType, route);
    if i < |t| then Some(t[i]) else None
  }

  // ---- statements ---------------------------------------------------------

  function UpsertMerge(t: seq<DialRow>, scope: string, e: DialEntry, now: int): seq<DialRow> {
    var i := KeyIndex(t, scope, e.routeType, e.route);
    if i < |t| then t[i := t[i].(priority := e.priority, endpointKey := e.endpointKey, updatedAt := now)]
    else t + [NewRow(t, scope, e, now)]
  }

  function NewRow(t: seq<DialRow>, scope: string, e: DialEntry, now: int): DialRow {
    DialRow(NextId(t), scope, e.routeType, e.route, e.priority, e.endpointKey, now, now)
  }

  /** The row conditions the statements use. */
  datatype Where =
    | InScope(scope: string)
    | NotInScope(scope: string)
    | NotDial(scope: string, routeType: string, route: string)
  {
    predicate Holds(r: DialRow) {
      match this
      case InScope(scope) => r.scope == scope
      case NotInScope(scope) => r.scope != scope
      case NotDial(scope, routeType, route) => !HasKey(r, scope, routeType, route)
    }
  }

  /** The rows satisfying a condition, in id order. */
  function Keep(t: seq<DialRow>, keep: Where): (r: seq<DialRow>)
    ensures forall x :: x in r <==> x in t && keep.Holds(x)
  {
    if |t| == 0 then []
    else
      assert t == t[..|t| - 1] + [t[|t| - 1]];
      Keep(t[..|t| - 1], keep) + (if keep.Holds(t[|t| - 1]) then [t[|t| - 1]] else [])
  }

  function DeleteDial(t: seq<DialRow>, scope: string, routeType: string, route: string): seq<DialRow> {
    Keep(t, NotDial(scope, routeType, route))
  }

  function DeleteScope(t: seq<DialRow>, scope: string): seq<DialRow> { Keep(t, NotInScope(scope)) }

  function InsertAll(t: seq<DialRow>, scope: string, entries: seq<DialEntry>, now: int): seq<DialRow> {
    if |entries| == 0 then t
    else
      var t' := InsertAll(t, scope, entries[..|entries| - 1], now);
      t' + [NewRow(t', scope, entries[|entries| - 1], now)]
  }

  function ReplaceAll(t: seq<DialRow>, scope: string, entries: seq<DialEntry>, now: int): seq<DialRow> {
    InsertAll(DeleteScope(t, scope), scope, entries, now)
  }

  // ---- ORDER BY priority, id ----------------------------------------------

  predicate Before(a: DialRow, b: DialRow) {
    a.priority < b.priority || (a.priority == b.priority && a.id < b.id)
  }

  predicate Ordered(t: seq<DialRow>) { forall i, j | 0 <= i < j < |t| :: Before(t[i], t[j]) }

  function InsertOrdered(r: DialRow, t: seq<DialRow>): (s: seq<DialRow>)
    ensures |s| == |t| + 1 && forall x :: x in s <==> x == r || x in t
  {
    if |t| == 0 || Before(r, t[0]) then [r] + t
    else assert t == [t[0]] + t[1..]; [t[0]] + InsertOrdered(r, t[1..])
  }

  function OrderRows(t: seq<DialRow>): (s: seq<DialRow>)
    ensures |s| == |t| && forall x :: x in s <==> x in t
  {
    if |t| == 0 then [] else assert t == [t[0]] + t[1..]; InsertOrdered(t[0], OrderRows(t[1..]))
  }

  function ListByScope(t: seq<DialRow>, scope: string): seq<DialRow> {
    OrderRows(Keep(t, InScope(scope)))
  }

  // ---- laws ---------------------------------------------------------------

  lemma {:induction false} InsertOrderedOrdered(r: DialRow, t: seq<DialRow>)
    requires Ordered(t) && forall i | 0 <= i < |t| :: t[i].id != r.id
    ensures Ordered(InsertOrdered(r, t))
  {
    if |t| > 0 && !Before(r, t[0]) {
      var tail := t[1..];
      InsertOrderedOrdered(r, tail);
      var s := InsertOrdered(r, tail);
      forall j | 0 <= j < |s| ensures Before(t[0], s[j]) {
        assert s[j] in s;
        if s[j] in tail { var k :| 0 <= k < |tail| && tail[k] == s[j]; assert t[k + 1] == s[j]; }
      }
    }
  }

  predicate DistinctIds(t: seq<DialRow>) { forall i, j | 0 <= i < j < |t| :: t[i].id != t[j].id }

  lemma {:induction false} OrderRowsOrdered(t: seq<DialRow>)
    requires DistinctIds(t)
    ensures Ordered(OrderRows(t))
  {
    if |t| > 0 {
      var tail := t[1..];
      assert forall i | 0 <= i < |tail| :: tail[i] == t[i + 1];
      OrderRowsOrdered(tail);
      var s := OrderRows(tail);
      forall i | 0 <= i < |s| ensures s[i].id != t[0].id { assert s[i] in tail; }
      InsertOrderedOrdered(t[0], s);
    }
  }

  /** An ordered row list is determined by its rows. */
  lemma {:induction false} OrderedIsUnique(s: seq<DialRow>, t: seq<DialRow>)
    requires Ordered(s) && Ordered(t) && forall x :: x in s <==> x in t
    ensures s == t
  {
    assert |t| > 0 ==> t[0] in t;
    if |s| > 0 {
      assert s[0] in t;
      assert t[0] in s;
      var i :| 0 <= i < |t| && t[i] == s[0];
      var j :| 0 <= j < |s| && s[j] == t[0];
      assert i == 0 && j == 0;
      forall x ensures x in s[1..] <==> x in t[1..] {
        OrderedTail(s, x);
        OrderedTail(t, x);
      }
      OrderedIsUnique(s[1..], t[1..]);
    }
  }

  lemma OrderedTail(s: seq<DialRow>, x: DialRow)
    requires |s| > 0 && Ordered(s)
    ensures Ordered(s[1..]) && (x in s[1..] <==> x in s && x != s[0])
  {
    assert s == [s[0]] + s[1..];
  }

  lemma LastIsNewest(t: seq<DialRow>)
    requires TableOk(t) && |t| > 0
    ensures
      var front, last := t[..|t| - 1], t[|t| - 1];
      TableOk(front) && forall x | x in front :: x.id < last.id && !SameKey(x, last)
  {
    hide SameKey;
    forall x | x in t[..|t| - 1] ensures x.id < t[|t| - 1].id && !SameKey(x, t[|t| - 1]) {
      var k :| 0 <= k < |t| - 1 && t[k] == x;
    }
  }

  lemma {:induction false} KeepTableOk(t: seq<DialRow>, keep: Where)
    requires TableOk(t)
    ensures TableOk(Keep(t, keep))
    ensures |Keep(t, keep)| > 0 ==> |t| > 0 && Keep(t, keep)[|Keep(t, keep)| - 1].id <= t[|t| - 1].id
  {
    hide SameKey, TableOk;
    if |t| > 0 {
      LastIsNewest(t);
      KeepTableOk(t[..|t| - 1], keep);
      var front := Keep(t[..|t| - 1], keep);
      assert forall i | 0 <= i < |front| :: front[i] in t[..|t| - 1];
      if keep.Holds(t[|t| - 1]) { AppendTableOk(front, t[|t| - 1]); } else { assert Keep(t, keep) == front; }
    }
  }

  lemma {:induction false} KeepAll(t: seq<DialRow>, keep: Where)
    requires forall i | 0 <= i < |t| :: keep.Holds(t[i])
    ensures Keep(t, keep) == t
  {
    if |t| > 0 { KeepAll(t[..|t| - 1], keep); }
  }

  /** The listing of a scope is the one ordered sequence of exactly that scope's rows. */
  lemma ListByScopeIs(t: seq<DialRow>, scope: string)
    requires TableOk(t)
    ensures Ordered(ListByScope(t, scope))
    ensures forall x :: x in ListByScope(t, scope) <==> x in t && x.scope == scope
    ensures |ListByScope(t, scope)| == 0 <==> forall x :: x in t ==> x.scope != scope
  {
    var rows := Keep(t, InScope(scope));
    KeepTableOk(t, InScope(scope));
    OrderRowsOrdered(rows);
    var l := ListByScope(t, scope);
    assert |l| > 0 ==> l[0] in l;
  }

  /** Two tables with the same rows in a scope list that scope alike. */
  lemma ListByScopeFrame(s: seq<DialRow>, t: seq<DialRow>, scope: string)
    requires TableOk(s) && TableOk(t)
    requires forall x: DialRow :: x.scope == scope ==> (x in s <==> x in t)
    ensures ListByScope(s, scope) == ListByScope(t, scope)
  {
    ListByScopeIs(s, scope);
    ListByScopeIs(t, scope);
    OrderedIsUnique(ListByScope(s, scope), ListByScope(t, scope));
  }

  lemma LookupIsMembership(t: seq<DialRow>, r: DialRow)
    requires TableOk(t)
    ensures Lookup(t, r.scope, r.routeType, r.route) == Some(r) <==> r in t
  {
    if r in t {
      var i :| 0 <= i < |t| && t[i] == r;
      assert KeyIndex(t, r.scope, r.routeType, r.route) == i;
    }
  }

  /** Merging is one map update: the row of that key keeps its id and creation time (or is new,
      with an id above every id present), and every other key keeps its row. */
  lemma MergeRefinesMapUpdate(t: seq<DialRow>, scope: string, e: DialEntry, now: int)
    requires TableOk(t)
    ensures
      var t' := UpsertMerge(t, scope, e, now);
      var was := Lookup(t, scope, e.routeType, e.route);
      var row := Lookup(t', scope, e.routeType, e.route);
      && TableOk(t')
      && row == Some(DialRow(if was.Some? then was.value.id else NextId(t), scope, e.routeType, e.route,
                             e.priority, e.endpointKey, if was.Some? then was.value.createdAt else now, now))
      && (forall r :: r in t ==> r.id < NextId(t))
      && forall s, rt, ro :: !(s == scope && rt == e.routeType && ro == e.route) ==>
           Lookup(t', s, rt, ro) == Lookup(t, s, rt, ro)
  {
    MergeTableOk(t, scope, e, now);
    hide TableOk, UpsertMerge, Lookup;
    MergeLookup(t, scope, e, now, scope, e.routeType, e.route);
    forall s, rt, ro | !(s == scope && rt == e.routeType && ro == e.route)
      ensures Lookup(UpsertMerge(t, scope, e, now), s, rt, ro) == Lookup(t, s, rt, ro)
    {
      MergeLookup(t, scope, e, now, s, rt, ro);
    }
  }

  lemma MergeLookup(t: seq<DialRow>, scope: string, e: DialEntry, now: int, s: string, rt: string, ro: string)
    ensures
      var was := Lookup(t, scope, e.routeType, e.route);
      Lookup(UpsertMerge(t, scope, e, now), s, rt, ro) ==
      if s == scope && rt == e.routeType && ro == e.route then
        Some(DialRow(if was.Some? then was.value.id else NextId(t), scope, e.routeType, e.route,
                     e.priority, e.endpointKey, if was.Some? then was.value.createdAt else now, now))
      else Lookup(t, s, rt, ro)
  {
    var i := KeyIndex(t, scope, e.routeType, e.route);
    var t' := UpsertMerge(t, scope, e, now);
    assert forall j | 0 <= j < |t| :: HasKey(t'[j], s, rt, ro) == HasKey(t[j], s, rt, ro);
    assert HasKey(t'[i], s, rt, ro) <==> s == scope && rt == e.routeType && ro == e.route;
    var k := if s == scope && rt == e.routeType && ro == e.route then i
             else if KeyIndex(t, s, rt, ro) == |t| then |t'|
             else KeyIndex(t, s, rt, ro);
    hide HasKey;
    KeyIndexUnique(t', s, rt, ro, k);
  }

  lemma KeyIndexUnique(t: seq<DialRow>, scope: string, routeType: string, route: string, i: nat)
    requires i <= |t|
    requires forall j | 0 <= j < i :: !HasKey(t[j], scope, routeType, route)
    requires i < |t| ==> HasKey(t[i], scope, routeType, route)
    ensures KeyIndex(t, scope, routeType, route) == i
  {
    hide HasKey;
  }

  lemma AppendTableOk(t: seq<DialRow>, row: DialRow)
    requires TableOk(t)
    requires forall i | 0 <= i < |t| :: t[i].id < row.id && !SameKey(t[i], row)
    ensures TableOk(t + [row])
  {
    hide SameKey;
  }

  lemma MergeTableOk(t: seq<DialRow>, scope: string, e: DialEntry, now: int)
    requires TableOk(t)
    ensures TableOk(UpsertMerge(t, scope, e, now))
    ensures forall r :: r in t ==> r.id < NextId(t)
  {
    forall r | r in t ensures r.id < NextId(t) { var k :| 0 <= k < |t| && t[k] == r; }
    var i := KeyIndex(t, scope, e.routeType, e.route);
    var t' := UpsertMerge(t, scope, e, now);
    if i < |t| {
      assert forall j | 0 <= j < |t| :: t'[j].id == t[j].id && SameKey(t'[j], t[j]);
    } else {
      AppendTableOk(t, NewRow(t, scope, e, now));
    }
  }

  /** Which rows a merge leaves in the table. */
  lemma MergeRows(t: seq<DialRow>, scope: string, e: DialEntry, now: int, x: DialRow)
    requires TableOk(t) && x.scope != scope
    ensures x in UpsertMerge(t, scope, e, now) <==> x in t
  {
    MergeRefinesMapUpdate(t, scope, e, now);
    LookupIsMembership(t, x);
    LookupIsMembership(UpsertMerge(t, scope, e, now), x);
  }

  /** Replacing a scope with one dial leaves exactly that dial in the scope and other scopes as they were. */
  lemma ReplaceAllSingleton(t: seq<DialRow>, scope: string, e: DialEntry, now: int)
    requires TableOk(t)
    ensures
      var t' := ReplaceAll(t, scope, [e], now);
      var row := NewRow(DeleteScope(t, scope), scope, e, now);
      && TableOk(t') && ListByScope(t', scope) == [row]
      && (forall x: DialRow :: x.scope != scope ==> (x in t' <==> x in t))
  {
    hide TableOk, OrderRows, ListByScope;
    var t' := ReplaceAll(t, scope, [e], now);
    var row := NewRow(DeleteScope(t, scope), scope, e, now);
    ReplacedRows(t, scope, e, now);
    ListByScopeIs(t', scope);
    OrderedIsUnique(ListByScope(t', scope), [row]);
  }

  lemma ReplacedRows(t: seq<DialRow>, scope: string, e: DialEntry, now: int)
    requires TableOk(t)
    ensures
      var t' := ReplaceAll(t, scope, [e], now);
      var row := NewRow(DeleteScope(t, scope), scope, e, now);
      TableOk(t') && forall x: DialRow :: x in t' <==> (x in t && x.scope != scope) || x == row
  {
    var kept := DeleteScope(t, scope);
    KeepTableOk(t, NotInScope(scope));
    var row := NewRow(kept, scope, e, now);
    assert ReplaceAll(t, scope, [e], now) == kept + [row] by {
      assert [e][..0] == [];
      assert InsertAll(kept, scope, [], now) == kept;
    }
    assert forall i | 0 <= i < |kept| :: kept[i] in kept;
    AppendTableOk(kept, row);
    hide TableOk;
    assert forall x :: x in kept <==> x in t && x.scope != scope;
  }

  lemma LookupFinds(t: seq<DialRow>, scope: string, routeType: string, route: string)
    ensures
      match Lookup(t, scope, routeType, route)
      case Some(r) => r in t && HasKey(r, scope, routeType, route)
      case None => forall x | x in t :: !HasKey(x, scope, routeType, route)
  {
    hide HasKey;
    forall x | x in t && Lookup(t, scope, routeType, route).None? ensures !HasKey(x, scope, routeType, route) {
      var k :| 0 <= k < |t| && t[k] == x;
    }
  }

  /** A table with the rows of another that pass a filter looks up every key the filter keeps alike. */
  lemma LookupOfSubset(t: seq<DialRow>, t': seq<DialRow>, s: string, rt: string, ro: string)
    requires TableOk(t) && TableOk(t') && (forall x :: x in t' ==> x in t)
    requires forall x | x in t && HasKey(x, s, rt, ro) :: x in t'
    ensures Lookup(t', s, rt, ro) == Lookup(t, s, rt, ro)
  {
    hide Lookup, TableOk;
    LookupFinds(t, s, rt, ro);
    LookupFinds(t', s, rt, ro);
    if Lookup(t, s, rt, ro).Some? { LookupIsMembership(t', Lookup(t, s, rt, ro).value); }
  }

  /** Deleting a dial removes that key only. */
  lemma DeleteRefinesMapRemoval(t: seq<DialRow>, scope: string, routeType: string, route: string)
    requires TableOk(t)
    ensures
      var t' := DeleteDial(t, scope, routeType, route);
      && TableOk(t')
      && (|t'| < |t| <==> Lookup(t, scope, routeType, route).Some?)
      && Lookup(t', scope, routeType, route) == None
      && forall s, rt, ro :: !(s == scope && rt == routeType && ro == route) ==>
           Lookup(t', s, rt, ro) == Lookup(t, s, rt, ro)
  {
    hide Lookup, TableOk, Keep;
    var keep := NotDial(scope, routeType, route);
    KeepTableOk(t, keep);
    KeepLength(t, keep);
    var t' := DeleteDial(t, scope, routeType, route);
    assert forall x :: x in t' <==> x in t && !HasKey(x, scope, routeType, route);
    LookupFinds(t, scope, routeType, route);
    LookupFinds(t', scope, routeType, route);
    if Lookup(t, scope, routeType, route).Some? {
      var k :| 0 <= k < |t| && t[k] == Lookup(t, scope, routeType, route).value;
      assert !keep.Holds(t[k]);
    }
    forall s, rt, ro | !(s == scope && rt == routeType && ro == route)
      ensures Lookup(t', s, rt, ro) == Lookup(t, s, rt, ro)
    {
      LookupOfSubset(t, t', s, rt, ro);
    }
  }

  lemma {:induction false} KeepLength(t: seq<DialRow>, keep: Where)
    ensures |Keep(t, keep)| <= |t|
    ensures |Keep(t, keep)| < |t| <==> exists i :: 0 <= i < |t| && !keep.Holds(t[i])
  {
    if |t| > 0 {
      var front := t[..|t| - 1];
      KeepLength(front, keep);
      if i :| 0 <= i < |t| && !keep.Holds(t[i]) {
        if i < |t| - 1 { assert !keep.Holds(front[i]); }
      }
      if i :| 0 <= i < |front| && !keep.Holds(front[i]) { assert !keep.Holds(t[i]); }
    }
  }

  /** Merging an absent dial and removing it again restores the whole table. */
  lemma MergeThenDeleteRestores(t: seq<DialRow>, scope: string, e: DialEntry, now: int)
    requires TableOk(t) && Lookup(t, scope, e.routeType, e.route) == None
    ensures DeleteDial(UpsertMerge(t, scope, e, now), scope, e.routeType, e.route) == t
  {
    var row := NewRow(t, scope, e, now);
    assert (t + [row])[..|t|] == t;
    KeepAll(t, NotDial(scope, e.routeType, e.route));
  }
}
