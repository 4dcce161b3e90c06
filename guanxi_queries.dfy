/**
 * The read-only queries over the relation table: one page of it, the rows
 * of one relation type, the rows touching one ganzhi (with the partner on
 * the other side), the row linking two ganzhi in either direction, the
 * distinct relation types, and the pairs of one type.
 */
module GuanxiQueries {
  import opened Wrappers
  import opened Seqs
  import opened Models

  /** The page size `get_all_guanxi` uses when the caller gives none. */
  const DEFAULT_LIMIT: nat := 300

  /** `get_all_guanxi`: the rows from position `skip` on, at most `limit` of them. */
  function GetAllGuanxi(rows: seq<Guanxi>, skip: nat := 0, limit: nat := DEFAULT_LIMIT): (r: seq<Guanxi>)
    ensures |r| <= limit
    ensures skip < |rows| ==> |r| == Min(limit, |rows| - skip) && r == rows[skip..skip + |r|]
    ensures skip >= |rows| ==> r == []
  {
    Page(rows, skip, limit)
  }

  /** The filter `relation_type == t`; a NULL type matches no string. */
  predicate OfType(r: Guanxi, t: string)
  {
    r.relationType == Some(t)
  }

  /** The rows of type `t`, in store order. */
  function ByType(rows: seq<Guanxi>, t: string): seq<Guanxi>
  {
    if rows == [] then []
    else
      var last := rows[|rows| - 1];
      ByType(rows[..|rows| - 1], t) + (if OfType(last, t) then [last] else [])
  }

  /**
   * `get_guanxi_by_type`. Each result dictionary carries every column of its
   * row, so a result is the row itself; the store's filter and the copying
   * loop are one pass over the table here.
   */
  method GetGuanxiByType(rows: seq<Guanxi>, t: string) returns (results: seq<Guanxi>)
    ensures results == ByType(rows, t)
  {
    results := [];
    var i := 0;
    while i < |rows|
      invariant 0 <= i <= |rows|
      invariant results == ByType(rows[..i], t)
    {
      assert rows[..i + 1][..i] == rows[..i];
      if OfType(rows[i], t) {
        results := results + [rows[i]];
      }
      i := i + 1;
    }
    assert rows[..|rows|] == rows;
  }

  /** A row is listed for type `t` exactly when it is in the table and has that type. */
  lemma {:induction false} ByTypeMembership(rows: seq<Guanxi>, t: string, r: Guanxi)
    ensures r in ByType(rows, t) <==> r in rows && OfType(r, t)
  {
    if rows != [] {
      var init := rows[..|rows| - 1];
      assert rows == init + [rows[|rows| - 1]];
      ByTypeMembership(init, t, r);
    }
  }

  /** A pair as `get_ganzhi_pairs_by_type` reports it. */
  datatype PairView = PairView(ganzhi1: string, ganzhi2: string, remark: string)

  function ViewOf(r: Guanxi): PairView
  {
    PairView(r.ganzhi1, r.ganzhi2, r.remark)
  }

  /** The pairs of the rows of type `t`, in store order. */
  function PairsOfType(rows: seq<Guanxi>, t: string): seq<PairView>
  {
    if rows == [] then []
    else
      var last := rows[|rows| - 1];
      PairsOfType(rows[..|rows| - 1], t) + (if OfType(last, t) then [ViewOf(last)] else [])
  }

  /** `get_ganzhi_pairs_by_type`. */
  method GetGanzhiPairsByType(rows: seq<Guanxi>, t: string) returns (results: seq<PairView>)
    ensures results == PairsOfType(rows, t)
  {
    results := [];
    var i := 0;
    while i < |rows|
      invariant 0 <= i <= |rows|
      invariant results == PairsOfType(rows[..i], t)
    {
      assert rows[..i + 1][..i] == rows[..i];
      if OfType(rows[i], t) {
        results := results + [ViewOf(rows[i])];
      }
      i := i + 1;
    }
    assert rows[..|rows|] == rows;
  }

  /** The pairs of a type are the rows of that type seen through their two names and remark, one for one. */
  lemma {:induction false} PairsFollowRelations(rows: seq<Guanxi>, t: string)
    ensures |PairsOfType(rows, t)| == |ByType(rows, t)|
    ensures forall k :: 0 <= k < |ByType(rows, t)| ==> PairsOfType(rows, t)[k] == ViewOf(ByType(rows, t)[k])
  {
    if rows != [] {
      PairsFollowRelations(rows[..|rows| - 1], t);
    }
  }

  /** The filter `ganzhi1 == name or ganzhi2 == name`. */
  predicate Involves(r: Guanxi, name: string)
  {
    r.ganzhi1 == name || r.ganzhi2 == name
  }

  /** `other_ganzhi`: the name on the far side of the row from `name`. */
  function OtherGanzhi(r: Guanxi, name: string): (o: string)
    ensures o == r.ganzhi1 || o == r.ganzhi2
    ensures Involves(r, name) ==> {name, o} == {r.ganzhi1, r.ganzhi2}
    ensures r.ganzhi1 != name ==> o == r.ganzhi1
  {
    if r.ganzhi1 == name then r.ganzhi2 else r.ganzhi1
  }

  /** A row of `get_guanxi_by_ganzhi`: the relation and its `other_ganzhi`. */
  datatype Related = Related(relation: Guanxi, otherGanzhi: string)

  /** The rows touching `name`, each with its partner, in store order. */
  function Involving(rows: seq<Guanxi>, name: string): seq<Related>
  {
    if rows == [] then []
    else
      var last := rows[|rows| - 1];
      Involving(rows[..|rows| - 1], name) + (if Involves(last, name) then [Related(last, OtherGanzhi(last, name))] else [])
  }

  /** `get_guanxi_by_ganzhi`. */
  method GetGuanxiByGanzhi(rows: seq<Guanxi>, name: string) returns (results: seq<Related>)
    ensures results == Involving(rows, name)
  {
    results := [];
    var i := 0;
    while i < |rows|
      invariant 0 <= i <= |rows|
      invariant results == Involving(rows[..i], name)
    {
      assert rows[..i + 1][..i] == rows[..i];
      var rel := rows[i];
      if Involves(rel, name) {
        var other := if rel.ganzhi1 == name then rel.ganzhi2 else rel.ganzhi1;
        results := results + [Related(rel, other)];
      }
      i := i + 1;
    }
    assert rows[..|rows|] == rows;
  }

  /** A result belongs to the listing exactly when its relation is a row touching `name` and its partner is the other side. */
  lemma {:induction false} InvolvingMembership(rows: seq<Guanxi>, name: string, x: Related)
    ensures x in Involving(rows, name) <==>
      x.relation in rows && Involves(x.relation, name) && x.otherGanzhi == OtherGanzhi(x.relation, name)
  {
    if rows != [] {
      var init := rows[..|rows| - 1];
      assert rows == init + [rows[|rows| - 1]];
      InvolvingMembership(init, name, x);
    }
  }

  /** The filter of `get_guanxi_between`: the row joins `a` and `b`, in either order. */
  predicate Links(r: Guanxi, a: string, b: string)
  {
    (r.ganzhi1 == a && r.ganzhi2 == b) || (r.ganzhi1 == b && r.ganzhi2 == a)
  }

  /** `get_guanxi_between`: the first row joining the two names, or None when no row does. */
  function GetGuanxiBetween(rows: seq<Guanxi>, a: string, b: string): (r: Option<Guanxi>)
    ensures r.None? <==> forall k :: 0 <= k < |rows| ==> !Links(rows[k], a, b)
    ensures r.Some? ==> exists i :: 0 <= i < |rows| && rows[i] == r.value && Links(rows[i], a, b) &&
                          forall k :: 0 <= k < i ==> !Links(rows[k], a, b)
  {
    First(rows, x => Links(x, a, b))
  }

  /** Asking for the two names in the other order finds the same row. */
  lemma BetweenSymmetric(rows: seq<Guanxi>, a: string, b: string)
    ensures GetGuanxiBetween(rows, a, b) == GetGuanxiBetween(rows, b, a)
  {
    FirstCongruent(rows, x => Links(x, a, b), x => Links(x, b, a));
  }

  /** The row found between `a` and `b` is listed among `a`'s relations with `b` as its partner. */
  lemma BetweenIsListedForEachSide(rows: seq<Guanxi>, a: string, b: string)
    requires GetGuanxiBetween(rows, a, b).Some?
    ensures Related(GetGuanxiBetween(rows, a, b).value, b) in Involving(rows, a)
  {
    var r := GetGuanxiBetween(rows, a, b).value;
    InvolvingMembership(rows, a, Related(r, b));
  }

  /** The `relation_type` column in store order. */
  function RelationColumn(rows: seq<Guanxi>): (c: seq<Option<string>>)
    ensures |c| == |rows| && forall k :: 0 <= k < |rows| ==> c[k] == rows[k].relationType
  {
    seq(|rows|, k requires 0 <= k < |rows| => rows[k].relationType)
  }

  /** `get_relation_types`: each non-empty type once, NULL and the empty string left out. */
  function GetRelationTypes(rows: seq<Guanxi>): (r: seq<string>)
    ensures NoDuplicates(r)
    ensures forall t :: t in r <==> t != "" && exists k :: 0 <= k < |rows| && rows[k].relationType == Some(t)
  {
    var col := RelationColumn(rows);
    assert forall t :: Some(t) in col <==> exists k :: 0 <= k < |rows| && rows[k].relationType == Some(t);
    DistinctNonEmpty(col)
  }

  /** Every type `get_relation_types` lists selects at least one row. */
  lemma ListedTypesAreUsed(rows: seq<Guanxi>, t: string)
    requires t in GetRelationTypes(rows)
    ensures ByType(rows, t) != []
  {
    var k :| 0 <= k < |rows| && rows[k].relationType == Some(t);
    ByTypeMembership(rows, t, rows[k]);
  }
}
