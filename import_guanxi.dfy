/**
 * `import_guanxi`: the relations between cycle names. First the edges of the
 * knowledge graph whose two ends convert to loaded names, then, for every stem,
 * every pair of records sharing it (同天干), then the same for every branch (同地支).
 *
 * Before inserting a row the importer asks the table whether a row with the same
 * two names and relation is already stored. The table was cleared at the start
 * and the new rows are only added at the end, so as written the question is put
 * to the cleared table and never finds anything (`GuanxiRowsAsWritten`). The
 * import here puts the question to the rows built so far, which is what the
 * check is evidently for (`GuanxiRows`).
 */
module GuanxiImport {
  import opened Wrappers
  import opened Seqs
  import opened Symbols
  import opened Models
  import opened ImportData

  /** One edge of the knowledge graph, its fields '' when absent. */
  datatype Edge = Edge(from: string, to: string, relation: string, note: string)

  /** `{g.ganzhi for g in all_ganzhi}`. */
  function NameSet(all: seq<Ganzhi>): set<string>
  {
    set g | g in all :: g.ganzhi
  }

  /** The duplicate query: is a row with these two names and this relation stored? */
  function Stored(table: seq<Guanxi>, g1: string, g2: string, relation: Option<string>): bool
  {
    exists k :: 0 <= k < |table| && table[k].ganzhi1 == g1 && table[k].ganzhi2 == g2 && table[k].relationType == relation
  }

  // ---------------------------------------------------------------- edges

  /** `if g1 and g2 and g1 in ganzhi_set and g2 in ganzhi_set`, on the converted ends. */
  predicate Loadable(names: set<string>, e: Edge)
  {
    var g1 := ConvertJiaziKey(e.from);
    var g2 := ConvertJiaziKey(e.to);
    g1 != "" && g2 != "" && g1 in names && g2 in names
  }

  function EdgeRow(e: Edge): Guanxi
  {
    Guanxi(UNASSIGNED_ID, ConvertJiaziKey(e.from), ConvertJiaziKey(e.to), Some(e.relation), e.note)
  }

  /** One iteration of the edge loop, the duplicate query put to `table`. */
  function EdgeFor(names: set<string>, table: seq<Guanxi>, e: Edge): Option<Guanxi>
  {
    if Loadable(names, e) && !Stored(table, ConvertJiaziKey(e.from), ConvertJiaziKey(e.to), Some(e.relation))
    then Some(EdgeRow(e)) else None
  }

  function EdgeRows(names: set<string>, table: seq<Guanxi>, edges: seq<Edge>): seq<Guanxi>
  {
    FilterMap(edges, e => EdgeFor(names, table, e))
  }

  /** The edge loop of `import_guanxi`, each duplicate query put to the rows built so far. */
  method ImportEdges(names: set<string>, edges: seq<Edge>) returns (rows: seq<Guanxi>)
    ensures rows == AddAllNew([], EdgeRows(names, [], edges))
  {
    rows := [];
    var i := 0;
    while i < |edges|
      invariant i <= |edges|
      invariant rows == AddAllNew([], EdgeRows(names, [], edges[..i]))
    {
      EdgeRowsPrefix(names, [], edges, i);
      var edge := edges[i];
      var g1 := ConvertJiaziKey(edge.from);
      var g2 := ConvertJiaziKey(edge.to);
      if g1 != "" && g2 != "" && g1 in names && g2 in names {
        var row := Guanxi(UNASSIGNED_ID, g1, g2, Some(edge.relation), edge.note);
        assert EdgeFor(names, [], edge) == Some(row);
        AddAllNewSnoc([], EdgeRows(names, [], edges[..i]), row);
        rows := InsertIfNew(rows, row);
      } else {
        assert EdgeFor(names, [], edge) == None;
        assert EdgeRows(names, [], edges[..i + 1]) == EdgeRows(names, [], edges[..i]);
      }
      i := i + 1;
    }
    assert edges[..i] == edges;
  }

  lemma EdgeRowsPrefix(names: set<string>, table: seq<Guanxi>, edges: seq<Edge>, i: nat)
    requires i < |edges|
    ensures EdgeRows(names, table, edges[..i + 1])
            == EdgeRows(names, table, edges[..i]) + (match EdgeFor(names, table, edges[i]) case Some(r) => [r] case None => [])
  {
    FilterMapPrefix(edges, i, e => EdgeFor(names, table, e));
  }

  /**
   * Against the cleared table the duplicate query never finds anything: one row
   * per loadable edge, in edge order, duplicates included.
   */
  lemma EdgeRowsAgainstClearedTable(names: set<string>, edges: seq<Edge>)
    ensures |EdgeRows(names, [], edges)| == |Filter(edges, e => Loadable(names, e))|
    ensures forall k :: 0 <= k < |Filter(edges, e => Loadable(names, e))| ==>
              EdgeRows(names, [], edges)[k] == EdgeRow(Filter(edges, e => Loadable(names, e))[k])
  {
    FilterThenMap(edges, e => Loadable(names, e), EdgeRow, e => EdgeFor(names, [], e));
  }

  /** As written, an edge listed twice is imported twice; under the check on the rows built so far, once. */
  lemma DuplicateEdgeImportedTwice(names: set<string>, e: Edge)
    requires Loadable(names, e)
    ensures EdgeRows(names, [], [e, e]) == [EdgeRow(e), EdgeRow(e)]
    ensures AddAllNew([], EdgeRows(names, [], [e, e])) == [EdgeRow(e)]
  {
    FilterMapSnoc([e], e, x => EdgeFor(names, [], x));
    FilterMapSnoc([], e, x => EdgeFor(names, [], x));
    assert [e] + [e] == [e, e];
    assert [] + [e] == [e];
    var r := EdgeRow(e);
    assert [r, r][..1] == [r];
    assert AddAllNew([], [r]) == [r];
    assert Stored([r], r.ganzhi1, r.ganzhi2, r.relationType);
  }

  // ---------------------------------------------------------------- the duplicate check

  /** The key the duplicate query compares. */
  function RowKey(r: Guanxi): (string, string, Option<string>)
  {
    (r.ganzhi1, r.ganzhi2, r.relationType)
  }

  /** One insertion under the duplicate check: `r` is added unless a row with its names and relation is already built. */
  function AddIfNew(built: seq<Guanxi>, r: Guanxi): seq<Guanxi>
  {
    if Stored(built, r.ganzhi1, r.ganzhi2, r.relationType) then built else built + [r]
  }

  /** The duplicate query and the insertion it guards. */
  method InsertIfNew(built: seq<Guanxi>, r: Guanxi) returns (out: seq<Guanxi>)
    ensures out == AddIfNew(built, r)
  {
    var found := Stored(built, r.ganzhi1, r.ganzhi2, r.relationType);
    if found {
      out := built;
    } else {
      out := built + [r];
    }
  }

  /** The candidates offered one by one to the duplicate check, after the rows `built`. */
  function AddAllNew(built: seq<Guanxi>, cands: seq<Guanxi>): seq<Guanxi>
  {
    if cands == [] then built else AddIfNew(AddAllNew(built, cands[..|cands| - 1]), cands[|cands| - 1])
  }

  lemma AddAllNewSnoc(built: seq<Guanxi>, cands: seq<Guanxi>, r: Guanxi)
    ensures AddAllNew(built, cands + [r]) == AddIfNew(AddAllNew(built, cands), r)
  {
    assert (cands + [r])[..|cands|] == cands;
  }

  /** Offering two lists one after the other is offering their concatenation. */
  lemma {:induction false} AddAllNewAppend(built: seq<Guanxi>, a: seq<Guanxi>, b: seq<Guanxi>)
    ensures AddAllNew(built, a + b) == AddAllNew(AddAllNew(built, a), b)
    decreases |b|
  {
    if b == [] {
      assert a + b == a;
    } else {
      var init := b[..|b| - 1];
      var last := b[|b| - 1];
      assert b == init + [last];
      assert a + b == (a + init) + [last];
      AddAllNewSnoc(built, a + init, last);
      AddAllNewSnoc(AddAllNew(built, a), init, last);
      AddAllNewAppend(built, a, init);
    }
  }

  /** No two rows share names and relation. */
  predicate KeysDistinct(rows: seq<Guanxi>)
  {
    forall p, q :: 0 <= p < q < |rows| ==> RowKey(rows[p]) != RowKey(rows[q])
  }

  /** The check keeps the keys of the built rows distinct. */
  lemma {:induction false} AddAllNewDistinct(built: seq<Guanxi>, cands: seq<Guanxi>)
    requires KeysDistinct(built)
    ensures KeysDistinct(AddAllNew(built, cands))
    decreases |cands|
  {
    if cands != [] {
      var before := AddAllNew(built, cands[..|cands| - 1]);
      var r := cands[|cands| - 1];
      AddAllNewDistinct(built, cands[..|cands| - 1]);
      if !Stored(before, r.ganzhi1, r.ganzhi2, r.relationType) {
        var after := before + [r];
        forall p, q | 0 <= p < q < |after| ensures RowKey(after[p]) != RowKey(after[q]) {
          if q == |before| {
            assert after[p] == before[p];
          } else {
            assert after[p] == before[p] && after[q] == before[q];
          }
        }
      }
    }
  }

  /** A row found by the duplicate query is still found after one more insertion. */
  lemma AddIfNewKeepsStored(built: seq<Guanxi>, r: Guanxi, g1: string, g2: string, rel: Option<string>)
    requires Stored(built, g1, g2, rel)
    ensures Stored(AddIfNew(built, r), g1, g2, rel)
  {
    var k :| 0 <= k < |built| && built[k].ganzhi1 == g1 && built[k].ganzhi2 == g2 && built[k].relationType == rel;
    assert AddIfNew(built, r)[k] == built[k];
  }

  /** After the check every candidate's key is found among the built rows. */
  lemma {:induction false} AddAllNewCovers(built: seq<Guanxi>, cands: seq<Guanxi>, k: nat)
    requires k < |cands|
    ensures Stored(AddAllNew(built, cands), cands[k].ganzhi1, cands[k].ganzhi2, cands[k].relationType)
    decreases |cands|
  {
    var init := cands[..|cands| - 1];
    var r := cands[|cands| - 1];
    var before := AddAllNew(built, init);
    if k < |init| {
      AddAllNewCovers(built, init, k);
      assert init[k] == cands[k];
      AddIfNewKeepsStored(before, r, cands[k].ganzhi1, cands[k].ganzhi2, cands[k].relationType);
    } else if !Stored(before, r.ganzhi1, r.ganzhi2, r.relationType) {
      assert (before + [r])[|before|] == r;
    }
  }

  /** Every row after the check was built before it or is one of the candidates. */
  lemma {:induction false} AddAllNewFrom(built: seq<Guanxi>, cands: seq<Guanxi>, r: Guanxi)
    requires r in AddAllNew(built, cands)
    ensures r in built || r in cands
    decreases |cands|
  {
    if cands != [] {
      var init := cands[..|cands| - 1];
      var before := AddAllNew(built, init);
      if r in before {
        AddAllNewFrom(built, init, r);
        if r in init {
          var k :| 0 <= k < |init| && init[k] == r;
          assert cands[k] == r;
        }
      } else {
        assert r == cands[|cands| - 1];
      }
    }
  }

  // ---------------------------------------------------------------- same stem, same branch

  /** The stems (branches) of the records in table order. */
  function SideKeys(all: seq<Ganzhi>, side: Side): seq<string>
  {
    if all == [] then [] else SideKeys(all[..|all| - 1], side) + [SideOf(side, all[|all| - 1])]
  }

  /** The names of the records with key `key`, in table order: the list `tg_ganzhi[key]` (`dz_ganzhi[key]`). */
  function Members(all: seq<Ganzhi>, side: Side, key: string): seq<string>
  {
    FilterMap(all, g => if SideOf(side, g) == key then Some(g.ganzhi) else None)
  }

  lemma SideKeysPrefix(all: seq<Ganzhi>, side: Side, i: nat)
    requires i < |all|
    ensures SideKeys(all[..i + 1], side) == SideKeys(all[..i], side) + [SideOf(side, all[i])]
  {
    assert all[..i + 1][..i] == all[..i];
  }

  lemma MembersPrefix(all: seq<Ganzhi>, side: Side, key: string, i: nat)
    requires i < |all|
    ensures Members(all[..i + 1], side, key)
            == Members(all[..i], side, key) + (if SideOf(side, all[i]) == key then [all[i].ganzhi] else [])
  {
    FilterMapPrefix(all, i, g => if SideOf(side, g) == key then Some(g.ganzhi) else None);
  }

  /** A dict of name lists as the loop builds it: the keys in insertion order and each key's list. */
  datatype Groups = Groups(keys: seq<string>, lists: map<string, seq<string>>)

  /** One turn of the loop: open a list for an unseen key, then append the record's name to its key's list. */
  function GroupStep(acc: Groups, side: Side, g: Ganzhi): Groups
  {
    var key := SideOf(side, g);
    var withKey := if key in acc.lists then acc else Groups(acc.keys + [key], acc.lists[key := []]);
    Groups(withKey.keys, withKey.lists[key := withKey.lists[key] + [g.ganzhi]])
  }

  /** The grouping loop over the records in table order. */
  function GroupedNames(all: seq<Ganzhi>, side: Side): Groups
  {
    if all == [] then Groups([], map[]) else GroupStep(GroupedNames(all[..|all| - 1], side), side, all[|all| - 1])
  }

  /**
   * The loop that fills `tg_ganzhi` (`dz_ganzhi`): the keys in order of first
   * occurrence, as a dict remembers them, and each key's list of names.
   */
  method GroupNames(all: seq<Ganzhi>, side: Side) returns (keys: seq<string>, groups: map<string, seq<string>>)
    ensures keys == Dedup(SideKeys(all, side))
    ensures forall key :: key in groups <==> key in keys
    ensures forall key :: key in groups ==> groups[key] == Members(all, side, key)
  {
    keys := [];
    groups := map[];
    var i := 0;
    while i < |all|
      invariant i <= |all|
      invariant Groups(keys, groups) == GroupedNames(all[..i], side)
    {
      assert all[..i + 1][..i] == all[..i];
      var g := all[i];
      var key := SideOf(side, g);
      if key !in groups {
        keys := keys + [key];
        groups := groups[key := []];
      }
      groups := groups[key := groups[key] + [g.ganzhi]];
      i := i + 1;
    }
    assert all[..i] == all;
    GroupedNamesKeys(all, side);
    forall key | key in groups ensures groups[key] == Members(all, side, key) {
      GroupedNamesAt(all, side, key);
    }
  }

  /** The keys of the grouping are the keys of the records in order of first occurrence, and exactly the dict's keys. */
  lemma {:induction false} GroupedNamesKeys(all: seq<Ganzhi>, side: Side)
    ensures GroupedNames(all, side).keys == Dedup(SideKeys(all, side))
    ensures forall key :: key in GroupedNames(all, side).lists <==> key in GroupedNames(all, side).keys
  {
    if all != [] {
      var init := all[..|all| - 1];
      var g := all[|all| - 1];
      GroupedNamesKeys(init, side);
      DedupSnoc(SideKeys(init, side), SideOf(side, g));
    }
  }

  /** The list of a key is the names of the records with that key. */
  lemma {:induction false} GroupedNamesAt(all: seq<Ganzhi>, side: Side, key: string)
    ensures key in GroupedNames(all, side).lists <==> key in Dedup(SideKeys(all, side))
    ensures key in GroupedNames(all, side).lists ==> GroupedNames(all, side).lists[key] == Members(all, side, key)
  {
    if all != [] {
      var n := |all| - 1;
      var init := all[..n];
      var g := all[n];
      GroupedNamesAt(init, side, key);
      DedupSnoc(SideKeys(init, side), SideOf(side, g));
      MembersPrefix(all, side, key, n);
      assert all[..n + 1] == all;
      var acc := GroupedNames(init, side);
      GroupStepAt(acc, side, g, key);
      if key == SideOf(side, g) && key !in acc.lists {
        MembersAbsent(init, side, key);
      }
    }
  }

  /** What one turn of the loop does to the list of `key`. */
  lemma GroupStepAt(acc: Groups, side: Side, g: Ganzhi, key: string)
    ensures key in GroupStep(acc, side, g).lists <==> key in acc.lists || key == SideOf(side, g)
    ensures key in GroupStep(acc, side, g).lists ==>
      GroupStep(acc, side, g).lists[key]
        == (if key in acc.lists then acc.lists[key] else []) + (if key == SideOf(side, g) then [g.ganzhi] else [])
  {
  }

  /** A key no record carries has no members. */
  lemma {:induction false} MembersAbsent(all: seq<Ganzhi>, side: Side, key: string)
    requires key !in Dedup(SideKeys(all, side))
    ensures Members(all, side, key) == []
  {
    if all != [] {
      var init := all[..|all| - 1];
      DedupSnoc(SideKeys(init, side), SideOf(side, all[|all| - 1]));
      MembersAbsent(init, side, key);
    }
  }

  /** The pairs `(xs[i], xs[m])` for `i < m < j`, in the order of the inner loop. */
  function PairsFrom(xs: seq<string>, i: nat, j: nat): seq<(string, string)>
    requires i < j <= |xs|
    decreases j
  {
    if j == i + 1 then [] else PairsFrom(xs, i, j - 1) + [(xs[i], xs[j - 1])]
  }

  /** The pairs whose first index is below `i`, in the order of the two nested loops. */
  function PairsBefore(xs: seq<string>, i: nat): seq<(string, string)>
    requires i <= |xs|
  {
    if i == 0 then [] else PairsBefore(xs, i - 1) + PairsFrom(xs, i - 1, |xs|)
  }

  /** `for i in range(len(xs)): for j in range(i + 1, len(xs))`: every pair of positions i < j, once. */
  function Pairs(xs: seq<string>): seq<(string, string)>
  {
    PairsBefore(xs, |xs|)
  }

  /** The inner step: a pair row with relation `rel`, unless the duplicate query finds one in `table`. */
  function PairFor(table: seq<Guanxi>, rel: string, p: (string, string)): Option<Guanxi>
  {
    if Stored(table, p.0, p.1, Some(rel)) then None else Some(Guanxi(UNASSIGNED_ID, p.0, p.1, Some(rel), ""))
  }

  /** The rows the inner loop emits for first index i while its second index is below j. */
  function RowsFrom(table: seq<Guanxi>, rel: string, xs: seq<string>, i: nat, j: nat): seq<Guanxi>
    requires i < j <= |xs|
  {
    FilterMap(PairsFrom(xs, i, j), p => PairFor(table, rel, p))
  }

  /** The rows the two loops emit while the first index is below i. */
  function RowsBefore(table: seq<Guanxi>, rel: string, xs: seq<string>, i: nat): seq<Guanxi>
    requires i <= |xs|
  {
    FilterMap(PairsBefore(xs, i), p => PairFor(table, rel, p))
  }

  function PairRows(table: seq<Guanxi>, rel: string, xs: seq<string>): seq<Guanxi>
  {
    RowsBefore(table, rel, xs, |xs|)
  }

  lemma RowsFromStep(table: seq<Guanxi>, rel: string, xs: seq<string>, i: nat, j: nat)
    requires i < j < |xs|
    ensures RowsFrom(table, rel, xs, i, j + 1)
            == RowsFrom(table, rel, xs, i, j) + (if Stored(table, xs[i], xs[j], Some(rel)) then [] else [Guanxi(UNASSIGNED_ID, xs[i], xs[j], Some(rel), "")])
  {
    FilterMapSnoc(PairsFrom(xs, i, j), (xs[i], xs[j]), p => PairFor(table, rel, p));
  }

  lemma RowsBeforeStep(table: seq<Guanxi>, rel: string, xs: seq<string>, i: nat)
    requires i < |xs|
    ensures RowsBefore(table, rel, xs, i + 1) == RowsBefore(table, rel, xs, i) + RowsFrom(table, rel, xs, i, |xs|)
  {
    FilterMapAppend(PairsBefore(xs, i), PairsFrom(xs, i, |xs|), p => PairFor(table, rel, p));
  }

  /** The inner loop `for j in range(i + 1, len(xs))`, each duplicate query put to the rows built so far. */
  method EmitRow(rows: seq<Guanxi>, rel: string, xs: seq<string>, i: nat) returns (out: seq<Guanxi>)
    requires i < |xs|
    ensures out == AddAllNew(rows, RowsFrom([], rel, xs, i, |xs|))
  {
    out := rows;
    var j := i + 1;
    EmitRowStart(rows, rel, xs, i);
    while j < |xs|
      invariant i + 1 <= j <= |xs|
      invariant out == AddAllNew(rows, RowsFrom([], rel, xs, i, j))
    {
      out := OfferPair(rows, rel, xs, i, j, out);
      j := j + 1;
    }
  }

  /** The body of the inner loop: the duplicate query for the pair (i, j) and the insertion it guards. */
  method OfferPair(rows: seq<Guanxi>, rel: string, xs: seq<string>, i: nat, j: nat, out: seq<Guanxi>) returns (next: seq<Guanxi>)
    requires i < j < |xs| && out == AddAllNew(rows, RowsFrom([], rel, xs, i, j))
    ensures next == AddAllNew(rows, RowsFrom([], rel, xs, i, j + 1))
  {
    EmitRowStep(rows, rel, xs, i, j);
    next := InsertIfNew(out, Guanxi(UNASSIGNED_ID, xs[i], xs[j], Some(rel), ""));
  }

  /** Before the inner loop nothing is offered. */
  lemma EmitRowStart(rows: seq<Guanxi>, rel: string, xs: seq<string>, i: nat)
    requires i < |xs|
    ensures AddAllNew(rows, RowsFrom([], rel, xs, i, i + 1)) == rows
  {
    assert PairsFrom(xs, i, i + 1) == [];
  }

  /** One turn of the inner loop offers the pair (i, j) to the duplicate check. */
  lemma EmitRowStep(rows: seq<Guanxi>, rel: string, xs: seq<string>, i: nat, j: nat)
    requires i < j < |xs|
    ensures AddAllNew(rows, RowsFrom([], rel, xs, i, j + 1))
            == AddIfNew(AddAllNew(rows, RowsFrom([], rel, xs, i, j)), Guanxi(UNASSIGNED_ID, xs[i], xs[j], Some(rel), ""))
  {
    RowsFromStep([], rel, xs, i, j);
    AddAllNewSnoc(rows, RowsFrom([], rel, xs, i, j), Guanxi(UNASSIGNED_ID, xs[i], xs[j], Some(rel), ""));
  }

  /** The two nested loops over one list of names. */
  method EmitPairs(rows: seq<Guanxi>, rel: string, xs: seq<string>) returns (out: seq<Guanxi>)
    ensures out == AddAllNew(rows, PairRows([], rel, xs))
  {
    out := rows;
    var i := 0;
    while i < |xs|
      invariant i <= |xs|
      invariant out == AddAllNew(rows, RowsBefore([], rel, xs, i))
    {
      RowsBeforeStep([], rel, xs, i);
      AddAllNewAppend(rows, RowsBefore([], rel, xs, i), RowsFrom([], rel, xs, i, |xs|));
      out := EmitRow(out, rel, xs, i);
      i := i + 1;
    }
  }

  /** The pair rows of the groups of the given keys, in key order. */
  function GroupRows(all: seq<Ganzhi>, side: Side, rel: string, table: seq<Guanxi>, keys: seq<string>): seq<Guanxi>
  {
    FlatMap(keys, key => PairRows(table, rel, Members(all, side, key)))
  }

  lemma GroupRowsPrefix(all: seq<Ganzhi>, side: Side, rel: string, table: seq<Guanxi>, keys: seq<string>, i: nat)
    requires i < |keys|
    ensures GroupRows(all, side, rel, table, keys[..i + 1])
            == GroupRows(all, side, rel, table, keys[..i]) + PairRows(table, rel, Members(all, side, keys[i]))
  {
    FlatMapPrefix(keys, i, key => PairRows(table, rel, Members(all, side, key)));
  }

  /** The pair rows of every group, groups in order of first occurrence of their key. */
  function SamePairRows(all: seq<Ganzhi>, side: Side, rel: string, table: seq<Guanxi>): seq<Guanxi>
  {
    GroupRows(all, side, rel, table, Dedup(SideKeys(all, side)))
  }

  /** The 同天干 (`side` `StemSide`) or 同地支 (`BranchSide`) part of `import_guanxi`. */
  method ImportSamePairs(rows: seq<Guanxi>, all: seq<Ganzhi>, side: Side, rel: string) returns (out: seq<Guanxi>)
    ensures out == AddAllNew(rows, SamePairRows(all, side, rel, []))
  {
    var keys, groups := GroupNames(all, side);
    out := rows;
    var i := 0;
    while i < |keys|
      invariant i <= |keys|
      invariant out == AddAllNew(rows, GroupRows(all, side, rel, [], keys[..i]))
    {
      GroupRowsPrefix(all, side, rel, [], keys, i);
      var members := groups[keys[i]];
      assert members == Members(all, side, keys[i]);
      AddAllNewAppend(rows, GroupRows(all, side, rel, [], keys[..i]), PairRows([], rel, members));
      out := EmitPairs(out, rel, members);
      i := i + 1;
    }
    assert keys[..i] == keys;
  }

  /**
   * The rows the import as written inserts: every duplicate query put to the
   * cleared table, so every loadable edge and every pair sharing a stem or a
   * branch, repetitions included.
   */
  function GuanxiRowsAsWritten(all: seq<Ganzhi>, edges: seq<Edge>): seq<Guanxi>
  {
    EdgeRows(NameSet(all), [], edges) + SamePairRows(all, StemSide, "同天干", []) + SamePairRows(all, BranchSide, "同地支", [])
  }

  /** The rows `import_guanxi` inserts with each duplicate query put to the rows built so far. */
  function GuanxiRows(all: seq<Ganzhi>, edges: seq<Edge>): seq<Guanxi>
  {
    AddAllNew([], GuanxiRowsAsWritten(all, edges))
  }

  /** Checking the three parts one after the other is checking the whole list. */
  lemma GuanxiRowsInParts(all: seq<Ganzhi>, edges: seq<Edge>)
    ensures GuanxiRows(all, edges)
            == AddAllNew(AddAllNew(AddAllNew([], EdgeRows(NameSet(all), [], edges)),
                                   SamePairRows(all, StemSide, "同天干", [])),
                         SamePairRows(all, BranchSide, "同地支", []))
  {
    var e := EdgeRows(NameSet(all), [], edges);
    var s := SamePairRows(all, StemSide, "同天干", []);
    var b := SamePairRows(all, BranchSide, "同地支", []);
    AddAllNewAppend([], e + s, b);
    AddAllNewAppend([], e, s);
  }

  /** `import_guanxi`. */
  method ImportGuanxi(all: seq<Ganzhi>, edges: seq<Edge>) returns (rows: seq<Guanxi>)
    ensures rows == GuanxiRows(all, edges)
  {
    var names := set g | g in all :: g.ganzhi;
    rows := ImportEdges(names, edges);
    rows := ImportSamePairs(rows, all, StemSide, "同天干");
    rows := ImportSamePairs(rows, all, BranchSide, "同地支");
    GuanxiRowsInParts(all, edges);
  }

  /**
   * The imported table holds no two rows with the same names and relation, holds
   * only rows the import as written would insert, and has a row with the key of
   * every row that one would insert.
   */
  lemma GuanxiRowsDeduplicated(all: seq<Ganzhi>, edges: seq<Edge>, r: Guanxi)
    ensures KeysDistinct(GuanxiRows(all, edges))
    ensures r in GuanxiRows(all, edges) ==> r in GuanxiRowsAsWritten(all, edges)
    ensures r in GuanxiRowsAsWritten(all, edges) ==> Stored(GuanxiRows(all, edges), r.ganzhi1, r.ganzhi2, r.relationType)
  {
    var cands := GuanxiRowsAsWritten(all, edges);
    AddAllNewDistinct([], cands);
    if r in GuanxiRows(all, edges) {
      AddAllNewFrom([], cands, r);
    }
    if r in cands {
      var k :| 0 <= k < |cands| && cands[k] == r;
      AddAllNewCovers([], cands, k);
    }
  }

  // ---------------------------------------------------------------- properties of the pairs

  lemma {:induction false} PairsFromLength(xs: seq<string>, i: nat, j: nat)
    requires i < j <= |xs|
    ensures |PairsFrom(xs, i, j)| == j - i - 1
    decreases j
  {
    if j > i + 1 {
      PairsFromLength(xs, i, j - 1);
    }
  }

  lemma {:induction false} PairsFromMembership(xs: seq<string>, i: nat, j: nat, p: (string, string))
    requires i < j <= |xs|
    ensures p in PairsFrom(xs, i, j) <==> exists m :: i < m < j && p == (xs[i], xs[m])
    decreases j
  {
    if j > i + 1 {
      PairsFromMembership(xs, i, j - 1, p);
    }
  }

  /** The inner loop for first index i visits the pair (i, m) for each m below j. */
  lemma {:induction false} PairsFromHas(xs: seq<string>, i: nat, j: nat, m: nat)
    requires i < m < j <= |xs|
    ensures (xs[i], xs[m]) in PairsFrom(xs, i, j)
    decreases j
  {
    if m < j - 1 {
      PairsFromHas(xs, i, j - 1, m);
    }
  }

  lemma {:induction false} PairsBeforeLength(xs: seq<string>, i: nat)
    requires i <= |xs|
    ensures 2 * |PairsBefore(xs, i)| == i * (2 * |xs| - i - 1)
  {
    if i > 0 {
      var n := |xs|;
      PairsBeforeLength(xs, i - 1);
      PairsFromLength(xs, i - 1, n);
      var earlier := |PairsBefore(xs, i - 1)|;
      assert |PairsBefore(xs, i)| == earlier + (n - i);
      StepArithmetic(n, i, earlier);
    }
  }

  lemma StepArithmetic(n: int, i: int, earlier: int)
    requires 2 * earlier == (i - 1) * (2 * n - i)
    ensures 2 * (earlier + (n - i)) == i * (2 * n - i - 1)
  {
    assert (i - 1) * (2 * n - i) == i * (2 * n - i) - (2 * n - i);
  }

  /** Every pair the loops visit before first index i joins a position below i to a later one. */
  lemma {:induction false} PairsBeforeSound(xs: seq<string>, i: nat, p: (string, string))
    requires i <= |xs| && p in PairsBefore(xs, i)
    ensures exists a, b :: 0 <= a < i && a < b < |xs| && p == (xs[a], xs[b])
  {
    var earlier := PairsBefore(xs, i - 1);
    var row := PairsFrom(xs, i - 1, |xs|);
    assert PairsBefore(xs, i) == earlier + row;
    if p in row {
      PairsFromMembership(xs, i - 1, |xs|, p);
      var m :| i - 1 < m < |xs| && p == (xs[i - 1], xs[m]);
      assert 0 <= i - 1 < i && i - 1 < m < |xs| && p == (xs[i - 1], xs[m]);
    } else {
      PairsBeforeSound(xs, i - 1, p);
      var a, b :| 0 <= a < i - 1 && a < b < |xs| && p == (xs[a], xs[b]);
      assert 0 <= a < i && a < b < |xs| && p == (xs[a], xs[b]);
    }
  }

  /** The loops visit every pair of positions a < b with a below i before first index i. */
  lemma {:induction false} PairsBeforeComplete(xs: seq<string>, i: nat, a: nat, b: nat)
    requires i <= |xs| && a < i && a < b < |xs|
    ensures (xs[a], xs[b]) in PairsBefore(xs, i)
  {
    var earlier := PairsBefore(xs, i - 1);
    var row := PairsFrom(xs, i - 1, |xs|);
    var p := (xs[a], xs[b]);
    if a == i - 1 {
      PairsFromHas(xs, a, |xs|, b);
      assert p in row;
    } else {
      PairsBeforeComplete(xs, i - 1, a, b);
      assert p in earlier;
    }
    assert p in earlier + row;
    assert PairsBefore(xs, i) == earlier + row;
  }

  lemma PairsBeforeMembership(xs: seq<string>, i: nat, p: (string, string))
    requires i <= |xs|
    ensures p in PairsBefore(xs, i) <==> exists a, b :: 0 <= a < i && a < b < |xs| && p == (xs[a], xs[b])
  {
    if p in PairsBefore(xs, i) {
      PairsBeforeSound(xs, i, p);
    }
    if exists a, b :: 0 <= a < i && a < b < |xs| && p == (xs[a], xs[b]) {
      var a, b :| 0 <= a < i && a < b < |xs| && p == (xs[a], xs[b]);
      PairsBeforeComplete(xs, i, a, b);
    }
  }

  /** The nested loops visit n(n-1)/2 pairs: exactly the pairs of positions i < j. */
  lemma PairsShape(xs: seq<string>, p: (string, string))
    ensures |Pairs(xs)| == |xs| * (|xs| - 1) / 2
    ensures p in Pairs(xs) <==> exists i, j :: 0 <= i < j < |xs| && p == (xs[i], xs[j])
  {
    PairsBeforeLength(xs, |xs|);
    PairsBeforeMembership(xs, |xs|, p);
    assert 2 * |Pairs(xs)| == |xs| * (|xs| - 1);
  }

  /** Of a list without repetitions no pair joins a name to itself, and no pair is also visited the other way round. */
  lemma PairsOfDistinct(xs: seq<string>, a: string, b: string)
    requires NoDuplicates(xs)
    requires (a, b) in Pairs(xs)
    ensures a != b && (b, a) !in Pairs(xs)
  {
    PairsShape(xs, (a, b));
    PairsShape(xs, (b, a));
  }

  /** Against the cleared table every visited pair becomes a row. */
  lemma PairRowsAgainstClearedTable(rel: string, xs: seq<string>)
    ensures |PairRows([], rel, xs)| == |Pairs(xs)|
    ensures forall k :: 0 <= k < |Pairs(xs)| ==>
              PairRows([], rel, xs)[k] == Guanxi(UNASSIGNED_ID, Pairs(xs)[k].0, Pairs(xs)[k].1, Some(rel), "")
  {
    FilterMapTotal(PairsBefore(xs, |xs|), p => PairFor([], rel, p));
  }

  /** A name is listed under a key exactly when a record with that name has that key. */
  lemma MembersMembership(all: seq<Ganzhi>, side: Side, key: string, name: string)
    ensures name in Members(all, side, key) <==> exists k :: 0 <= k < |all| && SideOf(side, all[k]) == key && all[k].ganzhi == name
  {
    FilterMapMembership(all, g => if SideOf(side, g) == key then Some(g.ganzhi) else None, name);
  }

  /** With unique names, a key's list repeats no name. */
  lemma MembersDistinct(all: seq<Ganzhi>, side: Side, key: string)
    requires UniqueNames(all)
    ensures NoDuplicates(Members(all, side, key))
  {
    var f := g => if SideOf(side, g) == key then Some(g.ganzhi) else None;
    var xs := Members(all, side, key);
    forall i, j | 0 <= i < j < |xs| ensures xs[i] != xs[j] {
      if xs[i] == xs[j] {
        MembersDistinctAt(all, side, key, i, j);
      }
    }
  }

  lemma {:induction false} MembersDistinctAt(all: seq<Ganzhi>, side: Side, key: string, i: nat, j: nat)
    requires UniqueNames(all)
    requires i < j < |Members(all, side, key)|
    ensures Members(all, side, key)[i] != Members(all, side, key)[j]
  {
    var init := all[..|all| - 1];
    var last := all[|all| - 1];
    var r0 := Members(init, side, key);
    assert UniqueNames(init) by {
      forall p, q | 0 <= p < q < |init| ensures init[p].ganzhi != init[q].ganzhi {
        assert init[p] == all[p] && init[q] == all[q];
      }
    }
    if j < |r0| {
      MembersDistinctAt(init, side, key, i, j);
    } else {
      assert Members(all, side, key)[j] == last.ganzhi;
      assert Members(all, side, key)[i] == r0[i];
      assert r0[i] in r0;
      MembersMembership(init, side, key, r0[i]);
      var k :| 0 <= k < |init| && SideOf(side, init[k]) == key && init[k].ganzhi == r0[i];
      assert all[k] == init[k];
    }
  }

  /**
   * Against the cleared table, a 同天干 (同地支) row joins two different records
   * with the same stem (branch), the earlier one first; and every such pair of
   * records is joined by a row.
   */
  lemma SamePairRowsExactly(all: seq<Ganzhi>, side: Side, rel: string, r: Guanxi)
    requires UniqueNames(all)
    ensures r in SamePairRows(all, side, rel, [])
            <==> r.id == UNASSIGNED_ID && r.relationType == Some(rel) && r.remark == ""
                 && exists p, q :: 0 <= p < q < |all| && SideOf(side, all[p]) == SideOf(side, all[q])
                                   && r.ganzhi1 == all[p].ganzhi && r.ganzhi2 == all[q].ganzhi
  {
    if r in SamePairRows(all, side, rel, []) {
      SamePairRowJoinsRecords(all, side, rel, r);
    }
    if r.id == UNASSIGNED_ID && r.relationType == Some(rel) && r.remark == ""
       && exists p, q :: 0 <= p < q < |all| && SideOf(side, all[p]) == SideOf(side, all[q])
                         && r.ganzhi1 == all[p].ganzhi && r.ganzhi2 == all[q].ganzhi {
      var p, q :| 0 <= p < q < |all| && SideOf(side, all[p]) == SideOf(side, all[q])
                  && r.ganzhi1 == all[p].ganzhi && r.ganzhi2 == all[q].ganzhi;
      assert r == Guanxi(UNASSIGNED_ID, all[p].ganzhi, all[q].ganzhi, Some(rel), "");
      SameKeyRecordsJoined(all, side, rel, p, q);
    }
  }

  lemma SamePairRowJoinsRecords(all: seq<Ganzhi>, side: Side, rel: string, r: Guanxi)
    requires UniqueNames(all)
    requires r in SamePairRows(all, side, rel, [])
    ensures r.id == UNASSIGNED_ID && r.relationType == Some(rel) && r.remark == ""
    ensures exists p, q :: 0 <= p < q < |all| && SideOf(side, all[p]) == SideOf(side, all[q])
                           && r.ganzhi1 == all[p].ganzhi && r.ganzhi2 == all[q].ganzhi
  {
    var keys := Dedup(SideKeys(all, side));
    FlatMapMembership(keys, key => PairRows([], rel, Members(all, side, key)), r);
    var n :| 0 <= n < |keys| && r in PairRows([], rel, Members(all, side, keys[n]));
    SameKeyRowJoinsRecords(all, side, rel, keys[n], r);
  }

  lemma SameKeyRecordsJoined(all: seq<Ganzhi>, side: Side, rel: string, p: nat, q: nat)
    requires p < q < |all| && SideOf(side, all[p]) == SideOf(side, all[q])
    ensures Guanxi(UNASSIGNED_ID, all[p].ganzhi, all[q].ganzhi, Some(rel), "") in SamePairRows(all, side, rel, [])
  {
    var key := SideOf(side, all[p]);
    var keys := Dedup(SideKeys(all, side));
    var r := Guanxi(UNASSIGNED_ID, all[p].ganzhi, all[q].ganzhi, Some(rel), "");
    RecordsWithKeyArePaired(all, side, rel, key, p, q);
    SideKeysMembership(all, side, p);
    var n :| 0 <= n < |keys| && keys[n] == key;
    FlatMapMembership(keys, key => PairRows([], rel, Members(all, side, key)), r);
  }

  lemma {:induction false} SideKeysMembership(all: seq<Ganzhi>, side: Side, p: nat)
    requires p < |all|
    ensures SideOf(side, all[p]) in SideKeys(all, side)
  {
    var init := all[..|all| - 1];
    if p < |init| {
      SideKeysMembership(init, side, p);
      assert init[p] == all[p];
    }
  }

  lemma SameKeyRowJoinsRecords(all: seq<Ganzhi>, side: Side, rel: string, key: string, r: Guanxi)
    requires UniqueNames(all)
    requires r in PairRows([], rel, Members(all, side, key))
    ensures r.id == UNASSIGNED_ID && r.relationType == Some(rel) && r.remark == ""
    ensures exists p, q :: 0 <= p < q < |all| && SideOf(side, all[p]) == SideOf(side, all[q])
                           && r.ganzhi1 == all[p].ganzhi && r.ganzhi2 == all[q].ganzhi
  {
    var xs := Members(all, side, key);
    PairRowsAgainstClearedTable(rel, xs);
    var k :| 0 <= k < |PairRows([], rel, xs)| && PairRows([], rel, xs)[k] == r;
    var pair := Pairs(xs)[k];
    PairsShape(xs, pair);
    var i, j :| 0 <= i < j < |xs| && pair == (xs[i], xs[j]);
    MembersPositions(all, side, key, i, j);
  }

  /** Positions i < j of a key's list come from records p < q with that key. */
  lemma {:induction false} MembersPositions(all: seq<Ganzhi>, side: Side, key: string, i: nat, j: nat)
    requires i < j < |Members(all, side, key)|
    ensures exists p, q :: 0 <= p < q < |all| && SideOf(side, all[p]) == key && SideOf(side, all[q]) == key
                           && Members(all, side, key)[i] == all[p].ganzhi && Members(all, side, key)[j] == all[q].ganzhi
  {
    var init := all[..|all| - 1];
    var last := all[|all| - 1];
    var r0 := Members(init, side, key);
    if j < |r0| {
      MembersPositions(init, side, key, i, j);
      var p, q :| 0 <= p < q < |init| && SideOf(side, init[p]) == key && SideOf(side, init[q]) == key
                  && r0[i] == init[p].ganzhi && r0[j] == init[q].ganzhi;
      assert all[p] == init[p] && all[q] == init[q];
    } else {
      assert Members(all, side, key)[i] == r0[i];
      assert r0[i] in r0;
      MembersMembership(init, side, key, r0[i]);
      var p :| 0 <= p < |init| && SideOf(side, init[p]) == key && init[p].ganzhi == r0[i];
      assert all[p] == init[p];
    }
  }

  /** Two records p < q sharing a key are joined by a row of that key's pairs. */
  lemma RecordsWithKeyArePaired(all: seq<Ganzhi>, side: Side, rel: string, key: string, p: nat, q: nat)
    requires p < q < |all| && SideOf(side, all[p]) == key && SideOf(side, all[q]) == key
    ensures Guanxi(UNASSIGNED_ID, all[p].ganzhi, all[q].ganzhi, Some(rel), "") in PairRows([], rel, Members(all, side, key))
  {
    var f := g => if SideOf(side, g) == key then Some(g.ganzhi) else None;
    FilterMapOrder(all, f, p, q);
    var xs := Members(all, side, key);
    var i, j :| 0 <= i < j < |xs| && xs[i] == all[p].ganzhi && xs[j] == all[q].ganzhi;
    PairsShape(xs, (xs[i], xs[j]));
    PairRowsAgainstClearedTable(rel, xs);
    var k :| 0 <= k < |Pairs(xs)| && Pairs(xs)[k] == (xs[i], xs[j]);
    assert PairRows([], rel, xs)[k] == Guanxi(UNASSIGNED_ID, all[p].ganzhi, all[q].ganzhi, Some(rel), "");
  }
}
