/**
 * `import_xiangyi`: the imagery rows of the stems, of the branches and of the
 * 60 cycle names. A stem's (a branch's) rows are attached to the first loaded
 * record carrying that stem (branch), and to no other; a cycle name's rows to
 * the record of that name.
 */
module XiangyiImport {
  import opened Wrappers
  import opened Seqs
  import opened Symbols
  import opened Models
  import opened ImportData

  /**
   * The fields 核心象意 and 细分象意 of a stem's or a branch's JSON entry ([] when
   * absent); the object 细分象意 is given as its (category, contents) items in key order.
   */
  datatype SymbolData = SymbolData(core: seq<string>, detail: seq<(string, seq<string>)>)

  /** The fields 核心象意 and 备注 of an entry of the 60-jiazi object. */
  datatype JiaziData = JiaziData(core: seq<string>, remark: string)

  /** One row per content, in order, all with the same record, type, category and description. */
  function ContentRows(gid: int, kind: string, category: string, contents: seq<string>, description: string): seq<Xiangyi>
  {
    if contents == [] then []
    else
      ContentRows(gid, kind, category, contents[..|contents| - 1], description)
      + [Xiangyi(UNASSIGNED_ID, gid, kind, category, contents[|contents| - 1], description, "原文")]
  }

  /** The rows of one category of 细分象意. */
  function CategoryRows(gid: int, entry: (string, seq<string>)): seq<Xiangyi>
  {
    ContentRows(gid, "细分", entry.0, entry.1, "")
  }

  /** The rows built for a symbol once its record `g` is found: the core contents, then every category's contents. */
  function SymbolRows(g: Ganzhi, d: SymbolData): seq<Xiangyi>
  {
    ContentRows(g.id, "核心", "综合", d.core, "") + FlatMap(d.detail, entry => CategoryRows(g.id, entry))
  }

  /** The record a symbol's rows go to: the first loaded one with the symbol on that side. */
  function Holder(all: seq<Ganzhi>, side: Side, sym: string): Option<Ganzhi>
  {
    if all == [] then None
    else if SideOf(side, all[0]) == sym then Some(all[0])
    else Holder(all[1..], side, sym)
  }

  /** One iteration of the stem or branch loop: nothing when no record carries the symbol. */
  function SymbolEntryRows(all: seq<Ganzhi>, side: Side, entry: (string, SymbolData)): seq<Xiangyi>
  {
    match Holder(all, side, entry.0)
    case Some(g) => SymbolRows(g, entry.1)
    case None => []
  }

  function SideRows(all: seq<Ganzhi>, side: Side, entries: seq<(string, SymbolData)>): seq<Xiangyi>
  {
    FlatMap(entries, entry => SymbolEntryRows(all, side, entry))
  }

  /** One iteration of the cycle-name loop: the core contents, described by the entry's remark. */
  function JiaziEntryRows(names: map<string, Ganzhi>, entry: (string, JiaziData)): seq<Xiangyi>
  {
    var name := ConvertJiaziKey(entry.0);
    if name in names then ContentRows(names[name].id, "核心", "综合", entry.1.core, entry.1.remark) else []
  }

  function JiaziRows(all: seq<Ganzhi>, entries: seq<(string, JiaziData)>): seq<Xiangyi>
  {
    FlatMap(entries, entry => JiaziEntryRows(NameMap(all), entry))
  }

  /** The whole table `import_xiangyi` inserts: stem rows, then branch rows, then cycle-name rows. */
  function XiangyiRows(all: seq<Ganzhi>, stems: seq<(string, SymbolData)>, branches: seq<(string, SymbolData)>,
                       jiazi: seq<(string, JiaziData)>): seq<Xiangyi>
  {
    SideRows(all, StemSide, stems) + SideRows(all, BranchSide, branches) + JiaziRows(all, jiazi)
  }

  // ---------------------------------------------------------------- the loops

  /** `for content in contents: xiangyi_list.append(Xiangyi(...))`. */
  method AppendContents(rows: seq<Xiangyi>, gid: int, kind: string, category: string, contents: seq<string>, description: string)
    returns (out: seq<Xiangyi>)
    ensures out == rows + ContentRows(gid, kind, category, contents, description)
  {
    out := rows;
    var i := 0;
    while i < |contents|
      invariant i <= |contents|
      invariant out == rows + ContentRows(gid, kind, category, contents[..i], description)
    {
      assert contents[..i + 1][..i] == contents[..i];
      out := out + [Xiangyi(UNASSIGNED_ID, gid, kind, category, contents[i], description, "原文")];
      i := i + 1;
    }
    assert contents[..i] == contents;
  }

  /** The body of the `if g.tiangan == tg` (or `g.dizhi == dz`) branch: core rows, then the categories in order. */
  method AppendSymbolRows(rows: seq<Xiangyi>, g: Ganzhi, d: SymbolData) returns (out: seq<Xiangyi>)
    ensures out == rows + SymbolRows(g, d)
  {
    out := AppendContents(rows, g.id, "核心", "综合", d.core, "");
    var core := out;
    var i := 0;
    while i < |d.detail|
      invariant i <= |d.detail|
      invariant out == core + FlatMap(d.detail[..i], entry => CategoryRows(g.id, entry))
    {
      FlatMapPrefix(d.detail, i, entry => CategoryRows(g.id, entry));
      AppendAssoc(core, FlatMap(d.detail[..i], entry => CategoryRows(g.id, entry)), CategoryRows(g.id, d.detail[i]));
      out := AppendContents(out, g.id, "细分", d.detail[i].0, d.detail[i].1, "");
      i := i + 1;
    }
    assert d.detail[..i] == d.detail;
  }

  /** The inner `for g in all_ganzhi` loop: rows for the first match, then `break`. */
  method AttachSymbol(rows: seq<Xiangyi>, all: seq<Ganzhi>, side: Side, entry: (string, SymbolData)) returns (out: seq<Xiangyi>)
    ensures out == rows + SymbolEntryRows(all, side, entry)
  {
    out := rows;
    var j := 0;
    while j < |all|
      invariant j <= |all|
      invariant forall k :: 0 <= k < j ==> SideOf(side, all[k]) != entry.0
      invariant out == rows
    {
      if SideOf(side, all[j]) == entry.0 {
        HolderAt(all, side, entry.0, j);
        out := AppendSymbolRows(out, all[j], entry.1);
        return;
      }
      j := j + 1;
    }
    HolderNone(all, side, entry.0);
  }

  /** The stem loop (`side` is `StemSide`) or the branch loop (`BranchSide`) of `import_xiangyi`. */
  method ImportSide(rows: seq<Xiangyi>, all: seq<Ganzhi>, side: Side, entries: seq<(string, SymbolData)>)
    returns (out: seq<Xiangyi>)
    ensures out == rows + SideRows(all, side, entries)
  {
    out := rows;
    var i := 0;
    while i < |entries|
      invariant i <= |entries|
      invariant out == rows + SideRows(all, side, entries[..i])
    {
      SideRowsPrefix(all, side, entries, i);
      AppendAssoc(rows, SideRows(all, side, entries[..i]), SymbolEntryRows(all, side, entries[i]));
      out := AttachSymbol(out, all, side, entries[i]);
      i := i + 1;
    }
    assert entries[..i] == entries;
  }

  /** One iteration of the cycle-name loop: the core rows of the record the converted key names, if it is loaded. */
  method AttachJiazi(rows: seq<Xiangyi>, names: map<string, Ganzhi>, entry: (string, JiaziData)) returns (out: seq<Xiangyi>)
    ensures out == rows + JiaziEntryRows(names, entry)
  {
    out := rows;
    var name := ConvertJiaziKey(entry.0);
    if name in names {
      out := AppendContents(out, names[name].id, "核心", "综合", entry.1.core, entry.1.remark);
    }
  }

  /** The cycle-name loop of `import_xiangyi`. */
  method ImportJiazi(rows: seq<Xiangyi>, all: seq<Ganzhi>, entries: seq<(string, JiaziData)>) returns (out: seq<Xiangyi>)
    ensures out == rows + JiaziRows(all, entries)
  {
    var names := NameMap(all);
    out := rows;
    var i := 0;
    while i < |entries|
      invariant i <= |entries|
      invariant out == rows + JiaziRows(all, entries[..i])
    {
      JiaziRowsPrefix(all, entries, i);
      AppendAssoc(rows, JiaziRows(all, entries[..i]), JiaziEntryRows(names, entries[i]));
      out := AttachJiazi(out, names, entries[i]);
      i := i + 1;
    }
    assert entries[..i] == entries;
  }

  /** `import_xiangyi`, with the JSON objects given as their items in key order. */
  method ImportXiangyi(all: seq<Ganzhi>, stems: seq<(string, SymbolData)>, branches: seq<(string, SymbolData)>,
                       jiazi: seq<(string, JiaziData)>) returns (rows: seq<Xiangyi>)
    ensures rows == XiangyiRows(all, stems, branches, jiazi)
  {
    var stemRows := ImportSide([], all, StemSide, stems);
    assert stemRows == SideRows(all, StemSide, stems);
    var symbolRows := ImportSide(stemRows, all, BranchSide, branches);
    rows := ImportJiazi(symbolRows, all, jiazi);
  }

  // ---------------------------------------------------------------- properties

  lemma SideRowsPrefix(all: seq<Ganzhi>, side: Side, entries: seq<(string, SymbolData)>, i: nat)
    requires i < |entries|
    ensures SideRows(all, side, entries[..i + 1]) == SideRows(all, side, entries[..i]) + SymbolEntryRows(all, side, entries[i])
  {
    FlatMapPrefix(entries, i, entry => SymbolEntryRows(all, side, entry));
  }

  lemma JiaziRowsPrefix(all: seq<Ganzhi>, entries: seq<(string, JiaziData)>, i: nat)
    requires i < |entries|
    ensures JiaziRows(all, entries[..i + 1]) == JiaziRows(all, entries[..i]) + JiaziEntryRows(NameMap(all), entries[i])
  {
    FlatMapPrefix(entries, i, entry => JiaziEntryRows(NameMap(all), entry));
  }

  /** The first record with the symbol is its holder. */
  lemma {:induction false} HolderAt(all: seq<Ganzhi>, side: Side, sym: string, j: nat)
    requires j < |all| && SideOf(side, all[j]) == sym
    requires forall k :: 0 <= k < j ==> SideOf(side, all[k]) != sym
    ensures Holder(all, side, sym) == Some(all[j])
  {
    if j > 0 {
      HolderAt(all[1..], side, sym, j - 1);
    }
  }

  /** A symbol no record carries has no holder, and the other way round. */
  lemma {:induction false} HolderNone(all: seq<Ganzhi>, side: Side, sym: string)
    ensures Holder(all, side, sym).None? <==> forall k :: 0 <= k < |all| ==> SideOf(side, all[k]) != sym
  {
    if all != [] {
      HolderNone(all[1..], side, sym);
      assert forall k :: 1 <= k < |all| ==> all[k] == all[1..][k - 1];
    }
  }

  /** The holder is a loaded record with the symbol, and no earlier record has it. */
  lemma {:induction false} HolderIsFirst(all: seq<Ganzhi>, side: Side, sym: string)
    requires Holder(all, side, sym).Some?
    ensures exists j :: 0 <= j < |all| && all[j] == Holder(all, side, sym).value && SideOf(side, all[j]) == sym
                        && forall k :: 0 <= k < j ==> SideOf(side, all[k]) != sym
  {
    if SideOf(side, all[0]) != sym {
      HolderIsFirst(all[1..], side, sym);
      var j :| 0 <= j < |all[1..]| && all[1..][j] == Holder(all[1..], side, sym).value && SideOf(side, all[1..][j]) == sym
               && forall k :: 0 <= k < j ==> SideOf(side, all[1..][k]) != sym;
      assert all[j + 1] == all[1..][j];
      forall k | 0 <= k < j + 1 ensures SideOf(side, all[k]) != sym {
        if k > 0 { assert all[k] == all[1..][k - 1]; }
      }
    }
  }

  /** The rows of a content list are one per content, in order: the comprehension the recursion builds. */
  lemma {:induction false} ContentRowsAt(gid: int, kind: string, category: string, contents: seq<string>, description: string)
    ensures |ContentRows(gid, kind, category, contents, description)| == |contents|
    ensures forall k :: 0 <= k < |contents| ==>
              ContentRows(gid, kind, category, contents, description)[k]
              == Xiangyi(UNASSIGNED_ID, gid, kind, category, contents[k], description, "原文")
  {
    if contents != [] {
      var init := contents[..|contents| - 1];
      ContentRowsAt(gid, kind, category, init, description);
      assert forall k :: 0 <= k < |init| ==> init[k] == contents[k];
    }
  }

  /** A content row is one built for the given contents, and the converse. */
  lemma ContentRowsMembership(gid: int, kind: string, category: string, contents: seq<string>, description: string, x: Xiangyi)
    ensures x in ContentRows(gid, kind, category, contents, description)
            <==> x == Xiangyi(UNASSIGNED_ID, gid, kind, category, x.content, description, "原文") && x.content in contents
  {
    ContentRowsAt(gid, kind, category, contents, description);
    var r := ContentRows(gid, kind, category, contents, description);
    if x.content in contents && x == Xiangyi(UNASSIGNED_ID, gid, kind, category, x.content, description, "原文") {
      var k :| 0 <= k < |contents| && contents[k] == x.content;
      assert r[k] == x;
    }
  }

  /** What a row built from symbol data `d` for record `g` looks like. */
  predicate FromSymbol(x: Xiangyi, g: Ganzhi, d: SymbolData)
  {
    && x.id == UNASSIGNED_ID && x.ganzhiId == g.id && x.description == "" && x.source == "原文"
    && ((x.kind == "核心" && x.category == "综合" && x.content in d.core)
        || (x.kind == "细分" && exists k :: 0 <= k < |d.detail| && d.detail[k].0 == x.category && x.content in d.detail[k].1))
  }

  /**
   * A symbol's rows are its core contents as 核心/综合 rows and each category's
   * contents as 细分 rows of that category, all for the same record, and nothing else.
   */
  lemma SymbolRowsMembership(g: Ganzhi, d: SymbolData, x: Xiangyi)
    ensures x in SymbolRows(g, d) <==> FromSymbol(x, g, d)
  {
    ContentRowsMembership(g.id, "核心", "综合", d.core, "", x);
    FlatMapMembership(d.detail, entry => CategoryRows(g.id, entry), x);
    forall k | 0 <= k < |d.detail|
      ensures x in CategoryRows(g.id, d.detail[k])
              <==> x == Xiangyi(UNASSIGNED_ID, g.id, "细分", d.detail[k].0, x.content, "", "原文") && x.content in d.detail[k].1
    {
      ContentRowsMembership(g.id, "细分", d.detail[k].0, d.detail[k].1, "", x);
    }
  }

  /** Every stem (branch) row comes from the data of some symbol and belongs to that symbol's holder. */
  lemma SideRowsBelongToHolders(all: seq<Ganzhi>, side: Side, entries: seq<(string, SymbolData)>, x: Xiangyi)
    requires x in SideRows(all, side, entries)
    ensures exists k :: 0 <= k < |entries| && Holder(all, side, entries[k].0).Some?
                        && FromSymbol(x, Holder(all, side, entries[k].0).value, entries[k].1)
  {
    FlatMapMembership(entries, entry => SymbolEntryRows(all, side, entry), x);
    var k :| 0 <= k < |entries| && x in SymbolEntryRows(all, side, entries[k]);
    SymbolRowsMembership(Holder(all, side, entries[k].0).value, entries[k].1, x);
  }

  /** A symbol with a holder contributes all of its rows, to the holder. */
  lemma HeldSymbolContributes(all: seq<Ganzhi>, side: Side, entries: seq<(string, SymbolData)>, k: nat, x: Xiangyi)
    requires k < |entries| && Holder(all, side, entries[k].0).Some?
    requires FromSymbol(x, Holder(all, side, entries[k].0).value, entries[k].1)
    ensures x in SideRows(all, side, entries)
  {
    SymbolRowsMembership(Holder(all, side, entries[k].0).value, entries[k].1, x);
    FlatMapMembership(entries, entry => SymbolEntryRows(all, side, entry), x);
  }

  /** In a table in cycle order the rows of stem s go to record s, the first of the six records with that stem. */
  lemma StemHolderInCycleOrder(all: seq<Ganzhi>, s: nat)
    requires CycleOrder(all) && s < 10
    ensures Holder(all, StemSide, [TIAN_GAN[s]]) == Some(all[s])
  {
    forall k | 0 <= k < s ensures SideOf(StemSide, all[k]) != [TIAN_GAN[s]] {
      EarlierStemDiffers(all, s, k);
    }
    HolderAt(all, StemSide, [TIAN_GAN[s]], s);
  }

  /** Record k before record s of a table in cycle order carries another stem. */
  lemma EarlierStemDiffers(all: seq<Ganzhi>, s: nat, k: nat)
    requires CycleOrder(all) && k < s < 10
    ensures SideOf(StemSide, all[k]) != [TIAN_GAN[s]]
  {
    assert k % 10 == k;
    assert all[k].tiangan == [TIAN_GAN[k]];
    SymbolsDistinct();
    assert TIAN_GAN[k] != TIAN_GAN[s];
    assert SideOf(StemSide, all[k])[0] != [TIAN_GAN[s]][0];
  }

  /** In a table in cycle order the rows of branch b go to record b, the first of the five records with that branch. */
  lemma BranchHolderInCycleOrder(all: seq<Ganzhi>, b: nat)
    requires CycleOrder(all) && b < 12
    ensures Holder(all, BranchSide, [DI_ZHI[b]]) == Some(all[b])
  {
    forall k | 0 <= k < b ensures SideOf(BranchSide, all[k]) != [DI_ZHI[b]] {
      EarlierBranchDiffers(all, b, k);
    }
    HolderAt(all, BranchSide, [DI_ZHI[b]], b);
  }

  /** Record k before record b of a table in cycle order carries another branch. */
  lemma EarlierBranchDiffers(all: seq<Ganzhi>, b: nat, k: nat)
    requires CycleOrder(all) && k < b < 12
    ensures SideOf(BranchSide, all[k]) != [DI_ZHI[b]]
  {
    assert k % 12 == k;
    assert all[k].dizhi == [DI_ZHI[k]];
    SymbolsDistinct();
    assert DI_ZHI[k] != DI_ZHI[b];
    assert SideOf(BranchSide, all[k])[0] != [DI_ZHI[b]][0];
  }

  /** A key that is no stem (branch) finds no record in a table in cycle order, so its data is dropped. */
  lemma UnknownSymbolHasNoHolder(all: seq<Ganzhi>, side: Side, sym: string)
    requires CycleOrder(all)
    requires side == StemSide ==> forall s :: 0 <= s < 10 ==> sym != [TIAN_GAN[s]]
    requires side == BranchSide ==> forall b :: 0 <= b < 12 ==> sym != [DI_ZHI[b]]
    ensures Holder(all, side, sym) == None
  {
    forall k | 0 <= k < |all| ensures SideOf(side, all[k]) != sym {
      if side == StemSide {
        assert all[k].tiangan == [TIAN_GAN[k % 10]];
      } else {
        assert all[k].dizhi == [DI_ZHI[k % 12]];
      }
    }
    HolderNone(all, side, sym);
  }

  /** Every cycle-name row is a core row of a loaded record the entry's key converts to, described by the entry's remark. */
  lemma JiaziRowsBelongToNamedRecords(all: seq<Ganzhi>, entries: seq<(string, JiaziData)>, x: Xiangyi)
    requires x in JiaziRows(all, entries)
    ensures exists k, j :: 0 <= k < |entries| && 0 <= j < |all| && all[j].ganzhi == ConvertJiaziKey(entries[k].0)
                           && x.ganzhiId == all[j].id && x.kind == "核心" && x.category == "综合"
                           && x.content in entries[k].1.core && x.description == entries[k].1.remark
  {
    var names := NameMap(all);
    FlatMapMembership(entries, entry => JiaziEntryRows(names, entry), x);
    var k :| 0 <= k < |entries| && x in JiaziEntryRows(names, entries[k]);
    var name := ConvertJiaziKey(entries[k].0);
    NameMapHolds(all, name);
    ContentRowsMembership(names[name].id, "核心", "综合", entries[k].1.core, entries[k].1.remark, x);
  }

  /** Conversely, an entry whose converted key names a loaded record has every core content imported, for that record. */
  lemma JiaziEntryContributes(all: seq<Ganzhi>, entries: seq<(string, JiaziData)>, k: nat, c: string)
    requires k < |entries| && ConvertJiaziKey(entries[k].0) in NameMap(all) && c in entries[k].1.core
    ensures Xiangyi(UNASSIGNED_ID, NameMap(all)[ConvertJiaziKey(entries[k].0)].id, "核心", "综合", c, entries[k].1.remark, "原文")
            in JiaziRows(all, entries)
  {
    var names := NameMap(all);
    var name := ConvertJiaziKey(entries[k].0);
    var x := Xiangyi(UNASSIGNED_ID, names[name].id, "核心", "综合", c, entries[k].1.remark, "原文");
    ContentRowsMembership(names[name].id, "核心", "综合", entries[k].1.core, entries[k].1.remark, x);
    FlatMapMembership(entries, entry => JiaziEntryRows(names, entry), x);
  }
}
