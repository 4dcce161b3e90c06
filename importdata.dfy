/**
 * The record derivations of the importer. The database is replaced by the rows
 * each step produces: every import step clears its table and inserts the list it
 * builds, so that list is the table's new content. The JSON files the importer
 * reads are parameters, already decoded; a field the importer reads with
 * `.get(field, default)` is given with the default filled in.
 */
module ImportData {
  import opened Wrappers
  import opened Seqs
  import opened Symbols
  import opened Models
  import NayinCalc

  // ---------------------------------------------------------------- import_ganzhi

  /** `TIAN_GAN_WUXING.get(tg, '')`. */
  function StemElementText(tg: char): string
  {
    if tg in TIAN_GAN_WUXING then TIAN_GAN_WUXING[tg].Name() else ""
  }

  /** `DI_ZHI_WUXING.get(dz, '')`. */
  function BranchElementText(dz: char): string
  {
    if dz in DI_ZHI_WUXING then DI_ZHI_WUXING[dz].Name() else ""
  }

  /** `TIAN_GAN_YINYANG.get(tg, '')`. */
  function StemPolarityText(tg: char): string
  {
    if tg in TIAN_GAN_YINYANG then TIAN_GAN_YINYANG[tg].Name() else ""
  }

  /**
   * The record built for one entry of the 60-item list. `stemNames` and
   * `branchNames` hold the 原始命名 field of each symbol's JSON entry; a symbol
   * missing from them gets ''.
   */
  function GanzhiRecord(tg: char, dz: char, stemNames: map<char, string>, branchNames: map<char, string>): Ganzhi
  {
    Ganzhi(
      UNASSIGNED_ID, [tg], [dz], [tg, dz],
      StemElementText(tg), BranchElementText(dz),
      StemPolarityText(tg),
      GetOr(DI_ZHI_FANGWEI, dz, ""), GetOr(DI_ZHI_JIJIE, dz, ""),
      GetOr(stemNames, tg, ""), GetOr(branchNames, dz, ""),
      None)
  }

  /** The record of cycle position `i`; positions repeat every 60. */
  function CycleRecord(i: nat, stemNames: map<char, string>, branchNames: map<char, string>): Ganzhi
  {
    GanzhiRecord(TIAN_GAN[i % 10], DI_ZHI[i % 12], stemNames, branchNames)
  }

  /** The records of the first `n` positions of the cycle, in order. */
  function CycleRecords(n: nat, stemNames: map<char, string>, branchNames: map<char, string>): (r: seq<Ganzhi>)
    requires n <= 60
    ensures |r| == n
  {
    Generate(n, (k: nat) => CycleRecord(k, stemNames, branchNames))
  }

  /** Position k of the first `n` records is the record of cycle position k. */
  lemma CycleRecordsAt(n: nat, k: nat, stemNames: map<char, string>, branchNames: map<char, string>)
    requires k < n <= 60
    ensures CycleRecords(n, stemNames, branchNames)[k] == CycleRecord(k, stemNames, branchNames)
  {
    GenerateAt(n, (k: nat) => CycleRecord(k, stemNames, branchNames), k);
  }

  /** Appending the record built from entry i extends the first i records to the first i + 1. */
  lemma CycleRecordsStep(i: nat, tg: char, dz: char, stemNames: map<char, string>, branchNames: map<char, string>)
    requires i < 60 && (tg, dz) == CyclePair(i)
    ensures CycleRecords(i + 1, stemNames, branchNames) == CycleRecords(i, stemNames, branchNames) + [GanzhiRecord(tg, dz, stemNames, branchNames)]
  {
  }

  /** The loop header `for tg, dz in JIAZI_SEQUENCE`: entry `i` unpacked into its stem and branch. */
  method EntryAt(i: nat) returns (tg: char, dz: char)
    requires i < 60
    ensures (tg, dz) == CyclePair(i)
  {
    JiaziSequenceAt(i);
    var entry := Unpack(JIAZI_SEQUENCE[i]);
    tg, dz := entry.value.0, entry.value.1;
  }

  /**
   * `import_ganzhi`: one record per entry of the 60-item list, in list order
   * (`JiaziSequenceAt` shows the list has exactly 60 entries).
   */
  method ImportGanzhi(stemNames: map<char, string>, branchNames: map<char, string>) returns (rows: seq<Ganzhi>)
    ensures rows == CycleRecords(60, stemNames, branchNames)
  {
    rows := [];
    var i := 0;
    while i < 60
      invariant i <= 60
      invariant rows == CycleRecords(i, stemNames, branchNames)
    {
      var tg, dz := EntryAt(i);
      CycleRecordsStep(i, tg, dz, stemNames, branchNames);
      rows := rows + [GanzhiRecord(tg, dz, stemNames, branchNames)];
      i := i + 1;
    }
  }

  /** The record of position i is named by its stem and branch. */
  lemma CycleRecordName(i: nat, stemNames: map<char, string>, branchNames: map<char, string>)
    requires i < 60
    ensures var g := CycleRecord(i, stemNames, branchNames);
            g.ganzhi == CycleName(i) && g.ganzhi == g.tiangan + g.dizhi
  {
  }

  /**
   * Its stem columns: the stem's element, and the stem's yin/yang, which is
   * yang at even positions and yin at odd ones.
   */
  lemma CycleRecordStemColumns(i: nat, stemNames: map<char, string>, branchNames: map<char, string>)
    requires i < 60
    ensures var g := CycleRecord(i, stemNames, branchNames);
            && g.tianganWuxing == TIAN_GAN_WUXING[TIAN_GAN[i % 10]].Name()
            && g.yinyang == TIAN_GAN_YINYANG[TIAN_GAN[i % 10]].Name()
            && g.yinyang == (if i % 2 == 0 then "阳" else "阴")
  {
    StemInTables(i % 10);
    assert (i % 10) % 2 == i % 2;
  }

  /**
   * Its branch columns: the branch's element, direction and month; the branch's
   * own yin/yang, never consulted, agrees with the stem's.
   */
  lemma CycleRecordBranchColumns(i: nat, stemNames: map<char, string>, branchNames: map<char, string>)
    requires i < 60
    ensures var g := CycleRecord(i, stemNames, branchNames);
            && g.dizhiWuxing == DI_ZHI_WUXING[DI_ZHI[i % 12]].Name()
            && g.fangwei == DI_ZHI_FANGWEI[DI_ZHI[i % 12]] && g.jijie == DI_ZHI_JIJIE[DI_ZHI[i % 12]]
            && DI_ZHI_YINYANG[DI_ZHI[i % 12]].Name() == (if i % 2 == 0 then "阳" else "阴")
  {
    BranchInTables(i % 12);
    assert (i % 12) % 2 == i % 2;
  }

  /** A column comes out '' exactly when its symbol is missing from the table it is read from. */
  lemma MissingKeysGiveEmpty(tg: char, dz: char, stemNames: map<char, string>, branchNames: map<char, string>)
    ensures var g := GanzhiRecord(tg, dz, stemNames, branchNames);
            && (g.tianganWuxing == "" <==> tg !in TIAN_GAN)
            && (g.yinyang == "" <==> tg !in TIAN_GAN)
            && (g.dizhiWuxing == "" <==> dz !in DI_ZHI)
            && (g.fangwei == "" <==> dz !in DI_ZHI)
            && (g.jijie == "" <==> dz !in DI_ZHI)
  {
    StemColumnsEmptyIffMissing(tg);
    BranchColumnsEmptyIffMissing(dz);
  }

  /** The two stem columns are empty exactly for a character that is not a stem. */
  lemma StemColumnsEmptyIffMissing(tg: char)
    ensures StemElementText(tg) == "" <==> tg !in TIAN_GAN
    ensures StemPolarityText(tg) == "" <==> tg !in TIAN_GAN
  {
    StemTablesCover();
  }

  /** The three branch columns are empty exactly for a character that is not a branch. */
  lemma BranchColumnsEmptyIffMissing(dz: char)
    ensures BranchElementText(dz) == "" <==> dz !in DI_ZHI
    ensures GetOr(DI_ZHI_FANGWEI, dz, "") == "" <==> dz !in DI_ZHI
    ensures GetOr(DI_ZHI_JIJIE, dz, "") == "" <==> dz !in DI_ZHI
  {
    BranchElementTablesCover();
    BranchPlaceTablesCover();
  }

  /** The 60 imported records have 60 different names, as the unique `ganzhi` column demands. */
  lemma ImportedNamesUnique(rows: seq<Ganzhi>, stemNames: map<char, string>, branchNames: map<char, string>)
    requires rows == CycleRecords(60, stemNames, branchNames)
    ensures UniqueNames(rows)
  {
    forall i, j | 0 <= i < j < |rows| ensures rows[i].ganzhi != rows[j].ganzhi {
      CycleRecordsAt(60, i, stemNames, branchNames);
      CycleRecordsAt(60, j, stemNames, branchNames);
      CyclePairsDistinct(i, j);
      assert rows[i].ganzhi == [CyclePair(i).0, CyclePair(i).1];
      assert rows[j].ganzhi == [CyclePair(j).0, CyclePair(j).1];
    }
  }

  /** The stem column or the branch column of a record, by which later steps look records up and group them. */
  datatype Side = StemSide | BranchSide

  function SideOf(side: Side, g: Ganzhi): string
  {
    match side
    case StemSide => g.tiangan
    case BranchSide => g.dizhi
  }

  /**
   * Records laid out as the importer inserts them: record i carries the stem and
   * the branch of cycle position i. Reading the table back, with the ids the
   * database assigned, keeps this layout.
   */
  predicate CycleOrder(all: seq<Ganzhi>)
  {
    |all| == 60 && forall i :: 0 <= i < 60 ==> all[i].tiangan == [TIAN_GAN[i % 10]] && all[i].dizhi == [DI_ZHI[i % 12]]
  }

  lemma ImportedInCycleOrder(rows: seq<Ganzhi>, stemNames: map<char, string>, branchNames: map<char, string>)
    requires rows == CycleRecords(60, stemNames, branchNames)
    ensures CycleOrder(rows)
  {
    forall i | 0 <= i < 60 ensures rows[i].tiangan == [TIAN_GAN[i % 10]] && rows[i].dizhi == [DI_ZHI[i % 12]] {
      CycleRecordsAt(60, i, stemNames, branchNames);
    }
  }

  // ---------------------------------------------------------------- import_nayin

  /** `{g.ganzhi: g for g in all_ganzhi}`: a later row with the same name replaces an earlier one. */
  function NameMap(all: seq<Ganzhi>): (m: map<string, Ganzhi>)
    ensures forall name :: name in m <==> exists k :: 0 <= k < |all| && all[k].ganzhi == name
  {
    if all == [] then map[]
    else
      var init := all[..|all| - 1];
      var m0 := NameMap(init);
      var last := all[|all| - 1];
      var m := m0[last.ganzhi := last];
      assert forall name :: name in m <==> exists k :: 0 <= k < |all| && all[k].ganzhi == name by {
        forall name | exists k :: 0 <= k < |all| && all[k].ganzhi == name
          ensures name in m
        {
          var k :| 0 <= k < |all| && all[k].ganzhi == name;
          if k < |init| { assert init[k] == all[k]; }
        }
        forall name | name in m0 ensures exists k :: 0 <= k < |all| && all[k].ganzhi == name {
          var k :| 0 <= k < |init| && init[k].ganzhi == name;
          assert all[k] == init[k];
        }
      }
      m
  }

  /** With unique names each row is what the map gives for its name. */
  lemma {:induction false} NameMapUnique(all: seq<Ganzhi>, i: nat)
    requires UniqueNames(all) && i < |all|
    ensures all[i].ganzhi in NameMap(all) && NameMap(all)[all[i].ganzhi] == all[i]
    decreases |all|
  {
    var init := all[..|all| - 1];
    var last := all[|all| - 1];
    assert NameMap(all) == NameMap(init)[last.ganzhi := last];
    if i < |init| {
      UniqueNamesInit(all);
      NameMapUnique(init, i);
      assert init[i] == all[i];
      assert all[i].ganzhi != last.ganzhi;
    }
  }

  /** Dropping the last row keeps the names unique. */
  lemma UniqueNamesInit(all: seq<Ganzhi>)
    requires UniqueNames(all) && all != []
    ensures UniqueNames(all[..|all| - 1])
  {
    var init := all[..|all| - 1];
    forall p, q | 0 <= p < q < |init| ensures init[p].ganzhi != init[q].ganzhi {
      assert init[p] == all[p] && init[q] == all[q];
    }
  }

  /** The fields '纳音' and '备注' of one entry of the 60-jiazi JSON object ('' when absent). */
  datatype NayinData = NayinData(nayin: string, remark: string)

  /** `zhuangtai_map.get(tg, '平')`. */
  function Zhuangtai(tg: string): string
  {
    if |tg| != 1 then "平"
    else
      match tg[0]
      case '甲' => "旺" case '乙' => "衰" case '丙' => "旺" case '丁' => "衰" case '戊' => "旺"
      case '己' => "衰" case '庚' => "旺" case '辛' => "衰" case '壬' => "旺" case '癸' => "衰"
      case _ => "平"
  }

  /** `shengda_map.get(tg, '')`. */
  function Shengda(tg: string): string
  {
    if |tg| != 1 then ""
    else
      match tg[0]
      case '甲' => "长生" case '乙' => "帝旺" case '丙' => "帝旺" case '丁' => "长生" case '戊' => "长生"
      case '己' => "帝旺" case '庚' => "帝旺" case '辛' => "长生" case '壬' => "帝旺" case '癸' => "长生"
      case _ => ""
  }

  /** `nayin_name[0] if nayin_name else ''`: the first character of the name, as the importer stores it. */
  function NayinWuxingAsWritten(nayinName: string): (r: string)
    ensures nayinName == "" ==> r == ""
    ensures nayinName != "" ==> |r| == 1 && r[0] == nayinName[0]
  {
    if nayinName != "" then [nayinName[0]] else ""
  }

  /**
   * The record built for a loaded ganzhi `g` from its JSON entry, its
   * `nayin_wuxing` the element the name stands for (see `NayinElement`).
   */
  function NayinRecord(g: Ganzhi, d: NayinData): Nayin
  {
    Nayin(UNASSIGNED_ID, g.id, d.nayin, NayinElement(d.nayin), Zhuangtai(g.tiangan), Shengda(g.tiangan), d.remark)
  }

  /** One iteration of the loop of `import_nayin`: a record when the converted key names a loaded ganzhi. */
  function NayinFor(names: map<string, Ganzhi>, entry: (string, NayinData)): Option<Nayin>
  {
    var name := ConvertJiaziKey(entry.0);
    if name in names then Some(NayinRecord(names[name], entry.1)) else None
  }

  /** `import_nayin`: the records for the JSON entries whose key converts to a loaded name, in entry order. */
  method ImportNayin(all: seq<Ganzhi>, entries: seq<(string, NayinData)>) returns (rows: seq<Nayin>)
    ensures rows == FilterMap(entries, e => NayinFor(NameMap(all), e))
  {
    var names := NameMap(all);
    rows := [];
    var i := 0;
    while i < |entries|
      invariant i <= |entries|
      invariant rows == FilterMap(entries[..i], e => NayinFor(names, e))
    {
      var name := ConvertJiaziKey(entries[i].0);
      FilterMapPrefix(entries, i, e => NayinFor(names, e));
      if name in names {
        var g := names[name];
        rows := rows + [NayinRecord(g, entries[i].1)];
      }
      i := i + 1;
    }
    assert entries[..i] == entries;
  }

  /** 旺 for a yang stem, 衰 for a yin stem, 平 for anything else. */
  lemma ZhuangtaiFollowsPolarity(tg: string)
    ensures Zhuangtai(tg) == (if |tg| == 1 && tg[0] in TIAN_GAN_YINYANG then
                                (if TIAN_GAN_YINYANG[tg[0]] == Yang then "旺" else "衰")
                              else "平")
  {
  }

  /** The strength is 长生 or 帝旺 for a stem, '' otherwise. */
  lemma ShengdaValues(tg: string)
    ensures Shengda(tg) in {"长生", "帝旺"} <==> |tg| == 1 && tg[0] in TIAN_GAN
    ensures Shengda(tg) !in {"长生", "帝旺"} ==> Shengda(tg) == ""
  {
  }

  /** A record built for an entry belongs to a loaded ganzhi whose name the entry's key converts to. */
  lemma NayinForRecord(all: seq<Ganzhi>, entry: (string, NayinData), n: Nayin)
    requires NayinFor(NameMap(all), entry) == Some(n)
    ensures exists j :: 0 <= j < |all| && all[j].ganzhi == ConvertJiaziKey(entry.0) && n.ganzhiId == all[j].id
    ensures n.nayinName == entry.1.nayin && n.zhuangtaiDesc == entry.1.remark
    ensures n.zhuangtai in {"旺", "衰", "平"}
  {
    NameMapHolds(all, ConvertJiaziKey(entry.0));
  }

  /**
   * The entry keyed with the pinyin key of cycle position i makes a record for
   * the loaded record of that name, whatever the record's position.
   */
  lemma NayinForCycleKey(all: seq<Ganzhi>, i: nat, j: nat, d: NayinData)
    requires UniqueNames(all) && i < 60 && j < |all| && all[j].ganzhi == CycleName(i)
    ensures NayinFor(NameMap(all), (JiaziKey(i), d)) == Some(NayinRecord(all[j], d))
  {
    ConvertJiaziKeyAt(i);
    NameMapUnique(all, j);
  }

  /** An entry whose key is no pinyin key and no loaded name is skipped. */
  lemma NayinForUnknownKey(all: seq<Ganzhi>, key: string, d: NayinData)
    requires forall i :: 0 <= i < 60 ==> JiaziKey(i) != key
    requires forall j :: 0 <= j < |all| ==> all[j].ganzhi != key
    ensures NayinFor(NameMap(all), (key, d)) == None
  {
    ConvertOtherKey(key);
  }

  /** Every imported record comes from one of the entries, as `NayinForRecord` describes. */
  lemma ImportedNayinRecords(all: seq<Ganzhi>, entries: seq<(string, NayinData)>, n: Nayin)
    requires n in FilterMap(entries, e => NayinFor(NameMap(all), e))
    ensures exists k :: 0 <= k < |entries| && NayinFor(NameMap(all), entries[k]) == Some(n)
  {
    FilterMapMembership(entries, e => NayinFor(NameMap(all), e), n);
  }

  /** The row the map gives for a name is a row of `all` with that name. */
  lemma {:induction false} NameMapHolds(all: seq<Ganzhi>, name: string)
    requires name in NameMap(all)
    ensures exists j :: 0 <= j < |all| && all[j] == NameMap(all)[name] && all[j].ganzhi == name
    decreases |all|
  {
    var init := all[..|all| - 1];
    var last := all[|all| - 1];
    if name != last.ganzhi {
      NameMapHolds(init, name);
      var j :| 0 <= j < |init| && init[j] == NameMap(init)[name] && init[j].ganzhi == name;
      assert all[j] == init[j];
    }
  }

  /**
   * The element a nayin name stands for: its last character. Each of the 30 names
   * ends with the element of the group it belongs to.
   */
  function NayinElement(nayinName: string): (r: string)
    ensures nayinName == "" ==> r == ""
    ensures nayinName != "" ==> |r| == 1 && r[0] == nayinName[|nayinName| - 1]
  {
    if nayinName != "" then [nayinName[|nayinName| - 1]] else ""
  }

  /** The five element characters. */
  predicate IsElementName(t: string)
  {
    t in {"金", "木", "水", "火", "土"}
  }

  /** Each of the 30 names, read through the group that lists it, ends with an element character. */
  lemma NayinElementOfGroup(e: Element, k: nat)
    requires k < 6
    ensures |NayinCalc.NayinGroup(e)| == 6
    ensures IsElementName(NayinElement(NayinCalc.NayinGroup(e)[k]))
  {
    match k
    case 0 => case 1 => case 2 => case 3 => case 4 => case 5 =>
  }

  /** Each of the 30 classical names ends with an element character. */
  lemma NayinElementOfName(n: nat)
    requires n < 30
    ensures |NayinCalc.NAYIN_NAMES| == 30 && IsElementName(NayinElement(NayinCalc.NAYIN_NAMES[n]))
  {
    var e := NayinCalc.WUXING_CYCLE[n / 6];
    assert NayinCalc.ElementPosition(e) == n / 6;
    NayinCalc.GroupEntryIsName(e, n % 6);
    NayinElementOfGroup(e, n % 6);
  }

  /** A record imported for one of the 30 classical names carries an element as its `nayin_wuxing`. */
  lemma NayinRecordElement(g: Ganzhi, d: NayinData)
    requires d.nayin in NayinCalc.NAYIN_NAMES
    ensures IsElementName(NayinRecord(g, d).nayinWuxing)
  {
    var n :| 0 <= n < |NayinCalc.NAYIN_NAMES| && NayinCalc.NAYIN_NAMES[n] == d.nayin;
    NayinElementOfName(n);
  }

  /** The stored nayin_wuxing of 海中金 is 海, which is no element, while the name stands for 金. */
  lemma NayinWuxingAsWrittenIsNoElement()
    ensures NayinWuxingAsWritten("海中金") == "海"
    ensures NayinElement("海中金") == Metal.Name()
    ensures !IsElementName(NayinWuxingAsWritten("海中金"))
  {
  }
}
