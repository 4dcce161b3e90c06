/**
 * The two listing queries over the nayin table: every nayin name with its
 * ganzhi grouped under it, and the nayin of one strength category.
 */
module NayinQueries {
  import opened Wrappers
  import opened Seqs
  import opened Models
  import opened Lookups
  import Symbols
  import ImportData

  /** An entry of a category's `ganzhi_list`. */
  datatype GanzhiOfNayin = GanzhiOfNayin(ganzhi: string, tiangan: string, dizhi: string, zhuangtai: string)

  /** One value of the dictionary `get_all_nayin_categories` returns. */
  datatype Category = Category(nayinName: string, nayinWuxing: string, shengdaXiaoruo: string, ganzhiList: seq<GanzhiOfNayin>)

  /**
   * A Python dictionary as the query builds it: the keys in insertion order
   * (the order the dictionary iterates in) and the value of each key.
   */
  datatype Grouping = Grouping(order: seq<string>, groups: map<string, Category>)

  /** The entry nayin row `x` adds when its ganzhi row exists. */
  function EntryOf(ganzhi: seq<Ganzhi>, x: Nayin): Option<GanzhiOfNayin>
  {
    match GanzhiWithId(ganzhi, x.ganzhiId)
    case Some(g) => Some(GanzhiOfNayin(g.ganzhi, g.tiangan, g.dizhi, x.zhuangtai))
    case None => None
  }

  /** One turn of the loop: open a group for an unseen name, then add the row's ganzhi when it exists. */
  function GroupStep(acc: Grouping, ganzhi: seq<Ganzhi>, x: Nayin): Grouping
  {
    var name := x.nayinName;
    var withKey :=
      if name in acc.groups then acc
      else Grouping(acc.order + [name], acc.groups[name := Category(name, x.nayinWuxing, x.shengdaXiaoruo, [])]);
    match EntryOf(ganzhi, x)
    case None => withKey
    case Some(e) =>
      var c := withKey.groups[name];
      Grouping(withKey.order, withKey.groups[name := c.(ganzhiList := c.ganzhiList + [e])])
  }

  /** The loop of `get_all_nayin_categories` over the rows in store order. */
  function Grouped(rows: seq<Nayin>, ganzhi: seq<Ganzhi>): (r: Grouping)
    ensures forall n :: n in r.groups ==> n in r.order
  {
    if rows == [] then Grouping([], map[])
    else GroupStep(Grouped(rows[..|rows| - 1], ganzhi), ganzhi, rows[|rows| - 1])
  }

  /** `get_all_nayin_categories`. */
  method GetAllNayinCategories(db: Database) returns (order: seq<string>, groups: map<string, Category>)
    ensures Grouping(order, groups) == Grouped(db.nayin, db.ganzhi)
  {
    var rows := db.nayin;
    order, groups := [], map[];
    var i := 0;
    while i < |rows|
      invariant 0 <= i <= |rows|
      invariant Grouping(order, groups) == Grouped(rows[..i], db.ganzhi)
    {
      assert rows[..i + 1][..i] == rows[..i];
      var nayin := rows[i];
      if nayin.nayinName !in groups {
        order := order + [nayin.nayinName];
        groups := groups[nayin.nayinName := Category(nayin.nayinName, nayin.nayinWuxing, nayin.shengdaXiaoruo, [])];
      }
      var g := GanzhiWithId(db.ganzhi, nayin.ganzhiId);
      if g.Some? {
        var c := groups[nayin.nayinName];
        groups := groups[nayin.nayinName := c.(ganzhiList := c.ganzhiList + [GanzhiOfNayin(g.value.ganzhi, g.value.tiangan, g.value.dizhi, nayin.zhuangtai)])];
      }
      i := i + 1;
    }
    assert rows[..|rows|] == rows;
  }

  /** The `nayin_name` column in store order. */
  function NameColumn(rows: seq<Nayin>): seq<string>
  {
    if rows == [] then [] else NameColumn(rows[..|rows| - 1]) + [rows[|rows| - 1].nayinName]
  }

  /** The first row with name `n`. */
  function FirstNamed(rows: seq<Nayin>, n: string): Option<Nayin>
  {
    if rows == [] then None
    else
      match FirstNamed(rows[..|rows| - 1], n)
      case Some(x) => Some(x)
      case None => if rows[|rows| - 1].nayinName == n then Some(rows[|rows| - 1]) else None
  }

  /** The entry row `x` adds to the group of `n`: none unless it is named `n` and its ganzhi exists. */
  function ListStep(ganzhi: seq<Ganzhi>, n: string): Nayin -> Option<GanzhiOfNayin>
  {
    (x: Nayin) => if x.nayinName == n then EntryOf(ganzhi, x) else None
  }

  /** The entries of the rows named `n` whose ganzhi exists, in store order. */
  function ListOf(rows: seq<Nayin>, ganzhi: seq<Ganzhi>, n: string): seq<GanzhiOfNayin>
  {
    FilterMap(rows, ListStep(ganzhi, n))
  }

  /**
   * What the dictionary should hold for name `n`, stated without the loop:
   * the type and strength of the first row with that name and the entries of
   * all rows with that name.
   */
  function CategoryRef(rows: seq<Nayin>, ganzhi: seq<Ganzhi>, first: Nayin): Category
  {
    Category(first.nayinName, first.nayinWuxing, first.shengdaXiaoruo, ListOf(rows, ganzhi, first.nayinName))
  }

  /** A name is a key exactly when some row carries it, and its value is the reference category. */
  lemma {:induction false} GroupedAt(rows: seq<Nayin>, ganzhi: seq<Ganzhi>, n: string)
    ensures n in Grouped(rows, ganzhi).groups <==> FirstNamed(rows, n).Some?
    ensures n in Grouped(rows, ganzhi).groups ==>
      FirstNamed(rows, n).value.nayinName == n &&
      Grouped(rows, ganzhi).groups[n] == CategoryRef(rows, ganzhi, FirstNamed(rows, n).value)
  {
    if rows != [] {
      var init := rows[..|rows| - 1];
      var x := rows[|rows| - 1];
      assert rows == init + [x];
      GroupedAt(init, ganzhi, n);
      FilterMapSnoc(init, x, ListStep(ganzhi, n));
      var acc := Grouped(init, ganzhi);
      if x.nayinName == n && n !in acc.groups {
        ListOfUnnamed(init, ganzhi, n);
        assert FirstNamed(rows, n) == Some(x);
      }
    }
  }

  /** No row named `n`, no entries for `n`. */
  lemma {:induction false} ListOfUnnamed(rows: seq<Nayin>, ganzhi: seq<Ganzhi>, n: string)
    requires FirstNamed(rows, n).None?
    ensures ListOf(rows, ganzhi, n) == []
  {
    if rows != [] {
      var init := rows[..|rows| - 1];
      assert rows == init + [rows[|rows| - 1]];
      ListOfUnnamed(init, ganzhi, n);
      FilterMapSnoc(init, rows[|rows| - 1], ListStep(ganzhi, n));
    }
  }

  /** The keys come in order of first occurrence, each once. */
  lemma {:induction false} GroupedOrder(rows: seq<Nayin>, ganzhi: seq<Ganzhi>)
    ensures Grouped(rows, ganzhi).order == Dedup(NameColumn(rows))
    ensures forall n :: n in Grouped(rows, ganzhi).order ==> n in Grouped(rows, ganzhi).groups
  {
    if rows != [] {
      var init := rows[..|rows| - 1];
      var x := rows[|rows| - 1];
      GroupedOrder(init, ganzhi);
      DedupSnoc(NameColumn(init), x.nayinName);
      assert x.nayinName in Grouped(init, ganzhi).groups <==> x.nayinName in Grouped(init, ganzhi).order;
    }
  }

  /** A name occurs in the column exactly when some row has it as its first. */
  lemma {:induction false} FirstNamedExists(rows: seq<Nayin>, n: string)
    ensures FirstNamed(rows, n).Some? <==> n in NameColumn(rows)
    ensures FirstNamed(rows, n).Some? ==> FirstNamed(rows, n).value in rows
  {
    if rows != [] {
      var init := rows[..|rows| - 1];
      FirstNamedExists(init, n);
      assert rows == init + [rows[|rows| - 1]];
    }
  }

  /** An entry is grouped under `n` exactly when a row named `n` has an existing ganzhi that yields it. */
  lemma ListOfMembership(rows: seq<Nayin>, ganzhi: seq<Ganzhi>, n: string, e: GanzhiOfNayin)
    ensures e in ListOf(rows, ganzhi, n) <==> exists k :: 0 <= k < |rows| && rows[k].nayinName == n && EntryOf(ganzhi, rows[k]) == Some(e)
  {
    FilterMapMembership(rows, ListStep(ganzhi, n), e);
  }

  /** The values `shengda_xiaoruo` takes that the category "shengda" selects. */
  predicate IsStrong(x: Nayin)
  {
    x.shengdaXiaoruo == "长生" || x.shengdaXiaoruo == "帝旺"
  }

  /** An entry of `get_nayin_by_category`. */
  datatype NayinOfGanzhi = NayinOfGanzhi(
    ganzhi: string,
    tiangan: string,
    dizhi: string,
    nayinName: string,
    nayinWuxing: string,
    zhuangtai: string,
    shengdaXiaoruo: string)

  /** The entry nayin row `x` gives when its ganzhi row exists. */
  function StrongEntry(ganzhi: seq<Ganzhi>, x: Nayin): Option<NayinOfGanzhi>
  {
    match GanzhiWithId(ganzhi, x.ganzhiId)
    case Some(g) => Some(NayinOfGanzhi(g.ganzhi, g.tiangan, g.dizhi, x.nayinName, x.nayinWuxing, x.zhuangtai, x.shengdaXiaoruo))
    case None => None
  }

  /** The entry row `x` gives: none unless it is strong and its ganzhi exists. */
  function StrongStep(ganzhi: seq<Ganzhi>): Nayin -> Option<NayinOfGanzhi>
  {
    (x: Nayin) => if IsStrong(x) then StrongEntry(ganzhi, x) else None
  }

  /** The entries of the strong rows whose ganzhi exists, in store order. */
  function Strong(rows: seq<Nayin>, ganzhi: seq<Ganzhi>): seq<NayinOfGanzhi>
  {
    FilterMap(rows, StrongStep(ganzhi))
  }

  /** `get_nayin_by_category` as a value: "shengda" lists the strong rows; "xiaoruo" and every other word list nothing. */
  function ByCategory(db: Database, category: string): seq<NayinOfGanzhi>
  {
    if category == "shengda" then Strong(db.nayin, db.ganzhi) else []
  }

  /** `get_nayin_by_category`; the store's strength filter and the loop are one pass here. */
  method GetNayinByCategory(db: Database, category: string) returns (results: seq<NayinOfGanzhi>)
    ensures results == ByCategory(db, category)
  {
    if category != "shengda" {
      // "xiaoruo" and every other word give [].
      return [];
    }
    var rows := db.nayin;
    results := [];
    var i := 0;
    while i < |rows|
      invariant 0 <= i <= |rows|
      invariant results == Strong(rows[..i], db.ganzhi)
    {
      FilterMapPrefix(rows, i, StrongStep(db.ganzhi));
      var nayin := rows[i];
      if IsStrong(nayin) {
        var g := GanzhiWithId(db.ganzhi, nayin.ganzhiId);
        if g.Some? {
          results := results + [NayinOfGanzhi(g.value.ganzhi, g.value.tiangan, g.value.dizhi, nayin.nayinName, nayin.nayinWuxing, nayin.zhuangtai, nayin.shengdaXiaoruo)];
        }
      }
      i := i + 1;
    }
    assert rows[..|rows|] == rows;
  }

  /** An entry is listed exactly when a strong row with an existing ganzhi yields it; so every entry is 长生 or 帝旺. */
  lemma StrongMembership(rows: seq<Nayin>, ganzhi: seq<Ganzhi>, e: NayinOfGanzhi)
    ensures e in Strong(rows, ganzhi) <==> exists k :: 0 <= k < |rows| && IsStrong(rows[k]) && StrongEntry(ganzhi, rows[k]) == Some(e)
    ensures e in Strong(rows, ganzhi) ==> e.shengdaXiaoruo == "长生" || e.shengdaXiaoruo == "帝旺"
  {
    FilterMapMembership(rows, StrongStep(ganzhi), e);
  }

  /** Every record the importer writes for a ganzhi with a real stem is strong, so "shengda" selects all of them. */
  lemma ImportedRecordIsStrong(g: Ganzhi, d: ImportData.NayinData)
    requires |g.tiangan| == 1 && g.tiangan[0] in Symbols.TIAN_GAN
    ensures IsStrong(ImportData.NayinRecord(g, d))
  {
    ImportData.ShengdaValues(g.tiangan);
  }
}
