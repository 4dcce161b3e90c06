/**
 * The queries centred on one ganzhi row: the substring search over the
 * three name columns, the record with everything attached to it, and the
 * side-by-side comparison of several names.
 */
module GanzhiQueries {
  import opened Wrappers
  import opened Seqs
  import opened Models
  import opened Lookups
  import GuanxiQueries
  import ShenshaQueries

  /** The page size `search_ganzhi` uses when the caller gives none. */
  const SEARCH_LIMIT: nat := 20

  /** The column test `contains(q)`: `q` occurs somewhere in `s`; the empty string occurs everywhere. */
  predicate Contains(s: string, q: string)
  {
    exists i :: 0 <= i <= |s| && q <= s[i..]
  }

  /** The search filter: the query occurs in the name, the stem or the branch. */
  predicate MatchesQuery(g: Ganzhi, q: string)
  {
    Contains(g.ganzhi, q) || Contains(g.tiangan, q) || Contains(g.dizhi, q)
  }

  /** The rows the search filter keeps, in store order. */
  function Matching(rows: seq<Ganzhi>, q: string): seq<Ganzhi>
  {
    if rows == [] then []
    else
      var last := rows[|rows| - 1];
      Matching(rows[..|rows| - 1], q) + (if MatchesQuery(last, q) then [last] else [])
  }

  /** `search_ganzhi`: the number of matching rows, and one page of them. */
  function SearchGanzhi(rows: seq<Ganzhi>, q: string, skip: nat := 0, limit: nat := SEARCH_LIMIT): (r: (nat, seq<Ganzhi>))
    ensures r.0 == |Matching(rows, q)|
    ensures |r.1| == if skip >= r.0 then 0 else Min(limit, r.0 - skip)
    ensures forall k :: 0 <= k < |r.1| ==> skip + k < r.0 && r.1[k] == Matching(rows, q)[skip + k]
  {
    var m := Matching(rows, q);
    (|m|, Page(m, skip, limit))
  }

  /** A row is counted exactly when it is in the table and the query occurs in one of its three columns. */
  lemma {:induction false} MatchingMembership(rows: seq<Ganzhi>, q: string, g: Ganzhi)
    ensures g in Matching(rows, q) <==> g in rows && MatchesQuery(g, q)
  {
    if rows != [] {
      var init := rows[..|rows| - 1];
      assert rows == init + [rows[|rows| - 1]];
      MatchingMembership(init, q, g);
    }
  }

  /** The empty query matches every row, so its total is the size of the table. */
  lemma {:induction false} EmptyQueryMatchesAll(rows: seq<Ganzhi>)
    ensures Matching(rows, "") == rows
    ensures SearchGanzhi(rows, "", 0, |rows|) == (|rows|, rows)
  {
    if rows != [] {
      var init := rows[..|rows| - 1];
      var last := rows[|rows| - 1];
      EmptyQueryMatchesAll(init);
      assert "" <= last.ganzhi[0..];
      assert rows == init + [last];
    }
    assert rows[0..|rows|] == rows;
  }

  /** Searching for a row's own name finds at least that row. */
  lemma OwnNameIsFound(rows: seq<Ganzhi>, g: Ganzhi)
    requires g in rows
    ensures SearchGanzhi(rows, g.ganzhi).0 >= 1
  {
    assert g.ganzhi <= g.ganzhi[0..];
    MatchingMembership(rows, g.ganzhi, g);
  }

  /** Everything `get_ganzhi_with_details` returns for a known name. */
  datatype GanzhiDetails = GanzhiDetails(
    ganzhi: Ganzhi,
    nayin: Option<Nayin>,
    xiangyi: seq<Xiangyi>,
    shensha: seq<Shensha>,
    xiji: seq<Xiji>,
    guanxi: seq<Guanxi>)

  /** The `shensha_id` of every link of ganzhi `gid`, in link order. */
  function LinkedShenshaIds(links: seq<GanzhiShensha>, gid: int): seq<int>
  {
    if links == [] then []
    else
      var last := links[|links| - 1];
      LinkedShenshaIds(links[..|links| - 1], gid) + (if last.ganzhiId == gid then [last.shenshaId] else [])
  }

  /** An id is collected exactly when some link of `gid` carries it. */
  lemma {:induction false} LinkedShenshaIdsMembership(links: seq<GanzhiShensha>, gid: int, id: int)
    ensures id in LinkedShenshaIds(links, gid) <==> exists k :: 0 <= k < |links| && links[k].ganzhiId == gid && links[k].shenshaId == id
  {
    if links != [] {
      var n := |links| - 1;
      var init := links[..n];
      var tail := if links[n].ganzhiId == gid then [links[n].shenshaId] else [];
      assert LinkedShenshaIds(links, gid) == LinkedShenshaIds(init, gid) + tail;
      LinkedShenshaIdsMembership(init, gid, id);
      if id in LinkedShenshaIds(init, gid) {
        var k :| 0 <= k < |init| && init[k].ganzhiId == gid && init[k].shenshaId == id;
        assert links[k] == init[k];
      } else if id in tail {
        assert links[n].ganzhiId == gid && links[n].shenshaId == id;
      }
      if exists k :: 0 <= k < |links| && links[k].ganzhiId == gid && links[k].shenshaId == id {
        var k :| 0 <= k < |links| && links[k].ganzhiId == gid && links[k].shenshaId == id;
        if k < n {
          assert init[k] == links[k];
        } else {
          assert id in tail;
        }
      }
    }
  }

  /** The relations with `name` on either side, in store order. */
  function RelationsOf(rows: seq<Guanxi>, name: string): seq<Guanxi>
  {
    if rows == [] then []
    else
      var last := rows[|rows| - 1];
      RelationsOf(rows[..|rows| - 1], name) + (if GuanxiQueries.Involves(last, name) then [last] else [])
  }

  /** What is attached to row `g`: its first nayin, its imagery, its shensha, its xiji and its relations. */
  function DetailsOf(db: Database, g: Ganzhi): (d: GanzhiDetails)
    ensures d.ganzhi == g
    ensures d.nayin.Some? ==> d.nayin.value in db.nayin && d.nayin.value.ganzhiId == g.id
    ensures d.nayin.None? <==> forall k :: 0 <= k < |db.nayin| ==> db.nayin[k].ganzhiId != g.id
    ensures forall x :: x in d.xiangyi <==> x in db.xiangyi && x.ganzhiId == g.id
    ensures forall x :: x in d.xiji <==> x in db.xiji && x.ganzhiId == g.id
  {
    var ids := LinkedShenshaIds(db.links, g.id);
    GanzhiDetails(
      g,
      First(db.nayin, (n: Nayin) => n.ganzhiId == g.id),
      Filter(db.xiangyi, (x: Xiangyi) => x.ganzhiId == g.id),
      if ids == [] then [] else Filter(db.shensha, (s: Shensha) => s.id in ids),
      Filter(db.xiji, (x: Xiji) => x.ganzhiId == g.id),
      RelationsOf(db.guanxi, g.ganzhi))
  }

  /** `get_ganzhi_with_details`: None for a name no row carries, else the first such row with all it has. */
  function GetGanzhiWithDetails(db: Database, name: string): (r: Option<GanzhiDetails>)
    ensures r.None? <==> forall k :: 0 <= k < |db.ganzhi| ==> db.ganzhi[k].ganzhi != name
    ensures r.Some? ==> r.value.ganzhi in db.ganzhi && r.value.ganzhi.ganzhi == name
    ensures r.Some? ==> GanzhiNamed(db.ganzhi, name) == Some(r.value.ganzhi) && r.value == DetailsOf(db, r.value.ganzhi)
  {
    match GanzhiNamed(db.ganzhi, name)
    case None => None
    case Some(g) => Some(DetailsOf(db, g))
  }

  /** Under the unique `ganzhi_id` of the nayin table, the nayin attached is the one row of the ganzhi. */
  lemma DetailsNayinIsTheRow(db: Database, g: Ganzhi, n: Nayin)
    requires UniqueNayinGanzhiIds(db.nayin) && n in db.nayin && n.ganzhiId == g.id
    ensures DetailsOf(db, g).nayin == Some(n)
  {
    var i :| 0 <= i < |db.nayin| && db.nayin[i] == n;
    FirstAt(db.nayin, (x: Nayin) => x.ganzhiId == g.id, i);
  }

  /** A shensha is attached exactly when it is in the table and some link of the row names its id. */
  lemma DetailsShenshaMembership(db: Database, g: Ganzhi, s: Shensha)
    ensures s in DetailsOf(db, g).shensha <==>
      s in db.shensha && exists k :: 0 <= k < |db.links| && db.links[k].ganzhiId == g.id && db.links[k].shenshaId == s.id
  {
    LinkedShenshaIdsMembership(db.links, g.id, s.id);
  }

  /**
   * With the schema's keys, the shensha attached to a ganzhi are the ones
   * `get_shensha_by_ganzhi` lists for it (that query repeats a shensha once
   * per link, this one lists each once).
   */
  lemma DetailsShenshaAgreeWithLinks(db: Database, name: string, s: Shensha)
    requires UniqueShensha(db.shensha)
    requires GetGanzhiWithDetails(db, name).Some?
    ensures s in GetGanzhiWithDetails(db, name).value.shensha <==>
      exists x :: x in ShenshaQueries.ShenshaByGanzhi(db, name) && x.shensha == s
  {
    var g := GanzhiNamed(db.ganzhi, name).value;
    DetailsShenshaMembership(db, g, s);
    if s in GetGanzhiWithDetails(db, name).value.shensha {
      AttachedShenshaIsListed(db, g, s);
    }
    if exists x :: x in ShenshaQueries.ShenshaByGanzhi(db, name) && x.shensha == s {
      var x :| x in ShenshaQueries.ShenshaByGanzhi(db, name) && x.shensha == s;
      var k := ShenshaQueries.LinkGivingShensha(db.links, db.shensha, g.id, x);
      assert db.links[k].ganzhiId == g.id && db.links[k].shenshaId == s.id;
    }
  }

  /** One direction of the agreement: an attached shensha comes with an entry of the link listing. */
  lemma AttachedShenshaIsListed(db: Database, g: Ganzhi, s: Shensha)
    requires UniqueShensha(db.shensha)
    requires s in db.shensha && exists k :: 0 <= k < |db.links| && db.links[k].ganzhiId == g.id && db.links[k].shenshaId == s.id
    ensures exists x :: x in ShenshaQueries.ShenshaOfLinks(db.links, db.shensha, g.id) && x.shensha == s
  {
    var k :| 0 <= k < |db.links| && db.links[k].ganzhiId == g.id && db.links[k].shenshaId == s.id;
    var x := ShenshaQueries.LinkedShensha(s, db.links[k].isZixing);
    ShenshaWithIdUnique(db.shensha, s);
    assert ShenshaQueries.GivesShensha(db.shensha, g.id, db.links[k], x);
    ShenshaQueries.ShenshaOfLinksMembership(db.links, db.shensha, g.id, x);
  }

  /** The relations in the details are the relations of `get_guanxi_by_ganzhi`, one for one and in the same order. */
  lemma {:induction false} RelationsFollowByGanzhi(rows: seq<Guanxi>, name: string)
    ensures |RelationsOf(rows, name)| == |GuanxiQueries.Involving(rows, name)|
    ensures forall k :: 0 <= k < |RelationsOf(rows, name)| ==>
      RelationsOf(rows, name)[k] == GuanxiQueries.Involving(rows, name)[k].relation
  {
    if rows != [] {
      RelationsFollowByGanzhi(rows[..|rows| - 1], name);
    }
  }

  /** A relation is attached exactly when it is in the table with the name on one of its sides. */
  lemma {:induction false} RelationsOfMembership(rows: seq<Guanxi>, name: string, r: Guanxi)
    ensures r in RelationsOf(rows, name) <==> r in rows && GuanxiQueries.Involves(r, name)
  {
    if rows != [] {
      var init := rows[..|rows| - 1];
      assert rows == init + [rows[|rows| - 1]];
      RelationsOfMembership(init, name, r);
    }
  }

  /** `get_ganzhi_with_details` as the per-name step of `compare_ganzhi`. */
  function DetailsFor(db: Database): string -> Option<GanzhiDetails>
  {
    (name: string) => GetGanzhiWithDetails(db, name)
  }

  /** `compare_ganzhi`: the details of each known name in the order given; unknown names are dropped. */
  method CompareGanzhi(db: Database, names: seq<string>) returns (results: seq<GanzhiDetails>)
    ensures results == FilterMap(names, DetailsFor(db))
  {
    results := [];
    var i := 0;
    while i < |names|
      invariant 0 <= i <= |names|
      invariant results == FilterMap(names[..i], DetailsFor(db))
    {
      FilterMapPrefix(names, i, DetailsFor(db));
      var data := GetGanzhiWithDetails(db, names[i]);
      assert DetailsFor(db)(names[i]) == data;
      if data.Some? {
        results := results + [data.value];
      }
      i := i + 1;
    }
    assert names[..|names|] == names;
  }

  /** Comparing known names gives one record per name, in order, repeated names repeated. */
  lemma CompareKnownNames(db: Database, names: seq<string>)
    requires forall k :: 0 <= k < |names| ==> exists j :: 0 <= j < |db.ganzhi| && db.ganzhi[j].ganzhi == names[k]
    ensures |FilterMap(names, DetailsFor(db))| == |names|
    ensures forall k :: 0 <= k < |names| ==> FilterMap(names, DetailsFor(db))[k].ganzhi.ganzhi == names[k]
  {
    FilterMapTotal(names, DetailsFor(db));
  }

  /** A record is in the comparison exactly when it is the details of one of the names. */
  lemma CompareMembership(db: Database, names: seq<string>, d: GanzhiDetails)
    ensures d in FilterMap(names, DetailsFor(db)) <==> exists k :: 0 <= k < |names| && GetGanzhiWithDetails(db, names[k]) == Some(d)
  {
    FilterMapMembership(names, DetailsFor(db), d);
  }
}
