/**
 * The queries that follow the ganzhi–shensha links: the shensha of one
 * ganzhi, the ganzhi of one shensha, the distinct shensha reached through
 * is_zixing links, and the distinct shensha types.
 */
module ShenshaQueries {
  import opened Wrappers
  import opened Seqs
  import opened Models
  import opened Lookups

  /** An entry of `get_shensha_by_ganzhi`: the shensha's columns and the link's `is_zixing`. */
  datatype LinkedShensha = LinkedShensha(shensha: Shensha, isZixing: bool)

  /** What one link of ganzhi `gid` contributes: its shensha, when a row with that id exists. */
  function ShenshaEntry(shensha: seq<Shensha>, gid: int, l: GanzhiShensha): seq<LinkedShensha>
  {
    if l.ganzhiId != gid then []
    else match ShenshaWithId(shensha, l.shenshaId)
      case Some(s) => [LinkedShensha(s, l.isZixing)]
      case None => []
  }

  /** The entries of the links of ganzhi `gid`, in link order. */
  function ShenshaOfLinks(links: seq<GanzhiShensha>, shensha: seq<Shensha>, gid: int): seq<LinkedShensha>
  {
    FlatMap(links, ShenshaEntries(shensha, gid))
  }

  /** `ShenshaEntry` as the per-link step of the loop. */
  function ShenshaEntries(shensha: seq<Shensha>, gid: int): GanzhiShensha -> seq<LinkedShensha>
  {
    (l: GanzhiShensha) => ShenshaEntry(shensha, gid, l)
  }

  /** `get_shensha_by_ganzhi` as a value: nothing for an unknown name, else the entries of its links. */
  function ShenshaByGanzhi(db: Database, name: string): seq<LinkedShensha>
  {
    match GanzhiNamed(db.ganzhi, name)
    case None => []
    case Some(g) => ShenshaOfLinks(db.links, db.shensha, g.id)
  }

  /** `get_shensha_by_ganzhi`; the store's link filter and the loop over the links are one pass here. */
  method GetShenshaByGanzhi(db: Database, name: string) returns (results: seq<LinkedShensha>)
    ensures results == ShenshaByGanzhi(db, name)
  {
    var ganzhi := GanzhiNamed(db.ganzhi, name);
    if ganzhi.None? {
      return [];
    }
    var gid := ganzhi.value.id;
    var links := db.links;
    results := [];
    var i := 0;
    while i < |links|
      invariant 0 <= i <= |links|
      invariant results == ShenshaOfLinks(links[..i], db.shensha, gid)
    {
      var link := links[i];
      var entry: seq<LinkedShensha> := [];
      if link.ganzhiId == gid {
        var shensha := ShenshaWithId(db.shensha, link.shenshaId);
        if shensha.Some? {
          entry := [LinkedShensha(shensha.value, link.isZixing)];
        }
      }
      ShenshaOfLinksStep(links, i, db.shensha, gid);
      results := results + entry;
      i := i + 1;
    }
    assert links[..|links|] == links;
  }

  /** The loop over the first `i + 1` links is the loop over the first `i` and one more entry. */
  lemma ShenshaOfLinksStep(links: seq<GanzhiShensha>, i: nat, shensha: seq<Shensha>, gid: int)
    requires i < |links|
    ensures ShenshaOfLinks(links[..i + 1], shensha, gid) == ShenshaOfLinks(links[..i], shensha, gid) + ShenshaEntry(shensha, gid, links[i])
  {
    FlatMapPrefix(links, i, ShenshaEntries(shensha, gid));
  }

  /** Link `l` of ganzhi `gid` names an existing shensha and gives entry `x`. */
  predicate GivesShensha(shensha: seq<Shensha>, gid: int, l: GanzhiShensha, x: LinkedShensha)
  {
    l.ganzhiId == gid && ShenshaWithId(shensha, l.shenshaId) == Some(x.shensha) && l.isZixing == x.isZixing
  }

  /** An entry is listed exactly when some link of `gid` names an existing shensha with that flag. */
  lemma ShenshaOfLinksMembership(links: seq<GanzhiShensha>, shensha: seq<Shensha>, gid: int, x: LinkedShensha)
    ensures x in ShenshaOfLinks(links, shensha, gid) <==> exists k :: 0 <= k < |links| && GivesShensha(shensha, gid, links[k], x)
  {
    FlatMapMembership(links, ShenshaEntries(shensha, gid), x);
    forall k | 0 <= k < |links| ensures x in ShenshaEntry(shensha, gid, links[k]) <==> GivesShensha(shensha, gid, links[k], x) {
      ShenshaEntryGives(shensha, gid, links[k], x);
    }
  }

  lemma ShenshaEntryGives(shensha: seq<Shensha>, gid: int, l: GanzhiShensha, x: LinkedShensha)
    ensures x in ShenshaEntry(shensha, gid, l) <==> GivesShensha(shensha, gid, l, x)
  {
  }

  /** A name no ganzhi row carries has no shensha. */
  lemma UnknownGanzhiHasNoShensha(db: Database, name: string)
    requires forall k :: 0 <= k < |db.ganzhi| ==> db.ganzhi[k].ganzhi != name
    ensures ShenshaByGanzhi(db, name) == []
  {
    assert GanzhiNamed(db.ganzhi, name).None?;
  }

  /** An entry of `get_ganzhi_by_shensha`: three ganzhi columns and the link's `is_zixing`. */
  datatype LinkedGanzhi = LinkedGanzhi(ganzhi: string, tiangan: string, dizhi: string, isZixing: bool)

  function GanzhiView(g: Ganzhi, isZixing: bool): LinkedGanzhi
  {
    LinkedGanzhi(g.ganzhi, g.tiangan, g.dizhi, isZixing)
  }

  /** What one link of shensha `sid` contributes: its ganzhi, when a row with that id exists. */
  function GanzhiEntry(ganzhi: seq<Ganzhi>, sid: int, l: GanzhiShensha): seq<LinkedGanzhi>
  {
    if l.shenshaId != sid then []
    else match GanzhiWithId(ganzhi, l.ganzhiId)
      case Some(g) => [GanzhiView(g, l.isZixing)]
      case None => []
  }

  /** The entries of the links of shensha `sid`, in link order. */
  function GanzhiOfLinks(links: seq<GanzhiShensha>, ganzhi: seq<Ganzhi>, sid: int): seq<LinkedGanzhi>
  {
    FlatMap(links, GanzhiEntries(ganzhi, sid))
  }

  /** `GanzhiEntry` as the per-link step of the loop. */
  function GanzhiEntries(ganzhi: seq<Ganzhi>, sid: int): GanzhiShensha -> seq<LinkedGanzhi>
  {
    (l: GanzhiShensha) => GanzhiEntry(ganzhi, sid, l)
  }

  /** `get_ganzhi_by_shensha` as a value: nothing for an unknown name, else the entries of its links. */
  function GanzhiByShensha(db: Database, name: string): seq<LinkedGanzhi>
  {
    match ShenshaNamed(db.shensha, name)
    case None => []
    case Some(s) => GanzhiOfLinks(db.links, db.ganzhi, s.id)
  }

  /** A name no shensha row carries has no ganzhi. */
  lemma UnknownShenshaHasNoGanzhi(db: Database, name: string)
    requires forall k :: 0 <= k < |db.shensha| ==> db.shensha[k].name != name
    ensures GanzhiByShensha(db, name) == []
  {
    assert ShenshaNamed(db.shensha, name).None?;
  }

  /** `get_ganzhi_by_shensha`. */
  method GetGanzhiByShensha(db: Database, name: string) returns (results: seq<LinkedGanzhi>)
    ensures results == GanzhiByShensha(db, name)
  {
    var shensha := ShenshaNamed(db.shensha, name);
    if shensha.None? {
      return [];
    }
    var sid := shensha.value.id;
    var links := db.links;
    results := [];
    var i := 0;
    while i < |links|
      invariant 0 <= i <= |links|
      invariant results == GanzhiOfLinks(links[..i], db.ganzhi, sid)
    {
      var link := links[i];
      var entry: seq<LinkedGanzhi> := [];
      if link.shenshaId == sid {
        var ganzhi := GanzhiWithId(db.ganzhi, link.ganzhiId);
        if ganzhi.Some? {
          entry := [GanzhiView(ganzhi.value, link.isZixing)];
        }
      }
      GanzhiOfLinksStep(links, i, db.ganzhi, sid);
      results := results + entry;
      i := i + 1;
    }
    assert links[..|links|] == links;
  }

  /** The loop over the first `i + 1` links is the loop over the first `i` and one more entry. */
  lemma GanzhiOfLinksStep(links: seq<GanzhiShensha>, i: nat, ganzhi: seq<Ganzhi>, sid: int)
    requires i < |links|
    ensures GanzhiOfLinks(links[..i + 1], ganzhi, sid) == GanzhiOfLinks(links[..i], ganzhi, sid) + GanzhiEntry(ganzhi, sid, links[i])
  {
    FlatMapPrefix(links, i, GanzhiEntries(ganzhi, sid));
  }

  /** Link `l` of shensha `sid` names an existing ganzhi and gives entry `x`. */
  predicate GivesGanzhi(ganzhi: seq<Ganzhi>, sid: int, l: GanzhiShensha, x: LinkedGanzhi)
  {
    l.shenshaId == sid && GanzhiWithId(ganzhi, l.ganzhiId).Some? && GanzhiView(GanzhiWithId(ganzhi, l.ganzhiId).value, l.isZixing) == x
  }

  /** An entry is listed exactly when some link of `sid` names an existing ganzhi seen through that entry. */
  lemma GanzhiOfLinksMembership(links: seq<GanzhiShensha>, ganzhi: seq<Ganzhi>, sid: int, x: LinkedGanzhi)
    ensures x in GanzhiOfLinks(links, ganzhi, sid) <==> exists k :: 0 <= k < |links| && GivesGanzhi(ganzhi, sid, links[k], x)
  {
    FlatMapMembership(links, GanzhiEntries(ganzhi, sid), x);
    forall k | 0 <= k < |links| ensures x in GanzhiEntry(ganzhi, sid, links[k]) <==> GivesGanzhi(ganzhi, sid, links[k], x) {
      GanzhiEntryGives(ganzhi, sid, links[k], x);
    }
  }

  lemma GanzhiEntryGives(ganzhi: seq<Ganzhi>, sid: int, l: GanzhiShensha, x: LinkedGanzhi)
    ensures x in GanzhiEntry(ganzhi, sid, l) <==> GivesGanzhi(ganzhi, sid, l, x)
  {
  }

  /**
   * With the keys the schema declares, a link seen from its ganzhi is seen
   * from its shensha too: the ganzhi is listed under the shensha's name with
   * the same `is_zixing`.
   */
  lemma LinkSeenFromBothSides(db: Database, name: string, x: LinkedShensha)
    requires UniqueGanzhiIds(db.ganzhi) && UniqueShensha(db.shensha)
    requires x in ShenshaByGanzhi(db, name)
    ensures GanzhiNamed(db.ganzhi, name).Some?
    ensures GanzhiView(GanzhiNamed(db.ganzhi, name).value, x.isZixing) in GanzhiByShensha(db, x.shensha.name)
  {
    var g := GanzhiNamed(db.ganzhi, name).value;
    var k := LinkGivingShensha(db.links, db.shensha, g.id, x);
    var s := x.shensha;
    assert db.links[k].shenshaId == s.id && s in db.shensha;
    ShenshaNamedUnique(db.shensha, s);
    GanzhiWithIdUnique(db.ganzhi, g);
    LinkGivesGanzhi(db.links, db.ganzhi, s.id, k, GanzhiView(g, x.isZixing));
  }

  /** A listed shensha entry comes from some link. */
  lemma LinkGivingShensha(links: seq<GanzhiShensha>, shensha: seq<Shensha>, gid: int, x: LinkedShensha) returns (k: nat)
    requires x in ShenshaOfLinks(links, shensha, gid)
    ensures k < |links| && GivesShensha(shensha, gid, links[k], x)
  {
    ShenshaOfLinksMembership(links, shensha, gid, x);
    k :| 0 <= k < |links| && GivesShensha(shensha, gid, links[k], x);
  }

  /** The ganzhi a link gives is listed. */
  lemma LinkGivesGanzhi(links: seq<GanzhiShensha>, ganzhi: seq<Ganzhi>, sid: int, k: nat, x: LinkedGanzhi)
    requires k < |links| && GivesGanzhi(ganzhi, sid, links[k], x)
    ensures x in GanzhiOfLinks(links, ganzhi, sid)
  {
    GanzhiOfLinksMembership(links, ganzhi, sid, x);
  }

  /** The ids of a list of shensha: the `seen_shensha` set of `get_zixing_shensha`. */
  function Ids(r: seq<Shensha>): set<int>
  {
    set s | s in r :: s.id
  }

  /**
   * `get_zixing_shensha` as a value: over the is_zixing links in order, the
   * shensha of each link whose id is not yet seen and whose row exists.
   */
  function ZixingShensha(links: seq<GanzhiShensha>, shensha: seq<Shensha>): seq<Shensha>
  {
    if links == [] then []
    else
      ZixingStep(ZixingShensha(links[..|links| - 1], shensha), shensha, links[|links| - 1])
  }

  /** One turn of the loop: list the link's shensha when the link is is_zixing, its id unseen and its row found. */
  function ZixingStep(r: seq<Shensha>, shensha: seq<Shensha>, l: GanzhiShensha): seq<Shensha>
  {
    if !l.isZixing || l.shenshaId in Ids(r) then r
    else match ShenshaWithId(shensha, l.shenshaId)
      case Some(s) => r + [s]
      case None => r
  }

  /**
   * `get_zixing_shensha`. The store's is_zixing filter and the loop are one
   * pass here; an id joins `seen` only when its shensha was found, so `seen`
   * stays the set of ids listed so far.
   */
  method GetZixingShensha(links: seq<GanzhiShensha>, shensha: seq<Shensha>) returns (results: seq<Shensha>)
    ensures results == ZixingShensha(links, shensha)
  {
    results := [];
    var seen: set<int> := {};
    var i := 0;
    while i < |links|
      invariant 0 <= i <= |links|
      invariant results == ZixingShensha(links[..i], shensha)
      invariant seen == Ids(results)
    {
      assert links[..i + 1][..i] == links[..i];
      var link := links[i];
      if !link.isZixing || link.shenshaId in seen {
        i := i + 1;
        continue;
      }
      var found := ShenshaWithId(shensha, link.shenshaId);
      if found.Some? {
        seen := seen + {link.shenshaId};
        results := results + [found.value];
        assert Ids(results) == Ids(results[..|results| - 1]) + {found.value.id};
      }
      i := i + 1;
    }
    assert links[..|links|] == links;
  }

  /** The lookup of one link's shensha when the link is is_zixing. */
  function ZixingLookup(shensha: seq<Shensha>): GanzhiShensha -> Option<Shensha>
  {
    (l: GanzhiShensha) => if l.isZixing then ShenshaWithId(shensha, l.shenshaId) else None
  }

  /** Every listed shensha is what looking up its own id finds. */
  lemma {:induction false} ZixingAreLookups(links: seq<GanzhiShensha>, shensha: seq<Shensha>)
    ensures forall s :: s in ZixingShensha(links, shensha) ==> ShenshaWithId(shensha, s.id) == Some(s)
  {
    if links != [] {
      ZixingAreLookups(links[..|links| - 1], shensha);
    }
  }

  /**
   * The seen-set loop is the distinct shensha of the is_zixing links in order
   * of first occurrence: skipping a seen id is skipping a shensha already listed.
   */
  lemma {:induction false} ZixingIsDistinctLookups(links: seq<GanzhiShensha>, shensha: seq<Shensha>)
    ensures ZixingShensha(links, shensha) == Dedup(FilterMap(links, ZixingLookup(shensha)))
  {
    if links != [] {
      var init := links[..|links| - 1];
      var l := links[|links| - 1];
      assert links == init + [l];
      ZixingIsDistinctLookups(init, shensha);
      ZixingAreLookups(init, shensha);
      FilterMapSnoc(init, l, ZixingLookup(shensha));
      DedupStep(ZixingShensha(init, shensha), FilterMap(init, ZixingLookup(shensha)), shensha, l);
    }
  }

  /** The loop's step and the step of "distinct lookups" agree on a list of looked-up shensha. */
  lemma DedupStep(r: seq<Shensha>, c: seq<Shensha>, shensha: seq<Shensha>, l: GanzhiShensha)
    requires r == Dedup(c)
    requires forall s :: s in r ==> ShenshaWithId(shensha, s.id) == Some(s)
    ensures ZixingStep(r, shensha, l) == Dedup(c + (match ZixingLookup(shensha)(l) case Some(y) => [y] case None => []))
  {
    var found := ZixingLookup(shensha)(l);
    if found.None? {
      assert c + [] == c;
    } else {
      var s := found.value;
      DedupSnoc(c, s);
      assert s.id == l.shenshaId;
      if l.shenshaId in Ids(r) {
        var t :| t in r && t.id == l.shenshaId;
        assert ShenshaWithId(shensha, t.id) == Some(t);
        assert s in r;
      }
    }
  }

  /** No shensha id is listed twice. */
  lemma ZixingDistinctIds(links: seq<GanzhiShensha>, shensha: seq<Shensha>)
    ensures forall i, j :: 0 <= i < j < |ZixingShensha(links, shensha)| ==>
      ZixingShensha(links, shensha)[i].id != ZixingShensha(links, shensha)[j].id
  {
    var r := ZixingShensha(links, shensha);
    ZixingIsDistinctLookups(links, shensha);
    ZixingAreLookups(links, shensha);
    forall i, j | 0 <= i < j < |r| ensures r[i].id != r[j].id {
      assert r[i] in r && r[j] in r;
      assert r[i] != r[j];
    }
  }

  /** A shensha is listed exactly when some is_zixing link leads to it. */
  lemma ZixingMembership(links: seq<GanzhiShensha>, shensha: seq<Shensha>, s: Shensha)
    ensures s in ZixingShensha(links, shensha) <==>
      exists k :: 0 <= k < |links| && links[k].isZixing && ShenshaWithId(shensha, links[k].shenshaId) == Some(s)
  {
    ZixingIsDistinctLookups(links, shensha);
    FilterMapMembership(links, ZixingLookup(shensha), s);
  }

  /** A shensha some ganzhi carries as its own (is_zixing) is among the zixing shensha. */
  lemma ZixingEntryIsListed(db: Database, name: string, x: LinkedShensha)
    requires x in ShenshaByGanzhi(db, name) && x.isZixing
    ensures x.shensha in ZixingShensha(db.links, db.shensha)
  {
    var g := GanzhiNamed(db.ganzhi, name).value;
    ShenshaOfLinksMembership(db.links, db.shensha, g.id, x);
    ZixingMembership(db.links, db.shensha, x.shensha);
  }

  /** The `type` column of the shensha table in store order. */
  function TypeColumn(rows: seq<Shensha>): (c: seq<Option<string>>)
    ensures |c| == |rows| && forall k :: 0 <= k < |rows| ==> c[k] == rows[k].kind
  {
    seq(|rows|, k requires 0 <= k < |rows| => rows[k].kind)
  }

  /** `get_shensha_types`: each non-empty type once, NULL and the empty string left out. */
  function GetShenshaTypes(rows: seq<Shensha>): (r: seq<string>)
    ensures NoDuplicates(r)
    ensures forall t :: t in r <==> t != "" && exists k :: 0 <= k < |rows| && rows[k].kind == Some(t)
  {
    var col := TypeColumn(rows);
    assert forall t :: Some(t) in col <==> exists k :: 0 <= k < |rows| && rows[k].kind == Some(t);
    DistinctNonEmpty(col)
  }
}
