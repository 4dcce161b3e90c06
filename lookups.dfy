/**
 * The single-row getters the queries build on: `.filter(column == value).first()`
 * over one table, None when no row matches.
 */
module Lookups {
  import opened Wrappers
  import opened Seqs
  import opened Models

  /** `get_ganzhi_by_name`: the first row whose `ganzhi` is `name`. */
  function GanzhiNamed(rows: seq<Ganzhi>, name: string): (r: Option<Ganzhi>)
    ensures r.Some? ==> r.value in rows && r.value.ganzhi == name
    ensures r.None? <==> forall k :: 0 <= k < |rows| ==> rows[k].ganzhi != name
  {
    First(rows, (g: Ganzhi) => g.ganzhi == name)
  }

  /** `get_ganzhi_by_id`: the first row whose id is `id`. */
  function GanzhiWithId(rows: seq<Ganzhi>, id: int): (r: Option<Ganzhi>)
    ensures r.Some? ==> r.value in rows && r.value.id == id
    ensures r.None? <==> forall k :: 0 <= k < |rows| ==> rows[k].id != id
  {
    First(rows, (g: Ganzhi) => g.id == id)
  }

  /** `get_shensha_by_name`: the first row whose name is `name`. */
  function ShenshaNamed(rows: seq<Shensha>, name: string): (r: Option<Shensha>)
    ensures r.Some? ==> r.value in rows && r.value.name == name
    ensures r.None? <==> forall k :: 0 <= k < |rows| ==> rows[k].name != name
  {
    First(rows, (s: Shensha) => s.name == name)
  }

  /** `get_shensha_by_id`: the first row whose id is `id`. */
  function ShenshaWithId(rows: seq<Shensha>, id: int): (r: Option<Shensha>)
    ensures r.Some? ==> r.value in rows && r.value.id == id
    ensures r.None? <==> forall k :: 0 <= k < |rows| ==> rows[k].id != id
  {
    First(rows, (s: Shensha) => s.id == id)
  }

  /** Under a unique `ganzhi` column every row is what looking up its own name finds. */
  lemma GanzhiNamedUnique(rows: seq<Ganzhi>, i: nat)
    requires UniqueNames(rows) && i < |rows|
    ensures GanzhiNamed(rows, rows[i].ganzhi) == Some(rows[i])
  {
    FirstAt(rows, (g: Ganzhi) => g.ganzhi == rows[i].ganzhi, i);
  }

  /** Under the primary key every row is what looking up its own id finds. */
  lemma GanzhiWithIdUnique(rows: seq<Ganzhi>, g: Ganzhi)
    requires UniqueGanzhiIds(rows) && g in rows
    ensures GanzhiWithId(rows, g.id) == Some(g)
  {
    var i :| 0 <= i < |rows| && rows[i] == g;
    FirstAt(rows, (x: Ganzhi) => x.id == g.id, i);
  }

  /** Under the unique `name` column every shensha is what looking up its own name finds. */
  lemma ShenshaNamedUnique(rows: seq<Shensha>, s: Shensha)
    requires UniqueShensha(rows) && s in rows
    ensures ShenshaNamed(rows, s.name) == Some(s)
  {
    var i :| 0 <= i < |rows| && rows[i] == s;
    FirstAt(rows, (x: Shensha) => x.name == s.name, i);
  }

  /** Under the primary key every shensha is what looking up its own id finds. */
  lemma ShenshaWithIdUnique(rows: seq<Shensha>, s: Shensha)
    requires UniqueShensha(rows) && s in rows
    ensures ShenshaWithId(rows, s.id) == Some(s)
  {
    var i :| 0 <= i < |rows| && rows[i] == s;
    FirstAt(rows, (x: Shensha) => x.id == s.id, i);
  }
}
