/**
 * The rows of the seven tables the importer fills and the query code reads.
 * Text columns are strings; the nullable columns the queries test for NULL
 * (`Guanxi.relation_type`, `Shensha.type`, `Ganzhi.special_desc`) are options.
 * A database is the tuple of its tables, each an ordered sequence of rows.
 */
module Models {
  import opened Wrappers

  /** Row ids are assigned by the database on insert; rows the importer builds carry this placeholder until then. */
  const UNASSIGNED_ID: int := 0

  datatype Ganzhi = Ganzhi(
    id: int,
    tiangan: string,
    dizhi: string,
    ganzhi: string,
    tianganWuxing: string,
    dizhiWuxing: string,
    yinyang: string,
    fangwei: string,
    jijie: string,
    tianganYuanshiming: string,
    dizhiYuanshiming: string,
    specialDesc: Option<string>)

  datatype Nayin = Nayin(
    id: int,
    ganzhiId: int,
    nayinName: string,
    nayinWuxing: string,
    zhuangtai: string,
    shengdaXiaoruo: string,
    zhuangtaiDesc: string)

  /** An imagery row; `kind` is the column `type` (核心 or 细分). */
  datatype Xiangyi = Xiangyi(
    id: int,
    ganzhiId: int,
    kind: string,
    category: string,
    content: string,
    description: string,
    source: string)

  datatype Shensha = Shensha(
    id: int,
    name: string,
    kind: Option<string>,
    checkMethod: string,
    jixiong: string,
    yuanwen: string,
    modernDesc: string,
    remark: string)

  /** A link between a ganzhi and a shensha. */
  datatype GanzhiShensha = GanzhiShensha(id: int, ganzhiId: int, shenshaId: int, isZixing: bool)

  datatype Xiji = Xiji(id: int, ganzhiId: int, kind: string, targetType: string, targetValue: string, remark: string)

  /** A relation between two ganzhi, named by their two-character names. */
  datatype Guanxi = Guanxi(id: int, ganzhi1: string, ganzhi2: string, relationType: Option<string>, remark: string)

  datatype Database = Database(
    ganzhi: seq<Ganzhi>,
    nayin: seq<Nayin>,
    xiangyi: seq<Xiangyi>,
    shensha: seq<Shensha>,
    links: seq<GanzhiShensha>,
    xiji: seq<Xiji>,
    guanxi: seq<Guanxi>)

  /** The `ganzhi` column is declared unique. */
  predicate UniqueNames(rows: seq<Ganzhi>)
  {
    forall i, j :: 0 <= i < j < |rows| ==> rows[i].ganzhi != rows[j].ganzhi
  }

  /** `id` is the primary key of the ganzhi table. */
  predicate UniqueGanzhiIds(rows: seq<Ganzhi>)
  {
    forall i, j :: 0 <= i < j < |rows| ==> rows[i].id != rows[j].id
  }

  /** `ganzhi_id` is declared unique in the nayin table: each ganzhi has at most one nayin row. */
  predicate UniqueNayinGanzhiIds(rows: seq<Nayin>)
  {
    forall i, j :: 0 <= i < j < |rows| ==> rows[i].ganzhiId != rows[j].ganzhiId
  }

  /** `id` is the primary key of the shensha table and `name` is declared unique. */
  predicate UniqueShensha(rows: seq<Shensha>)
  {
    forall i, j :: 0 <= i < j < |rows| ==> rows[i].id != rows[j].id && rows[i].name != rows[j].name
  }
}
