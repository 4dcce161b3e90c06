/**
 * The Nayin calculator (纳音计算): from a two-character stem+branch code it derives one
 * of the 30 Nayin names by three methods, the position method (隔八相生法), the
 * taixuan-number method (太玄数推算法) and the river-chart method (河图数直接法),
 * each with the intermediate values of its derivation.
 *
 * `calc_nayin` declares its own tables; each is modelled here as a function of its key.
 */
module NayinCalc {
  import opened Wrappers
  import opened Seqs
  import opened Symbols

  /** The calculator's stem table `TIANGAN_WUXING`; None for a character it does not key. */
  function StemWuxing(c: char): Option<Element>
  {
    match c
    case '甲' => Some(Wood)
    case '乙' => Some(Wood)
    case '丙' => Some(Fire)
    case '丁' => Some(Fire)
    case '戊' => Some(Earth)
    case '己' => Some(Earth)
    case '庚' => Some(Metal)
    case '辛' => Some(Metal)
    case '壬' => Some(Water)
    case '癸' => Some(Water)
    case _ => None
  }

  /** The calculator's branch table `DIZHI_WUXING`. */
  function BranchWuxing(c: char): Option<Element>
  {
    match c
    case '子' => Some(Water)
    case '丑' => Some(Earth)
    case '寅' => Some(Wood)
    case '卯' => Some(Wood)
    case '辰' => Some(Earth)
    case '巳' => Some(Fire)
    case '午' => Some(Fire)
    case '未' => Some(Earth)
    case '申' => Some(Metal)
    case '酉' => Some(Metal)
    case '戌' => Some(Earth)
    case '亥' => Some(Water)
    case _ => None
  }

  /** `TAI_XUAN.get(c, 0)`: the taixuan weight of a stem or branch, 0 for any other character. */
  function TaixuanWeight(c: char): int
  {
    match c
    case '甲' => 9 case '己' => 9 case '子' => 9 case '午' => 9
    case '乙' => 8 case '庚' => 8 case '丑' => 8 case '未' => 8
    case '丙' => 7 case '辛' => 7 case '寅' => 7 case '申' => 7
    case '丁' => 6 case '壬' => 6 case '卯' => 6 case '酉' => 6
    case '戊' => 5 case '癸' => 5 case '辰' => 5 case '戌' => 5
    case '巳' => 4 case '亥' => 4
    case _ => 0
  }

  /** The 30 Nayin names in their classical order. */
  const NAYIN_NAMES: seq<string> :=
    ["海中金", "炉中火", "大林木", "路旁土", "剑锋金"] +
    ["山头火", "涧下水", "城头土", "白蜡金", "杨柳木"] +
    ["井泉水", "屋上土", "霹雳火", "松柏木", "长流水"] +
    ["沙中金", "山下火", "平地木", "壁上土", "金箔金"] +
    ["覆灯火", "天河水", "大驿土", "钗钏金", "桑柘木"] +
    ["大溪水", "沙中土", "天上火", "石榴木", "大海水"]

  /** `NAYIN_BY_WUXING`: the 30 names cut into five groups of six, one per element. */
  function NayinGroup(e: Element): seq<string>
  {
    match e
    case Metal => ["海中金", "炉中火", "大林木", "路旁土", "剑锋金", "山头火"]
    case Wood => ["涧下水", "城头土", "白蜡金", "杨柳木", "井泉水", "屋上土"]
    case Water => ["霹雳火", "松柏木", "长流水", "沙中金", "山下火", "平地木"]
    case Fire => ["壁上土", "金箔金", "覆灯火", "天河水", "大驿土", "钗钏金"]
    case Earth => ["桑柘木", "大溪水", "沙中土", "天上火", "石榴木", "大海水"]
  }

  /** The calculator's own copy of the 60-item cycle, as names. */
  const GANZHI_ORDER: seq<string> :=
    ["甲子", "乙丑", "丙寅", "丁卯", "戊辰", "己巳", "庚午", "辛未", "壬申", "癸酉"] +
    ["甲戌", "乙亥", "丙子", "丁丑", "戊寅", "己卯", "庚辰", "辛巳", "壬午", "癸未"] +
    ["甲申", "乙酉", "丙戌", "丁亥", "戊子", "己丑", "庚寅", "辛卯", "壬辰", "癸巳"] +
    ["甲午", "乙未", "丙申", "丁酉", "戊戌", "己亥", "庚子", "辛丑", "壬寅", "癸卯"] +
    ["甲辰", "乙巳", "丙午", "丁未", "戊申", "己酉", "庚戌", "辛亥", "壬子", "癸丑"] +
    ["甲寅", "乙卯", "丙辰", "丁巳", "戊午", "己未", "庚申", "辛酉", "壬戌", "癸亥"]

  const WUXING_CYCLE: seq<Element> := [Metal, Wood, Water, Fire, Earth]

  /** `wuxing_map`: remainder of (49 - total) mod 5 to the element that generates the Nayin element. */
  function RemainderElement(r: int): Element
    requires 0 <= r < 5
  {
    match r
    case 0 => Earth
    case 1 => Water
    case 2 => Wood
    case 3 => Metal
    case 4 => Fire
  }

  /** `hetu_map`: river-chart number to element; the source keys it by the decimal text of the number. */
  function RiverChartElement(u: int): Element
    requires 1 <= u <= 5
  {
    match u
    case 1 => Water
    case 2 => Fire
    case 3 => Wood
    case 4 => Metal
    case 5 => Earth
  }

  const FORMAT_ERROR: string := "Invalid ganzhi format"
  const SYMBOL_ERROR: string := "Invalid tiangan or dizhi"
  const POSITION_METHOD: string := "隔八相生法"
  const TAIXUAN_METHOD: string := "太玄数推算法"
  const HETU_METHOD: string := "河图数直接法"

  /** The values a method's description shows; `Uncomputable` is the text 无法计算. */
  datatype Trace =
    | Uncomputable
    | PositionTrace(tiangan: char, tianganWuxing: Element, dizhi: char, dizhiWuxing: Element, nayinIdx: nat)
    | TaixuanTrace(tiangan: char, stemWeight: int, dizhi: char, branchWeight: int, total: int,
                   remainder: int, shengWuxing: Element, tianganWuxing: Element)
    | HetuTrace(total: int, unit: int, element: Element)

  datatype MethodRecord = MethodRecord(name: string, result: Option<string>, description: Trace)

  /** The returned dictionary: either only an "error" key, or the resolved code and its three method records. */
  datatype CalcResult =
    | Error(error: string)
    | Ok(ganzhi: string, tiangan: char, dizhi: char, tianganWuxing: Element, dizhiWuxing: Element,
         methods: seq<MethodRecord>)

  /** `NAYIN_BY_WUXING[e][k]` evaluated inside a try block: None where the index would raise. */
  function GroupEntry(e: Element, k: nat): Option<string>
  {
    if k < |NayinGroup(e)| then Some(NayinGroup(e)[k]) else None
  }

  /**
   * `nayin_idx` as the position method's try block leaves it: bound exactly when
   * `ganzhi_order.index` found the code, since nothing before it in the block can raise.
   */
  function NayinIndex(position: Option<nat>): Option<nat>
  {
    match position
    case None => None
    case Some(idx) => Some((idx % 10 / 2) % 6)
  }

  /**
   * The rest of method 1's try block, from the position within the decade: half of it
   * selects the group entry and, added to the stem element's place in 金, 木, 水, 火, 土,
   * the group.
   */
  function PositionEntry(tgE: Element, innerIdx: nat): Option<string>
  {
    var nayinIdx := (innerIdx / 2) % 6;
    match IndexOf(WUXING_CYCLE, tgE)
    case None => None
    case Some(wuxingIdx) =>
      var finalWuxing := WUXING_CYCLE[(wuxingIdx + innerIdx / 2) % 5];
      GroupEntry(finalWuxing, nayinIdx)
  }

  /**
   * Method 1, given the outcome of `ganzhi_order.index`: the position of the code in the
   * cycle selects an element and an entry of its group.
   */
  function PositionMethod(position: Option<nat>, tg: char, tgE: Element, dz: char, dzE: Element): MethodRecord
  {
    var failed := MethodRecord(POSITION_METHOD, None, Uncomputable);
    match position
    case None => failed
    case Some(idx) =>
      match PositionEntry(tgE, idx % 10)
      case None => failed
      case Some(name) => MethodRecord(POSITION_METHOD, Some(name), PositionTrace(tg, tgE, dz, dzE, (idx % 10 / 2) % 6))
  }

  /** The sum of the two taixuan weights. */
  function TaixuanTotal(tg: char, dz: char): int
  {
    TaixuanWeight(tg) + TaixuanWeight(dz)
  }

  /** The element method 2 reads off the weight total through (49 - total) mod 5. */
  function TaixuanRemainder(total: int): (r: int)
    ensures 0 <= r < 5
  {
    (49 - total) % 5
  }
  function TaixuanElement(total: int): Element
  {
    RemainderElement(TaixuanRemainder(total))
  }

  /** Method 2: (49 - total) mod 5 names an element; the entry is taken at method 1's `nayin_idx`. */
  function TaixuanMethod(tg: char, tgE: Element, dz: char, nayinIdx: Option<nat>): MethodRecord
  {
    var total := TaixuanTotal(tg, dz);
    var shengWuxing := TaixuanElement(total);
    var failed := MethodRecord(TAIXUAN_METHOD, None, Uncomputable);
    match nayinIdx
    case None => failed
    case Some(k) =>
      match GroupEntry(shengWuxing, k)
      case None => failed
      case Some(name) =>
        MethodRecord(TAIXUAN_METHOD, Some(name),
          TaixuanTrace(tg, TaixuanWeight(tg), dz, TaixuanWeight(dz), total, (49 - total) % 5, shengWuxing, tgE))
  }

  /** The river-chart number: total mod 5, with 0 read as 5. */
  function HetuUnit(total: int): (unit: int)
    ensures 1 <= unit <= 5 && unit % 5 == total % 5
  {
    var u := total % 5;
    if u == 0 then 5 else u
  }

  /** The element method 3 reads off the weight total through its river-chart number. */
  function HetuElement(total: int): Element
  {
    RiverChartElement(HetuUnit(total))
  }

  /** Method 3: the river-chart number names an element; the entry is taken at method 1's `nayin_idx`. */
  function HetuMethod(tg: char, dz: char, nayinIdx: Option<nat>): MethodRecord
  {
    var total := TaixuanTotal(tg, dz);
    var element := HetuElement(total);
    var failed := MethodRecord(HETU_METHOD, None, Uncomputable);
    match nayinIdx
    case None => failed
    case Some(k) =>
      match GroupEntry(element, k)
      case None => failed
      case Some(name) => MethodRecord(HETU_METHOD, Some(name), HetuTrace(total, HetuUnit(total), element))
  }

  /** The validation `calc_nayin` applies: two characters, a known stem, then a known branch. */
  predicate IsValidCode(code: string)
  {
    |code| == 2 && StemWuxing(code[0]).Some? && BranchWuxing(code[1]).Some?
  }

  /** The three method records `calc_nayin` builds for a code that passed validation. */
  function Methods(code: string): (ms: seq<MethodRecord>)
    requires IsValidCode(code)
    ensures |ms| == 3 && ms[0].name == POSITION_METHOD && ms[1].name == TAIXUAN_METHOD && ms[2].name == HETU_METHOD
  {
    var tiangan := code[0];
    var dizhi := code[1];
    var tianganWuxing := StemWuxing(tiangan).value;
    var position := IndexOf(GANZHI_ORDER, code);
    var nayinIdx := NayinIndex(position);
    [PositionMethod(position, tiangan, tianganWuxing, dizhi, BranchWuxing(dizhi).value),
     TaixuanMethod(tiangan, tianganWuxing, dizhi, nayinIdx),
     HetuMethod(tiangan, dizhi, nayinIdx)]
  }

  /** `calc_nayin`: validate the code, then run the three methods independently. */
  function CalcNayin(ganzhiName: string): (r: CalcResult)
    ensures |ganzhiName| != 2 ==> r == Error(FORMAT_ERROR)
    ensures |ganzhiName| == 2 ==> (r.Error? <==> !IsValidCode(ganzhiName))
    ensures |ganzhiName| == 2 && r.Error? ==> r.error == SYMBOL_ERROR
    ensures r.Ok? ==> && r.ganzhi == ganzhiName && r.tiangan == ganzhiName[0] && r.dizhi == ganzhiName[1]
                      && Some(r.tianganWuxing) == StemWuxing(r.tiangan) && Some(r.dizhiWuxing) == BranchWuxing(r.dizhi)
                      && r.methods == Methods(ganzhiName)
  {
    if |ganzhiName| != 2 then Error(FORMAT_ERROR)
    else
      var tiangan := ganzhiName[0];
      var dizhi := ganzhiName[1];
      if StemWuxing(tiangan).None? || BranchWuxing(dizhi).None? then Error(SYMBOL_ERROR)
      else Ok(ganzhiName, tiangan, dizhi, StemWuxing(tiangan).value, BranchWuxing(dizhi).value, Methods(ganzhiName))
  }

  /** The calculator's stem and branch tables hold the same pairs as the importer's. */
  lemma TablesAgreeWithImporter(c: char)
    ensures StemWuxing(c) == (if c in TIAN_GAN_WUXING then Some(TIAN_GAN_WUXING[c]) else None)
    ensures BranchWuxing(c) == (if c in DI_ZHI_WUXING then Some(DI_ZHI_WUXING[c]) else None)
  {
  }

  /** Every stem weighs 5..9 and every branch 4..9, so a valid code's total lies in 9..18. */
  lemma WeightsInRange(code: string)
    requires IsValidCode(code)
    ensures 5 <= TaixuanWeight(code[0]) <= 9 && 4 <= TaixuanWeight(code[1]) <= 9
    ensures 9 <= TaixuanTotal(code[0], code[1]) <= 18
  {
  }

  /** Entry i of the calculator's list is the name of cycle position i. */
  lemma GanzhiOrderAt(i: nat)
    requires i < 60
    ensures |GANZHI_ORDER| == 60 && GANZHI_ORDER[i] == CycleName(i)
  {
    if i < 10 { GanzhiOrderRows0(i); }
    else if i < 20 { GanzhiOrderRows1(i); }
    else if i < 30 { GanzhiOrderRows2(i); }
    else if i < 40 { GanzhiOrderRows3(i); }
    else if i < 50 { GanzhiOrderRows4(i); }
    else { GanzhiOrderRows5(i); }
  }

  lemma GanzhiOrderRows0(i: nat)
    requires 0 <= i < 10
    ensures |GANZHI_ORDER| == 60 && GANZHI_ORDER[i] == CycleName(i)
  {
    match i
    case 0 => assert GANZHI_ORDER[0] == CycleName(0);
    case 1 => assert GANZHI_ORDER[1] == CycleName(1);
    case 2 => assert GANZHI_ORDER[2] == CycleName(2);
    case 3 => assert GANZHI_ORDER[3] == CycleName(3);
    case 4 => assert GANZHI_ORDER[4] == CycleName(4);
    case 5 => assert GANZHI_ORDER[5] == CycleName(5);
    case 6 => assert GANZHI_ORDER[6] == CycleName(6);
    case 7 => assert GANZHI_ORDER[7] == CycleName(7);
    case 8 => assert GANZHI_ORDER[8] == CycleName(8);
    case 9 => assert GANZHI_ORDER[9] == CycleName(9);
  }
  lemma GanzhiOrderRows1(i: nat)
    requires 10 <= i < 20
    ensures |GANZHI_ORDER| == 60 && GANZHI_ORDER[i] == CycleName(i)
  {
    match i
    case 10 => assert GANZHI_ORDER[10] == CycleName(10);
    case 11 => assert GANZHI_ORDER[11] == CycleName(11);
    case 12 => assert GANZHI_ORDER[12] == CycleName(12);
    case 13 => assert GANZHI_ORDER[13] == CycleName(13);
    case 14 => assert GANZHI_ORDER[14] == CycleName(14);
    case 15 => assert GANZHI_ORDER[15] == CycleName(15);
    case 16 => assert GANZHI_ORDER[16] == CycleName(16);
    case 17 => assert GANZHI_ORDER[17] == CycleName(17);
    case 18 => assert GANZHI_ORDER[18] == CycleName(18);
    case 19 => assert GANZHI_ORDER[19] == CycleName(19);
  }
  lemma GanzhiOrderRows2(i: nat)
    requires 20 <= i < 30
    ensures |GANZHI_ORDER| == 60 && GANZHI_ORDER[i] == CycleName(i)
  {
    match i
    case 20 => assert GANZHI_ORDER[20] == CycleName(20);
    case 21 => assert GANZHI_ORDER[21] == CycleName(21);
    case 22 => assert GANZHI_ORDER[22] == CycleName(22);
    case 23 => assert GANZHI_ORDER[23] == CycleName(23);
    case 24 => assert GANZHI_ORDER[24] == CycleName(24);
    case 25 => assert GANZHI_ORDER[25] == CycleName(25);
    case 26 => assert GANZHI_ORDER[26] == CycleName(26);
    case 27 => assert GANZHI_ORDER[27] == CycleName(27);
    case 28 => assert GANZHI_ORDER[28] == CycleName(28);
    case 29 => assert GANZHI_ORDER[29] == CycleName(29);
  }
  lemma GanzhiOrderRows3(i: nat)
    requires 30 <= i < 40
    ensures |GANZHI_ORDER| == 60 && GANZHI_ORDER[i] == CycleName(i)
  {
    match i
    case 30 => assert GANZHI_ORDER[30] == CycleName(30);
    case 31 => assert GANZHI_ORDER[31] == CycleName(31);
    case 32 => assert GANZHI_ORDER[32] == CycleName(32);
    case 33 => assert GANZHI_ORDER[33] == CycleName(33);
    case 34 => assert GANZHI_ORDER[34] == CycleName(34);
    case 35 => assert GANZHI_ORDER[35] == CycleName(35);
    case 36 => assert GANZHI_ORDER[36] == CycleName(36);
    case 37 => assert GANZHI_ORDER[37] == CycleName(37);
    case 38 => assert GANZHI_ORDER[38] == CycleName(38);
    case 39 => assert GANZHI_ORDER[39] == CycleName(39);
  }
  lemma GanzhiOrderRows4(i: nat)
    requires 40 <= i < 50
    ensures |GANZHI_ORDER| == 60 && GANZHI_ORDER[i] == CycleName(i)
  {
    match i
    case 40 => assert GANZHI_ORDER[40] == CycleName(40);
    case 41 => assert GANZHI_ORDER[41] == CycleName(41);
    case 42 => assert GANZHI_ORDER[42] == CycleName(42);
    case 43 => assert GANZHI_ORDER[43] == CycleName(43);
    case 44 => assert GANZHI_ORDER[44] == CycleName(44);
    case 45 => assert GANZHI_ORDER[45] == CycleName(45);
    case 46 => assert GANZHI_ORDER[46] == CycleName(46);
    case 47 => assert GANZHI_ORDER[47] == CycleName(47);
    case 48 => assert GANZHI_ORDER[48] == CycleName(48);
    case 49 => assert GANZHI_ORDER[49] == CycleName(49);
  }
  lemma GanzhiOrderRows5(i: nat)
    requires 50 <= i < 60
    ensures |GANZHI_ORDER| == 60 && GANZHI_ORDER[i] == CycleName(i)
  {
    match i
    case 50 => assert GANZHI_ORDER[50] == CycleName(50);
    case 51 => assert GANZHI_ORDER[51] == CycleName(51);
    case 52 => assert GANZHI_ORDER[52] == CycleName(52);
    case 53 => assert GANZHI_ORDER[53] == CycleName(53);
    case 54 => assert GANZHI_ORDER[54] == CycleName(54);
    case 55 => assert GANZHI_ORDER[55] == CycleName(55);
    case 56 => assert GANZHI_ORDER[56] == CycleName(56);
    case 57 => assert GANZHI_ORDER[57] == CycleName(57);
    case 58 => assert GANZHI_ORDER[58] == CycleName(58);
    case 59 => assert GANZHI_ORDER[59] == CycleName(59);
  }

  /** The five results method 1 gives, one per stem pair 甲乙, 丙丁, 戊己, 庚辛, 壬癸. */
  const POSITION_BY_STEM_PAIR: seq<string> := ["涧下水", "大溪水", "白蜡金", "天河水", "井泉水"]

  /** The generating (相生) order: wood feeds fire, fire makes earth, earth bears metal, metal carries water, water feeds wood. */
  function Generates(e: Element): Element
  {
    match e
    case Wood => Fire
    case Fire => Earth
    case Earth => Metal
    case Metal => Water
    case Water => Wood
  }

  /** A code of the cycle: stem i mod 10 followed by branch i mod 12 for some i below 60. */
  predicate IsCycleName(code: string)
  {
    exists i :: 0 <= i < 60 && CycleName(i) == code
  }

  /** The calculator's list never repeats a name. */
  lemma GanzhiOrderDistinct()
    ensures |GANZHI_ORDER| == 60 && NoDuplicates(GANZHI_ORDER)
  {
    GanzhiOrderAt(0);
    forall i, j | 0 <= i < j < |GANZHI_ORDER|
      ensures GANZHI_ORDER[i] != GANZHI_ORDER[j]
    {
      GanzhiOrderAt(i);
      GanzhiOrderAt(j);
      CyclePairsDistinct(i, j);
      assert CycleName(i)[0] == CyclePair(i).0 && CycleName(i)[1] == CyclePair(i).1;
      assert CycleName(j)[0] == CyclePair(j).0 && CycleName(j)[1] == CyclePair(j).1;
    }
  }

  /** The calculator's list and the importer's cycle agree entry by entry. */
  lemma GanzhiOrderMatchesImport(i: nat)
    requires i < 60
    ensures |GANZHI_ORDER| == |JIAZI_SEQUENCE| == 60
    ensures |GANZHI_ORDER[i]| == 2 && Unpack(JIAZI_SEQUENCE[i]) == Some((GANZHI_ORDER[i][0], GANZHI_ORDER[i][1]))
  {
    GanzhiOrderAt(i);
    JiaziSequenceAt(i);
  }

  /** `ganzhi_order.index` finds each cycle name at its own position. */
  lemma GanzhiOrderIndexOf(i: nat)
    requires i < 60
    ensures IndexOf(GANZHI_ORDER, CycleName(i)) == Some(i)
  {
    GanzhiOrderDistinct();
    GanzhiOrderAt(i);
    IndexOfDistinct(GANZHI_ORDER, i);
  }

  /** A code is in the calculator's list exactly when it is a cycle name. */
  lemma GanzhiOrderMembership(code: string)
    ensures code in GANZHI_ORDER <==> IsCycleName(code)
  {
    if code in GANZHI_ORDER {
      var i :| 0 <= i < |GANZHI_ORDER| && GANZHI_ORDER[i] == code;
      GanzhiOrderAt(i);
    }
    if IsCycleName(code) {
      var i :| 0 <= i < 60 && CycleName(i) == code;
      GanzhiOrderAt(i);
    }
  }

  /** For cycle position i, `nayin_idx` is half the stem's index, so the sixth entry of a group is never read. */
  lemma HalfStemIndex(i: nat)
    ensures (i % 10 / 2) % 6 == i % 10 / 2 < 5
    ensures NayinIndex(Some(i)) == Some(i % 10 / 2)
  {
  }

  /** The position of an element in the cycle 金, 木, 水, 火, 土. */
  function ElementPosition(e: Element): (k: nat)
    ensures k < 5 && WUXING_CYCLE[k] == e
  {
    match e
    case Metal => 0
    case Wood => 1
    case Water => 2
    case Fire => 3
    case Earth => 4
  }

  /** `wuxing_cycle.index` finds every element, at its position. */
  lemma CycleIndexOfElement(e: Element)
    ensures IndexOf(WUXING_CYCLE, e) == Some(ElementPosition(e))
  {
    assert NoDuplicates(WUXING_CYCLE);
    IndexOfDistinct(WUXING_CYCLE, ElementPosition(e));
  }

  /** Laid end to end in cycle order, the five groups are the 30 names in classical order. */
  lemma GroupsConcatenateToNames()
    ensures NAYIN_NAMES == NayinGroup(Metal) + NayinGroup(Wood) + NayinGroup(Water) + NayinGroup(Fire) + NayinGroup(Earth)
  {
  }

  /** Entry k of a group is name 6 * position + k of the classical list. */
  lemma GroupEntryIsName(e: Element, k: nat)
    requires k < 6
    ensures GroupEntry(e, k) == Some(NAYIN_NAMES[6 * ElementPosition(e) + k])
  {
    GroupsConcatenateToNames();
    var first2 := NayinGroup(Metal) + NayinGroup(Wood);
    var first3 := first2 + NayinGroup(Water);
    var first4 := first3 + NayinGroup(Fire);
    assert NAYIN_NAMES == first4 + NayinGroup(Earth);
    match e
    case Metal => assert first2[k] == NayinGroup(Metal)[k];
    case Wood => assert first2[6 + k] == NayinGroup(Wood)[k];
    case Water => assert first3[12 + k] == NayinGroup(Water)[k];
    case Fire => assert first4[18 + k] == NayinGroup(Fire)[k];
    case Earth =>
  }

  /** Method 1's entry, read as a group entry: the group lies half the decade position past the stem's element. */
  lemma PositionEntryIsGroupEntry(tgE: Element, inner: nat)
    requires inner < 10
    ensures PositionEntry(tgE, inner) == GroupEntry(WUXING_CYCLE[(ElementPosition(tgE) + inner / 2) % 5], inner / 2)
  {
    assert (inner / 2) % 6 == inner / 2;
    CycleIndexOfElement(tgE);
  }

  /** Where the elements of the stem pairs 甲乙 (木), 丙丁 (火), 戊己 (土), 庚辛 (金), 壬癸 (水) stand in 金, 木, 水, 火, 土. */
  const STEM_PAIR_POSITION: seq<nat> := [1, 3, 4, 0, 2]

  /** Stems 2k and 2k + 1 share the element of pair k. */
  lemma StemPairElement(s: nat)
    requires s < 10
    ensures StemWuxing(TIAN_GAN[s]).Some? && ElementPosition(StemWuxing(TIAN_GAN[s]).value) == STEM_PAIR_POSITION[s / 2]
  {
  }

  /** The entry method 1 selects for stem pair k, worked out pair by pair. */
  lemma PositionEntryByPair(k: nat)
    requires k < 5
    ensures GroupEntry(WUXING_CYCLE[(STEM_PAIR_POSITION[k] + k) % 5], k) == Some(POSITION_BY_STEM_PAIR[k])
  {
  }

  /** For stem index s, method 1's entry is the name of the stem's pair. */
  lemma PositionEntryForStem(s: nat)
    requires s < 10
    ensures StemWuxing(TIAN_GAN[s]).Some?
    ensures PositionEntry(StemWuxing(TIAN_GAN[s]).value, s) == Some(POSITION_BY_STEM_PAIR[s / 2])
  {
    StemPairElement(s);
    PositionEntryIsGroupEntry(StemWuxing(TIAN_GAN[s]).value, s);
    PositionEntryByPair(s / 2);
  }

  /** At cycle position i, method 1 gives the name of the stem pair of stem i mod 10, whatever the branch. */
  lemma PositionMethodOnCycle(i: nat, tg: char, dz: char, dzE: Element)
    requires i < 60 && tg == TIAN_GAN[i % 10]
    ensures StemWuxing(tg).Some?
    ensures var tgE := StemWuxing(tg).value;
            PositionMethod(Some(i), tg, tgE, dz, dzE)
            == MethodRecord(POSITION_METHOD, Some(POSITION_BY_STEM_PAIR[i % 10 / 2]), PositionTrace(tg, tgE, dz, dzE, i % 10 / 2))
  {
    HalfStemIndex(i);
    PositionEntryForStem(i % 10);
  }

  /** Method 3's element is always the one method 2's element generates. */
  lemma HetuFollowsTaixuan(total: int)
    ensures HetuElement(total) == Generates(TaixuanElement(total))
  {
    var t := total % 5;
    assert (49 - total) % 5 == (4 - t) % 5;
  }

  /**
   * With `nayin_idx` bound to k below 5, method 2 reads entry k of the group of the element its
   * weight total selects, and method 3 entry k of the group of the element that one generates.
   */
  lemma WeightMethodsAt(tg: char, tgE: Element, dz: char, k: nat)
    requires k < 5
    ensures var total := TaixuanTotal(tg, dz);
            TaixuanMethod(tg, tgE, dz, Some(k)).result == Some(NAYIN_NAMES[6 * ElementPosition(TaixuanElement(total)) + k])
    ensures var total := TaixuanTotal(tg, dz);
            HetuMethod(tg, dz, Some(k)).result == Some(NAYIN_NAMES[6 * ElementPosition(Generates(TaixuanElement(total))) + k])
  {
    var total := TaixuanTotal(tg, dz);
    HetuFollowsTaixuan(total);
    GroupEntryIsName(TaixuanElement(total), k);
    GroupEntryIsName(HetuElement(total), k);
  }

  /** For a code at position i of the list, the stem is stem i mod 10 of the cycle. */
  lemma StemAtPosition(name: string, i: nat)
    requires IndexOf(GANZHI_ORDER, name) == Some(i)
    ensures i < 60 && |name| == 2 && name[0] == TIAN_GAN[i % 10]
  {
    GanzhiOrderAt(i);
  }

  /** For a code at position i, method 1 gives the name of the stem's pair. */
  lemma PositionResultByStem(name: string, i: nat)
    requires IsValidCode(name) && IndexOf(GANZHI_ORDER, name) == Some(i)
    ensures Methods(name)[0].result == Some(POSITION_BY_STEM_PAIR[i % 10 / 2])
  {
    StemAtPosition(name, i);
    PositionMethodOnCycle(i, name[0], name[1], BranchWuxing(name[1]).value);
  }

  /** For a code at position i, methods 2 and 3 run with `nayin_idx` bound to i mod 10 / 2. */
  lemma MethodsOnList(name: string, i: nat)
    requires IsValidCode(name) && IndexOf(GANZHI_ORDER, name) == Some(i)
    ensures Methods(name)[1] == TaixuanMethod(name[0], StemWuxing(name[0]).value, name[1], Some(i % 10 / 2))
    ensures Methods(name)[2] == HetuMethod(name[0], name[1], Some(i % 10 / 2))
  {
    HalfStemIndex(i);
  }

  /** For a code at position i, method 2 reads entry i mod 10 / 2 (method 1's position) of the group its element selects. */
  lemma TaixuanResultByTotal(name: string, i: nat)
    requires IsValidCode(name) && IndexOf(GANZHI_ORDER, name) == Some(i)
    ensures Methods(name)[1].result
            == Some(NAYIN_NAMES[6 * ElementPosition(TaixuanElement(TaixuanTotal(name[0], name[1]))) + i % 10 / 2])
  {
    MethodsOnList(name, i);
    WeightMethodsAt(name[0], StemWuxing(name[0]).value, name[1], i % 10 / 2);
  }

  /** For a code at position i, method 3 reads the same entry from the group of the element method 2's element generates. */
  lemma HetuResultByTotal(name: string, i: nat)
    requires IsValidCode(name) && IndexOf(GANZHI_ORDER, name) == Some(i)
    ensures Methods(name)[2].result
            == Some(NAYIN_NAMES[6 * ElementPosition(Generates(TaixuanElement(TaixuanTotal(name[0], name[1])))) + i % 10 / 2])
  {
    MethodsOnList(name, i);
    WeightMethodsAt(name[0], StemWuxing(name[0]).value, name[1], i % 10 / 2);
  }

  /**
   * Validation accepts any known stem followed by any known branch, but the methods
   * compute a name exactly when the code is one of the 60 cycle names; otherwise all
   * three report 无法计算.
   */
  lemma ComputableIffCycleName(name: string)
    requires IsValidCode(name)
    ensures forall k :: 0 <= k < 3 ==> (Methods(name)[k].result.Some? <==> IsCycleName(name))
    ensures !IsCycleName(name) ==> forall k :: 0 <= k < 3 ==> Methods(name)[k].description == Uncomputable
  {
    GanzhiOrderMembership(name);
    match IndexOf(GANZHI_ORDER, name)
    case Some(i) =>
      OnListComputable(name, i);
    case None =>
      OffListUncomputable(name);
  }

  /** A code on the 60-name list gets a name from every method. */
  lemma OnListComputable(name: string, i: nat)
    requires IsValidCode(name) && IndexOf(GANZHI_ORDER, name) == Some(i)
    ensures Methods(name)[0].result.Some? && Methods(name)[1].result.Some? && Methods(name)[2].result.Some?
  {
    PositionResultByStem(name, i);
    TaixuanResultByTotal(name, i);
    HetuResultByTotal(name, i);
  }

  /** A code missing from the 60-name list has no position, so every method fails. */
  lemma OffListUncomputable(name: string)
    requires IsValidCode(name) && IndexOf(GANZHI_ORDER, name).None?
    ensures Methods(name)[0] == MethodRecord(POSITION_METHOD, None, Uncomputable)
    ensures Methods(name)[1] == MethodRecord(TAIXUAN_METHOD, None, Uncomputable)
    ensures Methods(name)[2] == MethodRecord(HETU_METHOD, None, Uncomputable)
  {
    assert NayinIndex(IndexOf(GANZHI_ORDER, name)) == None;
  }

  /** Every name a method returns is one of the 30 classical names. */
  lemma ResultsAreNayinNames(name: string)
    requires IsValidCode(name)
    ensures forall k :: 0 <= k < 3 && Methods(name)[k].result.Some? ==> Methods(name)[k].result.value in NAYIN_NAMES
  {
    match IndexOf(GANZHI_ORDER, name)
    case Some(i) =>
      OnListResultsAreNames(name, i);
    case None =>
      OffListUncomputable(name);
  }

  /** The three names a code on the 60-name list gets are among the 30. */
  lemma OnListResultsAreNames(name: string, i: nat)
    requires IsValidCode(name) && IndexOf(GANZHI_ORDER, name) == Some(i)
    ensures Methods(name)[0].result.Some? && Methods(name)[0].result.value in NAYIN_NAMES
    ensures Methods(name)[1].result.Some? && Methods(name)[1].result.value in NAYIN_NAMES
    ensures Methods(name)[2].result.Some? && Methods(name)[2].result.value in NAYIN_NAMES
  {
    PositionResultByStem(name, i);
    TaixuanResultByTotal(name, i);
    HetuResultByTotal(name, i);
    PositionResultsAreNames();
  }

  /** Each of the five names method 1 can give is one of the 30. */
  lemma PositionResultsAreNames()
    ensures forall k :: 0 <= k < 5 ==> POSITION_BY_STEM_PAIR[k] in NAYIN_NAMES
  {
    assert POSITION_BY_STEM_PAIR[0] == NAYIN_NAMES[6];
    assert POSITION_BY_STEM_PAIR[1] == NAYIN_NAMES[25];
    assert POSITION_BY_STEM_PAIR[2] == NAYIN_NAMES[8];
    assert POSITION_BY_STEM_PAIR[3] == NAYIN_NAMES[21];
    assert POSITION_BY_STEM_PAIR[4] == NAYIN_NAMES[10];
  }
  /** The first cycle code 甲子 gets 涧下水, 霹雳火 and 涧下水 from the three methods. */
  lemma FirstCodeExample()
    ensures CalcNayin("甲子").Ok?
    ensures CalcNayin("甲子").methods[0].result == Some("涧下水")
    ensures CalcNayin("甲子").methods[1].result == Some("霹雳火")
    ensures CalcNayin("甲子").methods[2].result == Some("涧下水")
  {
    var code := "甲子";
    GanzhiOrderIndexOf(0);
    assert CycleName(0) == code;
    assert IsValidCode(code) && CalcNayin(code).methods == Methods(code);
    PositionResultByStem(code, 0);
    TaixuanResultByTotal(code, 0);
    HetuResultByTotal(code, 0);
    assert code[0] == '甲' && code[1] == '子';
    FirstCodeElement();
    assert ElementPosition(Water) == 2 && ElementPosition(Generates(Water)) == 1;
    assert NAYIN_NAMES[12] == "霹雳火" && NAYIN_NAMES[6] == "涧下水";
  }

  /** The weights of 甲 and 子 add up to 18, which method 2 reads as water. */
  lemma FirstCodeElement()
    ensures TaixuanTotal('甲', '子') == 18 && TaixuanElement(18) == Water
  {
  }

  /** 甲丑 passes validation but is no cycle code: the call succeeds and all three methods give no name. */
  lemma NonCycleCodeExample()
    ensures CalcNayin("甲丑").Ok?
    ensures forall k :: 0 <= k < 3 ==> CalcNayin("甲丑").methods[k].result == None
  {
    MixedParityIsNoCycleName();
    assert IsValidCode("甲丑") && CalcNayin("甲丑").methods == Methods("甲丑");
    ComputableIffCycleName("甲丑");
  }

  /** 甲 sits at an even stem position and 丑 at an odd branch position, which no cycle position combines. */
  lemma MixedParityIsNoCycleName()
    ensures !IsCycleName("甲丑")
  {
    forall i | 0 <= i < 60
      ensures CycleName(i) != "甲丑"
    {
      CycleNameIsNotJiaChou(i);
    }
  }

  /** Cycle name i pairs stem and branch of the same parity, so it is never 甲 (even) with 丑 (odd). */
  lemma CycleNameIsNotJiaChou(i: nat)
    requires i < 60
    ensures CycleName(i) != "甲丑"
  {
    if i % 2 == 0 {
      EvenBranchIsNotChou(i % 12);
      assert CycleName(i)[1] != "甲丑"[1];
    } else {
      OddStemIsNotJia(i % 10);
      assert CycleName(i)[0] != "甲丑"[0];
    }
  }

  lemma EvenBranchIsNotChou(b: nat)
    requires b < 12 && b % 2 == 0
    ensures DI_ZHI[b] != '丑'
  {
  }

  lemma OddStemIsNotJia(s: nat)
    requires s < 10 && s % 2 == 1
    ensures TIAN_GAN[s] != '甲'
  {
  }
}
