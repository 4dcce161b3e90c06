/**
 * The symbol tables of the sexagenary cycle: the ten heavenly stems (天干), the
 * twelve earthly branches (地支), their five-phase elements (五行), polarity (阴阳),
 * direction (方位) and month (季节), the 60-item cycle (六十甲子) and the
 * pinyin keys of the loader's JSON documents.
 */
module Symbols {
  import opened Wrappers
  import opened Seqs

  /** The five phases, declared in the order of the generation method's cycle [金, 木, 水, 火, 土]. */
  datatype Element = Metal | Wood | Water | Fire | Earth
  {
    /** The one-character text the store and the API carry. */
    function Name(): string
    {
      match this
      case Metal => "金"
      case Wood => "木"
      case Water => "水"
      case Fire => "火"
      case Earth => "土"
    }
  }

  datatype Polarity = Yang | Yin
  {
    function Name(): string
    {
      match this
      case Yang => "阳"
      case Yin => "阴"
    }
  }

  const TIAN_GAN: seq<char> := ['甲', '乙', '丙', '丁', '戊', '己', '庚', '辛', '壬', '癸']

  const TIAN_GAN_WUXING: map<char, Element> := map[
    '甲' := Wood, '乙' := Wood,
    '丙' := Fire, '丁' := Fire,
    '戊' := Earth, '己' := Earth,
    '庚' := Metal, '辛' := Metal,
    '壬' := Water, '癸' := Water
  ]

  const TIAN_GAN_YINYANG: map<char, Polarity> := map[
    '甲' := Yang, '乙' := Yin,
    '丙' := Yang, '丁' := Yin,
    '戊' := Yang, '己' := Yin,
    '庚' := Yang, '辛' := Yin,
    '壬' := Yang, '癸' := Yin
  ]

  const DI_ZHI: seq<char> := ['子', '丑', '寅', '卯', '辰', '巳', '午', '未', '申', '酉', '戌', '亥']

  const DI_ZHI_WUXING: map<char, Element> := map[
    '子' := Water, '丑' := Earth, '寅' := Wood, '卯' := Wood,
    '辰' := Earth, '巳' := Fire, '午' := Fire, '未' := Earth,
    '申' := Metal, '酉' := Metal, '戌' := Earth, '亥' := Water
  ]

  const DI_ZHI_YINYANG: map<char, Polarity> := map[
    '子' := Yang, '丑' := Yin, '寅' := Yang, '卯' := Yin,
    '辰' := Yang, '巳' := Yin, '午' := Yang, '未' := Yin,
    '申' := Yang, '酉' := Yin, '戌' := Yang, '亥' := Yin
  ]

  const DI_ZHI_FANGWEI: map<char, string> := map[
    '子' := "北", '丑' := "东北", '寅' := "东北", '卯' := "东",
    '辰' := "东南", '巳' := "东南", '午' := "南", '未' := "西南",
    '申' := "西南", '酉' := "西", '戌' := "西北", '亥' := "西北"
  ]

  const DI_ZHI_JIJIE: map<char, string> := map[
    '子' := "十一月", '丑' := "十二月", '寅' := "正月", '卯' := "二月",
    '辰' := "三月", '巳' := "四月", '午' := "五月", '未' := "六月",
    '申' := "七月", '酉' := "八月", '戌' := "九月", '亥' := "十月"
  ]

  /** `d.get(k, default)` for the tables above. */
  function GetOr<K, V>(m: map<K, V>, k: K, default: V): V
  {
    if k in m then m[k] else default
  }

  /** Every stem and branch is listed once. */
  lemma SymbolsDistinct()
    ensures NoDuplicates(TIAN_GAN) && NoDuplicates(DI_ZHI)
  {
  }

  /** Each stem table is keyed by exactly the ten stems, each branch table by exactly the twelve branches. */
  lemma TablesCoverSymbols()
    ensures forall c :: c in TIAN_GAN_WUXING <==> c in TIAN_GAN
    ensures forall c :: c in TIAN_GAN_YINYANG <==> c in TIAN_GAN
    ensures forall c :: c in DI_ZHI_WUXING <==> c in DI_ZHI
    ensures forall c :: c in DI_ZHI_YINYANG <==> c in DI_ZHI
    ensures forall c :: c in DI_ZHI_FANGWEI <==> c in DI_ZHI
    ensures forall c :: c in DI_ZHI_JIJIE <==> c in DI_ZHI
  {
    StemTablesCover();
    BranchElementTablesCover();
    BranchPlaceTablesCover();
  }

  lemma StemTablesCover()
    ensures forall c :: c in TIAN_GAN_WUXING <==> c in TIAN_GAN
    ensures forall c :: c in TIAN_GAN_YINYANG <==> c in TIAN_GAN
  {
  }

  lemma BranchElementTablesCover()
    ensures forall c :: c in DI_ZHI_WUXING <==> c in DI_ZHI
    ensures forall c :: c in DI_ZHI_YINYANG <==> c in DI_ZHI
  {
  }

  lemma BranchPlaceTablesCover()
    ensures forall c :: c in DI_ZHI_FANGWEI <==> c in DI_ZHI
    ensures forall c :: c in DI_ZHI_JIJIE <==> c in DI_ZHI
  {
  }

  /** Stem `s` is a key of both stem tables; its polarity is 阳 at even and 阴 at odd positions. */
  lemma StemInTables(s: nat)
    requires s < 10
    ensures TIAN_GAN[s] in TIAN_GAN_WUXING && TIAN_GAN[s] in TIAN_GAN_YINYANG
    ensures TIAN_GAN_YINYANG[TIAN_GAN[s]] == if s % 2 == 0 then Yang else Yin
  {
    match s
    case 0 => case 1 => case 2 => case 3 => case 4 =>
    case 5 => case 6 => case 7 => case 8 => case 9 =>
  }

  /** Branch `b` is a key of all four branch tables; its polarity is 阳 at even and 阴 at odd positions. */
  lemma BranchInTables(b: nat)
    requires b < 12
    ensures DI_ZHI[b] in DI_ZHI_WUXING && DI_ZHI[b] in DI_ZHI_YINYANG
    ensures DI_ZHI[b] in DI_ZHI_FANGWEI && DI_ZHI[b] in DI_ZHI_JIJIE
    ensures DI_ZHI_YINYANG[DI_ZHI[b]] == if b % 2 == 0 then Yang else Yin
  {
    match b
    case 0 => case 1 => case 2 => case 3 => case 4 => case 5 =>
    case 6 => case 7 => case 8 => case 9 => case 10 => case 11 =>
  }

  /** Stems 2k and 2k+1 share an element (甲乙 木, 丙丁 火, 戊己 土, 庚辛 金, 壬癸 水). */
  lemma StemPairsShareElement(k: nat)
    requires k < 5
    ensures TIAN_GAN_WUXING[TIAN_GAN[2 * k]] == TIAN_GAN_WUXING[TIAN_GAN[2 * k + 1]]
  {
  }

  /** Stems and branches alternate 阳, 阴 by the parity of their index. */
  lemma PolarityAlternates()
    ensures forall i :: 0 <= i < |TIAN_GAN| ==> TIAN_GAN_YINYANG[TIAN_GAN[i]] == if i % 2 == 0 then Yang else Yin
    ensures forall i :: 0 <= i < |DI_ZHI| ==> DI_ZHI_YINYANG[DI_ZHI[i]] == if i % 2 == 0 then Yang else Yin
  {
  }

  /**
   * An entry of the 60-item list. The list holds 2-tuples, except for one
   * entry written as the bare string '辛亥'; `for tg, dz in ...` unpacks either.
   */
  datatype JiaziEntry = Pair(tg: char, dz: char) | Packed(s: string)

  /** The unpacking `tg, dz = entry`: a tuple gives its parts, a 2-character string its characters; anything else raises. */
  function Unpack(e: JiaziEntry): Option<(char, char)>
  {
    match e
    case Pair(tg, dz) => Some((tg, dz))
    case Packed(s) => if |s| == 2 then Some((s[0], s[1])) else None
  }

  const JIAZI_SEQUENCE: seq<JiaziEntry> :=
    [Pair('甲', '子'), Pair('乙', '丑'), Pair('丙', '寅'), Pair('丁', '卯'), Pair('戊', '辰')] +
    [Pair('己', '巳'), Pair('庚', '午'), Pair('辛', '未'), Pair('壬', '申'), Pair('癸', '酉')] +
    [Pair('甲', '戌'), Pair('乙', '亥'), Pair('丙', '子'), Pair('丁', '丑'), Pair('戊', '寅')] +
    [Pair('己', '卯'), Pair('庚', '辰'), Pair('辛', '巳'), Pair('壬', '午'), Pair('癸', '未')] +
    [Pair('甲', '申'), Pair('乙', '酉'), Pair('丙', '戌'), Pair('丁', '亥'), Pair('戊', '子')] +
    [Pair('己', '丑'), Pair('庚', '寅'), Pair('辛', '卯'), Pair('壬', '辰'), Pair('癸', '巳')] +
    [Pair('甲', '午'), Pair('乙', '未'), Pair('丙', '申'), Pair('丁', '酉'), Pair('戊', '戌')] +
    [Pair('己', '亥'), Pair('庚', '子'), Pair('辛', '丑'), Pair('壬', '寅'), Pair('癸', '卯')] +
    [Pair('甲', '辰'), Pair('乙', '巳'), Pair('丙', '午'), Pair('丁', '未'), Pair('戊', '申')] +
    [Pair('己', '酉'), Pair('庚', '戌'), Packed("辛亥"), Pair('壬', '子'), Pair('癸', '丑')] +
    [Pair('甲', '寅'), Pair('乙', '卯'), Pair('丙', '辰'), Pair('丁', '巳'), Pair('戊', '午')] +
    [Pair('己', '未'), Pair('庚', '申'), Pair('辛', '酉'), Pair('壬', '戌'), Pair('癸', '亥')]

  /** The stem and branch at position `i` of the cycle, stepping both lists together. */
  function CyclePair(i: nat): (char, char)
    requires i < 60
  {
    (TIAN_GAN[i % 10], DI_ZHI[i % 12])
  }

  /** Entry i of the 60-item list unpacks to (TIAN_GAN[i mod 10], DI_ZHI[i mod 12]); this includes the bare string '辛亥' at 47. */
  lemma JiaziSequenceAt(i: nat)
    requires i < 60
    ensures |JIAZI_SEQUENCE| == 60
    ensures Unpack(JIAZI_SEQUENCE[i]) == Some(CyclePair(i))
  {
    if i < 10 { JiaziSequenceRows0(i); }
    else if i < 20 { JiaziSequenceRows1(i); }
    else if i < 30 { JiaziSequenceRows2(i); }
    else if i < 40 { JiaziSequenceRows3(i); }
    else if i < 50 { JiaziSequenceRows4(i); }
    else { JiaziSequenceRows5(i); }
  }

  lemma JiaziSequenceRows0(i: nat)
    requires 0 <= i < 10
    ensures |JIAZI_SEQUENCE| == 60
    ensures Unpack(JIAZI_SEQUENCE[i]) == Some(CyclePair(i))
  {
    match i
    case 0 =>
    case 1 =>
    case 2 =>
    case 3 =>
    case 4 =>
    case 5 =>
    case 6 =>
    case 7 =>
    case 8 =>
    case 9 =>
  }

  lemma JiaziSequenceRows1(i: nat)
    requires 10 <= i < 20
    ensures |JIAZI_SEQUENCE| == 60
    ensures Unpack(JIAZI_SEQUENCE[i]) == Some(CyclePair(i))
  {
    match i
    case 10 =>
    case 11 =>
    case 12 =>
    case 13 =>
    case 14 =>
    case 15 =>
    case 16 =>
    case 17 =>
    case 18 =>
    case 19 =>
  }

  lemma JiaziSequenceRows2(i: nat)
    requires 20 <= i < 30
    ensures |JIAZI_SEQUENCE| == 60
    ensures Unpack(JIAZI_SEQUENCE[i]) == Some(CyclePair(i))
  {
    match i
    case 20 =>
    case 21 =>
    case 22 =>
    case 23 =>
    case 24 =>
    case 25 =>
    case 26 =>
    case 27 =>
    case 28 =>
    case 29 =>
  }

  lemma JiaziSequenceRows3(i: nat)
    requires 30 <= i < 40
    ensures |JIAZI_SEQUENCE| == 60
    ensures Unpack(JIAZI_SEQUENCE[i]) == Some(CyclePair(i))
  {
    match i
    case 30 =>
    case 31 =>
    case 32 =>
    case 33 =>
    case 34 =>
    case 35 =>
    case 36 =>
    case 37 =>
    case 38 =>
    case 39 =>
  }

  lemma JiaziSequenceRows4(i: nat)
    requires 40 <= i < 50
    ensures |JIAZI_SEQUENCE| == 60
    ensures Unpack(JIAZI_SEQUENCE[i]) == Some(CyclePair(i))
  {
    match i
    case 40 =>
    case 41 =>
    case 42 =>
    case 43 =>
    case 44 =>
    case 45 =>
    case 46 =>
    case 47 =>
    case 48 =>
    case 49 =>
  }

  lemma JiaziSequenceRows5(i: nat)
    requires 50 <= i < 60
    ensures |JIAZI_SEQUENCE| == 60
    ensures Unpack(JIAZI_SEQUENCE[i]) == Some(CyclePair(i))
  {
    match i
    case 50 =>
    case 51 =>
    case 52 =>
    case 53 =>
    case 54 =>
    case 55 =>
    case 56 =>
    case 57 =>
    case 58 =>
    case 59 =>
  }

  /** Stepping 10 stems and 12 branches together repeats only after lcm(10, 12) = 60 positions. */
  lemma CycleCoordinatesDetermineIndex(i: nat, j: nat)
    requires i < 60 && j < 60
    requires i % 10 == j % 10 && i % 12 == j % 12
    ensures i == j
  {
    var a := i / 10 - j / 10;
    var b := i / 12 - j / 12;
    assert i - j == 10 * a;
    assert i - j == 12 * b;
    assert -6 < a < 6;
  }

  /** The 60 positions of the cycle carry 60 different (stem, branch) pairs. */
  lemma CyclePairsDistinct(i: nat, j: nat)
    requires i < 60 && j < 60 && i != j
    ensures CyclePair(i) != CyclePair(j)
  {
    SymbolsDistinct();
    if CyclePair(i) == CyclePair(j) {
      assert TIAN_GAN[i % 10] == TIAN_GAN[j % 10];
      assert i % 10 == j % 10;
      assert i % 12 == j % 12;
      CycleCoordinatesDetermineIndex(i, j);
    }
  }

  /** The 60 entries of the list are pairwise distinct once unpacked. */
  lemma JiaziSequenceDistinct(i: nat, j: nat)
    requires i < 60 && j < 60 && i != j
    ensures Unpack(JIAZI_SEQUENCE[i]) != Unpack(JIAZI_SEQUENCE[j])
  {
    JiaziSequenceAt(i);
    JiaziSequenceAt(j);
    CyclePairsDistinct(i, j);
  }

  const STEM_PINYIN: seq<string> := ["jia", "yi", "bing", "ding", "wu", "ji", "geng", "xin", "ren", "gui"]
  const BRANCH_PINYIN: seq<string> := ["zi", "chou", "yin", "mao", "chen", "si", "wu", "wei", "shen", "you", "xu", "hai"]

  /**
   * `convert_jiazi_key`: the dictionary from the 60 pinyin JSON keys such as "jia_zi" to
   * cycle names, read with `mapping.get(key, key)`, so any other key is returned unchanged.
   */
  function ConvertJiaziKey(key: string): string
  {
    match key
    case "jia_zi" => "甲子"
    case "yi_chou" => "乙丑"
    case "bing_yin" => "丙寅"
    case "ding_mao" => "丁卯"
    case "wu_chen" => "戊辰"
    case "ji_si" => "己巳"
    case "geng_wu" => "庚午"
    case "xin_wei" => "辛未"
    case "ren_shen" => "壬申"
    case "gui_you" => "癸酉"
    case "jia_xu" => "甲戌"
    case "yi_hai" => "乙亥"
    case "bing_zi" => "丙子"
    case "ding_chou" => "丁丑"
    case "wu_yin" => "戊寅"
    case "ji_mao" => "己卯"
    case "geng_chen" => "庚辰"
    case "xin_si" => "辛巳"
    case "ren_wu" => "壬午"
    case "gui_wei" => "癸未"
    case "jia_shen" => "甲申"
    case "yi_you" => "乙酉"
    case "bing_xu" => "丙戌"
    case "ding_hai" => "丁亥"
    case "wu_zi" => "戊子"
    case "ji_chou" => "己丑"
    case "geng_yin" => "庚寅"
    case "xin_mao" => "辛卯"
    case "ren_chen" => "壬辰"
    case "gui_si" => "癸巳"
    case "jia_wu" => "甲午"
    case "yi_wei" => "乙未"
    case "bing_shen" => "丙申"
    case "ding_you" => "丁酉"
    case "wu_xu" => "戊戌"
    case "ji_hai" => "己亥"
    case "geng_zi" => "庚子"
    case "xin_chou" => "辛丑"
    case "ren_yin" => "壬寅"
    case "gui_mao" => "癸卯"
    case "jia_chen" => "甲辰"
    case "yi_si" => "乙巳"
    case "bing_wu" => "丙午"
    case "ding_wei" => "丁未"
    case "wu_shen" => "戊申"
    case "ji_you" => "己酉"
    case "geng_xu" => "庚戌"
    case "xin_hai" => "辛亥"
    case "ren_zi" => "壬子"
    case "gui_chou" => "癸丑"
    case "jia_yin" => "甲寅"
    case "yi_mao" => "乙卯"
    case "bing_chen" => "丙辰"
    case "ding_si" => "丁巳"
    case "wu_wu" => "戊午"
    case "ji_wei" => "己未"
    case "geng_shen" => "庚申"
    case "xin_you" => "辛酉"
    case "ren_xu" => "壬戌"
    case "gui_hai" => "癸亥"
    case _ => key
  }

  /** The two-character name 甲子, 乙丑, ... of cycle position `i`. */
  function CycleName(i: nat): string
    requires i < 60
  {
    [TIAN_GAN[i % 10], DI_ZHI[i % 12]]
  }

  /** The pinyin key "<stem syllable>_<branch syllable>" of cycle position `i`. */
  function JiaziKey(i: nat): string
    requires i < 60
  {
    STEM_PINYIN[i % 10] + "_" + BRANCH_PINYIN[i % 12]
  }

  /** The key of every position converts to the name of that position. */
  lemma ConvertJiaziKeyAt(i: nat)
    requires i < 60
    ensures ConvertJiaziKey(JiaziKey(i)) == CycleName(i)
  {
    match i
    case 0 => DictionaryEntry0(); case 1 => DictionaryEntry1(); case 2 => DictionaryEntry2(); case 3 => DictionaryEntry3(); case 4 => DictionaryEntry4();
    case 5 => DictionaryEntry5(); case 6 => DictionaryEntry6(); case 7 => DictionaryEntry7(); case 8 => DictionaryEntry8(); case 9 => DictionaryEntry9();
    case 10 => DictionaryEntry10(); case 11 => DictionaryEntry11(); case 12 => DictionaryEntry12(); case 13 => DictionaryEntry13(); case 14 => DictionaryEntry14();
    case 15 => DictionaryEntry15(); case 16 => DictionaryEntry16(); case 17 => DictionaryEntry17(); case 18 => DictionaryEntry18(); case 19 => DictionaryEntry19();
    case 20 => DictionaryEntry20(); case 21 => DictionaryEntry21(); case 22 => DictionaryEntry22(); case 23 => DictionaryEntry23(); case 24 => DictionaryEntry24();
    case 25 => DictionaryEntry25(); case 26 => DictionaryEntry26(); case 27 => DictionaryEntry27(); case 28 => DictionaryEntry28(); case 29 => DictionaryEntry29();
    case 30 => DictionaryEntry30(); case 31 => DictionaryEntry31(); case 32 => DictionaryEntry32(); case 33 => DictionaryEntry33(); case 34 => DictionaryEntry34();
    case 35 => DictionaryEntry35(); case 36 => DictionaryEntry36(); case 37 => DictionaryEntry37(); case 38 => DictionaryEntry38(); case 39 => DictionaryEntry39();
    case 40 => DictionaryEntry40(); case 41 => DictionaryEntry41(); case 42 => DictionaryEntry42(); case 43 => DictionaryEntry43(); case 44 => DictionaryEntry44();
    case 45 => DictionaryEntry45(); case 46 => DictionaryEntry46(); case 47 => DictionaryEntry47(); case 48 => DictionaryEntry48(); case 49 => DictionaryEntry49();
    case 50 => DictionaryEntry50(); case 51 => DictionaryEntry51(); case 52 => DictionaryEntry52(); case 53 => DictionaryEntry53(); case 54 => DictionaryEntry54();
    case 55 => DictionaryEntry55(); case 56 => DictionaryEntry56(); case 57 => DictionaryEntry57(); case 58 => DictionaryEntry58(); case 59 => DictionaryEntry59();
  }

  /** A key that is none of the 60 pinyin keys comes back unchanged. */
  lemma ConvertOtherKey(key: string)
    requires forall i :: 0 <= i < 60 ==> JiaziKey(i) != key
    ensures ConvertJiaziKey(key) == key
  {
    match key
    case "jia_zi" => DictionaryEntry0(); assert false;
    case "yi_chou" => DictionaryEntry1(); assert false;
    case "bing_yin" => DictionaryEntry2(); assert false;
    case "ding_mao" => DictionaryEntry3(); assert false;
    case "wu_chen" => DictionaryEntry4(); assert false;
    case "ji_si" => DictionaryEntry5(); assert false;
    case "geng_wu" => DictionaryEntry6(); assert false;
    case "xin_wei" => DictionaryEntry7(); assert false;
    case "ren_shen" => DictionaryEntry8(); assert false;
    case "gui_you" => DictionaryEntry9(); assert false;
    case "jia_xu" => DictionaryEntry10(); assert false;
    case "yi_hai" => DictionaryEntry11(); assert false;
    case "bing_zi" => DictionaryEntry12(); assert false;
    case "ding_chou" => DictionaryEntry13(); assert false;
    case "wu_yin" => DictionaryEntry14(); assert false;
    case "ji_mao" => DictionaryEntry15(); assert false;
    case "geng_chen" => DictionaryEntry16(); assert false;
    case "xin_si" => DictionaryEntry17(); assert false;
    case "ren_wu" => DictionaryEntry18(); assert false;
    case "gui_wei" => DictionaryEntry19(); assert false;
    case "jia_shen" => DictionaryEntry20(); assert false;
    case "yi_you" => DictionaryEntry21(); assert false;
    case "bing_xu" => DictionaryEntry22(); assert false;
    case "ding_hai" => DictionaryEntry23(); assert false;
    case "wu_zi" => DictionaryEntry24(); assert false;
    case "ji_chou" => DictionaryEntry25(); assert false;
    case "geng_yin" => DictionaryEntry26(); assert false;
    case "xin_mao" => DictionaryEntry27(); assert false;
    case "ren_chen" => DictionaryEntry28(); assert false;
    case "gui_si" => DictionaryEntry29(); assert false;
    case "jia_wu" => DictionaryEntry30(); assert false;
    case "yi_wei" => DictionaryEntry31(); assert false;
    case "bing_shen" => DictionaryEntry32(); assert false;
    case "ding_you" => DictionaryEntry33(); assert false;
    case "wu_xu" => DictionaryEntry34(); assert false;
    case "ji_hai" => DictionaryEntry35(); assert false;
    case "geng_zi" => DictionaryEntry36(); assert false;
    case "xin_chou" => DictionaryEntry37(); assert false;
    case "ren_yin" => DictionaryEntry38(); assert false;
    case "gui_mao" => DictionaryEntry39(); assert false;
    case "jia_chen" => DictionaryEntry40(); assert false;
    case "yi_si" => DictionaryEntry41(); assert false;
    case "bing_wu" => DictionaryEntry42(); assert false;
    case "ding_wei" => DictionaryEntry43(); assert false;
    case "wu_shen" => DictionaryEntry44(); assert false;
    case "ji_you" => DictionaryEntry45(); assert false;
    case "geng_xu" => DictionaryEntry46(); assert false;
    case "xin_hai" => DictionaryEntry47(); assert false;
    case "ren_zi" => DictionaryEntry48(); assert false;
    case "gui_chou" => DictionaryEntry49(); assert false;
    case "jia_yin" => DictionaryEntry50(); assert false;
    case "yi_mao" => DictionaryEntry51(); assert false;
    case "bing_chen" => DictionaryEntry52(); assert false;
    case "ding_si" => DictionaryEntry53(); assert false;
    case "wu_wu" => DictionaryEntry54(); assert false;
    case "ji_wei" => DictionaryEntry55(); assert false;
    case "geng_shen" => DictionaryEntry56(); assert false;
    case "xin_you" => DictionaryEntry57(); assert false;
    case "ren_xu" => DictionaryEntry58(); assert false;
    case "gui_hai" => DictionaryEntry59(); assert false;
    case _ =>
  }

  // Entry k of the dictionary holds the key of position k and converts it to the name of position k.
  lemma DictionaryEntry0() ensures JiaziKey(0) == "jia_zi" && ConvertJiaziKey("jia_zi") == CycleName(0) {}
  lemma DictionaryEntry1() ensures JiaziKey(1) == "yi_chou" && ConvertJiaziKey("yi_chou") == CycleName(1) {}
  lemma DictionaryEntry2() ensures JiaziKey(2) == "bing_yin" && ConvertJiaziKey("bing_yin") == CycleName(2) {}
  lemma DictionaryEntry3() ensures JiaziKey(3) == "ding_mao" && ConvertJiaziKey("ding_mao") == CycleName(3) {}
  lemma DictionaryEntry4() ensures JiaziKey(4) == "wu_chen" && ConvertJiaziKey("wu_chen") == CycleName(4) {}
  lemma DictionaryEntry5() ensures JiaziKey(5) == "ji_si" && ConvertJiaziKey("ji_si") == CycleName(5) {}
  lemma DictionaryEntry6() ensures JiaziKey(6) == "geng_wu" && ConvertJiaziKey("geng_wu") == CycleName(6) {}
  lemma DictionaryEntry7() ensures JiaziKey(7) == "xin_wei" && ConvertJiaziKey("xin_wei") == CycleName(7) {}
  lemma DictionaryEntry8() ensures JiaziKey(8) == "ren_shen" && ConvertJiaziKey("ren_shen") == CycleName(8) {}
  lemma DictionaryEntry9() ensures JiaziKey(9) == "gui_you" && ConvertJiaziKey("gui_you") == CycleName(9) {}
  lemma DictionaryEntry10() ensures JiaziKey(10) == "jia_xu" && ConvertJiaziKey("jia_xu") == CycleName(10) {}
  lemma DictionaryEntry11() ensures JiaziKey(11) == "yi_hai" && ConvertJiaziKey("yi_hai") == CycleName(11) {}
  lemma DictionaryEntry12() ensures JiaziKey(12) == "bing_zi" && ConvertJiaziKey("bing_zi") == CycleName(12) {}
  lemma DictionaryEntry13() ensures JiaziKey(13) == "ding_chou" && ConvertJiaziKey("ding_chou") == CycleName(13) {}
  lemma DictionaryEntry14() ensures JiaziKey(14) == "wu_yin" && ConvertJiaziKey("wu_yin") == CycleName(14) {}
  lemma DictionaryEntry15() ensures JiaziKey(15) == "ji_mao" && ConvertJiaziKey("ji_mao") == CycleName(15) {}
  lemma DictionaryEntry16() ensures JiaziKey(16) == "geng_chen" && ConvertJiaziKey("geng_chen") == CycleName(16) {}
  lemma DictionaryEntry17() ensures JiaziKey(17) == "xin_si" && ConvertJiaziKey("xin_si") == CycleName(17) {}
  lemma DictionaryEntry18() ensures JiaziKey(18) == "ren_wu" && ConvertJiaziKey("ren_wu") == CycleName(18) {}
  lemma DictionaryEntry19() ensures JiaziKey(19) == "gui_wei" && ConvertJiaziKey("gui_wei") == CycleName(19) {}
  lemma DictionaryEntry20() ensures JiaziKey(20) == "jia_shen" && ConvertJiaziKey("jia_shen") == CycleName(20) {}
  lemma DictionaryEntry21() ensures JiaziKey(21) == "yi_you" && ConvertJiaziKey("yi_you") == CycleName(21) {}
  lemma DictionaryEntry22() ensures JiaziKey(22) == "bing_xu" && ConvertJiaziKey("bing_xu") == CycleName(22) {}
  lemma DictionaryEntry23() ensures JiaziKey(23) == "ding_hai" && ConvertJiaziKey("ding_hai") == CycleName(23) {}
  lemma DictionaryEntry24() ensures JiaziKey(24) == "wu_zi" && ConvertJiaziKey("wu_zi") == CycleName(24) {}
  lemma DictionaryEntry25() ensures JiaziKey(25) == "ji_chou" && ConvertJiaziKey("ji_chou") == CycleName(25) {}
  lemma DictionaryEntry26() ensures JiaziKey(26) == "geng_yin" && ConvertJiaziKey("geng_yin") == CycleName(26) {}
  lemma DictionaryEntry27() ensures JiaziKey(27) == "xin_mao" && ConvertJiaziKey("xin_mao") == CycleName(27) {}
  lemma DictionaryEntry28() ensures JiaziKey(28) == "ren_chen" && ConvertJiaziKey("ren_chen") == CycleName(28) {}
  lemma DictionaryEntry29() ensures JiaziKey(29) == "gui_si" && ConvertJiaziKey("gui_si") == CycleName(29) {}
  lemma DictionaryEntry30() ensures JiaziKey(30) == "jia_wu" && ConvertJiaziKey("jia_wu") == CycleName(30) {}
  lemma DictionaryEntry31() ensures JiaziKey(31) == "yi_wei" && ConvertJiaziKey("yi_wei") == CycleName(31) {}
  lemma DictionaryEntry32() ensures JiaziKey(32) == "bing_shen" && ConvertJiaziKey("bing_shen") == CycleName(32) {}
  lemma DictionaryEntry33() ensures JiaziKey(33) == "ding_you" && ConvertJiaziKey("ding_you") == CycleName(33) {}
  lemma DictionaryEntry34() ensures JiaziKey(34) == "wu_xu" && ConvertJiaziKey("wu_xu") == CycleName(34) {}
  lemma DictionaryEntry35() ensures JiaziKey(35) == "ji_hai" && ConvertJiaziKey("ji_hai") == CycleName(35) {}
  lemma DictionaryEntry36() ensures JiaziKey(36) == "geng_zi" && ConvertJiaziKey("geng_zi") == CycleName(36) {}
  lemma DictionaryEntry37() ensures JiaziKey(37) == "xin_chou" && ConvertJiaziKey("xin_chou") == CycleName(37) {}
  lemma DictionaryEntry38() ensures JiaziKey(38) == "ren_yin" && ConvertJiaziKey("ren_yin") == CycleName(38) {}
  lemma DictionaryEntry39() ensures JiaziKey(39) == "gui_mao" && ConvertJiaziKey("gui_mao") == CycleName(39) {}
  lemma DictionaryEntry40() ensures JiaziKey(40) == "jia_chen" && ConvertJiaziKey("jia_chen") == CycleName(40) {}
  lemma DictionaryEntry41() ensures JiaziKey(41) == "yi_si" && ConvertJiaziKey("yi_si") == CycleName(41) {}
  lemma DictionaryEntry42() ensures JiaziKey(42) == "bing_wu" && ConvertJiaziKey("bing_wu") == CycleName(42) {}
  lemma DictionaryEntry43() ensures JiaziKey(43) == "ding_wei" && ConvertJiaziKey("ding_wei") == CycleName(43) {}
  lemma DictionaryEntry44() ensures JiaziKey(44) == "wu_shen" && ConvertJiaziKey("wu_shen") == CycleName(44) {}
  lemma DictionaryEntry45() ensures JiaziKey(45) == "ji_you" && ConvertJiaziKey("ji_you") == CycleName(45) {}
  lemma DictionaryEntry46() ensures JiaziKey(46) == "geng_xu" && ConvertJiaziKey("geng_xu") == CycleName(46) {}
  lemma DictionaryEntry47() ensures JiaziKey(47) == "xin_hai" && ConvertJiaziKey("xin_hai") == CycleName(47) {}
  lemma DictionaryEntry48() ensures JiaziKey(48) == "ren_zi" && ConvertJiaziKey("ren_zi") == CycleName(48) {}
  lemma DictionaryEntry49() ensures JiaziKey(49) == "gui_chou" && ConvertJiaziKey("gui_chou") == CycleName(49) {}
  lemma DictionaryEntry50() ensures JiaziKey(50) == "jia_yin" && ConvertJiaziKey("jia_yin") == CycleName(50) {}
  lemma DictionaryEntry51() ensures JiaziKey(51) == "yi_mao" && ConvertJiaziKey("yi_mao") == CycleName(51) {}
  lemma DictionaryEntry52() ensures JiaziKey(52) == "bing_chen" && ConvertJiaziKey("bing_chen") == CycleName(52) {}
  lemma DictionaryEntry53() ensures JiaziKey(53) == "ding_si" && ConvertJiaziKey("ding_si") == CycleName(53) {}
  lemma DictionaryEntry54() ensures JiaziKey(54) == "wu_wu" && ConvertJiaziKey("wu_wu") == CycleName(54) {}
  lemma DictionaryEntry55() ensures JiaziKey(55) == "ji_wei" && ConvertJiaziKey("ji_wei") == CycleName(55) {}
  lemma DictionaryEntry56() ensures JiaziKey(56) == "geng_shen" && ConvertJiaziKey("geng_shen") == CycleName(56) {}
  lemma DictionaryEntry57() ensures JiaziKey(57) == "xin_you" && ConvertJiaziKey("xin_you") == CycleName(57) {}
  lemma DictionaryEntry58() ensures JiaziKey(58) == "ren_xu" && ConvertJiaziKey("ren_xu") == CycleName(58) {}
  lemma DictionaryEntry59() ensures JiaziKey(59) == "gui_hai" && ConvertJiaziKey("gui_hai") == CycleName(59) {}

  lemma SplitAtUnderscore(a: string, b: string, c: string, d: string)
    requires '_' !in a && '_' !in c
    requires a + "_" + b == c + "_" + d
    ensures a == c && b == d
  {
    var s := a + "_" + b;
    FirstUnderscore(a, b);
    FirstUnderscore(c, d);
    assert a == s[..|a|];
    assert c == s[..|c|];
    assert b == s[|a| + 1..];
    assert d == s[|c| + 1..];
  }

  /** The first '_' of "a_b" sits right after `a` when `a` has none. */
  lemma FirstUnderscore(a: string, b: string)
    requires '_' !in a
    ensures IndexOf(a + "_" + b, '_') == Some(|a|)
  {
    var s := a + "_" + b;
    assert s[|a|] == '_';
    assert forall k :: 0 <= k < |a| ==> s[k] == a[k];
  }

  lemma SyllablesDistinct()
    ensures NoDuplicates(STEM_PINYIN) && NoDuplicates(BRANCH_PINYIN)
    ensures forall i :: 0 <= i < |STEM_PINYIN| ==> '_' !in STEM_PINYIN[i]
  {
  }

  /** The 60 pinyin keys are pairwise different, so the dictionary literal loses no entry. */
  lemma JiaziKeysDistinct(i: nat, j: nat)
    requires i < 60 && j < 60 && i != j
    ensures JiaziKey(i) != JiaziKey(j)
  {
    if JiaziKey(i) == JiaziKey(j) {
      SyllablesDistinct();
      SplitAtUnderscore(STEM_PINYIN[i % 10], BRANCH_PINYIN[i % 12], STEM_PINYIN[j % 10], BRANCH_PINYIN[j % 12]);
      assert i % 10 == j % 10;
      assert i % 12 == j % 12;
      CycleCoordinatesDetermineIndex(i, j);
    }
  }

  /** Different pinyin keys convert to different cycle names. */
  lemma ConvertJiaziKeyInjective(i: nat, j: nat)
    requires i < 60 && j < 60 && i != j
    ensures ConvertJiaziKey(JiaziKey(i)) != ConvertJiaziKey(JiaziKey(j))
  {
    ConvertJiaziKeyAt(i);
    ConvertJiaziKeyAt(j);
    CyclePairsDistinct(i, j);
    assert CycleName(i)[0] == CyclePair(i).0 && CycleName(i)[1] == CyclePair(i).1;
    assert CycleName(j)[0] == CyclePair(j).0 && CycleName(j)[1] == CyclePair(j).1;
  }

  /** The key of position i converts to the name the i-th entry of the 60-item list unpacks to. */
  lemma ConvertJiaziKeyFollowsSequence(i: nat)
    requires i < 60
    ensures |JIAZI_SEQUENCE| == 60 && |ConvertJiaziKey(JiaziKey(i))| == 2
    ensures Unpack(JIAZI_SEQUENCE[i]) == Some((ConvertJiaziKey(JiaziKey(i))[0], ConvertJiaziKey(JiaziKey(i))[1]))
  {
    ConvertJiaziKeyAt(i);
    JiaziSequenceAt(i);
  }
}
