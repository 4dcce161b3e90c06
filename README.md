# Ganzhi knowledge base: a Dafny model of its core

The repository serves a knowledge base about the sixty-term sexagenary cycle
(六十甲子). Each term pairs one of ten heavenly stems (天干) with one of
twelve earthly branches (地支). This project models four parts of it.

- **The symbol tables and the cycle (module `Symbols`).** These are:
  - the stem and branch attribute tables (element, yin/yang, direction, month);
  - the 60-entry `JIAZI_SEQUENCE`, including its one bare-string entry `'辛亥'`;
  - `convert_jiazi_key`, which turns pinyin keys such as `jia_zi` into names.
- **The Nayin calculator (module `NayinCalc`).** `calc_nayin` validates a
  two-character code. It then derives a Nayin (纳音) name by three methods:
  - position in the cycle (隔八相生法);
  - taixuan weights (太玄数推算法);
  - the river-chart number (河图数直接法).

  Each method returns an optional name and the intermediate values of its
  computation. The try/except fallbacks are modelled as `Option`s.
- **The importer's derivations (modules `ImportData`, `XiangyiImport` and
  `GuanxiImport`).** These cover `import_ganzhi`, `import_nayin`,
  `import_xiangyi` and `import_guanxi`:
  - The database tables an import reads are sequences of rows.
  - The tables it writes are the rows the import method returns.
  - The JSON documents are parameters: ordered lists of key/value entries, in
    the order a Python dictionary iterates.
  - Each import loop is a `method` with its loop invariants. It is proved equal
    to a specification function, and the lemmas state the properties of that
    function.
- **The query functions (modules `Lookups`, `GuanxiQueries`, `ShenshaQueries`,
  `GanzhiQueries` and `NayinQueries`).** These are the CRUD functions over the
  same in-memory tables:
  - `.first()` is the first row in sequence order;
  - `.all()` is store order;
  - `DISTINCT` keeps first occurrences in store order.

  The unique columns of the schema are the predicates `UniqueNames`,
  `UniqueGanzhiIds`, `UniqueNayinGanzhiIds` and `UniqueShensha` in `Models`.
  Only the lemmas that need uniqueness take it as a precondition. The queries
  themselves handle every table.

## Model

| member | source | states |
|---|---|---|
| Symbols.SymbolsDistinct | backend/app/import_data.py:18-35 | The ten stems are pairwise distinct, and so are the twelve branches. |
| Symbols.TablesCoverSymbols | backend/app/import_data.py:18-55 | Each attribute table has exactly the stems, or exactly the branches, as keys. |
| Symbols.StemInTables | backend/app/import_data.py:18-32 | Stem s has an element and a polarity; the polarity is 阳 for even s and 阴 for odd s. |
| Symbols.BranchInTables | backend/app/import_data.py:35-55 | Branch b has an element, a polarity, a direction and a month; the polarity is 阳 for even b and 阴 for odd b. |
| Symbols.StemPairsShareElement | backend/app/import_data.py:19-25 | Stems 2k and 2k+1 have the same element. |
| Symbols.PolarityAlternates | backend/app/import_data.py:26-45 | Stem and branch polarities alternate 阳/阴 by index parity. |
| Symbols.JiaziSequenceAt | backend/app/import_data.py:58-71 | The sequence has 60 entries. Entry i unpacks to (stem i mod 10, branch i mod 12); this includes the bare string '辛亥' at 47. |
| Symbols.CycleCoordinatesDetermineIndex | backend/app/import_data.py:58-71 | Two positions below 60 with the same stem index and the same branch index are equal. |
| Symbols.CyclePairsDistinct | backend/app/import_data.py:58-71 | Distinct positions have distinct (stem, branch) pairs. |
| Symbols.JiaziSequenceDistinct | backend/app/import_data.py:58-71 | The 60 unpacked entries are pairwise distinct. |
| Symbols.ConvertJiaziKeyAt | backend/app/import_data.py:484-501 | The pinyin key of position i converts to the name of position i. |
| Symbols.ConvertOtherKey | backend/app/import_data.py:501 | Any key that is not one of the 60 pinyin keys is returned unchanged. |
| Symbols.JiaziKeysDistinct | backend/app/import_data.py:484-500 | The 60 pinyin keys are pairwise distinct. |
| Symbols.ConvertJiaziKeyInjective | backend/app/import_data.py:484-500 | Distinct keys convert to distinct names. |
| Symbols.ConvertJiaziKeyFollowsSequence | backend/app/import_data.py:484-500 | Key i converts to a two-character name whose characters are JIAZI_SEQUENCE entry i. |
| NayinCalc.CalcNayin | backend/app/crud/nayin.py:194-204 | A length other than 2 gives only "Invalid ganzhi format". A two-character code is an error exactly when its stem or branch is unknown, and that error is "Invalid tiangan or dizhi". A success returns the code, its stem, branch and their two elements, and the three method records. |
| NayinCalc.Methods | backend/app/crud/nayin.py:267-290 | There are exactly three records, named 隔八相生法, 太玄数推算法 and 河图数直接法, in that order. |
| NayinCalc.TaixuanRemainder | backend/app/crud/nayin.py:239-242 | (49 - total) mod 5 always lies in 0..4, so every value is a key of `wuxing_map`. |
| NayinCalc.HetuUnit | backend/app/crud/nayin.py:254-258 | The river-chart number lies in 1..5 and is the total mod 5 (0 read as 5). It is not the decimal units digit. |
| NayinCalc.TablesAgreeWithImporter | backend/app/crud/nayin.py:151-164 | The calculator's own element tables agree with the importer's tables character by character. |
| NayinCalc.WeightsInRange | backend/app/crud/nayin.py:167-173 | A valid code has a stem weight in 5..9, a branch weight in 4..9 and a total in 9..18. |
| NayinCalc.GanzhiOrderAt | backend/app/crud/nayin.py:207-214 | `ganzhi_order` has 60 entries, and entry i is stem i mod 10 followed by branch i mod 12. |
| NayinCalc.GanzhiOrderDistinct | backend/app/crud/nayin.py:207-214 | `ganzhi_order` has no repeated name. |
| NayinCalc.GanzhiOrderMatchesImport | backend/app/crud/nayin.py:207-214 | The calculator's list and the importer's JIAZI_SEQUENCE agree entry by entry. |
| NayinCalc.GanzhiOrderIndexOf | backend/app/crud/nayin.py:216-217 | `ganzhi_order.index` finds cycle name i at position i. |
| NayinCalc.GanzhiOrderMembership | backend/app/crud/nayin.py:216-217 | A code is in `ganzhi_order` iff it is one of the 60 cycle names. |
| NayinCalc.HalfStemIndex | backend/app/crud/nayin.py:220-223 | `nayin_idx` is (idx mod 10) div 2, which lies in 0..4; the `% 6` never changes it. |
| NayinCalc.ElementPosition | backend/app/crud/nayin.py:224-225 | Each element has a position below 5 in [金,木,水,火,土], where it is found. |
| NayinCalc.CycleIndexOfElement | backend/app/crud/nayin.py:224-225 | `wuxing_cycle.index` never raises, and it returns the element's position. |
| NayinCalc.GroupsConcatenateToNames | backend/app/crud/nayin.py:176-192 | The five NAYIN_BY_WUXING groups, in the order 金, 木, 水, 火, 土, concatenate to NAYIN_NAMES. |
| NayinCalc.GroupEntryIsName | backend/app/crud/nayin.py:186-192 | Entry k < 6 of element e's group exists and is NAYIN_NAMES[6·pos(e) + k]. |
| NayinCalc.PositionEntryIsGroupEntry | backend/app/crud/nayin.py:220-228 | Method 1 picks the entry at (inner div 2) of the group of the element (pos(stem element) + inner div 2) mod 5. |
| NayinCalc.StemPairElement | backend/app/crud/nayin.py:151-157 | Stem s has an element, whose position is fixed by its pair s div 2. |
| NayinCalc.PositionEntryByPair | backend/app/crud/nayin.py:224-228 | For each stem pair k, method 1's lookup gives the k-th of 涧下水, 大溪水, 白蜡金, 天河水, 井泉水. |
| NayinCalc.PositionEntryForStem | backend/app/crud/nayin.py:220-228 | Method 1's result depends only on the stem: the name of the stem's pair. |
| NayinCalc.PositionMethodOnCycle | backend/app/crud/nayin.py:216-229 | At cycle position i, method 1 returns the name of stem pair (i mod 10) div 2, with the trace of that step. |
| NayinCalc.HetuFollowsTaixuan | backend/app/crud/nayin.py:240-258 | Method 3's element is always the element that method 2's element generates (相生). |
| NayinCalc.WeightMethodsAt | backend/app/crud/nayin.py:246-263 | Given method 1's index k, methods 2 and 3 return entry k of their elements' groups. |
| NayinCalc.StemAtPosition | backend/app/crud/nayin.py:207-217 | A code found at position i is two characters long and starts with stem i mod 10. |
| NayinCalc.PositionResultByStem | backend/app/crud/nayin.py:216-228 | For a code at position i, method 1's result is the name of stem pair (i mod 10) div 2. |
| NayinCalc.TaixuanResultByTotal | backend/app/crud/nayin.py:234-248 | For a code at position i, method 2's result is name 6·pos(element of the total) + (i mod 10) div 2. |
| NayinCalc.HetuResultByTotal | backend/app/crud/nayin.py:253-262 | For a code at position i, method 3's result is the name at the same in-group index, in the group of the generated element. |
| NayinCalc.ComputableIffCycleName | backend/app/crud/nayin.py:216-265 | For a valid code, every method gives a name iff the code is a cycle name. Otherwise all three describe 无法计算. |
| NayinCalc.OnListComputable | backend/app/crud/nayin.py:216-262 | A code on the list gets a name from all three methods. |
| NayinCalc.OffListUncomputable | backend/app/crud/nayin.py:216-265 | A valid code off the list gets three null results with 无法计算, because `nayin_idx` stays unbound. |
| NayinCalc.ResultsAreNayinNames | backend/app/crud/nayin.py:176-192 | Every non-null result is one of the 30 names. |
| NayinCalc.OnListResultsAreNames | backend/app/crud/nayin.py:176-192 | All three results for a code on the list are among the 30 names. |
| NayinCalc.PositionResultsAreNames | backend/app/crud/nayin.py:176-192 | Each of the five names method 1 can return is one of the 30. |
| NayinCalc.FirstCodeExample | backend/app/crud/nayin.py:216-262 | 甲子 is accepted and gets (涧下水, 霹雳火, 涧下水). |
| NayinCalc.MixedParityIsNoCycleName | backend/app/crud/nayin.py:207-214 | 甲丑 is not one of the 60 cycle names. |
| NayinCalc.NonCycleCodeExample | backend/app/crud/nayin.py:216-265 | 甲丑 passes validation, and the call returns normally with three null results. |
| ImportData.CycleRecords | backend/app/import_data.py:82-110 | The first n records number n. |
| ImportData.CycleRecordsAt | backend/app/import_data.py:82-110 | Record k is the record built from JIAZI_SEQUENCE entry k. |
| ImportData.EntryAt | backend/app/import_data.py:82 | Indexing JIAZI_SEQUENCE at i, and unpacking the entry, gives the cycle pair of position i. |
| ImportData.ImportGanzhi | backend/app/import_data.py:81-110 | The rows built are the 60 cycle records in sequence order. |
| ImportData.CycleRecordName | backend/app/import_data.py:83-101 | Record i is named cycle name i, and that name is `tg + dz`. |
| ImportData.CycleRecordStemColumns | backend/app/import_data.py:85-104 | The element and the polarity come from the stem, and the polarity is 阳/阴 by parity. |
| ImportData.CycleRecordBranchColumns | backend/app/import_data.py:86-106 | The branch element, direction and month come from the branch tables. |
| ImportData.MissingKeysGiveEmpty | backend/app/import_data.py:85-106 | Each table-derived column is '' exactly when its key is missing. |
| ImportData.StemColumnsEmptyIffMissing | backend/app/import_data.py:85-104 | The stem element and polarity texts are '' iff the stem is unknown. |
| ImportData.BranchColumnsEmptyIffMissing | backend/app/import_data.py:86-106 | The branch element, direction and month are '' iff the branch is unknown. |
| ImportData.ImportedNamesUnique | backend/app/import_data.py:82-101 | The 60 imported names are pairwise distinct, which the unique column requires. |
| ImportData.ImportedInCycleOrder | backend/app/import_data.py:82-100 | Record i carries stem i mod 10 and branch i mod 12. |
| ImportData.NameMap | backend/app/import_data.py:126 | `ganzhi_map` has a key exactly for each name some row carries. |
| ImportData.NameMapUnique | backend/app/import_data.py:126 | Under unique names, each row is the value of its own name. |
| ImportData.NameMapHolds | backend/app/import_data.py:126 | Every value of the map is a row of the table with that name. |
| ImportData.NayinWuxingAsWritten | backend/app/import_data.py:158 | As written, nayin_wuxing is '' for an empty name and otherwise its first character. |
| ImportData.NayinElement | backend/app/import_data.py:158 | Corrected: nayin_wuxing is '' for an empty name and otherwise its last character. |
| ImportData.ImportNayin | backend/app/import_data.py:131-163 | The rows are, in entry order, the records of the entries whose converted key names a loaded ganzhi. Each row carries the corrected nayin_wuxing, the last character of the name; see Findings. |
| ImportData.ZhuangtaiFollowsPolarity | backend/app/import_data.py:139-145 | zhuangtai is 旺 for a yang stem, 衰 for a yin stem and 平 for anything else. |
| ImportData.ShengdaValues | backend/app/import_data.py:148-153 | shengda is 长生 or 帝旺 exactly for a real stem, and '' otherwise. |
| ImportData.NayinForRecord | backend/app/import_data.py:134-162 | A produced record points to the row named by the converted key and copies the name and the remark. Its zhuangtai is 旺, 衰 or 平. |
| ImportData.NayinForCycleKey | backend/app/import_data.py:132-136 | The pinyin key of position i yields the record of the row named cycle name i. |
| ImportData.NayinForUnknownKey | backend/app/import_data.py:134-135 | A key that is neither a pinyin key nor a loaded name yields no record. |
| ImportData.ImportedNayinRecords | backend/app/import_data.py:131-163 | Every imported record comes from one of the entries. |
| ImportData.NayinElementOfGroup | backend/app/crud/nayin.py:186-192 | The last character of every group entry is an element. |
| ImportData.NayinElementOfName | backend/app/crud/nayin.py:176-183 | The last character of each of the 30 names is an element. |
| ImportData.NayinRecordElement | backend/app/import_data.py:155-162 | With the corrected column, a record for one of the 30 names gets an element as its nayin_wuxing. |
| ImportData.NayinWuxingAsWrittenIsNoElement | backend/app/import_data.py:158 | As written, 海中金 gets 海, which is no element; the corrected column gets 金. |
| XiangyiImport.AppendContents | backend/app/import_data.py:189-199 | One imagery row per content is appended, in order. |
| XiangyiImport.AppendSymbolRows | backend/app/import_data.py:188-214 | A symbol's core rows are appended first, then its detailed rows category by category. |
| XiangyiImport.AttachSymbol | backend/app/import_data.py:185-215 | A symbol's rows are attached to the first record with that stem (branch) only, and to none when no record has it. |
| XiangyiImport.ImportSide | backend/app/import_data.py:183-215 | The stem (branch) rows are those of each entry in entry order. |
| XiangyiImport.AttachJiazi | backend/app/import_data.py:252-266 | A cycle entry whose converted key names a loaded row gives one core row per content, carrying its remark. |
| XiangyiImport.ImportJiazi | backend/app/import_data.py:250-266 | The cycle rows are those of each entry, in order. |
| XiangyiImport.ImportXiangyi | backend/app/import_data.py:182-268 | The rows are the stem rows, then the branch rows, then the cycle rows. |
| XiangyiImport.HolderAt | backend/app/import_data.py:185-186 | The holder is the record at the first position carrying the symbol. |
| XiangyiImport.HolderNone | backend/app/import_data.py:185-186 | There is no holder iff no record carries the symbol. |
| XiangyiImport.HolderIsFirst | backend/app/import_data.py:185-215 | A holder is one of the records, and it carries the symbol; together with HolderAt it is the first such record. |
| XiangyiImport.ContentRowsAt | backend/app/import_data.py:189-199 | Row k is content k, with the given type, category and description, and source 原文. |
| XiangyiImport.ContentRowsMembership | backend/app/import_data.py:189-199 | A row is produced iff it has that shape and its content is among the contents. |
| XiangyiImport.SymbolRowsMembership | backend/app/import_data.py:188-214 | A symbol row is a core row or a detailed row of that symbol, for that record. |
| XiangyiImport.SideRowsBelongToHolders | backend/app/import_data.py:183-215 | Every stem (branch) row belongs to the holder of some entry's symbol. |
| XiangyiImport.HeldSymbolContributes | backend/app/import_data.py:183-215 | Every row of a held symbol is imported. |
| XiangyiImport.StemHolderInCycleOrder | backend/app/import_data.py:185-215 | On the imported table, stem s attaches to record s. |
| XiangyiImport.EarlierStemDiffers | backend/app/import_data.py:185-186 | On the imported table, no record before s carries stem s. |
| XiangyiImport.BranchHolderInCycleOrder | backend/app/import_data.py:219-247 | On the imported table, branch b attaches to record b. |
| XiangyiImport.EarlierBranchDiffers | backend/app/import_data.py:219-220 | On the imported table, no record before b carries branch b. |
| XiangyiImport.UnknownSymbolHasNoHolder | backend/app/import_data.py:185-186 | On a table in cycle order, a key that is not a stem (branch) attaches nowhere. |
| XiangyiImport.JiaziRowsBelongToNamedRecords | backend/app/import_data.py:251-266 | Every cycle row is a 核心/综合 row of the record named by some converted key, with that entry's content and remark. |
| XiangyiImport.JiaziEntryContributes | backend/app/import_data.py:251-266 | Conversely, each core content of an entry whose converted key names a loaded record is imported. It becomes a 核心/综合 row for that record, carrying the entry's remark. |
| GuanxiImport.ImportEdges | backend/app/import_data.py:399-425 | The edge rows are the loadable edges' rows with duplicate keys dropped (the corrected check against the rows built so far). |
| GuanxiImport.EdgeRowsPrefix | backend/app/import_data.py:399-425 | One more edge adds its row exactly when the filter and the duplicate query let it through. |
| GuanxiImport.EdgeRowsAgainstClearedTable | backend/app/import_data.py:389-425 | As written, every edge whose converted endpoints are both loaded names gives a row, in order: the query to the emptied table never suppresses one. |
| GuanxiImport.DuplicateEdgeImportedTwice | backend/app/import_data.py:412-418 | As written, an edge listed twice is inserted twice; the corrected check inserts it once. |
| GuanxiImport.InsertIfNew | backend/app/import_data.py:412-425 | A row is appended iff no row built so far has its (ganzhi1, ganzhi2, relation_type). |
| GuanxiImport.AddAllNewSnoc | backend/app/import_data.py:412-418 | Checking one more candidate is one more insert-if-new. |
| GuanxiImport.AddAllNewAppend | backend/app/import_data.py:412-418 | Checking a + b equals checking a and then b. |
| GuanxiImport.AddAllNewDistinct | backend/app/import_data.py:412-418 | The corrected check keeps the keys of the built rows pairwise distinct. |
| GuanxiImport.AddIfNewKeepsStored | backend/app/import_data.py:412-418 | A key already stored stays stored. |
| GuanxiImport.AddAllNewCovers | backend/app/import_data.py:412-418 | Every candidate's key is stored afterwards. |
| GuanxiImport.AddAllNewFrom | backend/app/import_data.py:412-418 | Every built row was already there or is a candidate. |
| GuanxiImport.GroupNames | backend/app/import_data.py:429-433 | The dict's keys are the distinct stems (branches) in first-occurrence order, and each key's list is the names with that key, in table order. |
| GuanxiImport.GroupedNamesKeys | backend/app/import_data.py:429-433 | The grouping keeps its keys in first-occurrence order, and a key has a list iff it is a key. |
| GuanxiImport.GroupedNamesAt | backend/app/import_data.py:429-433 | A key is present iff it is one of the distinct keys of the records, and its list is that key's members. |
| GuanxiImport.GroupStepAt | backend/app/import_data.py:431-433 | One step opens the record's key if needed, then appends the record's name to that key's list only. |
| GuanxiImport.MembersAbsent | backend/app/import_data.py:429-433 | A key no record has has no members. |
| GuanxiImport.EmitRow | backend/app/import_data.py:437-451 | The inner loop offers (g_list[i], g_list[j]) for each j > i, in order. |
| GuanxiImport.OfferPair | backend/app/import_data.py:439-451 | One inner step offers the pair (g_list[i], g_list[j]). |
| GuanxiImport.EmitPairs | backend/app/import_data.py:436-451 | The nested loops offer all i < j pairs of one list in row-major order. |
| GuanxiImport.ImportSamePairs | backend/app/import_data.py:435-451 | The pairs are offered group by group, in key order. |
| GuanxiImport.GuanxiRowsInParts | backend/app/import_data.py:396-475 | The import checks the edge rows, then the 同天干 pairs, then the 同地支 pairs, against the rows built so far. |
| GuanxiImport.ImportGuanxi | backend/app/import_data.py:384-479 | The rows inserted are the corrected GuanxiRows for the loaded table and the edges. |
| GuanxiImport.GuanxiRowsDeduplicated | backend/app/import_data.py:412-418 | The corrected rows have distinct keys. Each is a row the import as written inserts, and every such row's key is present. |
| GuanxiImport.PairsFromLength | backend/app/import_data.py:437 | The inner loop for i up to j offers j - i - 1 pairs. |
| GuanxiImport.PairsFromMembership | backend/app/import_data.py:437-446 | The inner loop offers exactly (xs[i], xs[m]) for i < m < j. |
| GuanxiImport.PairsFromHas | backend/app/import_data.py:437-446 | Every m with i < m < j gives the pair (xs[i], xs[m]). |
| GuanxiImport.PairsBeforeLength | backend/app/import_data.py:436-437 | The first i outer rounds offer i(2n - i - 1)/2 pairs. |
| GuanxiImport.PairsBeforeSound | backend/app/import_data.py:436-446 | Each pair offered in the first i rounds is (xs[a], xs[b]) with a < i and a < b. |
| GuanxiImport.PairsBeforeComplete | backend/app/import_data.py:436-446 | Each such (xs[a], xs[b]) is offered. |
| GuanxiImport.PairsBeforeMembership | backend/app/import_data.py:436-446 | Both directions together. |
| GuanxiImport.PairsShape | backend/app/import_data.py:436-446 | A list of n names gives n(n-1)/2 pairs: exactly the (xs[i], xs[j]) with i < j. |
| GuanxiImport.PairsOfDistinct | backend/app/import_data.py:436-446 | On distinct names a pair never joins a name to itself, and it is never offered in both orders. |
| GuanxiImport.PairRowsAgainstClearedTable | backend/app/import_data.py:438-451 | As written, every pair gives a row carrying the relation and an empty remark. |
| GuanxiImport.SideKeysMembership | backend/app/import_data.py:430-432 | Every record's stem (branch) is a key. |
| GuanxiImport.MembersMembership | backend/app/import_data.py:430-433 | A name is in a key's list iff a record with that key has the name. |
| GuanxiImport.MembersDistinct | backend/app/import_data.py:430-433 | Under unique names, a key's list has no repeats. |
| GuanxiImport.MembersDistinctAt | backend/app/import_data.py:430-433 | Under unique names, two positions of a key's list hold different names. |
| GuanxiImport.MembersPositions | backend/app/import_data.py:430-433 | Positions i < j of a key's list come from table positions p < q with that key. |
| GuanxiImport.SamePairRowsExactly | backend/app/import_data.py:429-451 | Under unique names, a same-stem (same-branch) row is emitted iff it joins records p < q sharing the key, in table order, with the relation and ''. |
| GuanxiImport.SamePairRowJoinsRecords | backend/app/import_data.py:429-451 | Every emitted row joins two records p < q that share the key. |
| GuanxiImport.SameKeyRecordsJoined | backend/app/import_data.py:429-451 | Every p < q sharing the key gives a row. |
| GuanxiImport.SameKeyRowJoinsRecords | backend/app/import_data.py:435-451 | Every row of one group joins two records p < q with that key. |
| GuanxiImport.RecordsWithKeyArePaired | backend/app/import_data.py:435-451 | Within one group, every p < q with the key gives a row. |
| Lookups.GanzhiNamed | backend/app/crud/ganzhi.py:17-19 | The result is a row with that name, and it is None iff no row has the name. |
| Lookups.GanzhiWithId | backend/app/crud/ganzhi.py:12-14 | The result is a row with that id, and it is None iff no row has the id. |
| Lookups.ShenshaNamed | backend/app/crud/shensha.py:12-14 | The result is a row with that name, and it is None iff none has it. |
| Lookups.ShenshaWithId | backend/app/crud/shensha.py:17-19 | The result is a row with that id, and it is None iff none has it. |
| Lookups.GanzhiNamedUnique | backend/app/models/__init__.py:13 | Under the unique ganzhi column, looking a row's name up finds that row. |
| Lookups.GanzhiWithIdUnique | backend/app/models/__init__.py:10 | Under the primary key, looking a row's id up finds that row. |
| Lookups.ShenshaNamedUnique | backend/app/models/__init__.py:68 | Under the unique name column, looking a shensha's name up finds it. |
| Lookups.ShenshaWithIdUnique | backend/app/models/__init__.py:67 | Under the primary key, looking a shensha's id up finds it. |
| GuanxiQueries.GetAllGuanxi | backend/app/crud/guanxi.py:7-9 | The result is the slice rows[skip .. skip+limit], cut at the end; it is empty past the end. |
| GuanxiQueries.GetGuanxiByType | backend/app/crud/guanxi.py:17-31 | The loop returns the rows of the type, in store order. |
| GuanxiQueries.ByTypeMembership | backend/app/crud/guanxi.py:19 | A row is listed iff it is a row whose relation_type equals the argument; NULL matches nothing. |
| GuanxiQueries.GetGanzhiPairsByType | backend/app/crud/guanxi.py:82-94 | The loop returns the pairs of the rows of the type, in store order. |
| GuanxiQueries.PairsFollowRelations | backend/app/crud/guanxi.py:82-94 | The pairs correspond one for one to the by-type rows, as (ganzhi1, ganzhi2, remark). |
| GuanxiQueries.OtherGanzhi | backend/app/crud/guanxi.py:43 | The result is one of the two names; {name, other} = {ganzhi1, ganzhi2} for a row touching the name; and it is ganzhi1 whenever ganzhi1 is not the name. |
| GuanxiQueries.GetGuanxiByGanzhi | backend/app/crud/guanxi.py:34-54 | The loop returns the rows touching the name, each with its other_ganzhi, in store order. |
| GuanxiQueries.InvolvingMembership | backend/app/crud/guanxi.py:36-52 | An entry is listed iff its relation is a row with the name on either side and its partner is that row's other_ganzhi. |
| GuanxiQueries.GetGuanxiBetween | backend/app/crud/guanxi.py:57-65 | The result is None iff no row links the two names in either direction; otherwise it is the first linking row. |
| GuanxiQueries.BetweenSymmetric | backend/app/crud/guanxi.py:59-62 | between(a, b) == between(b, a). |
| GuanxiQueries.BetweenIsListedForEachSide | backend/app/crud/guanxi.py:36-43 | The row found between a and b is listed among a's relations, with b as its other_ganzhi. |
| GuanxiQueries.GetRelationTypes | backend/app/crud/guanxi.py:76-79 | No type is listed twice, and a type is listed iff it is non-empty and some row has it; NULL and '' are dropped. |
| GuanxiQueries.ListedTypesAreUsed | backend/app/crud/guanxi.py:76-79 | Every listed type selects at least one row by type. |
| ShenshaQueries.GetShenshaByGanzhi | backend/app/crud/shensha.py:22-47 | The loop returns: nothing for an unknown name; otherwise one entry per link of the ganzhi whose shensha exists, in link order. |
| ShenshaQueries.ShenshaOfLinksMembership | backend/app/crud/shensha.py:29-45 | An entry is listed iff some link gives it. |
| ShenshaQueries.ShenshaEntryGives | backend/app/crud/shensha.py:33-45 | A link gives its shensha with the link's is_zixing when that shensha exists, and nothing otherwise. |
| ShenshaQueries.UnknownGanzhiHasNoShensha | backend/app/crud/shensha.py:24-26 | An unknown ganzhi gets []. |
| ShenshaQueries.GetGanzhiByShensha | backend/app/crud/shensha.py:50-70 | The loop returns: nothing for an unknown shensha; otherwise one entry per link whose ganzhi exists, in link order. |
| ShenshaQueries.UnknownShenshaHasNoGanzhi | backend/app/crud/shensha.py:52-54 | An unknown shensha name gets []. |
| ShenshaQueries.GanzhiOfLinksMembership | backend/app/crud/shensha.py:57-68 | An entry is listed iff some link gives it. |
| ShenshaQueries.GanzhiEntryGives | backend/app/crud/shensha.py:61-68 | A link gives its ganzhi with the link's is_zixing when that ganzhi exists. |
| ShenshaQueries.LinkSeenFromBothSides | backend/app/crud/shensha.py:22-70 | Under the unique keys, a shensha listed for a ganzhi lists that ganzhi back, with the same is_zixing. |
| ShenshaQueries.LinkGivingShensha | backend/app/crud/shensha.py:29-45 | Every listed entry names a link that gives it. |
| ShenshaQueries.LinkGivesGanzhi | backend/app/crud/shensha.py:57-68 | Every link that gives an entry puts it in the list. |
| ShenshaQueries.GetZixingShensha | backend/app/crud/shensha.py:73-99 | The loop, with its `seen` set, returns exactly ZixingShensha: the lookups of the zixing links, de-duplicated by id. |
| ShenshaQueries.ZixingAreLookups | backend/app/crud/shensha.py:85-86 | Every result is what looking its id up finds. |
| ShenshaQueries.ZixingIsDistinctLookups | backend/app/crud/shensha.py:79-97 | The results are the lookups of the zixing links with existing shensha, de-duplicated in first-occurrence order. |
| ShenshaQueries.DedupStep | backend/app/crud/shensha.py:81-87 | One step of the loop keeps the results equal to the de-duplicated lookups of the links so far; a link whose shensha is missing adds nothing. |
| ShenshaQueries.ZixingDistinctIds | backend/app/crud/shensha.py:79-87 | No two results share a shensha id. |
| ShenshaQueries.ZixingMembership | backend/app/crud/shensha.py:76-97 | A shensha is listed iff some zixing link points to it. |
| ShenshaQueries.ZixingEntryIsListed | backend/app/crud/shensha.py:76-97 | A zixing entry of any ganzhi is among the zixing shensha. |
| ShenshaQueries.GetShenshaTypes | backend/app/crud/shensha.py:107-110 | No type is listed twice, and a type is listed iff it is non-empty and some row has it. |
| GanzhiQueries.SearchGanzhi | backend/app/crud/ganzhi.py:22-37 | The total counts all rows matching on ganzhi, tiangan or dizhi, whatever skip and limit are. The page is matches[skip..], min(limit, total - skip) long, and empty when skip reaches the total. |
| GanzhiQueries.MatchingMembership | backend/app/crud/ganzhi.py:28-32 | A row matches iff the query is a substring of one of its three columns. |
| GanzhiQueries.EmptyQueryMatchesAll | backend/app/crud/ganzhi.py:28-35 | The empty query matches every row, and a page as long as the table is the whole table. |
| GanzhiQueries.OwnNameIsFound | backend/app/crud/ganzhi.py:28-34 | Searching a row's own name counts at least one match. |
| GanzhiQueries.LinkedShenshaIdsMembership | backend/app/crud/ganzhi.py:53-56 | An id is collected iff a link of the ganzhi carries it. |
| GanzhiQueries.DetailsOf | backend/app/crud/ganzhi.py:46-66 | The details carry: the row; its first nayin (None iff the row has none); exactly its xiangyi; and exactly its xiji. |
| GanzhiQueries.GetGanzhiWithDetails | backend/app/crud/ganzhi.py:40-45 | The result is None iff no row has the name. Otherwise it is DetailsOf the first row with that name, which is what `.first()` finds. |
| GanzhiQueries.DetailsNayinIsTheRow | backend/app/crud/ganzhi.py:47 | Under the unique Nayin.ganzhi_id, the nayin attached is the ganzhi's one nayin row. |
| GanzhiQueries.DetailsShenshaMembership | backend/app/crud/ganzhi.py:53-57 | A shensha is attached iff it is in the table and some link of the row names its id. |
| GanzhiQueries.DetailsShenshaAgreeWithLinks | backend/app/crud/ganzhi.py:53-57 | Under the unique keys, the attached shensha are those get_shensha_by_ganzhi lists. |
| GanzhiQueries.AttachedShenshaIsListed | backend/app/crud/ganzhi.py:53-57 | A linked shensha in the table shows up in the per-link listing. |
| GanzhiQueries.RelationsFollowByGanzhi | backend/app/crud/ganzhi.py:63-66 | The details' guanxi list is, row for row, the relations get_guanxi_by_ganzhi lists. |
| GanzhiQueries.RelationsOfMembership | backend/app/crud/ganzhi.py:63-66 | A relation is listed iff it is a row with the name on either side. |
| GanzhiQueries.CompareGanzhi | backend/app/crud/ganzhi.py:89-96 | The loop returns the details of the names in input order, dropping unknown names and repeating duplicates. |
| GanzhiQueries.CompareKnownNames | backend/app/crud/ganzhi.py:91-96 | When every name is known, there is one result per name, in input order, each for its name. |
| GanzhiQueries.CompareMembership | backend/app/crud/ganzhi.py:91-96 | A result is listed iff it is the details of one of the input names. |
| NayinQueries.Grouped | backend/app/crud/nayin.py:62-79 | Every group's key is in the insertion order. |
| NayinQueries.GetAllNayinCategories | backend/app/crud/nayin.py:57-81 | The loop builds the grouping in insertion order. |
| NayinQueries.GroupedAt | backend/app/crud/nayin.py:63-79 | A name is a key iff some row has it. Its name, wuxing and strength come from the first row with that name, and its list holds the entry of every row with that name whose ganzhi exists. |
| NayinQueries.ListOfUnnamed | backend/app/crud/nayin.py:72-79 | A name no row has collects no entries. |
| NayinQueries.GroupedOrder | backend/app/crud/nayin.py:63-70 | The keys are the distinct names in first-occurrence order, and each has a group. |
| NayinQueries.FirstNamedExists | backend/app/crud/nayin.py:64-70 | A first row with a name exists iff the name appears in the column. |
| NayinQueries.ListOfMembership | backend/app/crud/nayin.py:72-79 | An entry is in a name's list iff a row with that name whose ganzhi exists yields it. |
| NayinQueries.GetNayinByCategory | backend/app/crud/nayin.py:84-114 | "shengda" gives the entries of the 长生/帝旺 rows with an existing ganzhi, in store order; "xiaoruo" and every other word give []. |
| NayinQueries.StrongMembership | backend/app/crud/nayin.py:89-112 | An entry is listed iff a strong row with an existing ganzhi yields it; so every entry is 长生 or 帝旺. |
| NayinQueries.ImportedRecordIsStrong | backend/app/crud/nayin.py:89-93 | Every record the importer writes for a real stem is strong, so "shengda" selects it. |

## Left out

- The database layer is not modelled: sessions, `delete`, `add_all`, `commit`, `rollback` and SQL spelling. Tables are ordered sequences, and the order of `.all()` is taken to be sequence order. Ids assigned on insert appear as the placeholder `UNASSIGNED_ID` in the rows an import builds, and the import steps that re-read a table take it as a parameter.
- The routers, `main.py`, the schemas and the admin import/export are web plumbing and are not part of this model; neither is the frontend.
- `import_data.main`: the JSON file loading, the module globals and the printed progress messages are left out. The loaded documents are parameters, in dictionary iteration order.
- Xiangyi `confidence`: the constant float field 1.0 is not part of the row datatype.
- `contains()`: substring search is modelled; SQL `LIKE` wildcards, case folding and collation are not.
- NayinCalc: the trace strings are the tuples of the values they show; the Chinese text and formatting are left out, and so is the unused `base_idx`.
- The filter that the store applies before a loop is fused with the loop into one pass. This applies in GetGuanxiByType, GetGanzhiPairsByType, GetGuanxiByGanzhi and GetNayinByCategory. The result is the same rows in the same order.
- `get_nayin_by_ganzhi`, `get_ganzhi_by_nayin`, `get_status_list`, `get_nayin_by_status`, `get_all_shensha`, `get_shensha_by_type`, `get_ganzhi_list`, `get_all_ganzhi_names`, `get_guanxi_by_id`, `import_shensha` and `import_xiji` are not part of this model. They lie outside the modelled core.
- GuanxiImport.ImportGuanxi: it uses the corrected duplicate check (see Findings), and so do the loop methods it runs: GuanxiImport.ImportEdges, GuanxiImport.InsertIfNew, GuanxiImport.EmitRow, GuanxiImport.OfferPair, GuanxiImport.EmitPairs and GuanxiImport.ImportSamePairs. GuanxiImport.GuanxiRowsInParts states the same corrected check. The code as written is GuanxiRowsAsWritten, and the lemmas beside that function relate the two.
- ImportData.ImportNayin: its rows carry the corrected nayin_wuxing column, the last character of the name, through ImportData.NayinRecord (see Findings). The code as written stores the first character, which is ImportData.NayinWuxingAsWritten.
- GuanxiImport: the counts for the imported cycle table are not stated beyond PairsShape's n(n-1)/2 per group. Those counts are 6 names per stem giving 150 pairs, and 5 names per branch giving 120.

## Findings

| source | as written | input that shows it | evidently intended | confidence | as-written member | corrected member |
|---|---|---|---|---|---|---|
| backend/app/import_data.py:158 | nayin_wuxing is the first character of the nayin name | 海中金 gets 海, which is not one of the five elements | the element of the nayin, which each of the 30 names carries as its last character (金 for 海中金) | not executed | ImportData.NayinWuxingAsWrittenIsNoElement | ImportData.NayinRecordElement |
| backend/app/import_data.py:389 | the duplicate query for edges (412-418) and for same-stem/same-branch pairs (439-443, 463-467) is put to the Guanxi table, which was just emptied, and never to the pending `guanxi_list` | an edge list naming the same loadable edge twice: both copies are inserted | each (ganzhi1, ganzhi2, relation_type) inserted at most once | not executed | GuanxiImport.DuplicateEdgeImportedTwice | GuanxiImport.GuanxiRowsDeduplicated |
