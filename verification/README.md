# mahjong_core in Dafny

A model of the hand-evaluation engine of `mahjong_core`, the Riichi mahjong
library of this repository, together with its small codecs and its turn state
machine. Each source file becomes one module, and so does each large concern
inside `shanten.rs` and `agari.rs`:

| module | file | what it models |
|---|---|---|
| `Wrappers` | wrappers.dfy | `Option` and `Result`; a panic or an `Err` of the source is a `None`/`Err` here |
| `Tiles` | tiles.dfy | `PaiT` (kind `pai_num`, copy `id`), its order, `sort_unstable`, `is_valid`, integer sums |
| `Melds` | melds.dfy | `Mentsu`, `MentsuPai`, `MentsuType`, `MentsuFlag` and the canonical pair, run and triplet |
| `Shanten` | shanten.dfy | `shanten`, `tahtsu_koritsu_count`, `mentsu_count`, `PaiState::{from, init, append, get_shanten_case, get_shanten}` |
| `ShantenSearch` | shanten_search.dfy | the two extremes `mentsu_count` returns, against every leaf of its search |
| `ShantenComplete` | shanten_complete.dfy | a complete hand has shanten -1 |
| `Enumerate` | enumerate.dfy | `all_of_suit_mentsu`, `all_of_mentsu_without_atama`, `all_of_mentsu` |
| `Machi` | machi.dfy | `is_tanki`, `is_kanchan`, `is_penchan`, `add_machi_to_mentsu` |
| `AgariBuild` | agari.dfy | the `get_agari` builder of `AgariState`: tallies, counters and fu |
| `Yaku` | yaku.dfy | the yaku checks, `get_yaku_list`, the score of `AgariState::get_agari`, `dora_pai_num`, `get_dora_yaku`, `get_condition_yaku`, `get_best_agari` |
| `LoadPailist` | load_pailist.dfy | `str_to_pais`, `str_to_fulo`, `parse_tehai_string`, the packed tile-id decode |
| `PlayLog` | play_log.dfy | `num_to_hai` and its round trip through `str_to_pais` |
| `FbsUtils` | fbs_utils.dfy | `FixedStringT` from/into bytes, `BahaiT::{get, search}`, the deck of `create_shuffled` |
| `GameProcess` | game_process.dfy | `create`, `next_cursol`, `get_zikaze`, `start`, `sutehai`, `tsumo_agari`, `action`, the dora slices |

The generated flatbuffer records are plain datatypes holding only the fields
the code reads or writes. Count vectors are `seq<int>`. The mutate-and-restore
recursion of the source is written as recursion on value copies, so "the
counts are unchanged afterwards" holds by construction. Most panics the
source can reach are error values: an `unwrap` on a non-digit, a `u8`
underflow, an index past the wall or the dora area, or a `copy_from_slice`
of the wrong length. The same goes for the `Err` results. Three indexing
panics deep in the evaluator are preconditions instead: a tile kind of 34 or
more in `PaiState::from`/`append`, in the pair and set tallies of
`get_agari`, and in the wind lookups of the round- and seat-wind checks. `GameProcess.TsumoAgari`
tests each of them before it evaluates and answers `Panic` where they fail
(see Left out).

Three places in the source evidently do not do what their authors meant (see
Findings). The model states both the code as written and the corrected
behaviour. `is_valid` is called nowhere in the modelled code. The other two
sit on the path of a self-drawn win, so that path takes a `Version`:
`AsWritten` is the source and `Corrected` applies both fixes.
`AgariBuild.GetAgari`, the yaku evaluation up to `Yaku.GetBestAgari`, and
`GameProcess.TsumoAgari` all take it, and their lemmas hold for both
versions. `GameProcess.Action` uses `AsWritten`, as the source does.

## Model

| member | source | states |
|---|---|---|
| `Tiles.IsValidAsWrittenIff` | mahjong_core/src/shanten.rs:427-440 | `is_valid` as written rejects a tile exactly when its id is 4 or more or its kind is 33 or more |
| `Tiles.IsValidAsWrittenRejectsChun` | mahjong_core/src/shanten.rs:435 | the red dragon, kind 33, is a real kind but `is_valid` as written rejects it |
| `Tiles.IsValidCorrected` | mahjong_core/src/shanten.rs:427-440 | the corrected test accepts exactly the 34 kinds with ids 0 to 3, and agrees with the written one on every kind but 33 |
| `Tiles.Sort` | mahjong_core/src/game_process.rs:66 | `sort_unstable`: the result is ordered by (kind, id) and is a permutation of the input |
| `Tiles.Insert` | mahjong_core/src/game_process.rs:103 | inserting into a sorted hand keeps it sorted and adds exactly that tile |
| `Melds.CanonicalKinds` | mahjong_core/src/shanten.rs:113-226 | the pair, run and triplet built by the enumerator hold kinds k,k / k,k+1,k+2 / k,k,k |
| `Shanten.ShantenNumber` | mahjong_core/src/shanten.rs:14-34 | for non-negative counts the shanten number lies in [-1, 13], is -1 exactly with a pair and at least four groups, and is never negative without a pair |
| `Shanten.ShantenNumberMonotone` | mahjong_core/src/shanten.rs:14-34 | one more completed group never raises the shanten number |
| `Shanten.TahtsuKoritsuCount` | mahjong_core/src/shanten.rs:36-52 | both returned triples are equal, have no groups, and account for every tile of the suit (2·partials + isolated = tiles) |
| `Shanten.MentsuCount` | mahjong_core/src/shanten.rs:54-96 | both extremes are non-negative and account for every tile (3·groups + 2·partials + isolated = tiles) |
| `Shanten.HonorTripleCounts` | mahjong_core/src/shanten.rs:371-380 | honour groups are the kinds held 3 or more times, partial groups the kinds held twice, isolated tiles the singles |
| `Shanten.Append` | mahjong_core/src/shanten.rs:348-359 | `append` adds one to exactly the tile's own cell and to nothing else |
| `Shanten.FromTiles` | mahjong_core/src/shanten.rs:318-346 | `from`/`init`: every cell is the number of tiles of that kind, and the cells sum to the number of tiles |
| `Shanten.CandidatesBounded` | mahjong_core/src/shanten.rs:361-390 | every one of the eight suit combinations scores at least -1 with a pair and at least 0 without |
| `Shanten.ShantenCase` | mahjong_core/src/shanten.rs:361-390 | the case value is at most 13, at least -1, and at least 0 without a pair |
| `Shanten.ShantenCaseIsMin` | mahjong_core/src/shanten.rs:361-390 | the case value is the minimum of the eight suit combinations, or the starting 13 |
| `Shanten.MinFrom` | mahjong_core/src/shanten.rs:369-387 | the running minimum is at most the start and every candidate, and equals one of them |
| `Shanten.RemovePair` | mahjong_core/src/shanten.rs:400-417 | taking a pair out lowers exactly that kind's cell by two |
| `Shanten.PairLoopLower` | mahjong_core/src/shanten.rs:396-420 | the pair loop's result is at most the case value of every pair it tries |
| `Shanten.PairLoopWitness` | mahjong_core/src/shanten.rs:396-420 | a result below the no-pair value is the case value of some pair that was really held |
| `Shanten.PairLoopCovers` | mahjong_core/src/shanten.rs:392-423 | a loop over an order holding every kind bounds every held pair and is at least -1 |
| `Shanten.PairOrderCovers` | mahjong_core/src/shanten.rs:396-419 | the rank-major order m, p, s, z of `get_shanten` visits all 34 kinds |
| `Shanten.GetShanten` | mahjong_core/src/shanten.rs:392-423 | the shanten is at most the no-pair case and every case with a held pair removed, at least -1, and below 0 only when a pair is held |
| `ShantenSearch.MentsuCountExtremal` | mahjong_core/src/shanten.rs:54-96 | entry 0 has the fewest isolated tiles (ties: fewest partials) and entry 1 the most groups (ties: most partials) among all leaves of the search |
| `ShantenSearch.BetterExtremal` | mahjong_core/src/shanten.rs:72-77 | merging two branch results keeps the extremes of both branches |
| `ShantenSearch.BumpPreservesExtremes` | mahjong_core/src/shanten.rs:63-69 | counting the extracted group in every leaf keeps the extremes |
| `ShantenSearch.MentsuCountBeatsSkip` | mahjong_core/src/shanten.rs:59 | neither extreme is worse than the "skip this rank" branch |
| `ShantenComplete.MostMentsuDominatesBranches` | mahjong_core/src/shanten.rs:54-96 | the most-groups extreme counts at least the groups of the skip branch, and one more than a run or triplet branch |
| `ShantenComplete.MentsuCountFindsGroups` | mahjong_core/src/shanten.rs:54-96 | if the suit holds a given set of runs and triplets, the search finds at least that many groups |
| `ShantenComplete.CompleteHandShanten` | mahjong_core/src/shanten.rs:392-423 | a hand holding a pair and, with its declared melds, four groups has shanten -1 |
| `Enumerate.Prepend` | mahjong_core/src/shanten.rs:131-137 | every listed decomposition gets the new meld in front, in order |
| `Enumerate.AllOfSuitMentsu` | mahjong_core/src/shanten.rs:99-174 | the list of suit decompositions is never empty |
| `Enumerate.AllOfSuitMentsuCase` | mahjong_core/src/shanten.rs:120-170 | each listed decomposition is empty, a run at the current rank plus a decomposition of the rest, or a triplet there plus one |
| `Enumerate.AllOfSuitMentsuSound` | mahjong_core/src/shanten.rs:99-174 | every listed decomposition is made of runs and triplets of the suit that the counts hold |
| `Enumerate.AllOfSuitMentsuComplete` | mahjong_core/src/shanten.rs:99-174 | every exact cover of the suit by runs and triplets is listed, up to the order of its groups |
| `Enumerate.Cross` | mahjong_core/src/shanten.rs:176-210 | the product of two non-empty lists is non-empty |
| `Enumerate.CrossMember` | mahjong_core/src/shanten.rs:176-210 | every concatenation of a member of each list is in the product |
| `Enumerate.CrossSplit` | mahjong_core/src/shanten.rs:176-210 | every member of the product is such a concatenation |
| `Enumerate.AllOfMentsuWithoutAtama` | mahjong_core/src/shanten.rs:176-210 | the list of whole-hand decompositions is never empty |
| `Enumerate.WithoutAtamaSplit` | mahjong_core/src/shanten.rs:176-210 | each whole-hand decomposition is a man, a pin and a sou decomposition followed by the honour triplets |
| `Enumerate.WithoutAtamaSound` | mahjong_core/src/shanten.rs:176-210 | each whole-hand decomposition is made of groups the hand holds |
| `Enumerate.AllOfMentsuPairOrder` | mahjong_core/src/shanten.rs:214-310 | the pair candidates are 34 kinds |
| `Enumerate.AllOfMentsuPairOrderCovers` | mahjong_core/src/shanten.rs:214-310 | every kind is tried as the pair |
| `Enumerate.KeepLong` | mahjong_core/src/shanten.rs:311-314 | a decomposition is kept exactly when its length plus the declared melds is at least 5 |
| `Enumerate.AllOfMentsuSound` | mahjong_core/src/shanten.rs:212-315 | every result starts with one pair of a kind held twice, has length plus declared melds at least 5, and the rest are groups the hand holds after the pair |
| `Enumerate.AllOfMentsuComplete` | mahjong_core/src/shanten.rs:212-315 | every standard hand is listed, with its pair first and as many groups as it has |
| `Enumerate.PairsFromSplit` | mahjong_core/src/shanten.rs:214-310 | every result of the pair loop is a held pair followed by a decomposition of the rest |
| `Enumerate.PairsFromMember` | mahjong_core/src/shanten.rs:214-310 | every decomposition after any tried pair is in the result |
| `Machi.FirstAgari` | mahjong_core/src/agari.rs:53-58 | finds the first slot flagged as the winning tile, and fails exactly when none is |
| `Machi.TankiIffFlagged` | mahjong_core/src/agari.rs:53-58 | `is_tanki` holds exactly when some slot carries the winning flag |
| `Machi.RunWaits` | mahjong_core/src/agari.rs:60-90 | a run won on slot j is kanchan exactly for the middle tile and penchan exactly for the 3 of 1-2-3 or the 7 of 7-8-9 |
| `Machi.MarkAgari` | mahjong_core/src/agari.rs:127-131 | marking sets the winning flag on one slot and changes nothing else |
| `Machi.FirstMatch` | mahjong_core/src/agari.rs:119-125 | finds the first slot of the tile's kind, and fails exactly when none is |
| `Machi.Holding` | mahjong_core/src/agari.rs:116-140 | lists, in increasing order, exactly the melds that hold the tile |
| `Machi.AddMachiAppend` | mahjong_core/src/agari.rs:111-152 | the result for two lists is the results for each, in order |
| `Machi.DroppedWithoutTile` | mahjong_core/src/agari.rs:111-152 | a decomposition with no meld holding the tile yields nothing |
| `Machi.AddMachiSound` | mahjong_core/src/agari.rs:111-152 | every result is an input decomposition with one meld's first matching slot flagged and nothing else changed |
| `Machi.AddMachiComplete` | mahjong_core/src/agari.rs:111-152 | every (decomposition, meld holding the tile) pair yields a result |
| `Machi.CorrectedFlagsRealTile` | mahjong_core/src/agari.rs:111-152 | with the corrected scan, the flagged slot is a real tile of the winning kind and becomes the meld's winning slot |
| `Machi.AsWrittenFlagsPadding` | mahjong_core/src/agari.rs:119-125 | as written, winning on 1m flags the empty third slot of a 1p pair and calls it a single wait; the corrected scan flags only the 1-2-3m run |
| `Machi.AddMachiSample` | mahjong_core/src/agari.rs:111-152 | two decompositions and the tile 3m give three results, in order, each with one meld flagged |
| `AgariBuild.Initial` | mahjong_core/src/agari.rs:191-215 | the builder starts at 20 fu, self-drawn, not pinfu, concealed exactly without declared melds, with every tally and counter at zero, no single wait, no kokushi or churen flag, and the given round and seat winds |
| `AgariBuild.PairWindFuAsWritten` | mahjong_core/src/agari.rs:226-235 | as written, pair fu lies in 0 to 6 |
| `AgariBuild.PairWindFu` | mahjong_core/src/agari.rs:226-235 | corrected pair fu lies in 0 to 6 |
| `AgariBuild.PairWindFuMeaning` | mahjong_core/src/agari.rs:226-235 | a wind pair earns 2 fu for each of the round and seat wind it is; a dragon pair earns exactly 2 |
| `AgariBuild.PairWindFuAsWrittenMisses` | mahjong_core/src/agari.rs:227-230 | as written the East pair earns no round fu in the East round, the South pair does, and the white dragon earns North seat fu |
| `AgariBuild.AddPair` | mahjong_core/src/agari.rs:219-251 | a pair adds one to the pair count and to its kind's pair tally and leaves the other counters alone |
| `AgariBuild.AddSet` | mahjong_core/src/agari.rs:252-289 | a triplet or quad adds its base fu, doubled for terminals and honours, and one to its kind's triplet tally |
| `AgariBuild.RunYaochuMeaning` | mahjong_core/src/agari.rs:290-322 | a run counts towards terminals exactly when it starts or ends on a terminal |
| `AgariBuild.AddRun` | mahjong_core/src/agari.rs:290-322 | a run adds its wait fu and one to its starting kind's run tally |
| `AgariBuild.RoundUp10` | mahjong_core/src/agari.rs:484 | rounding up gives the least multiple of 10 not below the input |
| `AgariBuild.Finish` | mahjong_core/src/agari.rs:468-487 | finishing changes only the fu and the pinfu flag |
| `AgariBuild.AddConcealedDelta` | mahjong_core/src/agari.rs:217-322 | what one concealed meld adds to each counter and tally |
| `AgariBuild.AddDeclaredDelta` | mahjong_core/src/agari.rs:326-463 | what one declared meld adds to each counter and tally |
| `AgariBuild.TallyConcealedCounts` | mahjong_core/src/agari.rs:217-322 | the concealed melds add one count per meld of each type |
| `AgariBuild.TallyDeclaredCounts` | mahjong_core/src/agari.rs:326-463 | the declared melds add one count per meld of each type, quads counted as triplets too |
| `AgariBuild.TallyConcealedHonours` | mahjong_core/src/agari.rs:217-262 | the concealed melds add one honour per honour pair or triplet, and set the single-wait flag exactly for a pair that is the wait |
| `AgariBuild.TallyDeclaredHonours` | mahjong_core/src/agari.rs:326-463 | the declared melds add one honour per honour triplet or quad and leave the single-wait flag alone |
| `AgariBuild.GetAgariCounts` | mahjong_core/src/agari.rs:190-490 | for either version: the state is concealed exactly without declared melds, each counter is the number of melds of its type, the honour count is the number of honour pairs, triplets and quads, and the single-wait flag is set exactly when a concealed pair is the wait |
| `AgariBuild.TalliedFu` | mahjong_core/src/agari.rs:191-466 | for either version, before finishing the fu is at least 20 |
| `AgariBuild.FinishFu` | mahjong_core/src/agari.rs:468-487 | seven pairs give exactly 25 fu; otherwise pinfu is a concealed hand with base fu only, and the fu is rounded up after the 2 tsumo fu |
| `AgariBuild.GetAgariFu` | mahjong_core/src/agari.rs:190-490 | for either version, the builder's fu, with pinfu exactly for a concealed hand whose melds added no fu |
| `AgariBuild.EastPairCountedTwice` | mahjong_core/src/agari.rs:238-250 | under either version the East pair adds 2 to the terminal count, the South pair 1 |
| `AgariBuild.TallyConcealedYaochu` | mahjong_core/src/agari.rs:217-322 | the terminal count stays put exactly when every concealed meld is simple |
| `AgariBuild.TallyDeclaredYaochu` | mahjong_core/src/agari.rs:326-463 | the terminal count stays put exactly when every declared meld is simple |
| `AgariBuild.NoYaochuIffSimple` | mahjong_core/src/agari.rs:190-490 | for either version, the terminal count is 0 exactly when every meld is simple |
| `AgariBuild.TallyConcealedFu` | mahjong_core/src/agari.rs:217-322 | for either version, the concealed melds add no fu exactly when each is a two-sided run, or a pair that is not the wait, not a dragon and matches neither wind under that version's wind test (`num % 7` as written) |
| `AgariBuild.PinfuMeaning` | mahjong_core/src/agari.rs:190-487 | for either version, pinfu holds exactly for a concealed hand, not seven pairs, whose concealed melds all add no fu under that version's wind test |
| `Yaku.ChecksRanked` | mahjong_core/src/agari.rs:1014-1048 | the 32 checks come in `check_list` order, and each gives a yaku of its own rank whose han is negative exactly for a yakuman |
| `Yaku.FlatOrdered` | mahjong_core/src/agari.rs:1050 | flattening ranked checks gives yaku in strictly increasing rank |
| `Yaku.FlatMember` | mahjong_core/src/agari.rs:1050 | a yaku is in the flattened list exactly when some check gave it |
| `Yaku.YakuListOrdered` | mahjong_core/src/agari.rs:1014-1051 | `get_yaku_list` lists no yaku twice, in `check_list` order, with yakuman exactly the negative entries |
| `Yaku.ListedAtRank` | mahjong_core/src/agari.rs:1014-1051 | a yaku is listed exactly when the check of its rank gave it |
| `Yaku.TanyaoListed` | mahjong_core/src/agari.rs:590-596 | tanyao is listed exactly when the terminal count is 0 |
| `Yaku.TanyaoIffSimples` | mahjong_core/src/agari.rs:590-596 | for either version, tanyao is listed exactly when every meld is simple |
| `Yaku.PinfuListed` | mahjong_core/src/agari.rs:598-604 | pinfu is listed exactly when the state says pinfu |
| `Yaku.PinfuIffFuFree` | mahjong_core/src/agari.rs:598-604 | for either version, pinfu is listed exactly for a concealed hand, not seven pairs, whose melds add no fu under that version's wind test |
| `Yaku.ExclusiveYaku` | mahjong_core/src/agari.rs:652-918 | iipeikou and ryampeikou, chanta and junchan, honitsu and chinitsu, chanta and honroutou, shosangen and daisangen are never awarded together |
| `Yaku.YakuHanTable` | mahjong_core/src/agari.rs:582-1010 | every listed yaku carries its han from the table: 2/1, 3/2 and 6/5 for concealed/open, -2 for double yakuman, -1 for the others |
| `Yaku.YakumanSumSign` | mahjong_core/src/agari.rs:1061 | the yakuman sum is never positive, and negative exactly when some yaku is |
| `Yaku.YakumanFilter` | mahjong_core/src/agari.rs:1068 | the yakuman filter keeps exactly the negative entries |
| `Yaku.ScoreYakuman` | mahjong_core/src/agari.rs:1064-1068 | with a yakuman the score is a positive multiple of 32000, fu and han are 0, and only yakuman are kept |
| `Yaku.ScoreRegular` | mahjong_core/src/agari.rs:1069-1085 | without yakuman the score keeps every yaku, the state's fu and the han sum, and follows the limit table |
| `Yaku.LimitScoreBands` | mahjong_core/src/agari.rs:1074-1085 | the score is a multiple of 100, at most 8000 below 6 han, and 12000, 16000, 24000 or 32000 from 6 han |
| `Yaku.LimitScoreMonotone` | mahjong_core/src/agari.rs:1074-1085 | more fu or more han never lowers the score |
| `Yaku.LimitScoreSamples` | mahjong_core/src/agari.rs:1083-1084 | 30 fu 1 han is 1000, 30 fu 3 han 3900, 40 fu 4 han is capped at 8000 |
| `Yaku.DoraPaiNumCycle` | mahjong_core/src/agari.rs:154-170 | the indicated kind is the next one of its suit, 9 wrapping to 1, winds and dragons cycling |
| `Yaku.DoraIndicator` | mahjong_core/src/agari.rs:154-170 | the inverse of the indicated-kind map stays within the 34 kinds |
| `Yaku.DoraPaiNumBijective` | mahjong_core/src/agari.rs:154-170 | the indicated-kind map is a permutation of the 34 kinds, inverted by the indicator map |
| `Yaku.MeldDoraKinds` | mahjong_core/src/agari.rs:514-526 | counting dora meld by meld is counting them over the used slots of all melds |
| `Yaku.DoraSwap` | mahjong_core/src/agari.rs:514-526 | counting per tile over the indicators equals counting per indicator over the tiles |
| `Yaku.DoraYaku` | mahjong_core/src/agari.rs:501-552 | at most two entries, dora and uradora, each with a positive count |
| `Yaku.DoraYakuCounts` | mahjong_core/src/agari.rs:501-552 | dora is listed exactly when indicated tiles plus nukidora are positive, with that count; uradora only under riichi, likewise |
| `Yaku.ConditionYaku` | mahjong_core/src/agari.rs:492-499 | riichi and ippatsu are listed exactly when the player has them, and nothing else is |
| `Yaku.LastBest` | mahjong_core/src/agari.rs:565 | `max_by_key` picks a maximal score, the last of equal maxima |
| `Yaku.EvaluateAll` | mahjong_core/src/agari.rs:561-566 | one evaluated result per decomposition, in order |
| `Yaku.GetBestAgari` | mahjong_core/src/agari.rs:554-577 | `Err` exactly when there is no decomposition |
| `Yaku.GetBestAgariBest` | mahjong_core/src/agari.rs:554-577 | for either version, the result is the evaluation of some decomposition, scores at least every other, and beats every later one |
| `LoadPailist.PaisFrom` | mahjong_core/src/load_pailist.rs:23-47 | the parse has one tile per digit, each with id 0 and a kind below 36 |
| `LoadPailist.PaisFromSome` | mahjong_core/src/load_pailist.rs:23-47 | the parse fails exactly when some character is neither a suit letter nor a digit that names a tile in the suit in force there |
| `LoadPailist.PaisFromAppend` | mahjong_core/src/load_pailist.rs:23-47 | parsing a concatenation parses the second part in the suit the first leaves |
| `LoadPailist.StrToPaisAt` | mahjong_core/src/load_pailist.rs:27-42 | the digit at each position gives the tile suit·9 + digit − 1 of the suit in force there |
| `LoadPailist.FuloFromReadsTiles` | mahjong_core/src/load_pailist.rs:54-78 | the marker loop writes the digits' kinds in order and flags the previous tile at each marker |
| `LoadPailist.StrToFuloMeaning` | mahjong_core/src/load_pailist.rs:49-89 | a meld parses exactly when its tiles parse, number at most 4 and no marker comes first; four tiles are a minkan with a marker and an ankan without, otherwise a triplet exactly when the first two kinds agree |
| `LoadPailist.StrToFuloChii` | mahjong_core/src/load_pailist.rs:49-89 | "m3-45" is a run of 3m 4m 5m with 3m taken from the left |
| `LoadPailist.StrToFuloPon` | mahjong_core/src/load_pailist.rs:49-89 | "p55=5" is a triplet of 5p with the second taken from across |
| `LoadPailist.StrToFuloKan` | mahjong_core/src/load_pailist.rs:80-81 | "z1111" is a concealed quad of East |
| `LoadPailist.StrToFuloOpenKan` | mahjong_core/src/load_pailist.rs:80-81 | "s777+7" is an open quad |
| `LoadPailist.StrToFuloOutOfBounds` | mahjong_core/src/load_pailist.rs:60-75 | a marker before any tile, or a fifth tile, fails |
| `LoadPailist.Split` | mahjong_core/src/load_pailist.rs:94 | `split(",")` gives at least one field, none holding a comma |
| `LoadPailist.JoinSplit` | mahjong_core/src/load_pailist.rs:94 | joining the fields with commas restores the string |
| `LoadPailist.SplitJoin` | mahjong_core/src/load_pailist.rs:94 | splitting comma-free fields joined with commas gives them back |
| `LoadPailist.ParseTehaiString` | mahjong_core/src/load_pailist.rs:93-103 | succeeds exactly when the first field parses as tiles and every later one as a meld; the tiles replace the hand and the melds are appended in order |
| `LoadPailist.ParseTehaiJoined` | mahjong_core/src/load_pailist.rs:93-103 | a hand and melds joined with commas parse back to exactly those tiles and melds |
| `LoadPailist.DecodePacked` | mahjong_core/src/load_pailist.rs:155-195 | the decoded kind is below 256 and the copy below 4 |
| `LoadPailist.PackedRoundTrip` | mahjong_core/src/load_pailist.rs:155-195 | decoding an encoded tile gives it back, and encoding a decoded id gives the id back modulo 1024 |
| `LoadPailist.PackedDeckNumbers` | mahjong_core/src/load_pailist.rs:155-164 | the ids 0 to 135 decode to valid tiles of kind id / 4 |
| `PlayLog.NumToHaiSkipsNone` | mahjong_core/src/play_log.rs:28-29 | absent entries contribute nothing |
| `PlayLog.NumToHaiFails` | mahjong_core/src/play_log.rs:30-34 | the serialiser fails exactly when some present id indexes past the four suit letters |
| `PlayLog.NumToHaiDeck` | mahjong_core/src/play_log.rs:23-52 | ids below 144 always serialise |
| `PlayLog.DigitOf` | mahjong_core/src/play_log.rs:37-45 | the digit is 0 or `pn % 36 / 4 + 1` |
| `PlayLog.NumToHaiRoundTrip` | mahjong_core/src/play_log.rs:23-52 | without red fives, parsing the string back gives the kinds id / 4 of the present ids, in order |
| `PlayLog.ReadBackMatchesPacked` | mahjong_core/src/play_log.rs:23-52 | for ids below 136 the kinds read back agree with the packed decode |
| `PlayLog.NumToHaiSamples` | mahjong_core/src/play_log.rs:23-52 | suit letters are written only when the suit changes, the first always |
| `PlayLog.RedFiveNotReadBack` | mahjong_core/src/play_log.rs:40-45 | a red five is written as 0, which the parser rejects in m and reads as 9m in p |
| `PlayLog.NoSuitQuirk` | mahjong_core/src/play_log.rs:26 | the starting suit 255 means an id whose suit is 255 gets no letter, while an id of suit 4 fails |
| `FbsUtils.From` | mahjong_core/src/fbs_utils.rs:4-73 | succeeds exactly when the length is a multiple of 32 or at least 256, and copies the chunks in order |
| `FbsUtils.FromChunks` | mahjong_core/src/fbs_utils.rs:9-69 | the chunk loop stops at the first missing chunk and panics on a short one |
| `FbsUtils.Into` | mahjong_core/src/fbs_utils.rs:75-90 | the bytes are always 256 |
| `FbsUtils.FromInto` | mahjong_core/src/fbs_utils.rs:4-90 | byte p of the round trip is byte p of the input, or 0 past its end |
| `FbsUtils.FromIntoShapes` | mahjong_core/src/fbs_utils.rs:4-90 | a 32k-byte input comes back padded with zeros; a longer one is cut to 256 bytes |
| `FbsUtils.IntoFrom` | mahjong_core/src/fbs_utils.rs:4-90 | converting a fixed string to bytes and back is the identity |
| `FbsUtils.Get` | mahjong_core/src/fbs_utils.rs:180-198 | `get(i)` succeeds exactly below 136 and reads the i-th tile of the wall |
| `FbsUtils.Position` | mahjong_core/src/fbs_utils.rs:162 | `position` finds the first occurrence, and fails exactly when there is none |
| `FbsUtils.SearchFirst` | mahjong_core/src/fbs_utils.rs:161-178 | `search` finds the first occurrence in the whole wall, and fails exactly when the tile is absent |
| `FbsUtils.SearchIsPosition` | mahjong_core/src/fbs_utils.rs:161-178 | searching the five segments in turn is searching their concatenation |
| `FbsUtils.GetSearch` | mahjong_core/src/fbs_utils.rs:161-198 | the tile at the searched index is the tile searched for |
| `FbsUtils.DeckContents` | mahjong_core/src/fbs_utils.rs:123-127 | the deck holds each kind below 34 with ids 1 to 4, once each |
| `FbsUtils.DeckAgainstIsValid` | mahjong_core/src/fbs_utils.rs:123-127 | the deck's tiles with id 4 fail the validity test |
| `FbsUtils.CreateShuffled` | mahjong_core/src/fbs_utils.rs:133-142 | the five segments hold the shuffled order |
| `FbsUtils.ShuffledWall` | mahjong_core/src/fbs_utils.rs:115-145 | any shuffled wall holds the deck, every deck tile can be found, and the last slot can be read |
| `GameProcess.Create` | mahjong_core/src/game_process.rs:11-18 | records the player count and gives exactly the seated players 25000 points; fails where a seat is missing |
| `GameProcess.NextCursol` | mahjong_core/src/game_process.rs:28-34 | advances the shared cursor when tiles are not duplicated, otherwise only the player to move's cursor, failing when that player has no seat |
| `GameProcess.ToU32` | mahjong_core/src/game_process.rs:40-42 | `as u32` keeps values already in range |
| `GameProcess.ZikazeIsSeatFromDealer` | mahjong_core/src/game_process.rs:36-44 | the seat wind is the seat's distance from the dealer modulo the player count, and the dealer's is 0 |
| `GameProcess.ZikazeNextSeat` | mahjong_core/src/game_process.rs:36-44 | the next seat has the next wind |
| `GameProcess.GetRange` | mahjong_core/src/game_process.rs:63 | a wall range succeeds exactly when it lies inside the wall |
| `GameProcess.DealtHand` | mahjong_core/src/game_process.rs:63-71 | a dealt hand is the 13 tiles of its range, sorted, or the old hand when the range is missing |
| `GameProcess.DealFrom` | mahjong_core/src/game_process.rs:52-74 | the deal fails exactly where a seat past the player array would be written |
| `GameProcess.DealFromDeals` | mahjong_core/src/game_process.rs:52-74 | dealing from a seat onwards deals each remaining seat and touches nothing else |
| `GameProcess.StartDeals` | mahjong_core/src/game_process.rs:46-75 | `start` sets one dora and no uradora, deals every seat its 13 sorted tiles at its cursor, and moves the cursors by 13 |
| `GameProcess.SeatRangesDisjoint` | mahjong_core/src/game_process.rs:56 | the four seats' starting ranges do not overlap and fit in the 136-tile wall |
| `GameProcess.Sutehai` | mahjong_core/src/game_process.rs:96-120 | succeeds exactly when there is a player to move, the index is at most 13 and the discard row has room |
| `GameProcess.DiscardKeepsTiles` | mahjong_core/src/game_process.rs:97-115 | the new hand plus the discard is the old hand plus the drawn tile; discarding the drawn tile keeps the hand, discarding a hand tile leaves it sorted; the discard lands in the next slot; the draw is reset |
| `GameProcess.SutehaiKeepsTiles` | mahjong_core/src/game_process.rs:96-115 | whenever the player to move can discard, `sutehai` succeeds and does the same to that player |
| `GameProcess.SutehaiPassesTurn` | mahjong_core/src/game_process.rs:116-119 | whenever the player to move can discard, the turn passes to the next seat cyclically and no other player changes |
| `GameProcess.TsumoAgari` | mahjong_core/src/game_process.rs:122-142 | a self-drawn win is settled, refused or a panic, and never hands over to a draw |
| `GameProcess.TsumoAgariRefused` | mahjong_core/src/game_process.rs:122-135 | for either version, the win is refused exactly when no decomposition holds the drawn tile, and is otherwise scored over those decompositions |
| `GameProcess.SettleNeverRefuses` | mahjong_core/src/game_process.rs:135 | scoring a non-empty set of decompositions is never refused |
| `GameProcess.AwardScorable` | mahjong_core/src/game_process.rs:135 | a scored win could evaluate every decomposition, and the best was found |
| `GameProcess.AwardScores` | mahjong_core/src/game_process.rs:135-139 | for either version, a scored win adds the best score of that version to the player to move |
| `GameProcess.CreditOnlyWinner` | mahjong_core/src/game_process.rs:139 | only the winner's score changes, by exactly the points |
| `GameProcess.Action` | mahjong_core/src/game_process.rs:144-174 | from another player, sync is a no-op and discard or win is refused as "not teban"; from the player to move, discard is `sutehai` |
| `GameProcess.Dora` | mahjong_core/src/game_process.rs:190-192 | the dora slice exists exactly when it fits in the first segment, and has the dora count's length |
| `GameProcess.Uradora` | mahjong_core/src/game_process.rs:194-196 | the same for the uradora slice from slot 5 |
| `GameProcess.CopyInto` | mahjong_core/src/game_process.rs:176-188 | copying writes the tiles at their slots of the first segment and changes nothing else |
| `GameProcess.CopyDora` | mahjong_core/src/game_process.rs:176-181 | copying the dora fails exactly when they overrun the first segment |
| `GameProcess.CopyUradora` | mahjong_core/src/game_process.rs:183-188 | copying the uradora fails exactly when they overrun the first segment |
| `GameProcess.CopyThenGet` | mahjong_core/src/game_process.rs:176-196 | reading the dora (uradora) after copying them gives them back |
| `GameProcess.UradoraKeepsDora` | mahjong_core/src/game_process.rs:176-196 | copying at most five dora, then uradora, leaves the dora readable |

## Left out

- Parquet and Arrow I/O (`save_to_parquet`, `write_to_parquet`, `load_pailist`, `load_agari_tehai`, the column plumbing of `get_row_with_types`). This is file I/O through external libraries. Only the packed-id arithmetic inside it is modelled.
- The shuffle in `create_shuffled`. Randomness is not modelled: the shuffled order is a parameter of `FbsUtils.CreateShuffled`, and `FbsUtils.ShuffledWall` assumes it is a permutation of the deck.
- `TakuT` is not part of this model. Its `get_range` is taken to fail exactly outside the wall (`GameProcess.GetRange`), and the wall is one flat sequence whose first 32 tiles are `n1`.
- `tsumo()` reads the wall through `TakuT`. It and the `todo!()` arms of `action` (chii, pon, kan, nagashi) are left out: `GameProcess.Action` answers `Draw` for a sync from the player to move and `Panic` for the `todo!()` arms.
- The foreign-function layers, the terminal client, the procedural macros and the generated flatbuffer code. These are outside the engine.
- Japanese yaku names, `KAZE_STR` and the `println!` of `tsumo_agari` are display only. Yaku are an enumeration (chanta and junchan share a display name in the source; here they are distinct).
- `PaiT`'s `is_nakare`, `is_riichi` and `is_tsumogiri` flags are left out, because the modelled code never sets them. So `search` compares kind and copy only.
- Fixed-width integers are unbounded, except where wrap-around is written out (`as u32` in `get_zikaze`, `as u8` on the winds in `get_agari`). The counts of a real game stay far below the widths: cursors, scores, `kawahai_len` and `teban`.
- `Shanten.Append`: a tile kind of 34 or more is excluded by a precondition, where the source panics on the index. `GameProcess.TsumoAgari` answers `Panic` for such a hand.
- `Shanten.FromTiles`: a tile kind of 34 or more is excluded by a precondition, as for `Shanten.Append`.
- `AgariBuild.GetAgari`: a pair, triplet or quad of kind 34 or more is excluded by a precondition (`ConcealedIndexable`, `DeclaredIndexable`), where the source panics on the tally index. `Yaku.Scorable` includes the test and `GameProcess.TsumoAgari` answers `Panic` when it fails.
- `Yaku.YakuList`: a round or seat wind that overruns the honour triplet tally, or the four-entry wind name table when that wind's triplet is held, is excluded by a precondition (`WindsIndexable`), where the source panics. `GameProcess.TsumoAgari` answers `Panic` in that case.
- `kokushi` and `churen` are never set by `get_agari`, and the model keeps them false. So kokushi musou and chuuren poutou are never awarded, as in the source.
- `GameProcess.TsumoAgari`: the contract states only that no tile is drawn. What the win does is stated by `GameProcess.TsumoAgariRefused`, `GameProcess.AwardScores` and `GameProcess.CreditOnlyWinner`.
- `Yaku.GetBestAgari`: the contract states only when it fails. That the result is a best evaluation is stated by `Yaku.GetBestAgariBest`.
- `Shanten.ShantenCase` and `Shanten.GetShanten` bound the value from both sides, but do not state which combination attains it. That is stated by `Shanten.ShantenCaseIsMin` and `Shanten.PairLoopWitness`.
- `AgariBuild.PairWindFuAsWritten` and `AgariBuild.PairWindFu`: their contracts give only the range. Their meaning is stated by `AgariBuild.PairWindFuMeaning` and `AgariBuild.PairWindFuAsWrittenMisses`.
- `GameProcess.CopyDora` and `GameProcess.CopyUradora`: the contracts give only when the copy fails. What is written is stated by `GameProcess.CopyInto` and `GameProcess.CopyThenGet`.
- `LoadPailist.DecodePacked`: the contract gives only the ranges. `LoadPailist.PackedRoundTrip` states that it inverts the encoding.
- `FbsUtils.Into`: the contract gives only the length. `FbsUtils.FromInto` and `FbsUtils.IntoFrom` state its contents.
- The East pair is counted twice towards the terminal count (`AgariBuild.EastPairCountedTwice`), and `str_to_fulo` never sets `pai_len`, so parsed melds hold no dora. Both are kept as written.

## Findings

| source | as written | input that shows it | evidently intended | confidence | as-written member | corrected member |
|---|---|---|---|---|---|---|
| mahjong_core/src/shanten.rs:435 | `is_valid` rejects kinds `>= 33` | the red dragon `Pai(33, 0)` is rejected | reject kinds `>= 34`, the number of kinds | not executed | `Tiles.IsValidAsWrittenRejectsChun` | `Tiles.IsValidCorrected` |
| mahjong_core/src/agari.rs:227-230 | a wind or dragon pair earns round/seat fu when `num % 7` equals the wind | East pair (27) in the East round earns nothing; South pair (28) earns East-round fu; white dragon (31) earns North-seat fu | compare the wind index `num - 27` | not executed | `AgariBuild.PairWindFuAsWrittenMisses` | `AgariBuild.PairWindFuMeaning` |
| mahjong_core/src/agari.rs:119-125 | the winning tile is searched in all four slots of a meld, padding included | winning on 1m (kind 0) with a 1p pair in the hand flags the pair's empty third slot, whose padding kind is 0 | search only the first `pai_len` slots | not executed | `Machi.AsWrittenFlagsPadding` | `Machi.CorrectedFlagsRealTile` |
