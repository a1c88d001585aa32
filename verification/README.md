# Advent of Code 2023, days 2–16, in Dafny

A Dafny model of the puzzle solutions in Macil/deno-advent2023 (TypeScript,
run with Deno), days 2, 3, 4, 5, 7, 8, 9, 10, 11, 12, 13, 14, 15 and 16, and
of the two helpers they share: `lib/Coordinate.ts` (grid coordinates and the
Manhattan distance) and `lib/ComplexKeyMap.ts` (a `Map` keyed by a
projection of its keys).

Each source file is one module (`day_11.ts` is `Day11` in `day11.dfy`). The
puzzle examples that the source's `Deno.test` blocks assert are example
lemmas in a separate module per day where they need many steps
(`Day8Examples`, `Day10Examples`, `Day11Examples`, `Day12Examples`,
`Day14Examples`; `Day8Strays` holds one more day 8 network, on which a
pather walks off the network). Otherwise they sit at the end of the day's own module.
The shared modules are:

- `Outcomes`: the `Option` and `Result` types that stand for `undefined` and
  a thrown `Error`.
- `Text`: string splitting, trimming and decimal numbers, as
  `String.prototype.split`, `trim` and `Number` use them.
- `Multiples`: the greatest common divisor and least common multiple of the
  third-party maths package that day 8 uses.

Each module has three kinds of member:

- Each pure source function is a Dafny function. Its properties are lemmas
  and `ensures` clauses.
- Each loop that updates variables is a method proved against a
  specification function.
- Each class whose methods update its fields is a Dafny class. These are
  `ComplexKeyMap`, day 8's `PathFollower` and day 16's `World`. The grid of
  day 14 is an `array2<char>` that is tilted in place.

## Model

| member | source | states |
|---|---|---|
| Coordinates.Add | lib/Coordinate.ts:16-18 | the sum differs from the first coordinate by exactly the second, component by component |
| Coordinates.Equals | lib/Coordinate.ts:19-21 | `equals` holds exactly when the two coordinates are the same value |
| Coordinates.Clone | lib/Coordinate.ts:25-27 | the clone equals the original |
| Coordinates.FromString | lib/Coordinate.ts:8-15 | anything but exactly two comma-separated parts is the error "Invalid coordinate string."; otherwise the coordinate of the two parts read by `Number`, exactly when both read as numbers |
| Coordinates.FromStringToString | lib/Coordinate.ts:8-15 | parsing the text form of any coordinate gives that coordinate back |
| Coordinates.ToString | lib/Coordinate.ts:22-24 | the definition of `toString`; `FromStringToString` and `ToStringInjective` state that it is a faithful text form |
| Coordinates.ToStringInjective | lib/Coordinate.ts:22-24 | two coordinates have the same text form exactly when they are equal, so the text form is a faithful map key |
| Coordinates.ManhattanDistance | lib/Coordinate.ts:30-32 | the distance is 0 exactly for equal points and is at least the horizontal gap |
| Coordinates.ManhattanSymmetric | lib/Coordinate.ts:30-32 | the distance is symmetric |
| Coordinates.ManhattanTriangle | lib/Coordinate.ts:30-32 | the distance obeys the triangle inequality |
| Coordinates.ManhattanTranslation | lib/Coordinate.ts:16-18 | moving both points by the same offset keeps their distance |
| ComplexKeyMaps.Put | lib/ComplexKeyMap.ts:44-48 | `set` keeps the store consistent: each projected key once in the order, each entry under its key's projection |
| ComplexKeyMaps.RemoveKey | lib/ComplexKeyMap.ts:23-26 | taking a key out of the iteration order removes exactly that key, keeps the others distinct and shortens the order by one when it was there |
| ComplexKeyMaps.Remove | lib/ComplexKeyMap.ts:23-26 | `delete` keeps the store consistent |
| ComplexKeyMaps.PutAll | lib/ComplexKeyMap.ts:11-19 | setting a list of pairs in order keeps the store consistent |
| ComplexKeyMaps.LookupAfterPut | lib/ComplexKeyMap.ts:35-48 | `get` after `set` of any key with the same projection returns the value just set |
| ComplexKeyMaps.LookupUnaffectedByPut | lib/ComplexKeyMap.ts:35-48 | `set` leaves the entry and presence of every other projected key unchanged |
| ComplexKeyMaps.Lookup | lib/ComplexKeyMap.ts:35-39 | the definition of `get` on a store; its properties are `LookupAfterPut`, `LookupUnaffectedByPut` and the contract of `ComplexKeyMap.Get` |
| ComplexKeyMaps.LaterDuplicatesWin | lib/ComplexKeyMap.ts:11-19 | when the constructor's entries repeat a projected key, the last pair wins; the order once that pair is set is a prefix of the final order, so the key keeps the place it was given when first set |
| ComplexKeyMaps.PutAllExtendsOrder | lib/ComplexKeyMap.ts:17-19 | setting more pairs only appends to the iteration order, so every projected key keeps its position |
| ComplexKeyMaps.ComplexKeyMap.constructor | lib/ComplexKeyMap.ts:11-19 | the new map holds the entries set one by one in order |
| ComplexKeyMaps.ComplexKeyMap.Clear | lib/ComplexKeyMap.ts:20-22 | the map is empty afterwards |
| ComplexKeyMaps.ComplexKeyMap.Delete | lib/ComplexKeyMap.ts:23-26 | reports whether the key's projection was present, and removes only that entry |
| ComplexKeyMaps.ComplexKeyMap.Get | lib/ComplexKeyMap.ts:35-39 | returns a value exactly when `has` holds, namely the value stored under the key's projection |
| ComplexKeyMaps.ComplexKeyMap.Has | lib/ComplexKeyMap.ts:40-43 | the definition: the key's projection is in the map; `Get`, `Set` and `Delete` state their results in terms of it |
| ComplexKeyMaps.ComplexKeyMap.Set | lib/ComplexKeyMap.ts:44-48 | afterwards `get` returns the new value, and the store is the old one with that entry put |
| ComplexKeyMaps.ComplexKeyMap.Size | lib/ComplexKeyMap.ts:49-51 | the size is the number of distinct projected keys |
| ComplexKeyMaps.ComplexKeyMap.Entries | lib/ComplexKeyMap.ts:52-54 | one entry per projected key, in insertion order, holding the last key set and its value |
| ComplexKeyMaps.ComplexKeyMap.Keys | lib/ComplexKeyMap.ts:55-59 | one key per entry, in insertion order, each the key object stored by the last `set` of that projection |
| ComplexKeyMaps.ComplexKeyMap.Values | lib/ComplexKeyMap.ts:60-64 | one value per entry, in insertion order, each what `get` returns for that entry's key |
| Text.Split | day_2.ts:16 | `split` always gives at least one part |
| Text.NatToString | lib/Coordinate.ts:22-24 | the decimal text of a natural number is a non-empty run of digits |
| Text.TrimEnd | day_2.ts:16 | `trimEnd` removes exactly the trailing whitespace, leaving a prefix that does not end in whitespace |
| Text.TrimStart | day_2.ts:22 | `trimStart` removes exactly the leading whitespace, leaving a suffix that does not start with whitespace |
| Text.Find | lib/Coordinate.ts:9 | the index found is the first occurrence of the separator; none means the separator occurs nowhere |
| Text.JoinAppend | lib/Coordinate.ts:9 | joining two non-empty lists one after the other puts the separator between their joins |
| Text.SplitJoin | lib/Coordinate.ts:9 | splitting on a character gives back the parts that were joined with it, when no part holds that character |
| Text.SplitTwo | lib/Coordinate.ts:10-13 | a split into exactly two parts is the two parts around one separator |
| Text.DigitsValueOfNatToString | lib/Coordinate.ts:22-24 | the decimal digits of a natural number read back as that number |
| Text.IntToStringRoundTrip | lib/Coordinate.ts:13 | `Number` of the decimal text of an integer is that integer, and that text holds no comma |
| Text.NumberOf | lib/Coordinate.ts:13 | `Number` of text that is empty after trimming is 0, of a run of digits is their decimal value, and of any other text the trimmed text, with a leading `+` dropped, read as a signed decimal integer (nothing when it is not one) |
| Text.SignedNumber | day_5.ts:58 | a `-` or `+` before digits, with whitespace around, reads as the negative or positive value of the digits |
| Text.PadTrims | day_5.ts:58 | whitespace around text that neither starts nor ends in whitespace is trimmed off |
| Text.TrimEndPad | day_5.ts:58 | trailing whitespace after text that does not end in whitespace is trimmed off |
| Text.TrimStartPad | day_5.ts:58 | leading whitespace before text that does not start with whitespace is trimmed off |
| Text.SignlessOf | lib/Coordinate.ts:13 | a `+` before digits is dropped, and text without a leading `+` is left as it is |
| Text.NoWhitespaceTrims | lib/Coordinate.ts:13 | trimming a run of digits leaves it unchanged |
| Day2.WithComponent | day_2.ts:23 | storing a count under a colour changes that colour only |
| Day2.ParseSubset | day_2.ts:19-26 | the loop that fills a subset gives each colour the count of the last part naming it |
| Day2.LastCountSource | day_2.ts:20-24 | a colour no part names stays 0; a named colour takes the count of a part that names it |
| Day2.Part1Append | day_2.ts:31-40 | the filter-and-sum of `part1` splits over a concatenation of game lists |
| Day2.Part1 | day_2.ts:31-40 | the definition of the filter-and-sum; its properties are `Part1Append`, `Part1Bound` and `ExamplePart1` |
| Day2.Part1Bound | day_2.ts:31-40 | with non-negative ids the answer is between 0 and the sum of all ids, and equals that sum when every game is possible |
| Day2.MinimumOfIsLeast | day_2.ts:42-50 | the smallest bag holds every subset, and each colour is 0 or reached by some subset, so no smaller bag works |
| Day2.MinimumSubset | day_2.ts:42-50 | the nested loops compute the componentwise maximum of the subsets |
| Day2.Power | day_2.ts:52-54 | the power of a bag is 0 exactly when it holds no cube of some colour |
| Day2.PowerZeroIffColourMissing | day_2.ts:52-54 | the power of the smallest bag is 0 exactly when some colour appears in no subset |
| Day2.ExamplePart1 | day_2.ts:77-79 | on the example games, `part1` is 8 |
| Day2.ExampleMinimums | day_2.ts:42-50 | the smallest bags of the five example games |
| Day2.ExamplePart2 | day_2.ts:81-83 | on the example games, `part2` is 2286 |
| Day2.Part2 | day_2.ts:56-62 | the definition of the sum of powers; its value on the example is `ExamplePart2`, and `PowerZeroIffColourMissing` says which games add nothing |
| Day3.Parse | day_3.ts:23-25 | the trimmed input always splits into at least one line |
| Day3.SearchEnd | day_3.ts:42-46 | the end of the searched slice is clamped to the line and not before its start, as `slice` clamps it |
| Day3.SymbolsBetweenExactly | day_3.ts:43-49 | a cell is found on a row exactly when it holds a symbol of the class between the slice bounds |
| Day3.SymbolsBetweenOrdered | day_3.ts:47-49 | the matches of one row come left to right |
| Day3.RowSymbolsExactly | day_3.ts:38-49 | a row yields exactly the symbols of the rectangle on that row; a missing or empty row yields none |
| Day3.RowsSymbolsExactly | day_3.ts:33-50 | the first rows of the three searched hold exactly the symbols of the rectangle on those rows |
| Day3.RowsSymbolsOrdered | day_3.ts:33-50 | the rows are searched top to bottom, so the symbols come in row-major order |
| Day3.NeighborsExactly | day_3.ts:27-51 | `getNumberSymbolNeighbors` yields exactly the symbols of the class in the rectangle around the number, each once, in row-major order |
| Day3.GetNumberSymbolNeighbors | day_3.ts:27-51 | the row loop yields the neighbours the specification function lists |
| Day3.ScanRow | day_3.ts:47-49 | the scan of one slice finds its symbol cells left to right |
| Day3.NumberHasSymbolNeighbors | day_3.ts:53-71 | the result is true exactly when some cell of the rectangle holds a symbol, which is when the search yields anything |
| Day3.RunEnd | day_3.ts:77 | a run of digits ends at the end of the line or at a non-digit |
| Day3.NumberMatchesAreRuns | day_3.ts:77 | `matchAll(/[0-9]+/g)` finds maximal runs of digits, left to right and apart, that together cover every digit of the line |
| Day3.Part1 | day_3.ts:73-87 | `part1` sums the values of the matches that have a symbol in their rectangle, in reading order |
| Day3.CollectPartNumbers | day_3.ts:77-84 | the loop over one line's matches pushes the value of exactly those with a symbol around them |
| Day3.SumOf | day_3.ts:86 | the reduction computes the sum |
| Day3.AddAllAppend | day_3.ts:93-113 | adding two runs of incidences to the gear map is adding the first, then the second |
| Day3.Pairs | day_3.ts:96-111 | a number is paired with every gear found next to it, in order |
| Day3.LineMatches | day_3.ts:93-94 | the matches of each line, line by line |
| Day3.AddAllListed | day_3.ts:104-109 | the gear map's insertion order lists each gear once |
| Day3.AddAllValues | day_3.ts:104-110 | each gear's list holds the values of the incidences naming it, in order, and a gear is a key exactly when some incidence names it |
| Day3.ValuesAtAppend | day_3.ts:93-113 | the values of a gear over two runs of incidences are those of the first run, then those of the second |
| Day3.PairsValuesAt | day_3.ts:96-111 | a number next to distinct gears is listed once under each gear it is next to |
| Day3.RowIncidencesAt | day_3.ts:94-112 | one line adds to a gear exactly the numbers of that line that have the gear in their rectangle |
| Day3.IncidencesAt | day_3.ts:93-113 | over the whole schematic a gear collects exactly the numbers with that gear in their rectangle, in reading order |
| Day3.IncidencesNext | day_3.ts:93-113 | one more line adds the incidences of its matches |
| Day3.GearsHoldAdjacentNumbers | day_3.ts:89-113 | the map holds a gear exactly when some number is next to it, and holds for it exactly the numbers next to it, in reading order |
| Day3.ValuesAtNonEmpty | day_3.ts:104-110 | a gear has values exactly when some incidence names it |
| Day3.AddToGears | day_3.ts:96-111 | the loop over the gears of one number pushes the number onto each |
| Day3.AddRowToGears | day_3.ts:94-112 | the loop over the numbers of one line adds all their incidences |
| Day3.Part2 | day_3.ts:89-118 | `part2` is the sum of the products of the gears with exactly two numbers, over the map built from the schematic |
| Day3.SumRatios | day_3.ts:114-117 | the filter, map and reduce over the map's values, in insertion order |
| Day4.MatchCount | day_4.ts:9-18 | the count of matching numbers is at most the number of card numbers |
| Day4.MatchCountAppend | day_4.ts:12-16 | one more card number adds 1 exactly when it is a winning number |
| Day4.CountWinningNumbers | day_4.ts:9-18 | the counting loop counts the card numbers that are winning numbers, repeats included |
| Day4.MatchCountExtremes | day_4.ts:9-18 | the count is 0 exactly when no number wins, and the full length exactly when every number wins |
| Day4.ScoreCard | day_4.ts:20-23 | the score is 0 exactly without matches, and at least the number of matches otherwise |
| Day4.ScoreAfterOneMoreMatch | day_4.ts:20-23 | one more winning number doubles a positive score and makes a zero score 1 |
| Day4.Wins | day_4.ts:45 | the number of matches of every card, in order |
| Day4.Copies | day_4.ts:42-49 | every card is held at least once |
| Day4.TotalCopiesAtLeastCards | day_4.ts:50 | the total is at least the number of cards |
| Day4.UnreachedCardHeldOnce | day_4.ts:43-49 | a card that no earlier card's winnings reach gains no copies |
| Day4.Part2 | day_4.ts:40-51 | `part2` is the total of the copy counts that the copy rule defines, and at least the number of cards |
| Day4.AddCopies | day_4.ts:46-48 | the inner loop adds the copies of card i to each of the cards it reaches, and to no other card |
| Day4.Part1 | day_4.ts:35-38 | the definition of the sum of scores; `ExamplePart1` gives its value on the example |
| Day4.ExamplePart1 | day_4.ts:67-69 | with the example's match counts 4, 2, 2, 1, 0, 0 the scores sum to 13 |
| Day4.ExamplePart2 | day_4.ts:71-73 | with those match counts, 30 cards are held in the end |
| Day5.Contains | day_5.ts:40-43 | the closed interval from `sourceStart` to `rangeEnd` holds exactly the `length` values from `sourceStart` on |
| Day5.FirstContaining | day_5.ts:71-73 | the point query finds nothing exactly when no range contains the value, and otherwise a range that contains it |
| Day5.MapValue | day_5.ts:71-79 | a value that no range covers stays the same; with disjoint ranges, a covered value moves by its range's offset |
| Day5.Relevant | day_5.ts:96-97 | the overlap query returns exactly the ranges that overlap the span, none when none does |
| Day5.Insert | day_5.ts:98 | inserting into a list sorted by start keeps it sorted and adds exactly that range |
| Day5.SortByStart | day_5.ts:98 | `toSorted` by source start gives a sorted permutation |
| Day5.Clip | day_5.ts:101-119 | a clipped range holds exactly the values that the range and the span share, and keeps the range's offset |
| Day5.ClipAll | day_5.ts:102-119 | every relevant range is clipped, in order |
| Day5.FillGaps | day_5.ts:121-142 | the gap-filling loop emits the clipped ranges with an identity range for every gap, as the specification function lists them |
| Day5.GapFillAt | day_5.ts:125-135 | one step of the gap fill |
| Day5.MapRange | day_5.ts:92-152 | `mapRange` sorts and clips the overlapping ranges, fills the gaps and converts each effective range |
| Day5.MapRangeOf | day_5.ts:145-149 | one output range per effective range |
| Day5.TilesLength | day_5.ts:121-142 | pieces that tile an interval have lengths summing to its size |
| Day5.GapFillTiles | day_5.ts:121-142 | the gap fill of chained ranges covers the interval exactly, in order |
| Day5.WellFormedApart | day_5.ts:99 | distinct ranges of a table with no overlaps are disjoint |
| Day5.SortedRelevantChained | day_5.ts:96-99 | the sorted relevant ranges each overlap the span, and each ends before the next starts |
| Day5.ClippedRelevantChained | day_5.ts:101-119 | the clipped ranges are chained inside the span |
| Day5.MapRangeCoverage | day_5.ts:92-152 | for a non-empty range and a table of non-empty, disjoint ranges, the effective ranges tile the input range, so the output lengths sum to the input length |
| Day5.GapFillPiece | day_5.ts:121-142 | every piece lies in the span and is a clipped range or an identity gap that no clipped range touches |
| Day5.MapRangeAgrees | day_5.ts:92-152 | for a non-empty range and a table of non-empty, disjoint ranges, `mapRange` agrees with `mapValue`: each value of an effective range lies in the input, and its output range holds its image at the same offset |
| Day5.ClippedPieceAgrees | day_5.ts:102-119 | a value of a clipped range maps as the table range it came from maps it |
| Day5.TilesCover | day_5.ts:121-142 | every value of a tiled interval lies in one of the pieces |
| Day5.PointRange | day_5.ts:71-79 | the range of one value maps to the single value that `mapValue` gives |
| Day5.UntouchedRange | day_5.ts:136-142 | a range that no conversion range overlaps maps to itself |
| Day5.ParseSeeds | day_5.ts:46-49 | the seed list parses exactly when it is space-separated digit runs, giving their values in order |
| Day5.ParseHeader | day_5.ts:53-56 | an accepted header is two words around `-to-` followed by ` map:`; anything else is the error "Invalid map header" |
| Day5.HeaderRoundTrip | day_5.ts:53-56 | parsing a header written from two words gives the words back |
| Day5.ParseRangeLine | day_5.ts:57-64 | a line that does not have exactly three parts is the error "Invalid map line", and only such a line |
| Day5.CollectAll | day_5.ts:50-66 | `map` with a callback that may throw: all the values exactly when every element succeeds, each from its element, and otherwise the error of the first element that fails |
| Day5.ParseRangeLines | day_5.ts:57-65 | every line after the header gives one range, in order; the result is an error exactly when some line fails, and then it is the error of the first line that fails |
| Day5.ParseMap | day_5.ts:51-67 | a parsed map has one range per line after its header, and its names are the header's; it fails exactly when the header or a range line fails, with "Invalid map header" for a bad header and otherwise the first bad line's error |
| Day5.ParseMaps | day_5.ts:50-67 | one map per block, each parsed from its block; an error exactly when some block fails, and then the error of the first block that fails |
| Day5.SectionsOf | day_5.ts:46-47 | the trimmed input is `seeds: `, the seed text, the first blank line and the map text, and is refused exactly when it lacks the prefix or any blank line |
| Day5.ParseSections | day_5.ts:48-68 | "Invalid input" exactly when the seed text is not numbers; otherwise the data exactly when every map block parses, and else the first failing block's error |
| Day5.Parse | day_5.ts:45-69 | "Invalid input" exactly when the prefix, the blank line or the seed list is missing; otherwise the result of parsing the two sections, so the data exactly when every map block parses; parsed input has at least one seed and one map, and its seeds are non-negative |
| Day5.MinOf | day_5.ts:89 | `Math.min` of nothing is absent (JavaScript's `Infinity`); otherwise it is a member no larger than any member |
| Day5.Locations | day_5.ts:83-88 | each seed's location is the seed run through every map in order |
| Day5.Part1 | day_5.ts:81-90 | `part1` is a location some seed reaches and no seed reaches a smaller one; absent only without seeds |
| Day5.SeedRanges | day_5.ts:156-157 | the seeds are read in pairs as start and length |
| Day5.MapRangePositive | day_5.ts:92-152 | a non-empty range maps to non-empty output ranges, at least one |
| Day5.RangeSound | day_5.ts:92-152 | the image of each value of a range lies in one of the output ranges |
| Day5.RangeComplete | day_5.ts:92-152 | each value of an output range is the image of a value of the input range |
| Day5.MapAllSound | day_5.ts:161 | the `flatMap` over ranges keeps the image of every input value covered |
| Day5.MapAllComplete | day_5.ts:161 | every value of the `flatMap` output is the image of some input value |
| Day5.ThroughSound | day_5.ts:159-163 | the location of each input value lies in a range the chain of maps outputs |
| Day5.ThroughComplete | day_5.ts:159-163 | for non-empty input ranges and conversion ranges of positive length, every value of an output range is the location of some input value |
| Day5.LocationSound | day_5.ts:158-164 | every seed value's location lies in one of the location ranges |
| Day5.LocationComplete | day_5.ts:158-164 | for non-empty seed ranges and conversion ranges of positive length, every location range starts at the location of some seed value |
| Day5.SmallestStart | day_5.ts:165 | for non-empty seed ranges and conversion ranges of positive length, the smallest start of the location ranges is the smallest location of any seed value |
| Day5.Part2 | day_5.ts:154-166 | the definition: the smallest start of the location ranges; `SmallestStart` and `Part2IsSmallestLocation` show it is the smallest location of any seed value when every seed range and conversion range is non-empty, and `EmptySeedRangeCounts` shows it need not be otherwise |
| Day5.Part2IsSmallestLocation | day_5.ts:154-166 | for non-empty seed ranges and conversion ranges of positive length that do not overlap, `part2` is the smallest location of any value of any seed range: none is smaller and some value reaches it |
| Day5.EmptySeedRangeCounts | day_5.ts:154-166 | an empty seed range still counts: seeds `5 0 100 1` with the single conversion `0 3 5` give 2, while the only seed value reaches 100 |
| Day5.ExampleLocations | day_5.ts:209-211 | the example seeds 79, 14, 55 and 13 reach locations 82, 43, 86 and 35 |
| Day5.ExamplePart1 | day_5.ts:209-211 | with those locations, `part1` is 35 |
| Day7.CardScore | day_7.ts:10-24 | every card scores between 2 and 14 |
| Day7.Sign | day_7.ts:32 | `Math.sign` is -1, 0 or 1, is 0 exactly at 0, and is 1 exactly for positive numbers |
| Day7.CompareCards | day_7.ts:31-33 | `compareCards` and `compareCardsPart2` give 0 exactly for equal cards, -1 exactly when `a` scores higher and 1 exactly when `b` does |
| Day7.CompareCardsAntisymmetric | day_7.ts:31-33 | swapping the cards flips the result |
| Day7.JokerWeakest | day_7.ts:57-61 | under part 2's scoring `J` loses to every other card |
| Day7.RulesAgreeWithoutJoker | day_7.ts:57-61 | away from `J` both scorings compare cards alike |
| Day7.ExampleCardComparisons | day_7.ts:35-80 | the card comparisons the source's tests check |
| Day7.CountMap | day_7.ts:94-100 | the counts hold exactly the cards of the hand, each with its multiplicity |
| Day7.CountMapAppend | day_7.ts:96-98 | one more card adds 1 to its count, starting from 0 when it is absent |
| Day7.CountCardsOfEachType | day_7.ts:94-100 | the loop computes the multiplicity of every card |
| Day7.Keys | day_7.ts:125 | the keys of the counts are the distinct cards of the hand |
| Day7.InsertDescending | day_7.ts:126 | inserting into a descending list keeps it descending and adds exactly that count |
| Day7.SortDescending | day_7.ts:125-126 | `sort((a, b) => b - a)` gives a descending permutation with the same total |
| Day7.IdentifyTypePart2 | day_7.ts:146-158 | the counting, joker removal, sort and joker addition give the part 2 type |
| Day7.CountInWholeHand | day_7.ts:94-100 | listing every card of the hand once counts the whole hand |
| Day7.CountsSumToHandSize | day_7.ts:124-128 | the counts add up to the number of cards |
| Day7.AddJokersSum | day_7.ts:152-156 | adding the jokers to the counts adds their number to the total |
| Day7.JokersInHand | day_7.ts:147-149 | listing each card once meets the jokers exactly once |
| Day7.JokerCountsSumToHandSize | day_7.ts:146-158 | moving the jokers onto the largest count keeps the total at the hand size |
| Day7.TypeScore | day_7.ts:82-90 | every hand type scores between 1 and 7 |
| Day7.TypeOfCounts | day_7.ts:102-122 | no counts give high card; any better type needs a largest count between 2 and 5; full house and two pair need a second count of 2 |
| Day7.AddJokers | day_7.ts:152-156 | only the front count changes, growing by the number of jokers; with no other card the jokers form the single count |
| Day7.HandTypeOf | day_7.ts:124-158 | without a `J` in the hand both rules type it by the standard counts |
| Day7.CompareCardwise | day_7.ts:178-184 | the card-by-card comparison is -1, 0 or 1 |
| Day7.HandOrder | day_7.ts:172-185 | a higher type score wins outright, whatever the cards |
| Day7.IdentifyType | day_7.ts:124-128 | counting, sorting and the type ladder give the standard type |
| Day7.CompareHands | day_7.ts:172-212 | the loop over the zipped cards, returning at the first difference, computes the hand order |
| Day7.FirstDifferenceDecides | day_7.ts:178-184 | between hands of one type the first differing card decides, and the result is not 0 |
| Day7.HandOrderSelf | day_7.ts:172-185 | a hand ties with itself |
| Day7.HandOrderAntisymmetric | day_7.ts:172-185 | swapping the hands flips the result |
| Day7.HandOrderZero | day_7.ts:172-185 | hands of one length tie exactly when they hold the same cards in the same order |
| Day7.HandOrderTransitive | day_7.ts:172-185 | "at most as strong as" is transitive among hands of one length |
| Day7.ValuesInPermutation | day_7.ts:125 | two listings of the same distinct cards give the same counts, in some order |
| Day7.SortedDescendingUnique | day_7.ts:126 | two descending lists with the same elements are equal |
| Day7.CountsListAnyOrder | day_7.ts:125-126 | reading the counts in any order that lists each card once gives the same sorted counts, under both rules, so the type does not depend on the key order of the counts object |
| Day7.SortDescendingSorted | day_7.ts:126 | sorting an already descending list leaves it as it is |
| Day7.AddNoJokers | day_7.ts:152-156 | adding no jokers changes no type |
| Day7.JokerFreeHand | day_7.ts:146-158 | without a `J` in the hand both rules give the same type |
| Day7.AllJokersHand | day_7.ts:152-153 | a hand of nothing but jokers has the single count of its size, so `JJJJJ` is five of a kind |
| Day7.PartitionsOfFive | day_7.ts:102-122 | a descending list of positive counts adding to 5 is one of the seven shapes |
| Day7.AddJokersKeepsOrder | day_7.ts:152-156 | adding the jokers to the largest count keeps the counts descending and positive |
| Day7.FiveCardShapes | day_7.ts:124-158 | the counts of a five-card hand always form one of the seven shapes, under either rules |
| Day7.FiveCardTypes | day_7.ts:102-122 | on a five-card hand each type is exactly one shape of the counts: 5; 4+1; 3+2; 3+1+1; 2+2+1; 2+1+1+1; 1+1+1+1+1 |
| Day7.ShapeTypes | day_7.ts:102-122 | the type ladder maps each shape of five to its type and back |
| Day7.InsertBy | day_7.ts:238-240 | insertion adds exactly that hand |
| Day7.InsertByOrdered | day_7.ts:238-240 | insertion into an ordered list keeps it ordered under a consistent comparator |
| Day7.SortBy | day_7.ts:238-240 | `toSorted` returns a permutation of the hands |
| Day7.SortByOrdered | day_7.ts:238-240 | under a consistent comparator the sorted list is ordered |
| Day7.ByStrengthConsistent | day_7.ts:238-240 | on hands of one size, the comparator `-compareHands` is antisymmetric and transitive |
| Day7.SortHands | day_7.ts:236-252 | the ranking is a permutation of the hands, weakest first, and `toSorted` is stable: the hands holding any one card string keep their input order |
| Day7.InsertByStable | day_7.ts:238-240 | insertion under a comparator that keeps equal cards together never carries a hand past one holding the same cards |
| Day7.SortByStable | day_7.ts:238-240 | the insertion sort keeps the hands of every card string in input order |
| Day7.ByStrengthKeepsEqualCards | day_7.ts:238-240 | `-compareHands` never puts a hand after one holding the same cards |
| Day7.StableOrderUnique | day_7.ts:238-240 | two weakest-first lists of the same hands that keep each card string's hands in one order are equal |
| Day7.RankingUnique | day_7.ts:236-252 | on hands of one size every weakest-first, stable listing is the sorted list |
| Day7.TotalWinnings | day_7.ts:236-252 | on hands of one size a stable weakest-first ranking exists, and the answer is the winnings of every such ranking |
| Day7.TiesKeepInputOrder | day_7.ts:236-252 | two hands holding the same cards keep their input order, so `AAAAA 1` then `AAAAA 2` wins 1 + 2 * 2 = 5 |
| Day7.Winnings | day_7.ts:241-242 | the reduce over `(index + 1) * bid` equals the same sum added up from the last hand back |
| Day7.WinningsAppend | day_7.ts:241-242 | one more hand on top wins its bid times the new number of hands |
| Day7.OrderedUnique | day_7.ts:238-240 | a list without ties is the only ordering of its elements |
| Day7.RankedWithoutTies | day_7.ts:236-252 | when the hands can be ranked without ties, that is the ranking, and the answer is its winnings |
| Day7.WeakerAtFirstDifference | day_7.ts:178-184 | of two hands of one type, the one with the weaker card at the first difference loses |
| Day7.ExampleHand1 | day_7.ts:259-265 | `32T3K` is one pair under both rules |
| Day7.ExampleHand2 | day_7.ts:259-265 | `T55J5` is three of a kind, and four of a kind with jokers |
| Day7.ExampleHand3 | day_7.ts:259-265 | `KK677` is two pair under both rules |
| Day7.ExampleHand4 | day_7.ts:259-265 | `KTJJT` is two pair, and four of a kind with jokers |
| Day7.ExampleHand5 | day_7.ts:259-265 | `QQQJA` is three of a kind, and four of a kind with jokers |
| Day7.ExampleStandardRanking | day_7.ts:236-243 | the standard ranking of the example hands, weakest first |
| Day7.ExampleJokerRanking | day_7.ts:245-252 | the joker ranking of the example hands, weakest first |
| Day7.ExamplePart1 | day_7.ts:267-269 | the example's total winnings are 6440 |
| Day7.ExamplePart2 | day_7.ts:271-273 | with jokers, the example's total winnings are 5905 |
| Multiples.Gcd | day_8.ts:61 | the definition (Euclid's algorithm); its properties are `GcdDivides` and `Bezout` |
| Multiples.GcdDivides | day_8.ts:61 | the greatest common divisor of two numbers, not both 0, is positive and divides both |
| Multiples.Bezout | day_8.ts:61 | the greatest common divisor is an integer combination of the two numbers |
| Multiples.Lcm | day_8.ts:61 | the least common multiple of two numbers is 0 exactly when one of them is 0 |
| Multiples.LcmIsCommonMultiple | day_8.ts:61 | both numbers divide their least common multiple |
| Multiples.LcmDividesCommonMultiple | day_8.ts:61 | the least common multiple divides every common multiple |
| Multiples.LcmAll | day_8.ts:61 | the definition of `lcm(...xs)`; its properties are `LcmAllIsCommonMultiple`, `LcmAllDividesCommonMultiple` and `LcmAllIsLeast` |
| Multiples.LcmAllIsCommonMultiple | day_8.ts:61 | every value divides the least common multiple of all of them, which is positive |
| Multiples.LcmAllDividesCommonMultiple | day_8.ts:61 | that least common multiple divides every common multiple of the values |
| Multiples.LcmAllIsLeast | day_8.ts:61 | it is the least positive common multiple |
| Day8.ChildNames | day_8.ts:18-21 | the children text always splits into at least one name |
| Day8.ParseNodeLine | day_8.ts:17-21 | a node line without ` = ` fails with the runtime's error about undefined; otherwise the parent is the text before the first ` = ` |
| Day8.ParseNodeLines | day_8.ts:16-22 | every node line parses in order, or some line fails and the whole parse fails with that error |
| Day8.CollectDefines | day_8.ts:15-22 | the defined nodes are exactly the parents of the lines, listed once each, and each maps to the children of its last line |
| Day8.NetworkOf | day_8.ts:12-24 | a parsed network lists each defined node once, in order of first definition |
| Day8.ParseErrorPersists | day_8.ts:16-22 | a failing line fails the whole parse |
| Day8.ParseNodeLinesExtend | day_8.ts:16-22 | one more good line adds one entry and one definition |
| Day8.Parse | day_8.ts:12-24 | the loop over the node lines computes the parsed network |
| Day8.IndexAfter | day_8.ts:38 | the instruction index stays inside the path |
| Day8.IndexAdvances | day_8.ts:38 | advancing the index modulo the path length is counting steps modulo the path length |
| Day8.NextPathIndex | day_8.ts:38 | the index after one more step is the step count modulo the path length |
| Day8.Move | day_8.ts:34-36 | looking up a position throws the runtime's error about reading child 0 or 1 of undefined exactly when no node has its key (`"undefined"` for a missing position); otherwise it goes to child 0 on `L` and to child 1 otherwise, or to `undefined` when that child is missing |
| Day8.UndefinedThrowsNext | day_8.ts:33-36 | a walk standing on `undefined` throws at its next step, unless a node is named `undefined` |
| Day8.OneOutcome | day_8.ts:29-41 | the walk has at most one outcome: one arrival step, and no break besides |
| Day8.Walk | day_8.ts:26-42 | the loop returns the first step at which the walk reaches `ZZZ`, or the runtime's error of the step where it breaks, or (cut off) the walk has not reached `ZZZ` |
| Day8.Part1 | day_8.ts:26-42 | `part1` reports a parse error, or the walk's arrival step, break or cut-off |
| Day8.Intervals | day_8.ts:61 | the intervals of the encounters, in order |
| Day8.CalculateFirstCommonEncounter | day_8.ts:49-62 | refused with the fixed-interval message exactly when some goal's first step is not its interval; otherwise the least common multiple of the intervals |
| Day8.RecursAtMultiples | day_8.ts:44-62 | with first step equal to interval, a goal recurs at a positive step exactly when the interval divides it |
| Day8.FirstCommonEncounterIsFirst | day_8.ts:49-62 | the answer is a step at which every goal recurs, and no earlier positive step has them all |
| Day8.FirstEncounters | day_8.ts:111-113 | `e[0]` of each pather's list, one per pather, in order |
| Day8.CalculateFirstCommonEncounterAmongPathers | day_8.ts:96-113 | refused with the single-goal message exactly when some pather does not have exactly one goal; otherwise `calculateFirstCommonEncounter` of each pather's one encounter, so an answer means every pather has one goal with a fixed interval |
| Day8.AmongPathersIsFirst | day_8.ts:96-113 | the answer is a step at which every pather is on its goal, and no earlier positive step has them all |
| Day8.IsPositionGoal | day_8.ts:125-127 | a position is a goal exactly when its name ends in `Z` |
| Day8.Get | day_8.ts:163-165 | `Map.get` finds nothing exactly when no entry has the key, and otherwise the value of an entry with it |
| Day8.Recurrences | day_8.ts:169-178 | every recorded goal becomes an encounter with its first step and the current interval |
| Day8.Visit | day_8.ts:160-180 | after a visit the pather stands on the new node |
| Day8.Step | day_8.ts:159-180 | a pather's step throws exactly when its node lookup throws, or when it lands on `undefined` before its encounters recur (the goal test reads `endsWith` of undefined); otherwise it is one visit |
| Day8.RecurringMovesToUndefined | day_8.ts:160-162 | a pather whose encounters recur steps onto `undefined` without throwing, and only its position changes |
| Day8.VisitKeepsRecorded | day_8.ts:158-181 | a visit keeps the record well formed: each goal once, first steps increasing and in range, recurrences matching the goals |
| Day8.VisitKeepsRecurring | day_8.ts:162 | once the encounters recur, a visit changes only the position |
| Day8.VisitRecurs | day_8.ts:166-179 | the first goal a pather comes back to turns every recorded goal into an encounter recurring at the interval since that goal's first step |
| Day8.VisitRecordsFirst | day_8.ts:166-167 | a goal reached for the first time is recorded at the current step, after the others |
| Day8.PathFollower.constructor | day_8.ts:134-140 | a pather on a start node, with nothing recorded |
| Day8.PathFollower.Follow | day_8.ts:160-180 | the position is stored; then a pather whose encounters do not recur yet and that stands on `undefined` throws the error about reading `endsWith`, and otherwise the fields are updated in place as one visit |
| Day8.IsStart | day_8.ts:135 | the definition of `endsWith("A")`; `Starts` states which pathers it selects |
| Day8.Starts | day_8.ts:134-140 | one pather per node whose name ends in `A`, on that node, with nothing recorded |
| Day8.StartsAppend | day_8.ts:134-140 | the starts of two runs of names are those of the first run, then those of the second |
| Day8.Round | day_8.ts:158-181 | a round succeeds exactly when every pather's step does, and then each pather has made its visit; otherwise it fails with the error of the first pather whose step throws |
| Day8.FirstThrow | day_8.ts:158-160 | the first pather whose step throws: every pather before it steps |
| Day8.RoundThrowsAt | day_8.ts:158-181 | a round throws the error of whichever pather is the first to throw |
| Day8.Values | day_8.ts:151 | `Array.from(map.values())` lists the encounters in order |
| Day8.RecurringByPather | day_8.ts:150-152 | one list of encounters per pather |
| Day8.EveryOnGoal | day_8.ts:143 | `every` answers true exactly when every pather is on a goal, and throws the error about reading `endsWith` exactly when a pather on `undefined` comes before any pather off the goals |
| Day8.EveryOnGoalShift | day_8.ts:143 | past a first pather on a goal, `every` goes on with the others |
| Day8.EveryStopsAt | day_8.ts:143 | `every` answers false at the first pather off the goals, whatever stands after it, `undefined` included |
| Day8.DecisionPastUndefined | day_8.ts:143-153 | with a pather off the goals before any pather on `undefined`, and every pather recurring, the checks answer the pathers' first common encounter |
| Day8.DecidedOnce | day_8.ts:142-182 | `part2` ends at most once |
| Day8.RoundKeepsRecorded | day_8.ts:158-181 | a round keeps every pather's record well formed |
| Day8.StatesRecorded | day_8.ts:142-182 | every pather's record is well formed after every round the loop gets through |
| Day8.StatesKeepCount | day_8.ts:142-182 | the number of pathers never changes |
| Day8.RecurringNeverChanges | day_8.ts:162 | once a pather's encounters recur, they never change again |
| Day8.FirstVisit | day_8.ts:162-167 | a goal's recorded step is the round after which the pather first stood on it |
| Day8.RecurringSetOnRevisit | day_8.ts:168-179 | encounters start to recur only when the pather comes back to a goal it first reached at an earlier round, at the interval since then |
| Day8.RecordsFirstVisit | day_8.ts:129-183 | in `part2`, the step a pather holds for a goal is the round after which it first stood there |
| Day8.States | day_8.ts:134-140 | the pathers as values, in order |
| Day8.StartPathers | day_8.ts:134-140 | a distinct, fresh pather on every start node, in the order of the names |
| Day8.MoveAll | day_8.ts:158-181 | the inner loop updates the pathers in place as one round does, or stops with the error of the first pather whose step throws, as the round does |
| Day8.RunsDecides | day_8.ts:142-182 | the loop ends where `part2` is decided, with that check's outcome; cut off, it has gone through every check |
| Day8.StepOn | day_8.ts:155-181 | the pathers after one more round are one round from those before |
| Day8.Check | day_8.ts:143-153 | the checks at the top of the loop decide as specified: every pather on a goal ends with the step count, every pather recurring ends with their first common encounter, otherwise the loop goes on |
| Day8.Run | day_8.ts:142-182 | the loop returns how the run from the start ends |
| Day8.Iterate | day_8.ts:142-182 | one pass of the loop either returns the run's outcome, or advances the state and the index by one round |
| Day8.Proceed | day_8.ts:155-181 | past the checks, one pass either ends the loop with a round's error, as the run does, or leaves the pathers one round further and the index advanced |
| Day8.Advance | day_8.ts:155-181 | reading the instruction, advancing the index and moving every pather is one round, and a round that throws leaves its error |
| Day8.RunsEnds | day_8.ts:143-153 | the check after a round ends the loop with its decision, or lets it go on |
| Day8.RunsFails | day_8.ts:158-181 | a round that throws ends the loop with the runtime's error |
| Day8.Part2 | day_8.ts:129-183 | `part2` reports a parse error, the outcome of the round where the loop is decided, or (cut off) that it is still undecided |
| Day8Examples.Walk1Answer | day_8.ts:238-241 | the first example's walk answers 2, and nothing else |
| Day8Examples.Walk2Answer | day_8.ts:238-241 | the second example's walk answers 6, and nothing else |
| Day8Examples.CommonEncounterBasic | day_8.ts:65-80 | goals recurring every 2 and every 3 steps meet first at step 6 |
| Day8Examples.CommonEncounterLarge | day_8.ts:81-93 | the six goals of the large test meet first at step 21165830176709 |
| Day8Examples.Ghosts1Answer | day_8.ts:243-246 | on the third example `part2` answers 6 |
| Day8Examples.Ghosts2Answer | day_8.ts:243-246 | on the fourth example `part2` answers 8 |
| Day8Strays.StraysAnswer | day_8.ts:142-182 | on a network where a node has one child, a pather whose goal recurs steps onto `undefined`, and `part2` still answers 3, the least common multiple of its pathers' intervals 1, 1 and 3 |
| Day9.PredictNext | day_9.ts:10-18 | the definition of `predictNext`; its properties are the lemmas below |
| Day9.PredictPrevious | day_9.ts:25-33 | the definition of `predictPrevious`; its properties are the lemmas below |
| Day9.Part1 | day_9.ts:20-23 | the definition of the sum of next predictions; `ExamplePart1` gives its value on the example |
| Day9.Part2 | day_9.ts:35-38 | the definition of the sum of previous predictions; `Part2IsPart1OfReversed` and `ExamplePart2` state it |
| Day9.NextRecurrence | day_9.ts:10-18 | on a non-empty history the prediction is the last value plus the prediction for the differences, also when all values are zero |
| Day9.PreviousRecurrence | day_9.ts:25-33 | on a non-empty history the backward prediction is the first value minus the backward prediction for the differences |
| Day9.NextExtendsDifferences | day_9.ts:10-18 | appending the prediction continues the difference table: the new last difference is the prediction for the differences |
| Day9.PreviousExtendsDifferences | day_9.ts:25-33 | prepending the backward prediction continues the difference table at the front |
| Day9.DiffsAppend | day_9.ts:15 | one more value appends one more difference |
| Day9.DiffsPrepend | day_9.ts:30 | one more value in front puts one more difference in front |
| Day9.PredictNextNegate | day_9.ts:10-18 | prediction commutes with negating the history |
| Day9.PreviousIsNextOfReverse | day_9.ts:10-33 | predicting backwards is predicting the reversed history forwards |
| Day9.ConstantHistory | day_9.ts:10-33 | a constant history predicts its constant in both directions |
| Day9.ExampleHistory1 | day_9.ts:45-49 | the first test history predicts 18 next and -3 before |
| Day9.ExampleHistory2 | day_9.ts:45-49 | the second test history predicts 28 next and 0 before |
| Day9.ExampleHistory3 | day_9.ts:45-49 | the third test history predicts 68 next and 5 before |
| Day9.ExamplePart1 | day_9.ts:51-53 | the sum of the next predictions of the test histories is 114 |
| Day9.ExamplePart2 | day_9.ts:55-57 | the sum of the previous predictions of the test histories is 2 |
| Day9.ReverseAll | day_9.ts:35-38 | every history reversed, in order |
| Day9.Part2IsPart1OfReversed | day_9.ts:20-38 | `part2` is `part1` of the reversed histories |
| Day10.OppositeDirection | day_10.ts:28-39 | the opposite direction is never the direction itself |
| Day10.OppositeInvolution | day_10.ts:28-39 | turning round twice faces the original way |
| Day10.Step | day_10.ts:41-55 | a step moves exactly one cell, north and south keeping the column |
| Day10.StepBack | day_10.ts:28-55 | a step and then a step the opposite way comes back; distinct directions lead to distinct cells |
| Day10.Connections | day_10.ts:57-66 | only the eight listed characters have connections; each pipe has two distinct ones, ground none, the start all four |
| Day10.TileAt | day_10.ts:83-85 | a tile exists exactly inside the lines, and it is the character there |
| Day10.Yielded | day_10.ts:95-111 | no more neighbours are yielded than connections listed |
| Day10.GetNeighbors | day_10.ts:86-112 | the generator's loop yields the specified neighbours: none off the grid or on an unknown tile |
| Day10.YieldedStep | day_10.ts:95-111 | each pass of the loop yields the connection's neighbour if accepted, then the rest |
| Day10.YieldedMembers | day_10.ts:95-111 | the yielded neighbours are exactly the accepted steps |
| Day10.YieldedPlain | day_10.ts:95-111 | away from the start every connection is yielded, in order |
| Day10.PlainTileNeighbors | day_10.ts:86-112 | a pipe tile other than the start has one neighbour per connection, in the order listed |
| Day10.StartTileNeighbors | day_10.ts:97-109 | from the start a cell is a neighbour exactly when it is a step away and its pipe points back |
| Day10.NeighborsAdjacent | day_10.ts:86-112 | every neighbour is one step away |
| Day10.FirstOther | day_10.ts:118-125 | the chosen neighbour is one of them and not the previous node; there is none exactly when every neighbour is the previous node |
| Day10.PipeWalkerMoves | day_10.ts:113-128 | the walk moves to adjacent cells and never straight back |
| Day10.NeverStepsBack | day_10.ts:113-128 | a walk never revisits the node it has just left |
| Day10.FirstUnvisited | day_10.ts:118-125 | the inner loop picks the first neighbour that is not the previous node |
| Day10.GetNodesInLoop | day_10.ts:113-128 | the yielded nodes trace the walk from the start; it ends on the start again, or with "No unvisited neighbors." where no move is left, or is cut off |
| Day10.TracesExtend | day_10.ts:116-127 | the walk goes on by its next node while that is not the start |
| Day10.AdjacentColours | day_10.ts:41-55 | a step to an adjacent cell changes the chessboard colour |
| Day10.FlippedBack | day_10.ts:133 | flipping returns to the start exactly after an even number of flips |
| Day10.WalkColours | day_10.ts:113-128 | node i of the walk has the start's colour flipped i times |
| Day10.LoopLengthEven | day_10.ts:133 | a loop back to the start has an even number of nodes, so halving it is exact |
| Day10.OccursAtS | day_10.ts:75 | `"S"` occurs at an index exactly when the character there is `S` |
| Day10.FindStart | day_10.ts:73-81 | the start is the first `S` in row order, or "Could not find start coordinate." exactly when there is none |
| Day10.FirstStartUnique | day_10.ts:73-81 | the first `S` is unique |
| Day10.NewWorld | day_10.ts:71-82 | the lines of the trimmed input and the first `S`, or "Could not find start coordinate." exactly when no line holds an `S` |
| Day10.StartExists | day_10.ts:73-81 | a first `S` is an `S` of the lines |
| Day10.Part1 | day_10.ts:131-134 | an answer is half the length of a walk from the first `S` that closes on it; "Could not find start coordinate." exactly when no line holds an `S`; "No unvisited neighbors." only when the walk from the first `S` reaches a node with no move left; cut off only when the walk is still going, away from the start, after `fuel` nodes |
| Day10Examples.NeighborsAre | day_10.ts:86-112 | neighbours of a cell whose tile, connections and yield are known |
| Day10Examples.YieldedSecondAndFourth | day_10.ts:95-111 | four connections of which the second and fourth are accepted yield those two |
| Day10Examples.PipeNeighbors | day_10.ts:86-112 | a two-pipe tile has the two cells its pipes lead to as neighbours |
| Day10Examples.LeaveBySecond | day_10.ts:118-125 | arriving through a pipe's first end, the walk leaves through the second |
| Day10Examples.LeaveByFirst | day_10.ts:118-125 | arriving any other way, the walk leaves through the first |
| Day10Examples.StartMove | day_10.ts:97-125 | a start whose only connecting neighbours are below and right moves down first |
| Day10Examples.ExampleGoesRound | day_10.ts:146-152 | on the test rows the walk goes round the sixteen-tile loop |
| Day10Examples.ExampleWalk | day_10.ts:113-128 | a closing walk from the test start has exactly the sixteen loop nodes |
| Day10Examples.ExampleStart | day_10.ts:73-81 | the test start is the first `S`, in the first column of the third row |
| Day10Examples.ExamplePart1 | day_10.ts:154-156 | on the test rows any closing walk from the first `S` gives the answer 8 |
| Day10Examples.TestInputTrimmed | day_10.ts:146-152 | `trimEnd` drops the test input's closing newline |
| Day10Examples.ExampleRowsJoined | day_10.ts:146-152 | the test rows joined by newlines are the trimmed test input |
| Day10Examples.TestInputLines | day_10.ts:71 | the trimmed test input splits into the five test rows |
| Day10Examples.ExampleWalkMovesOn | day_10.ts:113-128 | every walk from the test start follows the loop for at most 16 nodes and always moves on, back to the start after 16 |
| Day10Examples.ExampleRun | day_10.ts:154-156 | `part1` of the test input, with a bound of 16 nodes, is 8 |
| Day11.Parse | day_11.ts:100 | the trimmed input always splits into at least one line |
| Day11.EmptyColumnsBelowExactly | day_11.ts:10-15 | `columnsToExpand` lists every empty column below the bound once, in increasing order, and nothing else |
| Day11.FindEmptyColumns | day_11.ts:9-15 | the loop collects the empty columns of the first row's width |
| Day11.Slice | day_11.ts:25-28 | `slice` with bounds inside the string is the subsequence between them |
| Day11.ColumnsFrom | day_11.ts:21-27 | of increasing columns, those from where a piece starts are that piece's column and later |
| Day11.GapBefore | day_11.ts:25 | each piece starts at or before its column |
| Day11.PieceWidened | day_11.ts:21-27 | one piece widens the row from its start up to its column |
| Day11.PiecesWidened | day_11.ts:21-27 | joining the pieces widens the row up to the last expanded column |
| Day11.PiecesFit | day_11.ts:21-27 | increasing columns within the row each fit their piece |
| Day11.ExpandRowWidened | day_11.ts:19-30 | slicing a row around increasing columns within it is the reference widening: a second `.` after each such column |
| Day11.ExpandRowLength | day_11.ts:19-30 | a sliced row is longer by one `.` per expanded column |
| Day11.WidenedNone | day_11.ts:16-18 | without columns to widen a row stays as it is |
| Day11.WidenedCounts | day_11.ts:19-30 | a widened row has one more character per widened column and the same galaxies |
| Day11.ExpandEmptyColumns | day_11.ts:5-31 | `expandEmptyColumns` returns every row widened at the empty columns, the image itself when it is empty or has none |
| Day11.ExpandRowsWidened | day_11.ts:19-30 | every row of an image sliced around its empty columns is that row widened at them |
| Day11.ExpandedColumnsShape | day_11.ts:5-31 | the expansion keeps the number of rows, lengthens every row by the number of empty columns, keeps each row's galaxies, and changes nothing without empty columns |
| Day11.ExpandEmptyRows | day_11.ts:39-47 | the definition of `expandEmptyRows`; its properties are `ExpandEmptyRowsCounts` and `ExpandEmptyRowsGalaxies` |
| Day11.ExpandEmptyRowsCounts | day_11.ts:39-47 | doubling the empty rows adds one row per empty row and no galaxy |
| Day11.RowGalaxiesExactly | day_11.ts:62-64 | a row's galaxies are exactly its `#` cells on that row |
| Day11.GalaxiesBelowMembers | day_11.ts:60-66 | the galaxies of the first rows are exactly their `#` cells |
| Day11.GalaxiesBelowOrdered | day_11.ts:60-66 | the galaxies come in reading order, so none twice |
| Day11.WorldToGalaxyCoordinates | day_11.ts:60-66 | the definition of `worldToGalaxyCoordinates`; `GalaxyCoordinatesExactly` states what it lists |
| Day11.GalaxyCoordinatesExactly | day_11.ts:60-66 | `worldToGalaxyCoordinates` lists every `#` once, in reading order, and nothing else |
| Day11.GalaxiesBelowCount | day_11.ts:60-66 | there are as many galaxy coordinates as `#` characters |
| Day11.AllDotsNoGalaxy | day_11.ts:41 | a row of `.` holds no galaxy |
| Day11.ExpansionKeepsGalaxies | day_11.ts:96-103 | expanding columns then rows neither adds nor removes a galaxy |
| Day11.WidenedRowGalaxies | day_11.ts:19-30 | a widened row's galaxies are the row's, in order, each moved right by the widened columns left of it |
| Day11.ExpandedColumnsGalaxies | day_11.ts:5-31 | `expandEmptyColumns` moves each galaxy right by the empty columns left of it, keeping their order |
| Day11.ExpandEmptyRowsGalaxies | day_11.ts:39-47 | `expandEmptyRows` moves each galaxy down by the empty rows above it, keeping their order |
| Day11.WidenedAllDots | day_11.ts:41 | a widened row is all `.` exactly when the row is |
| Day11.ExpandedColumnsRowsAbove | day_11.ts:41 | widening keeps which rows are empty |
| Day11.ExpandedGalaxies | day_11.ts:96-103 | the expanded image's galaxies are the image's, in order, each moved right by the empty columns left of it and down by the empty rows above it |
| Day11.ExpandedDistanceSumMoved | day_11.ts:95-107 | the answer is the sum over all pairs of the distances between those moved galaxies |
| Day11.AllPairsOf | day_11.ts:76-82 | the two nested loops yield the specified pairs |
| Day11.PairsWithLength | day_11.ts:78-80 | the inner loop for item `i` yields one pair per later item |
| Day11.PairsWithAt | day_11.ts:78-80 | and its pair with item `b` at position `b - i - 1` |
| Day11.OffsetClosed | day_11.ts:77-81 | the first `i` rounds yield `i * (2n - i - 1) / 2` pairs |
| Day11.AllPairsExactly | day_11.ts:76-82 | `allPairs` yields `n(n-1)/2` pairs, the pair of positions `a < b` at its index |
| Day11.PairIndexOrdered | day_11.ts:76-82 | the pairs come in lexicographic order of their positions, so each pair once |
| Day11.DistanceSumAllPairs | day_11.ts:105-106 | summing the distances of the yielded pairs is the double sum over `i < j` of the distance from galaxy `i` to galaxy `j` |
| Day11.Part1 | day_11.ts:95-107 | `part1` is the pairwise distance sum of the galaxies of the expanded image |
| Day11Examples.ExpandColumnsAllEmpty | day_11.ts:34 | two empty columns are both doubled |
| Day11Examples.ExpandColumnsSecond | day_11.ts:35 | only the empty second column is doubled |
| Day11Examples.ExpandColumnsNone | day_11.ts:36 | an image without empty columns is unchanged |
| Day11Examples.ExpandRowsAllEmpty | day_11.ts:50 | both empty rows are doubled |
| Day11Examples.ExpandRowsAround | day_11.ts:51-57 | the empty rows around a galaxy row are doubled |
| Day11Examples.GalaxiesOfTwoRows | day_11.ts:68-74 | the galaxies of `.#.` over `#.#` |
| Day11Examples.PairsOfFew | day_11.ts:85-86 | no item, or one, has no pair |
| Day11Examples.PairsOfTwo | day_11.ts:87 | two items make one pair |
| Day11Examples.PairsOfThree | day_11.ts:88-92 | three items make three pairs in nested-loop order |
| Day11Examples.ExampleEmptyColumns | day_11.ts:119-130 | the empty columns of the test image are 2, 5 and 8 |
| Day11Examples.ExampleGalaxiesAre | day_11.ts:119-130 | the nine galaxies of the test image |
| Day11Examples.ExampleMoved | day_11.ts:119-130 | where they land once the image is expanded |
| Day11Examples.ExampleDistances | day_11.ts:132-134 | the distances between all pairs of moved galaxies sum to 374 |
| Day11Examples.ExamplePart1 | day_11.ts:132-134 | `part1` on the test image is 374 |
| Day12.RunLength | day_12.ts:56-58 | the run from a start covers only statuses that may be broken and stops at the end or at a working spring |
| Day12.IndexOf | day_12.ts:43 | `indexOf` is -1 exactly when the character is absent, otherwise its first position |
| Day12.SliceEnd | day_12.ts:53 | the end `slice(0, end)` uses: negative ends count from the back, everything clamped to the string |
| Day12.Rest | day_12.ts:73-75 | the statuses after a group and its separator are strictly shorter |
| Day12.NoGroupsLeft | day_12.ts:23-25 | with no group left there is one arrangement when no spring is known broken and none otherwise |
| Day12.NoStatusesLeft | day_12.ts:26-28 | with groups left and no statuses there is no arrangement |
| Day12.Unroll | day_12.ts:51-78 | before the first `#`, the candidate sum so far plus the arrangements of what is left is the arrangement count |
| Day12.TooShort | day_12.ts:37-41 | groups longer than the statuses, with their separators, have no arrangement |
| Day12.BeyondLastStart | day_12.ts:40-41 | a start past the length minus the minimum leaves too little room |
| Day12.CandidatesUpToFirstBroken | day_12.ts:43-49 | the candidate sum up to the first `#` inclusive, or over the whole row without one, is the arrangement count |
| Day12.CandidatesCoverArrangements | day_12.ts:37-78 | the starts the source considers give the arrangement count: those it skips add nothing |
| Day12.CountCombinations | day_12.ts:22-81 | `countCombinations` returns the number of ways to read each `?` so that the broken groups are exactly the listed ones |
| Day12.BrokenRun | day_12.ts:56-58 | the `#` at the front of a fully read row, up to the first other status |
| Day12.BrokenGroups | day_12.ts:22-81 | the lengths of the groups of `#` of a fully read row, each at least 1 |
| Day12.RunLengthAtLeast | day_12.ts:56-58 | a stretch of statuses that may be broken lies inside the run measured from its start |
| Day12.GroupReading | day_12.ts:58-76 | an accepted group at the front, its separator and a reading of the rest read the whole row, with that group added in front |
| Day12.ArrangementReading | day_12.ts:22-81 | every arrangement the count includes is a reading of the row (each `?` as `.` or `#`, known statuses kept) with exactly the listed broken groups |
| Day12.ReadingWorking | day_12.ts:44-49 | a reading that starts with a working spring sits on a status that is not `#`, and the rest of it reads the rest of the row with the same groups |
| Day12.ReadingGroup | day_12.ts:55-76 | a reading that starts with a group of broken springs has that group accepted at the front of the row, and what follows it reads the source's remaining statuses |
| Day12.ReadingArrangement | day_12.ts:22-81 | every reading of the row with exactly the listed broken groups is counted |
| Day12.ArrangementsReadings | day_12.ts:22-81 | the count is positive exactly when some reading of the row has exactly the listed broken groups |
| Day12.SumCandidates | day_12.ts:51-78 | the candidate loop adds, for each start before the end that can hold the group, the count of the rest |
| Day12.TimesIsProduct | day_12.ts:92-97 | repeated addition is multiplication |
| Day12.Repeat | day_12.ts:92-94 | `n` copies joined by a separator are `n` copies plus `n - 1` separators long |
| Day12.RepeatCopy | day_12.ts:92-94 | copy `k` of the joined statuses is the original |
| Day12.RepeatSeparator | day_12.ts:92-94 | a separator follows every copy but the last |
| Day12.Concat | day_12.ts:95-97 | `n` copies of the groups are `n` times as long |
| Day12.ConcatCopy | day_12.ts:95-97 | copy `k` of the concatenated groups is the original |
| Day12.Part2RowTransform | day_12.ts:90-99 | the unfolded statuses are five copies plus four separators long, the groups five times as many |
| Day12.UnfoldedStatuses | day_12.ts:92-94 | each of the five copies of the statuses is the original |
| Day12.UnfoldedSeparator | day_12.ts:92-94 | every copy but the last is followed by `?` |
| Day12.UnfoldedGroups | day_12.ts:95-97 | each of the five copies of the groups is the original |
| Day12.Part1 | day_12.ts:83-88 | the definition of the sum of counts; `Part1Append` and `Day12Examples.ExamplePart1` state it |
| Day12.Part2 | day_12.ts:101-107 | the definition of the sum over unfolded rows; `Part2IsPart1OfUnfolded` states it |
| Day12.Part1Append | day_12.ts:83-88 | the total over two lists of rows is the sum of their totals |
| Day12.UnfoldAll | day_12.ts:104 | every row unfolded, in order |
| Day12.Part2IsPart1OfUnfolded | day_12.ts:101-107 | `part2` is `part1`'s sum over the unfolded rows |
| Day12Examples.ExampleTrivial | day_12.ts:123-125 | `.#...#....###. 1,1,3` has one arrangement |
| Day12Examples.ExampleLine1 | day_12.ts:127-129 | `???.### 1,1,3` has one arrangement |
| Day12Examples.ExampleLine2 | day_12.ts:131-133 | `.??..??...?##. 1,1,3` has four |
| Day12Examples.ExampleLine3 | day_12.ts:135-137 | `?#?#?#?#?#?#?#? 1,3,1,6` has one |
| Day12Examples.ExampleLine4 | day_12.ts:118 | `????.#...#... 4,1,1` has one |
| Day12Examples.ExampleLine5 | day_12.ts:119 | `????.######..#####. 1,6,5` has four |
| Day12Examples.ExampleLine6 | day_12.ts:139-141 | `?###???????? 3,2,1` has ten |
| Day12Examples.ExamplePart1 | day_12.ts:143-145 | the six test rows total 21 |
| Day13.FirstMirrorFrom | day_13.ts:25-32 | the search returns the smallest position from its start whose check holds, or nothing when none does |
| Day13.FirstMirrorIsSmallest | day_13.ts:46-53 | the search from 1 finds exactly the smallest index below the extent whose check holds |
| Day13.CheckVerticalReflection | day_13.ts:13-23 | the check holds exactly when every line reads the same mirrored before column `index`, up to the nearer edge |
| Day13.FindVerticalReflection | day_13.ts:25-32 | the loop finds the first vertical line of reflection from 1 |
| Day13.CheckHorizontalReflection | day_13.ts:34-44 | the check holds exactly when, over the first line's width, each row up to the nearer edge matches its mirror row |
| Day13.FindHorizontalReflection | day_13.ts:46-53 | the loop finds the first horizontal line of reflection from 1 |
| Day13.Summary | day_13.ts:55-65 | the summary fails with "No reflection found" exactly when there is no line of reflection either way |
| Day13.SummaryIsFirstVertical | day_13.ts:56-59 | a first vertical line `v` summarizes to `v` |
| Day13.SummaryIsFirstHorizontal | day_13.ts:60-63 | without a vertical line, a first horizontal line `h` summarizes to `100 * h` |
| Day13.SummaryFailsIffNoMirror | day_13.ts:55-65 | a pattern fails exactly when no column and no row position has a line of reflection |
| Day13.SummarizePattern | day_13.ts:55-65 | `summarizePattern` computes the summary |
| Day13.Parse | day_13.ts:8-11 | one pattern per blank-line chunk of the trimmed input, each split into its lines |
| Day13.SumOfSummaries | day_13.ts:67-70 | the sum succeeds exactly when every pattern summarizes, and fails with the summary's error otherwise |
| Day13.Part1 | day_13.ts:67-70 | the definition: the summaries of the parsed patterns, summed; `SumOfSummaries` and `ExamplePart1` state it |
| Day13.MismatchBreaksLine | day_13.ts:16-20 | one mismatching pair of columns in a line rules out the vertical line |
| Day13.MismatchBreaksRows | day_13.ts:36-42 | one mismatching pair of rows rules out the horizontal line |
| Day13.ExamplePattern1 | day_13.ts:83-89 | the first test pattern summarizes to 5 |
| Day13.ExamplePattern2 | day_13.ts:91-97 | the second has no vertical line and summarizes to 400 |
| Day13.SumOfTwo | day_13.ts:67-70 | two summarizable patterns sum to their two summaries |
| Day13.ExamplePart1 | day_13.ts:100-102 | `part1` of the test input is 405 |
| Day14.CountRocks | day_14.ts:26 | a row holds no more rounded rocks than cells |
| Day14.MovableRun | day_14.ts:14 | the stretch at the north end covers only rocks and empty spaces and stops at a fixed tile or the edge |
| Day14.Tilt | day_14.ts:10-21 | the reference tilt of one column keeps its length: each stretch between fixed tiles becomes its rocks followed by its empty spaces |
| Day14.CountAppend | day_14.ts:26 | rock counts add up over joined cells |
| Day14.SettledStretch | day_14.ts:14 | a settled stretch of movable cells is its rocks followed by its empty spaces |
| Day14.SettledGlue | day_14.ts:14 | a column is settled exactly when both sides of a fixed tile are |
| Day14.TiltedGlue | day_14.ts:10-21 | a column is tilted exactly when its first stretch is settled with the same rocks and the rest past the fixed tile is tilted |
| Day14.TiltNoFixed | day_14.ts:10-21 | a column without fixed tiles tilts to its rocks followed by its empty spaces |
| Day14.TiltAtFixed | day_14.ts:10-21 | the tilt of a column leaves a fixed tile in place and tilts each side separately |
| Day14.TiltIsTilted | day_14.ts:10-21 | the reference tilt keeps every fixed tile, keeps the rocks of every stretch, and leaves no rock with empty space north of it |
| Day14.TiltedIsTilt | day_14.ts:10-21 | any column with those properties is the reference tilt, so the tilt is unique |
| Day14.TiltIdempotent | day_14.ts:10-21 | tilting twice is tilting once |
| Day14.ColumnOf | day_14.ts:12 | column `x` of a rectangular grid, north to south |
| Day14.TiltGrid | day_14.ts:10-21 | the tilted grid keeps the grid's height and width |
| Day14.TiltGridByColumns | day_14.ts:10-21 | a grid whose every column is the tilt of the original column is the tilted grid |
| Day14.TiltedGridIsTiltGrid | day_14.ts:10-21 | a grid whose every column is a tilt of the original column is the tilted grid |
| Day14.TiltGridColumn | day_14.ts:10-21 | each column of the tilted grid is the tilt of the original column |
| Day14.TiltGridIsTilted | day_14.ts:10-21 | tilting keeps every fixed tile, the rocks between consecutive fixed tiles, and settles every rock |
| Day14.TiltGridIdempotent | day_14.ts:10-21 | tilting a tilted platform changes nothing |
| Day14.Rows | day_14.ts:6-8 | the rows of the two-dimensional array, all as wide as it |
| Day14.SwapKeepsCounts | day_14.ts:15-16 | swapping a rock with the empty space north of it keeps the count of rocks north of every other row |
| Day14.RollStep | day_14.ts:14-18 | one pass of the inner loop moves the rolling rock one row north and keeps the rows above settled |
| Day14.RollNorth | day_14.ts:13-18 | the inner loop changes only column `x` and leaves it settled down to row `y` |
| Day14.TiltNorth | day_14.ts:10-21 | `tiltNorth` turns the platform, in place, into the tilted grid |
| Day14.CalculateLoad | day_14.ts:23-29 | the definition of `calculateLoad`; `LoadGainsRock`, `LoadLosesRock` and `RollRaisesLoad` state how it changes |
| Day14.CountUpdate | day_14.ts:26 | replacing one cell changes the row's rock count by what the old and new tiles contribute |
| Day14.LoadGainsRock | day_14.ts:23-29 | one more rock in row `i` adds that row's weight to the load |
| Day14.LoadLosesRock | day_14.ts:23-29 | one rock less in row `i` takes that row's weight from the load |
| Day14.RollRaisesLoad | day_14.ts:14-18 | each roll north raises the load by exactly one |
| Day14.Parse | day_14.ts:6-8 | the input always has at least one line |
| Day14.Part1 | day_14.ts:31-35 | `part1` is the load of the tilted platform |
| Day14Examples.ExampleTilt | day_14.ts:47-58 | tilting the test platform gives the expected tilted platform, column by column |
| Day14Examples.TiltedLoad | day_14.ts:23-29 | the load of the tilted test platform is 136 |
| Day14Examples.ExamplePart1 | day_14.ts:60-62 | `part1` of the test platform is 136 |
| Day15.HashStep | day_15.ts:7-8 | one step of the running value always gives a value below 256 |
| Day15.HashFrom | day_15.ts:6-9 | after at least one character the running value is below 256 |
| Day15.HashOf | day_15.ts:4-11 | a hash is always below 256 |
| Day15.Hash | day_15.ts:4-11 | the character loop computes the hash, below 256, and 0 for the empty string |
| Day15.HashAppend | day_15.ts:6-9 | one more character applies one more step to the value so far |
| Day15.HashFromCons | day_15.ts:6-9 | hashing is one step for the first character, then the rest |
| Day15.Part1 | day_15.ts:13-15 | the sum is at most 255 per comma-separated step |
| Day15.SumOfHashes | day_15.ts:14 | the definition of `map(hash).reduce(+, 0)`; `SumBound` bounds it |
| Day15.SumBound | day_15.ts:14 | each step contributes at most 255 |
| Day15.ExampleHash | day_15.ts:4-11 | `HASH` hashes to 52 |
| Day15.ExampleStepHashes1 | day_15.ts:28 | the first four test steps hash to 30, 253, 97 and 47 |
| Day15.ExampleStepHashes2 | day_15.ts:28 | the next four hash to 14, 180, 9 and 197 |
| Day15.ExampleStepHashes3 | day_15.ts:28 | the last three hash to 48, 214 and 231 |
| Day15.ExampleStepsSum | day_15.ts:31-33 | the hashes of the eleven test steps sum to 1320 |
| Day15.ExampleSplit | day_15.ts:13-15 | the test line splits on commas into exactly the eleven steps |
| Day15.ExamplePart1 | day_15.ts:27-33 | `part1` of the test input text, trailing newline included, is 1320 |
| Day16.DirectionToCoordinate | day_16.ts:8-19 | each direction is a unit step, horizontal exactly for left and right |
| Day16.StepsDistinct | day_16.ts:8-19 | distinct directions step differently, and opposite directions by opposite vectors |
| Day16.BeamDirectionsAfterTile | day_16.ts:21-88 | "Invalid tile" exactly for characters other than the five tiles; otherwise one or two distinct directions |
| Day16.MirrorsReflect | day_16.ts:26-56 | an empty cell lets the beam through; `/` turns step (x, y) into (-y, -x) and `\` into (y, x); a beam sent back retraces its way |
| Day16.SplittersSplit | day_16.ts:57-84 | a splitter passes a beam along its axis and splits one across it into both directions of its axis |
| Day16.Successors | day_16.ts:121-128 | every beam leaving a cell enters the neighbouring cell in its direction |
| Day16.Departures | day_16.ts:123-128 | one beam per direction, in order, each one step from the cell |
| Day16.PushDepartures | day_16.ts:123-128 | the loop pushes those beams after the existing worklist |
| Day16.SuccessorsLead | day_16.ts:121-128 | the successors of a beam are exactly the beams its tile sends on |
| Day16.Elements | day_16.ts:117-120 | the set of beams of a trail holds exactly its beams |
| Day16.JustifiedWithin | day_16.ts:109-130 | every beam a run processes lies in every closed set of beams holding the start beam |
| Day16.CompleteTrailsAgree | day_16.ts:109-130 | two complete runs energize the same beams and cells, so the order of the worklist does not matter |
| Day16.Cells | day_16.ts:144-148 | the cells some beam of the trail crosses |
| Day16.EnergizeKeepsState | day_16.ts:117-120 | adding a new, supported beam of the grid to its cell keeps the world's state consistent with the trail |
| Day16.CountNonEmpty | day_16.ts:144-148 | no more cells are counted than the state has |
| Day16.World.constructor | day_16.ts:99-108 | every cell of every row, and nothing else, gets an empty beam set |
| Day16.World.Run | day_16.ts:109-130 | the loop stops with "Invalid tile" on a beam entering an invalid tile, or ends with a complete run: every beam justified, every successor inside the grid processed |
| Day16.World.Visit | day_16.ts:111-129 | one turn pops a beam, drops it off the grid or when seen before, and otherwise keeps the loop invariant |
| Day16.World.Enter | day_16.ts:120-128 | a beam new to its cell is recorded, and its tile's successors pushed or the tile refused |
| Day16.World.Energize | day_16.ts:120 | one more direction in the cell's beam set and one more beam on the trail |
| Day16.World.CountEnergizedCells | day_16.ts:144-148 | the number of cells some processed beam crossed |
| Day16.VisitProgress | day_16.ts:120-128 | processing a beam with a valid tile and pushing its successors keeps the loop invariant |
| Day16.FinishedRunComplete | day_16.ts:111 | a run whose worklist is empty has a complete trail |
| Day16.UnprocessedShrinks | day_16.ts:111-129 | each new beam shrinks the set of beams still to process, so the loop ends |
| Day16.PendingVisit | day_16.ts:120-128 | every successor of a processed beam is processed or still in the worklist |
| Day16.Part1 | day_16.ts:151-155 | "Invalid tile" exactly when a beam that can be reached from the top-left cell heading right stands on an invalid tile; otherwise the number of cells a complete run energizes |
| Day16.ValidTilesOnly | day_16.ts:109-130 | when a complete run meets only valid tiles, no reachable beam stands on an invalid tile |

## Left out

- Days 1 and 6 are not part of this model: day 6 computes with floating-point square roots, which Dafny's integers and reals do not model.
- The command-line entry points (`import.meta.main` and `runPart`, which fetch puzzle input and submit answers over the network) are I/O and are left out; each `Deno.test` assertion that is modelled becomes an example lemma.
- `printEnergyState` (day_16.ts:131-143) only writes to the console and is left out.
- Regular expressions (`/\d+/g`, `/[:|]/`, `/ +/`, `/\s+/` and the like) are not modelled as a regex engine; each one is replaced by the predicate or split it amounts to (for example `NumberMatch` runs of digits in day 3).
- `Number(...)` is modelled for decimal integers: surrounding whitespace is ignored, text that is empty after trimming is 0, and a `+` or `-` sign may lead the digits. Other text `Number` reads as a number (decimal fractions such as `1.5`, exponents such as `1e3`, `0x`/`0o`/`0b` prefixes, `Infinity`) and text it reads as `NaN` are both reported by the model as an error, so `NaN` never arises.
- Coordinates.FromString: a part such as `1e3`, `0x10` or `1.5`, which `Number` reads as a number, is the error "Invalid number." in the model; a part `Number` reads as `NaN` is that error too, where the source builds a coordinate holding `NaN`.
- JavaScript numbers are 64-bit floating point; the model uses unbounded integers, so results beyond 2^53 are exact in the model where the source would round.
- Generators (`yield`) are modelled as the sequence of the values they yield.
- Strings are sequences of Unicode scalar values, while JavaScript strings are sequences of UTF-16 code units. `line[x]`, `.length`, `slice`, `indexOf`, `charCodeAt` and the indices of regular-expression matches all count code units, while `Array.from(row)` counts code points as the model does. So on input holding a character outside the Basic Multilingual Plane, the source and the model give different columns, lengths and hashes. This affects day 3 (symbol and number columns), day 10 (`lines[y][x]`, `indexOf("S")`), day 11 (`row[i]`, `slice`), day 13 (`line[x]`), day 15 (`charCodeAt`) and day 16 (`geometry[y][x]`). The puzzle inputs are ASCII.
- Third-party helpers are modelled by their meaning: `lcm` from the maths package (`Multiples.Lcm`, `Multiples.LcmAll`), `chunk` and the interval tree of day 5.
- Multiples.Lcm: the least common multiple is taken as 0 when an argument is 0, and `LcmAll` of no values as 1 (the package's conventions for these cases are not part of this model).
- Day2: the parse of the `Game <id>:` header and the splitting of each subset into `(count, colour)` parts (day_2.ts:15-18) are left out; `ParseSubset` starts from those parts and `Part1`/`Part2` from parsed games.
- Day3: the file's own `Coordinate` class and its text form (day_3.ts:4-21) are replaced by a coordinate value; the gear map is keyed by that value, so the aliasing of the shared `gearNumbers` arrays is modelled by value. The two test answers (4361 and 467835, day_3.ts:138-144) are not stated as lemmas.
- Day4: the parse of card lines (day_4.ts:25-33) is left out; the examples are stated on the cards' match counts.
- Day5.Part2IsSmallestLocation, Day5.SmallestStart: assume every seed range has length at least 1 and every conversion range has length at least 1 (`PositiveLengths`); the source states only that conversion ranges do not overlap (day_5.ts:99). An empty seed range still yields a clipped range of length 0 whose start counts toward the minimum, so `part2` can be a location no seed reaches (`Day5.EmptySeedRangeCounts`); a conversion range of length 0 or less is not described by these lemmas.
- Day5.LocationComplete, Day5.ThroughComplete: assume the same non-empty seed ranges and conversion ranges of positive length, for the same reason.
- Day5.MapRangeCoverage, Day5.MapRangeAgrees: assume a non-empty input range and conversion ranges of positive length, besides the non-overlap the source states.
- Day5.SeedRanges, Day5.Part2IsSmallestLocation: require an even number of seeds. With an odd number `chunk` leaves a last chunk of one seed, whose length is `undefined`, and the source then computes with `NaN`; that case, and `Day5.Part2` on it, are not modelled.
- Day5: the `StaticIntervalTree` (day_5.ts:15, 27-30) is replaced by a linear scan of the table in table order, with the tree's overlap test; the part-2 test answer 46 (day_5.ts:213-215) is not stated as a lemma.
- Day7: the parse of the input (day_7.ts:225-233: trim, split into lines, split each line into cards and bid) is left out; `SortHands` and the winnings start from parsed hands.
- Day7: the worked example and the card comparisons are stated, but the individual `identifyType`, `compareHands` and part-2 unit cases (day_7.ts:160-167, 214-234) are not. `Object.values` enumerates integer-like keys first; the model lists the counts in first-appearance order, and `CountsListAnyOrder` shows the order does not change the hand type.
- Day8.Walk, Day8.Part1, Day8.Run, Day8.Iterate and Day8.Part2: the source loops until it reaches its goal; the model takes a fuel bound and answers `None` when the bound runs out, so input that never reaches the goal is not modelled.
- Day8.Move: `nodes` is a plain object, so in the source a name such as `constructor`, `toString` or `__proto__` that no line defines still finds an inherited property; the model treats a name no line defines as missing. A missing position is looked up under the key `"undefined"`, as JavaScript converts it.
- Day9: the parse of the history lines (day_9.ts:4-8) is left out; the examples are stated on the parsed histories.
- Day10: the file's own `Coordinate` class (day_10.ts:4-24) is replaced by `Coordinates.Coordinate`, which behaves the same.
- Day10.GetNodesInLoop and Day10.Part1: the `do … while` walk is bounded by fuel, and a walk that does not return to the start within the bound is reported as `None`.
- Day11: only slices with non-negative bounds are modelled, which is all the source takes.
- Day12.ArrangementsReadings: ties the count to readings of the row in both directions of existence, not as an exact count of readings; it assumes statuses among `.`, `#`, `?` and groups of at least 1, which the parse does not enforce.
- Day12: the parse of the rows (day_12.ts:10-20) and the part-2 test answers on unfolded rows (day_12.ts:147-159) are left out; `Part2RowTransform` is modelled.
- Day14.Part1: requires a rectangular platform, because the grid is an `array2`; the source also runs on lines of different lengths, where reads past the end of a line give `undefined`.
- Day15.HashStep: adds the character's code point; `charCodeAt` gives UTF-16 code units, which differ only for characters outside the Basic Multilingual Plane.
- Day16: the world's energy state is a map keyed by coordinate value rather than a `ComplexKeyMap` keyed by text, which `Coordinates.ToStringInjective` justifies; the test answer 46 (day_16.ts:180-182) is not stated as a lemma.
- ComplexKeyMap: `forEach`, `[Symbol.iterator]` and `[Symbol.toStringTag]` are not separate members; iterating the map is `Entries`.
- The second parts of days 10, 11, 13, 14, 15 and 16 are commented out in the source and are not modelled.
