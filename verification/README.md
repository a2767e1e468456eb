# kendo-data-query, modelled in Dafny

kendo-data-query turns the query string of a Kendo UI grid request into a
MongoDB aggregation pipeline. `parse` decodes the `page`, `pageSize`,
`filter`, `sort`, `group` and `aggregate` parameters into a `DataState`. The
builders of `apply.go` then emit two pipelines:

- the data pipeline (`getPipeline`): id normalisation, preprocessing,
  joins, `$match`, the multi-level `$group`/`$sort` rollup with its final
  `$project`, `$sort` and paging;
- the count pipeline (`getTotalPipeline`).

This project models that core as pure Dafny functions over immutable
datatypes and proves properties about them.

Modules, by source file:

- `Descriptors` (datastate.dfy) — datastate.go: the descriptor records,
  `sanitizeKey`, `getKey`, `getSort`, `getAggregate` and `getExpression`.
- `Decoder` (parse.dfy) — parse.go: `parse` and its six steps,
  `tokenize`, `toValue`, `replaceField` and the `With*` setters. A Go panic
  becomes the `Panic` failure, and a returned `error` becomes a `Failure`.
- `DecoderProps` and `DecoderExamples` — the decoder's properties, and the
  cases of parse_test.go.
- `Filters` (filters.dfy) — filters.go: `FilterDescriptor.Filter`.
- `Rollup` and `RollupProps` (rollup.dfy) — apply.go: `getGroups`,
  `getFirstGrouping`, `getGroup`, `addAggregates` and `getProject`.
  - The method `GetGroups` follows the Go loops step by step, including
    the cumulative `delete` on the shared `ids` map.
  - It is proved equal to the functional definition `Stages`, which
    computes each level on its own.
- `Compiler` and `CompilerProps` (apply.dfy, compiler_props.dfy) — apply.go:
  `getBasePipeline`, `getLookups`, `getFilter`, `getSortFields`, `getPaging`,
  `getPipeline` and `getTotalPipeline`, with their properties.
- `Util` (bson.dfy) — util.go: `copyM`.
- Models of the Go library calls the core makes:
  - `GoStrings`: `strings.Index`, `Split`, `Join`, `TrimPrefix`,
    `TrimSuffix`;
  - `StrConv`: `strconv.Atoi`, `ParseFloat`;
  - `QuoteMeta`: `regexp.QuoteMeta`;
  - `Timestamps`: `time.Parse` with the layout `2006-01-02T15-04-05`.

`bson.M` is the datatype `Bson.Doc`. A pipeline is `seq<Doc>`. Many pipeline
properties are stated over the sequence of stage operators: `Ops(p, ops)`
says that stage k of `p` is a one-key document whose key is `ops[k]`.

The model follows the code where the code and its tests or comments differ:

- getPipeline puts the base stages (id normalisation, then preprocessing)
  first. The expected pipeline in apply_test.go:63-109 lists the joins
  before them.
- tokenize guards on `j != 1` (parse.go:189), not `j != -1`, and `j` is a
  byte offset. A "(" with no ")" at all (`Decoder.TokenizeUnclosedParen`),
  or whose first ")" comes before it at a byte offset other than 1
  (`Decoder.TokenizeCloseSecond`), therefore slices out of range, which the
  model records as `Panic`. When that ")" is at byte offset 1, as in
  `a)(b`, nothing is stripped and tokenize splits the whole text.
- getSortFields keeps only the last sort descriptor, because every pass of
  its loop replaces the whole document.
- getPaging does not clamp: page 0 gives a negative `$skip`.

## Model

| member | source | states |
|---|---|---|
| Descriptors.FromValues | parse.go:18-29 | a state built from query values holds those values and every other field at its zero value |
| Descriptors.SanitizeKey | datastate.go:95-97 | the key has no "."; its length is the input's minus the number of dots; a path without dots is its own key |
| Descriptors.SanitizeKeyAppend | datastate.go:95-97 | sanitizing distributes over concatenation |
| Descriptors.DottedPathKey | datastate.go:95-97 | a two-segment path "a.b" has the key "ab" |
| Descriptors.SanitizeKeyIsSegments | datastate.go:95-97 | the key is the dot-separated segments of the path written one after the other |
| Descriptors.SanitizeJoin | datastate.go:95-97 | joining dot-free segments with "." and sanitizing gives their concatenation |
| Descriptors.SanitizeKeyIdempotent | datastate.go:95-97 | sanitizing twice equals sanitizing once |
| Descriptors.SanitizeKeyNotInjective | datastate.go:95-97 | "a.b" and "ab" share a key |
| Descriptors.GroupKey | datastate.go:49-51 | a group key has no "." and equals a dot-free field |
| Descriptors.AggregateKey | datastate.go:39-41 | an aggregate key has no "." and equals a dot-free field |
| Descriptors.SortOrder | datastate.go:53-60 | the order is 1 or -1, and -1 exactly for "desc" |
| Descriptors.AggregateOperator | datastate.go:30-37 | the operator starts with "$"; "average" gives "$avg"; any other kind gives "$" followed by the kind |
| Descriptors.AggregateOperatorCollision | datastate.go:30-37 | two kinds give the same operator exactly when they are equal or are "average" and "avg" |
| Descriptors.AggregateExpression | datastate.go:21-28 | at the root the expression reads the raw item field; above it, it reads the kind under the sanitised key in the aggregates of the items one level down |
| Util.CopyM | util.go:7-14 | the copy has the same keys and the same value under each |
| GoStrings.Index | parse.go:186-187 | -1 exactly when the character is absent; otherwise the character position of its first occurrence (ByteOffset turns it into Go's byte offset) |
| GoStrings.Utf8Width | parse.go:186-187 | a character takes one to four bytes in UTF-8, and exactly one when it is ASCII |
| GoStrings.ByteOffset | parse.go:186-187 | the byte offset of a character position is at least the position and at most four times it |
| GoStrings.ByteOffsetMonotone | parse.go:186-190 | byte offsets grow strictly with character positions, so the order tests and the slice of tokenize agree in bytes and in characters |
| GoStrings.ByteOffsetOne | parse.go:186-189 | a byte offset is 1 exactly at position 1 behind an ASCII first character |
| GoStrings.Split | parse.go:193 | one more piece than separators; no piece holds the separator; joining the pieces gives the input |
| GoStrings.SplitJoin | parse.go:193 | Split undoes Join when no part holds the separator |
| GoStrings.JoinAvoids | parse.go:193 | joining parts that avoid a character (other than the separator) yields a string that avoids it |
| GoStrings.IndexAt | parse.go:186-187 | Index returns a position that holds the character and has none before it |
| GoStrings.CountConcat | parse.go:193 | occurrence counts add over concatenation |
| GoStrings.CountAbsent | parse.go:193 | an absent character occurs 0 times |
| GoStrings.CountAtFirst | parse.go:193 | counting across the first separator adds one |
| GoStrings.TrimPrefix | parse.go:199 | with the prefix the input is prefix + result; without it the result is the input |
| GoStrings.TrimSuffix | parse.go:198 | with the suffix the input is result + suffix; without it the result is the input |
| StrConv.Atoi | parse.go:141 | success implies an optional sign followed by digits only; a negative result means a leading "-"; a digit string gives its decimal value |
| StrConv.AtoiItoa | parse.go:141 | Atoi reads back what Itoa writes |
| StrConv.NatToDigits | parse.go:141 | the spelling is non-empty digits, has the number's value, and has no leading zero |
| StrConv.ParseFloat | parse.go:202 | empty text is no number (StrConv.ParseFloatOfInteger and ParseFloatFiniteHasDigit state what it accepts) |
| StrConv.ParseFloatFiniteHasDigit | parse.go:202 | a finite ParseFloat result comes from text holding a digit |
| StrConv.DecimalHasDigit | parse.go:202 | a decimal mantissa holds a digit |
| StrConv.ParseFloatOfInteger | parse.go:202 | text Atoi accepts parses as the float with the same value |
| StrConv.DecimalOfDigits | parse.go:202 | a digit string is the decimal of its value |
| StrConv.MantissaEnd | parse.go:202 | the mantissa is the longest prefix of digits and dots |
| StrConv.Scale | parse.go:202 | scaling by a power of ten keeps a positive mantissa positive and zero at zero |
| StrConv.AllDots | parse.go:202 | a string of dots has as many dots as characters |
| QuoteMeta.QuoteMeta | filters.go:16-19 | the result is a literal pattern, one character longer for every metacharacter |
| QuoteMeta.UnquoteQuoteMeta | filters.go:16-19 | unquoting the escaped text gives the input back |
| QuoteMeta.LiteralPrepend | filters.go:16-19 | an escaped character in front of a literal pattern keeps it literal |
| Timestamps.Parse | parse.go:199-200 | a parsed timestamp is a valid date and time, read from 18 or 19 characters |
| Timestamps.Format | parse.go:13-16 | the formatted text has the layout's length |
| Timestamps.ParseFormat | parse.go:199-200 | parsing what Format writes gives the timestamp back |
| Timestamps.ParseFields | parse.go:199-200 | a 19-character string with digits and separators in the layout's places parses to those fields |
| Timestamps.FormatFields | parse.go:13-16 | Format writes each field, zero-padded, where the layout puts it |
| Timestamps.LayoutSlices | parse.go:13-16 | the separators and fields of the layout sit at fixed positions |
| Timestamps.DigitsOfPad | parse.go:199-200 | a zero-padded field reads back as its value |
| Timestamps.Digits | parse.go:199-200 | a read field is n digits whose decimal value is the result |
| Timestamps.Pad | parse.go:13-16 | the padding has exactly the width, is all digits, and has the value when it fits |
| Decoder.Get | parse.go:65 | a missing parameter reads as "" and a present one as its value |
| Decoder.WithReplacements | parse.go:31-33 | the replacement map is stored and nothing else changes |
| Decoder.WithLookups | parse.go:35-37 | the lookups are stored and nothing else changes |
| Decoder.WithPreprocessing | parse.go:39-41 | the preprocessing stages are stored and nothing else changes |
| Decoder.ReplaceField | parse.go:174-182 | a field with a replacement becomes that replacement; any other field is kept |
| Decoder.Tokenize | parse.go:184-194 | the guard compares the byte offset of the first ")" with 1; it panics exactly in the out-of-range slicing case; otherwise at least one token and none holds the separator |
| Decoder.TokenizeWithoutParen | parse.go:184-194 | without "(" tokenize is Split: joining the tokens gives the input, one more token than separators |
| Decoder.TokenizeBetweenParens | parse.go:184-194 | with "(" before ")" (")" not at byte offset 1), joining the tokens gives the text between the first "(" and the first ")" |
| Decoder.TokenizeUnclosedParen | parse.go:184-194 | a "(" without any ")" always panics |
| Decoder.TokenizeCloseSecond | parse.go:186-190 | with ")" second and "(" third, tokenize panics exactly when the first character is not ASCII, and otherwise splits the whole text |
| Decoder.TokenizeAccentPanics | parse.go:186-190 | "é)(a)" panics: "é" is two bytes, so ")" is at byte offset 2 and the slice runs backwards |
| Decoder.ToValue | parse.go:196-208 | a value is a string, number or time; a time needs the `datetime'` prefix; a string needs a leading quote; a number has none; a quoted token of length >= 2 is a string |
| Decoder.Collect | parse.go:90-104 | the loop succeeds when every step does, keeping each step's value in order; otherwise its error is that of the first failing step |
| Decoder.Started | parse.go:88-91 | the loop starts one condition per i = 0, 4, 8, ... below the token count |
| Decoder.FiltersFrom | parse.go:90-104 | on success one descriptor per started condition, read from its tokens; a failure is the error of some started condition |
| Decoder.DecodeFilters | parse.go:86-104 | the slice has nbTokens/4 + 1 slots, and slots the loop does not reach hold the zero descriptor |
| Decoder.ParseFilterDescriptors | parse.go:80-112 | only Filter changes, and a failure leaves the state as it was |
| Decoder.Pair | parse.go:123-125 | a missing second piece panics; neither piece holds "-" |
| Decoder.GroupOf | parse.go:122-130 | a group token fails exactly when its pieces fail, and otherwise is the direction and the renamed field |
| Decoder.AggregateOf | parse.go:72-76 | an aggregate token fails exactly when its pieces fail, and otherwise is the kind and the renamed field |
| Decoder.DecodeGroups | parse.go:120-131 | one group per token, in order, each read from its token; failures panic |
| Decoder.DecodeAggregates | parse.go:70-77 | one aggregate per token, in order, each read from its token; failures panic |
| Decoder.ParseGroupDescriptors | parse.go:114-133 | only Group changes, and a failure panics and leaves the state as it was |
| Decoder.ParseAggregateDescriptors | parse.go:64-78 | only Aggregates changes, and a failure panics and leaves the state as it was |
| Decoder.ParseSortDescriptors | parse.go:157-172 | only Sort changes, by appending at most one descriptor to the existing ones; a failure is a panic that leaves the state as it was |
| Decoder.ParsePage | parse.go:135-144 | only Page changes; an absent parameter changes nothing; a present one succeeds exactly when Atoi accepts it and then Page is Atoi's value; a malformed one is an Atoi error with Page set to 0 |
| Decoder.ParsePageSize | parse.go:146-155 | only PageSize changes; an absent parameter changes nothing; a present one succeeds exactly when Atoi accepts it and then PageSize is Atoi's value; a malformed one is an Atoi error with PageSize set to 0 |
| DecoderProps.PageOfItoa | parse.go:135-144 | a page parameter holding the decimal text of n sets Page to n and nothing else |
| DecoderProps.PageSizeOfItoa | parse.go:146-155 | a pageSize parameter holding the decimal text of n sets PageSize to n and nothing else |
| Decoder.FilterAt | parse.go:93-103 | a condition cut short before its literal panics; a decoded one holds the renamed field, the operator token and no case folding (the full contract is DecoderProps.FilterAtFields) |
| Decoder.Parse | parse.go:43-62 | values, replacements, lookups and preprocessing are never changed |
| DecoderProps.FilterAtFields | parse.go:93-103 | a condition reads well exactly when its literal does, and then holds the renamed field, the operator token and the value |
| DecoderProps.FiltersOfCompleteConditions | parse.go:86-104 | with 4k+3 tokens decoding succeeds exactly when all k+1 conditions do, and yields them in order |
| DecoderProps.BadLiteralFailsFilter | parse.go:93-97 | one bad literal fails the whole filter |
| DecoderProps.FiltersOfTrailingConnective | parse.go:86-104 | with 4k tokens the k conditions fill k slots and the extra slot keeps the zero descriptor |
| DecoderProps.FiltersOfTruncatedCondition | parse.go:86-104 | with 4k+1 or 4k+2 tokens decoding always fails, by panicking once the earlier conditions decode |
| DecoderProps.FilterLogic | parse.go:106-109 | after a successful filter step Logic is "and" exactly when there are at least 4 tokens, and otherwise stays |
| DecoderProps.FilterFailureKeepsFilter | parse.go:93-97 | a failed filter step leaves Filter unchanged |
| DecoderProps.StepsLocal | parse.go:64-172 | each step depends only on values, replacements and the field it writes |
| DecoderProps.PagingStepsLocal | parse.go:135-155 | the page and page-size steps depend only on values and their own field |
| DecoderProps.DescriptorStepsLocal | parse.go:64-133 | the filter, sort, group and aggregate steps depend only on values, replacements and their own field |
| DecoderProps.ParseStepsIndependent | parse.go:43-62 | after a successful parse each field is what its step alone computes from the starting state |
| DecoderProps.ParseStopsAtPage | parse.go:45-47 | a malformed page stops parse with Page 0 and nothing else decoded |
| DecoderProps.ParseStopsAtPageSize | parse.go:49-51 | a malformed page size stops parse after the page |
| DecoderProps.ParseStopsAtFilter | parse.go:53-55 | a failing filter stops parse after page and page size, before sort, group and aggregates |
| DecoderProps.SortAppendsPair | parse.go:157-172 | `sort=field-dir` appends exactly one descriptor, the renamed field with the direction as written, and changes nothing else |
| DecoderProps.SortWithoutDash | parse.go:163-165 | a sort parameter without "-" adds no descriptor |
| DecoderProps.TokenizeJoin | parse.go:184-194 | tokenize undoes a join of separator-free, parenthesis-free parts |
| DecoderProps.QuotedLiteral | parse.go:203-204 | a quoted literal is the string between the quotes |
| DecoderProps.TimestampLiteral | parse.go:199-200 | a `datetime'...'` literal in the layout is the timestamp it spells |
| DecoderProps.IntegerLiteral | parse.go:201-202 | an unquoted integer is the float of its value |
| DecoderProps.PlainToken | parse.go:196-202 | a token with no quotes and not starting with "d" is whatever ParseFloat makes of it |
| DecoderProps.ItoaUnquoted | parse.go:201-202 | an integer's spelling starts with "-" or a digit and ends with a digit, so toValue reads it as a number |
| DecoderProps.MalformedTimestamp | parse.go:199-200 | any `datetime'…'` literal whose text is not 18 or 19 characters long is the model's TimeSyntax error naming that text (time.Parse also accepts a fractional-second suffix; see below) |
| DecoderProps.UnquotedWord | parse.go:201-202 | any unquoted token that starts with a letter other than d, i or n and does not end in a quote is a ParseFloat error naming that token |
| DecoderExamples.PageFive | parse_test.go:98-110 | `page=5` sets Page to 5 |
| DecoderExamples.PageWord | parse_test.go:112-124 | `page=one` is an Atoi syntax error |
| DecoderExamples.PageSizeFive | parse_test.go:128-140 | `pageSize=5` sets PageSize to 5 |
| DecoderExamples.PageSizeWord | parse_test.go:142-154 | `pageSize=one` is an Atoi syntax error |
| DecoderExamples.SortExample | parse_test.go:158-197 | `sort=firstName-asc` gives one ascending descriptor on firstName, renamed when a replacement exists |
| DecoderExamples.AggregateExample | parse_test.go:201-248 | `aggregate=due-sum~total-sum` gives two sums, due renamed when a replacement exists |
| DecoderExamples.GroupExample | parse_test.go:252-299 | `group=title-asc~due-desc` gives two groups in order, due renamed when a replacement exists |
| DecoderExamples.FilterExample | parse_test.go:303-327 | the two-condition filter decodes to its two descriptors with the quotes stripped |
| DecoderExamples.FilterTokenize | parse_test.go:305 | the parenthesised filter parameter splits into its seven tokens |
| DecoderExamples.ParenthesisedTokens | parse.go:184-194 | tokenize keeps exactly the text inside an outer pair of parentheses |
| DecoderExamples.CollectTwo | parse.go:86-104 | seven tokens whose two conditions read well decode to exactly those two |
| DecoderExamples.TwoTokens | parse.go:184-194 | two separator-free pieces joined by the separator tokenize back to themselves |
| DecoderExamples.QuietPrefix | parse.go:135-155 | the page, page-size and filter steps change nothing when their parameter is absent |
| DecoderExamples.QuietSuffix | parse.go:64-133 | the group and aggregate steps change nothing when their parameter is absent |
| DecoderExamples.TwoGroups | parse.go:120-131 | two well-formed group tokens decode to their two groups, in order |
| DecoderExamples.TwoAggregates | parse.go:70-77 | two well-formed aggregate tokens decode to their two aggregates, in order |
| DecoderExamples.GroupsRead | parse.go:114-133 | a group parameter whose tokens all decode sets Group to them |
| DecoderExamples.AggregatesRead | parse.go:64-78 | an aggregate parameter whose tokens all decode sets Aggregates to them |
| Filters.ParseOperator | filters.go:21-61 | every recognised case is selected by its own name |
| Filters.ParseOperatorName | filters.go:21-61 | operator names and recognised cases correspond one to one |
| Filters.EscapedValue | filters.go:16-19 | the escape of a value is a literal pattern that unquotes to the string value |
| Filters.Predicate | filters.go:21-61 | there is a predicate exactly when the switch has a case for the operator |
| Filters.Filter | filters.go:11-62 | an unknown operator leaves the document as is; a known one adds exactly the condition's field; other fields keep their entries |
| Filters.EqualityOperators | filters.go:22-56 | eq, isnull and isempty select exactly the value, null and "" |
| Filters.NegatedOperators | filters.go:24-60 | ne, isnotnull and isnotempty select exactly the values that eq, isnull and isempty reject |
| Filters.OperatorDocuments | filters.go:34-37 | lt, lte, gt and gte store the value under the MongoDB operator of the same name; doesnotcontain stores a string under `$not` with no escaping and no options |
| Filters.PatternOf | filters.go:38-49 | the pattern operators store `$regex` with the "^" anchor, the "$" anchor or no anchor, plus option "i" |
| Filters.StartsWithMatchesLiteral | filters.go:38-41 | startswith stores "^" followed by a literal that unquotes to the value |
| Filters.EndsWithMatchesLiteral | filters.go:42-45 | endswith stores a literal that unquotes to the value, followed by "$" |
| Filters.ContainsMatchesLiteral | filters.go:46-49 | contains stores an unanchored literal that unquotes to the value |
| Rollup.Keys | apply.go:169-173 | every group's key is in the key set |
| Rollup.KeysWitness | apply.go:169-173 | every key in the set comes from some group |
| Rollup.KeysConcat | apply.go:169-173 | the keys of a concatenation are the union of the keys |
| Rollup.DeeperKeysStep | apply.go:182-195 | going one level out adds the key of the level left behind to the deeper keys |
| Rollup.IdRefs | apply.go:169-173 | the id map has exactly the keys, each referring to "$_id.<key>" |
| Rollup.IdRefsInsert | apply.go:169-173 | adding a key adds its reference |
| Rollup.IdRefsRemove | apply.go:193 | deleting a key removes its reference |
| Rollup.FirstIds | apply.go:209-215 | the innermost `_id` has exactly the group keys |
| Rollup.FirstIdsLastWins | apply.go:212-215 | each key refers to the field of the last group with that key |
| Rollup.Accumulators | apply.go:229-248 | there are no accumulators exactly when there are no aggregates |
| Rollup.AccumulatorsLastWins | apply.go:233-248 | every aggregate has an entry under its key and kind, and the last one of each key and kind wins |
| Rollup.AccumulatorsOnly | apply.go:233-248 | every entry comes from an aggregate with that key and kind |
| Rollup.AggregatesDoc | apply.go:250-252 | the aggregates document is `{"_": null}` exactly when there are no aggregates |
| Rollup.AddAggregatesSetsOnlyAggregates | apply.go:229-257 | addAggregates sets the `aggregates` entry and leaves every other entry |
| Rollup.Stages | apply.go:165-207 | two stages per level (Rollup.RollupAt places each level, Rollup.GetGroups ties them to the loop) |
| Rollup.Interleave | apply.go:176-204 | two stages per level |
| Rollup.InterleaveAt | apply.go:176-204 | level i sits at positions 2(n-1-i) and 2(n-1-i)+1 |
| Rollup.RollupAt | apply.go:176-204 | getGroups puts level i's `$group` at 2(n-1-i) and its `$sort` right after |
| Rollup.InnermostLevel | apply.go:182-183 | the innermost level is getFirstGrouping |
| Rollup.OutermostLevel | apply.go:189-191 | level 0 groups by the scalar "$_id.<key0>" and pushes level 1 |
| Rollup.MiddleLevel | apply.go:192-196 | a middle level groups by the trimmed composite key and pushes the level below |
| Rollup.LevelSortAt | apply.go:180-203 | level i sorts on its key component, in its group's direction |
| Rollup.DropDeeperKey | apply.go:192-195 | the delete at a middle level leaves exactly the trimmed id map |
| Rollup.GroupLevel | apply.go:176-204 | one pass of the loop emits level i's `$group` and `$sort` and the map for level i-1 |
| Rollup.KeyRefs | apply.go:169-173 | the first loop builds the reference of every key |
| Rollup.GetGroups | apply.go:165-207 | the Go loop, with its accumulated deletes, emits exactly the per-level stages |
| RollupProps.LevelGroupIsGroup | apply.go:182-196 | every level's first stage is a `$group` |
| RollupProps.StagesAlternate | apply.go:165-207 | 2n stages, alternating `$group` and `$sort` from the innermost level out |
| RollupProps.SortKeyShape | apply.go:180-191 | the sort key is "_id" exactly at level 0 of a multi-level grouping, and "_id.<key>" elsewhere |
| RollupProps.KeysExclude | apply.go:169-173 | a key no group has is not in the key set |
| RollupProps.KeysDisjoint | apply.go:169-173 | groups with pairwise different keys have disjoint key sets |
| RollupProps.TrimmedIdsKeys | apply.go:192-195 | with distinct keys, level i's trimmed id holds exactly the keys of groups 0..i |
| RollupProps.ValueResolves | apply.go:185-196 | with distinct keys, the value "$_id.<key(i+1)>" pushed at level i names an entry of level i+1's id |
| RollupProps.PushedAt | apply.go:306-322 | an outer level pushes the key, items, field and aggregates of the level below |
| RollupProps.PushedFields | apply.go:306-322 | the pushed document has exactly value, items, field and aggregates, with the raw aggregates only at depth n-2 |
| RollupProps.LevelReadsRaw | apply.go:307 | only the level just above the innermost reads raw fields |
| RollupProps.AggregatesDocEntry | apply.go:229-256 | every aggregate sits under its key and kind; the last one holds its operator and expression |
| RollupProps.AggregatesDocOnly | apply.go:229-256 | every entry of a non-empty aggregates document comes from some aggregate |
| RollupProps.AggregatesResolve | apply.go:306-322 | the aggregate path read at level i exists in the documents level i+1 pushes |
| RollupProps.ProjectFields | apply.go:259-277 | the final `$project` holds `_id` 0, the value, items, field and aggregates, read raw only with one group |
| RollupProps.ProjectBaseFields | apply.go:259-273 | the projection before aggregates holds `_id`, value, items and field |
| RollupProps.CollidingKeys | apply.go:209-215 | "a.b" and "ab" collapse to one `_id` entry holding the later field |
| RollupExamples.TwoFirstIds | apply.go:209-215 | the innermost `_id` of two groups maps each key to its field, the second group written last |
| RollupExamples.TwoAccumulators | apply.go:229-248 | two aggregates with one key merge into a single entry holding an accumulator per kind |
| RollupExamples.TwoLevels | apply.go:67-70 | with two groups the group part is the four rollup stages followed by the projection |
| RollupExamples.ExampleFirstIds | apply_test.go:120-123 | the test's innermost `_id` is {dataemail: "$data.email", vendoremail: "$vendor.email"} |
| RollupExamples.ExampleInnerGroup | apply_test.go:118-128 | the test's innermost `$group` groups by both keys and pushes `$$ROOT` |
| RollupExamples.ExampleInnerSort | apply_test.go:129-133 | the test's first `$sort` is on "_id.vendoremail" descending |
| RollupExamples.ExampleRawAggregates | apply_test.go:142-150 | the test's pushed aggregates hold `$avg` and `$sum` of "$items.commission.due" under "commissiondue" |
| RollupExamples.ExamplePushed | apply_test.go:138-152 | the test's outer level pushes value, items, field "vendor.email" and the raw aggregates |
| RollupExamples.ExampleOuterGroup | apply_test.go:134-155 | the test's outer `$group` groups by "$_id.dataemail" and pushes the level-1 documents |
| RollupExamples.ExampleOuterSort | apply_test.go:156-160 | the test's last `$sort` is on "_id" ascending |
| RollupExamples.ExampleNestedAggregates | apply_test.go:166-174 | the test's projected aggregates read "$items.aggregates.commissiondue.<kind>" |
| RollupExamples.ExampleProject | apply_test.go:161-176 | the test's `$project` holds value "$_id", items, field "data.email", the nested aggregates and `_id` 0 |
| RollupExamples.ExampleRollup | apply_test.go:118-176 | for the test's state (two groups, average and sum of one field) the group part is exactly the five stages the test expects, in order |
| Compiler.BasePipeline | apply.go:33-53 | the base pipeline is the two id stages followed by the preprocessing stages unchanged and in order |
| Compiler.JoinStages | apply.go:139-159 | a join emits two stages when single and one otherwise |
| Compiler.CountSingle | apply.go:148 | at most one single join per join |
| Compiler.Lookups | apply.go:135-163 | getLookups emits one stage per join plus one per single join |
| Compiler.SortLoop | apply.go:281-289 | once a descriptor is read the document holds exactly one field (CompilerProps.SortLoopLast: the last descriptor's) |
| Compiler.SortFields | apply.go:279-294 | the result is a one-key `$sort` stage whose body has one field when there are descriptors (CompilerProps.SortFieldsLastWins gives which) |
| Compiler.LookupsByAlias | apply.go:85-88 | every entry of the alias table is filed under its own alias (CompilerProps.LookupsByAliasKeys and LookupsByAliasLastWins give which) |
| Compiler.LookupsToApply | apply.go:90-97 | at most one join per filter, each taken from the alias table (CompilerProps.LookupsToApplyNonEmpty gives when there is one) |
| Compiler.NeededLookups | apply.go:101-112 | either no stage or one `$lookup` per declared join (CompilerProps.TotalJoins gives their order) |
| Compiler.TotalPipeline | apply.go:83-123 | the count pipeline is longer than the base and ends in `$count` (CompilerProps.TotalLayout gives every stage) |
| Compiler.Direction | apply.go:279-289 | the direction is 1 or -1, and -1 exactly for "desc" |
| Compiler.Paging | apply.go:324-331 | paging is two stages; their contents are stated by CompilerProps.PagingExact |
| Compiler.RootKey | apply.go:93 | the root key has no ".", is a prefix of the field, and is the whole field or is followed by "." |
| Compiler.PlainLookups | apply.go:102-111 | one bare `$lookup` per declared join |
| CompilerProps.OpsConcat | apply.go:55-81 | operator lists concatenate with their pipelines |
| CompilerProps.OpsMember | apply.go:55-81 | a pipeline has a stage with an operator exactly when the operator is in its list |
| CompilerProps.Occurrences | apply.go:55-81 | a count never exceeds the length |
| CompilerProps.OccurrencesConcat | apply.go:55-81 | counts add over concatenation |
| CompilerProps.OccurrencesMember | apply.go:55-81 | a positive count means membership |
| CompilerProps.Repeat | apply.go:102-111 | n copies of a value |
| CompilerProps.RepeatCount | apply.go:102-111 | n copies hold the value n times and nothing else |
| CompilerProps.SuffixHasStage | apply.go:55-81 | the stages after the base hold an operator exactly when it is counted |
| CompilerProps.Regroup | apply.go:55-81 | appending parts regroups around the base |
| CompilerProps.JoinOpsCount | apply.go:139-159 | a join emits one `$lookup` and, when single, one `$addFields` |
| CompilerProps.LookupsOps | apply.go:135-163 | getLookups emits `$lookup`, plus `$addFields` after each single join |
| CompilerProps.LookupOpsCount | apply.go:135-163 | getLookups emits one `$lookup` per join, one `$addFields` per single join, and nothing else |
| CompilerProps.CountSingleBound | apply.go:135-163 | the stages of the first k joins fit in all the stages |
| CompilerProps.LookupsKeep | apply.go:139-160 | adding a join keeps the earlier stages in place |
| CompilerProps.JoinStagesAt | apply.go:139-160 | join k's stages start after the stages of the joins before it |
| CompilerProps.LookupsAt | apply.go:139-160 | join k's `$lookup` is at k + (single joins before k), and a single join's collapse follows it directly |
| CompilerProps.MatchKeys | apply.go:296-304 | the match document has a field exactly when a condition with a known operator names it |
| CompilerProps.MatchLastWins | apply.go:296-304 | the field's entry is the predicate of the last condition with a known operator on that field |
| CompilerProps.SortLoopLast | apply.go:281-289 | each pass replaces the document, so the last descriptor decides |
| CompilerProps.SortFieldsLastWins | apply.go:279-294 | the `$sort` holds null with no descriptor, otherwise only the last field, -1 exactly for "desc" |
| CompilerProps.PagingWindow | apply.go:324-331 | for page >= 1 the skip is non-negative, the limit is pageSize, and skip + limit is page * pageSize |
| CompilerProps.PagingExact | apply.go:324-331 | for every state, `$skip` (page-1)*pageSize and then `$limit` pageSize, each a one-key stage |
| CompilerProps.PageZeroSkip | apply.go:324-331 | page 0 gives a negative skip of one page size |
| CompilerProps.RollupOps | apply.go:165-207 | two operators per level |
| CompilerProps.RollupOpsCount | apply.go:165-207 | n `$group` and n `$sort` operators, nothing else |
| CompilerProps.InterleaveOps | apply.go:176-204 | interleaved levels are `$group`, `$sort` pairs |
| CompilerProps.StagesOps | apply.go:165-207 | getGroups emits `$group`, `$sort` per level |
| CompilerProps.GroupPartHasOps | apply.go:67-70 | the group part is the rollup operators followed by `$project` |
| CompilerProps.SmallPartsHaveOps | apply.go:63-78 | the match, sort and paging parts have the expected operators when present |
| CompilerProps.PipelineLayout | apply.go:55-81 | the data pipeline is the base pipeline, then the parts in order; paging, when present, comes last |
| CompilerProps.PipelineOpsCount | apply.go:55-81 | the count of an operator is the sum over the parts |
| CompilerProps.GroupPartOpsCount | apply.go:67-70 | grouping adds n `$group`, n `$sort` and one `$project` |
| CompilerProps.SmallPartsCount | apply.go:63-78 | `$match` only with filters, `$sort` only with sort descriptors, `$skip` and `$limit` only with a positive page size |
| CompilerProps.PipelineCounts | apply.go:55-81 | the exact number of stages of each operator after the base, for every state |
| CompilerProps.PipelineHasStage | apply.go:55-81 | after the base a stage with an operator exists exactly when its count is positive |
| CompilerProps.RootKeyIsSplit | apply.go:93 | RootKey is the first piece strings.Split cuts at "." |
| CompilerProps.LookupsByAliasKeys | apply.go:85-88 | the alias table has an alias exactly when some join declares it |
| CompilerProps.LookupsByAliasLastWins | apply.go:85-88 | the table keeps the last join declared under an alias |
| CompilerProps.LookupsToApplyNonEmpty | apply.go:91-97 | some join is needed exactly when some filter's root key is in the table |
| CompilerProps.JoinsNeeded | apply.go:85-101 | joins are added exactly when some filter's root segment equals some join's alias |
| CompilerProps.PlainLookupsAt | apply.go:102-111 | the k-th bare `$lookup` is join k's |
| CompilerProps.NeededLookupsOps | apply.go:101-112 | when needed, every declared join is a bare `$lookup` in declaration order, with no collapse; otherwise nothing |
| CompilerProps.TotalParts | apply.go:83-123 | the count pipeline is the base followed by its parts |
| CompilerProps.TotalLayout | apply.go:83-123 | the count pipeline is the base, then the needed `$lookup`s, `$match` with filters, and `$count` |
| CompilerProps.TotalEnds | apply.go:114-120 | `$count` "total" is last, and the same `$match` as in the data pipeline comes right before it when there are filters |
| CompilerProps.TotalJoins | apply.go:99-112 | when a join is needed, every declared join follows the base stages in order |
| CompilerProps.TotalCounts | apply.go:83-123 | one `$lookup` per join when needed (else none), one `$match` with filters, exactly one `$count` |

## Left out

- Apply and getTotal (apply.go:11-31, 125-133) run the pipelines against a
  collection and print an error; that is I/O and is not modelled.
- NewDataStateFromRequest (parse.go:18-29) parses the raw URL query with
  url.ParseQuery. The model starts from the decoded values map
  (`Descriptors.FromValues`). Repeated parameters keep only their first
  value, as `Values.Get` does; the map holds that value.
- Integers are unbounded. Go's `int` overflow in Atoi (a range error), in
  `(Page-1)*PageSize` and in `i += 4` is not modelled.
- StrConv.ParseFloat: models the decimal grammar, signs, exponents, and
  "inf"/"infinity"/"nan" with the exact real value. It does not model
  float64 rounding, hexadecimal floats, underscores or range errors.
- Timestamps.Parse: time.Parse also accepts a fractional-second suffix
  (such as `.5` or `,123`) right after the seconds field, even though the
  layout has none. The model's length check (17 characters plus the hour's
  width) rejects such text. The layout has no zone, so the result is UTC in
  both.
- Filters.Predicate: for `doesnotcontain` with a non-string value, Go stores
  `fmt.Sprintf("%s", value)`: a `%!s(float64=…)` text for a number, and the
  `Time.String()` text (such as "2020-01-02 03:04:05 +0000 UTC") for a
  timestamp. The model stores the value itself.
- Decoder.Tokenize: the `j != 1` guard is modelled as written, on the byte
  offset. The model does not correct it to `j != -1`.
- GoStrings.Index: positions are counted in Unicode characters, and
  `GoStrings.ByteOffset` recovers the byte offsets Go's strings.Index
  returns. A Dafny string holds Unicode scalar values, so Go strings that
  are not valid UTF-8 cannot be represented.
- DecoderProps.MalformedTimestamp: it states the model's length rule. A
  longer text that ends in a fractional-second suffix, such as
  `2020-01-02T03-04-05.5`, is accepted by time.Parse but is an error in the
  model (the Timestamps.Parse line above).
- getSortFields is modelled as a function that folds over the descriptors,
  not as a loop method; its result is stated by `CompilerProps.SortLoopLast`.
- The shape of both pipelines is stated as operator lists and counts
  (`CompilerProps.PipelineCounts`, `CompilerProps.TotalCounts`). The stage
  contents are stated separately
  (`LookupsAt`, `MatchLastWins`, `SortFieldsLastWins`, `PagingExact`,
  `RollupProps.ProjectFields`, `Rollup.GetGroups`). The builders that only
  assemble a document carry no contract of their own: `LookupStage` and
  `CollapseStage` (see `LookupsAt`), `MatchDoc` and `MatchStage` (`MatchKeys`,
  `MatchLastWins`), `FirstGrouping` (`InnermostLevel`, `FirstIdsLastWins`),
  `Grouping` and `Pushed` (`PushedAt`, `PushedFields`), `AddAggregates`
  (`AddAggregatesSetsOnlyAggregates`), `Project` (`ProjectFields`),
  `Pipeline` (`PipelineLayout`, `PipelineCounts`) and `OperatorName`
  (`ParseOperatorName`).
- Util.CopyM: that the copy is a fresh map, so deleting from the original
  leaves it intact (apply.go:193-194), holds because Dafny maps are values;
  no contract states it.
- Go map iteration order does not matter to any result here: bson.M is a
  map, and `Doc` maps are unordered.
