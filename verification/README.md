# redgene in Dafny

redgene generates relational test data from a JSON schema template. This project models its
core in Dafny:

- **Distributions** (`prob_dist.dfy`, on top of `prng.dfy`). These are the sequential
  incrementer, the uniform integer engine and the draw-without-replacement set sampler.
  - Each is a class whose fields its draws update.
  - The set sampler's draws are also a pure state machine (`Step`, `Trace`). Its guarantees
    are proved on that machine.
- **String synthesisers** (`str_synth.dfy`, `rg_utils.dfy`, `rg_core.dfy`). They map an
  integer key to a string over the 69-character alphabet, with an optional warehouse that
  memoises strings by key.
- **Schema validator** (`json.dfy`, `validator.dfy`). This is an imperative `Validate`
  method over a JSON tree. It is proved equal to a declarative predicate `ValidSchema`.
- **Column generators** (`columns.dfy`). The integer and string columns pick their
  distribution and warehouse policy from the cardinality.
- **DDL script generator** (`ddl_*.dfy`). This is the Python serialiser from the schema to
  Oracle external-table and `alter table` text.
  - The loops are methods, each proved equal to a specification function of the text.
  - The lemmas cover the type mapping, list separation, constraint texts, and the stable
    sort and grouping of composite foreign keys.

The pseudo-random generator is an oracle. `draw(seed, k, lo, hi)` is the value of the k-th
uniform draw over `[lo, hi]` after seeding with `seed`. `Honest(draw)` states only the
distribution's range contract.

In the DDL modules, `fixed == false` is the script as written and `fixed == true` is the
corrected script (see Findings). An error a Python dictionary lookup raises (`KeyError`),
or one from recursion that is too deep, is a `DdlError` result that stops the script.

## Model

| member | source | states |
|---|---|---|
| Prng.PrngEngine.constructor | rand_engine.hpp:35-39 | the engine starts with the given seed and no draws taken |
| Prng.PrngEngine.Seed | rand_engine.hpp:46-49 | reseeding sets the seed and restarts the draw stream |
| Prng.PrngEngine.UniformInt | prob_dist.hpp:79-82 | a draw is the oracle's next value for this seed; it lies in [lo, hi] when lo <= hi |
| ProbDist.SimpleIncrementer.constructor | prob_dist.hpp:26-30 | value and minval are the start value; min() is the start and max() is the type maximum |
| ProbDist.SimpleIncrementer.Reset | prob_dist.hpp:32-35 | reset sets value, step and minval to 1, not back to the start value |
| ProbDist.SimpleIncrementer.Next | prob_dist.hpp:37-40 | returns the current value and advances it by exactly one, modulo 2^64; step plays no part |
| ProbDist.IncrementerCountsUp | prob_dist.hpp:37-40 | without wrap-around, k calls yield start, start+1, ..., start+k-1, strictly increasing |
| ProbDist.UniformIntDistEngine.constructor | prob_dist.hpp:62-67 | min() and max() are the constructor bounds |
| ProbDist.UniformIntDistEngine.SetDistParams | prob_dist.hpp:94-97 | after set_dist_params(a, b), min() == a and max() == b |
| ProbDist.UniformIntDistEngine.Next | prob_dist.hpp:79-82 | one draw from the shared generator over [min(), max()], landing inside it when the range is non-empty |
| ProbDist.SetDistribution.constructor | prob_dist.hpp:295-302 | floor = min, n = max, last_k = min, num_left = amount; min() and max() are the bounds |
| ProbDist.SetDistribution.Next | prob_dist.hpp:325-356 | on either error branch it returns 0 and changes no state and no generator; otherwise it draws the offset over [floor, (n - last_k)/num_left] and follows `Step` |
| ProbDist.StepAdvances | prob_dist.hpp:332-340 | a successful call returns d + last_k + 1 > last_k, stores it as last_k and decrements num_left by one |
| ProbDist.StepBound | prob_dist.hpp:334-337 | a successful call's value is at most last_k + 1 + (n - last_k)/num_left, and so at most n + 1 |
| ProbDist.TraceSucceedsExactlyNumLeft | prob_dist.hpp:330-345 | call i succeeds iff i < num_left, so from construction exactly `amount` calls succeed; failed calls return 0 |
| ProbDist.OverRequestAlwaysRefuses | prob_dist.hpp:330-331 | with req_amt > max, every call returns 0 and leaves the state unchanged |
| ProbDist.TraceStrictlyIncreasing | prob_dist.hpp:334-338 | successful values exceed the initial last_k and are strictly increasing, hence pairwise distinct |
| ProbDist.SetDrawCanExceedMax | prob_dist.hpp:334-337 | amount 1 over [0, 10] with offset 10 returns 11, above max; over [5, 10] the only offset allowed is 5, since the floor is min, and it also returns 11 |
| ProbDist.CappedStepKeepsRoom | prob_dist.hpp:334-338 | with the offset capped at range_size - 1, a call stays in (last_k, n] and enough room remains for the remaining draws |
| ProbDist.CappedRunStaysInDomain | prob_dist.hpp:334-338 | with capped offsets, successful values stay in (last_k, max] and strictly increase |
| ProbDist.CappedSamplerFromConstruction | prob_dist.hpp:295-340 | corrected sampler over any [min, max] with amount <= max - min: exactly `amount` successes, strictly increasing, each in [min + 1, max] |
| StrSynth.IndexRangeCoversAlphabet | rg_utils.hpp:36 | the alphabet has 69 characters and the index bound sizeof-2 is its last index, excluding the NUL |
| StrSynth.CharsFrom | rg_core.hpp:29-33 | the generated string has exactly the requested length |
| StrSynth.CharsFromInAlphabet | rg_core.hpp:30-33 | every generated character is an alphabet character |
| StrSynth.CharsFromSnoc | rg_utils.hpp:52-53 | one more draw appends the character at the drawn index |
| StrSynth.DrawChars | rg_utils.hpp:52-53 | the character loop yields the key's generated string and takes exactly n draws |
| StrSynth.Memo | rg_utils.hpp:43-61 | the warehouse exists after a call iff it existed before; with one, the key maps to the returned string |
| StrSynth.MemoKeepsEntries | rg_utils.hpp:43-61 | a hit returns the stored string and changes nothing; a miss adds exactly the new key; stored entries are never overwritten; without a warehouse the fresh string is returned |
| StrSynth.MemoRepeatStable | rg_core.hpp:25-40 | with a warehouse, asking again for a key returns the first answer whatever would be generated |
| RgUtils.Generated | rg_utils.hpp:46-53 | fixed length gives exactly str_length characters; variable length gives a length in [6, str_length] |
| RgUtils.GeneratedInAlphabet | rg_utils.hpp:52-53 | every character of a generated string is an alphabet character |
| RgUtils.RandStrGenerator.constructor | rg_utils.hpp:24-38 | a warehouse exists iff not bypassed; variable length is switched off for lengths <= 6 |
| RgUtils.RandStrGenerator.Call | rg_utils.hpp:39-63 | the result and the new warehouse are `Memo` of the old warehouse and the string the key generates; since every stored string is its key's generated string, the result is always that string: str_length characters, or 6 to str_length in variable-length mode, all from the alphabet; configuration unchanged |
| RgUtils.RandStrGenerator.Fill | rg_utils.hpp:46-53 | after reseeding with the key, the buffer holds exactly the key's generated string |
| RgCore.RandStrGenerator.Default | rg_core.hpp:9-15 | the default generator has length 10, bypass on and no warehouse |
| RgCore.RandStrGenerator.constructor | rg_core.hpp:16-21 | a warehouse is allocated iff not bypassed |
| RgCore.RandStrGenerator.Call | rg_core.hpp:22-42 | result and warehouse follow `Memo` with a fresh generator seeded by the key; since every stored string is its key's generated string, a hit returns the same string, so the result always has exactly str_length alphabet characters |
| RgCore.MemoPreservesSoundness | rg_core.hpp:25-40 | if every stored string is its key's generated string, a call keeps that so and returns the key's generated string |
| Json.FindMember | redgene.hpp:64-66 | None iff no member has the key; otherwise a member with that key holds the value |
| Json.Find | redgene.hpp:71-73 | lookup on a non-object finds nothing; on an object it searches its members |
| Json.Elements | redgene.hpp:69 | a range-for visits an array's items, an object's values, nothing for null, the value itself otherwise |
| Json.Size | redgene.hpp:186 | size() is the number of elements a range-for visits: 0 for null, 1 for a primitive |
| Validator.LowerChar | redgene.hpp:75-76 | tolower shifts exactly A-Z and leaves every other character |
| Validator.UpperChar | redgene.hpp:117-118 | toupper shifts exactly a-z and leaves every other character |
| Validator.Lower | redgene.hpp:75-76 | the transform keeps the length and lower-cases each character |
| Validator.Upper | redgene.hpp:117-118 | the transform keeps the length and upper-cases each character |
| Validator.AsString | redgene.hpp:74 | get<string> succeeds exactly on strings and returns their text |
| Validator.AsReal | redgene.hpp:108 | get<float> succeeds exactly on numbers and booleans, reading true as 1 and false as 0 |
| Validator.TruncateTowardZero | redgene.hpp:149 | conversion to an integer truncates toward zero on both signs |
| Validator.AsInt64 | redgene.hpp:149 | get<int_fast16_t> (the library's 64-bit integer type) succeeds exactly on numbers, not on booleans; an unsigned value at or above 2^63 reads as negative |
| Validator.Names | redgene.hpp:74-77 | the lower-cased names, one per element, in order |
| Validator.ValidateColumn | redgene.hpp:95-180 | the column checks accept exactly the columns satisfying `ValidColumn` |
| Validator.CheckTypeRules | redgene.hpp:137-180 | the type-dependent checks accept exactly when `TypeRules` holds |
| Validator.ValidateTable | redgene.hpp:71-183 | the table checks, column loop included, accept exactly `ValidTable` |
| Validator.Validate | redgene.hpp:61-190 | validate() returns true exactly on documents satisfying `ValidSchema` |
| Validator.RedgeneValidator.constructor | redgene.hpp:34-54 | the verdict is true iff parsing succeeded and the document is valid |
| Validator.RedgeneValidator.IsValid | redgene.hpp:56-59 | is_valid returns the stored verdict |
| Validator.DistinctIffFullSet | redgene.hpp:182-187 | the set of names is as large as the list iff no name repeats |
| Validator.ValidSchemaIffDistinctNames | redgene.hpp:186-187 | a document is valid iff its tables are valid and their lower-cased names are pairwise distinct |
| Validator.ValidTableIffDistinctNames | redgene.hpp:182-183 | a table with name, row count and columns is valid iff its columns are valid and their lower-cased names are distinct |
| Validator.CaseOnlyDuplicateTablesRejected | redgene.hpp:74-77 | two table names differing only in case make the document invalid |
| Validator.CaseOnlyDuplicateColumnsRejected | redgene.hpp:98-101 | two column names differing only in case make the table invalid |
| Validator.EmptyTablesAccepted | redgene.hpp:64-69 | an empty tables array, or a null tables entry, is accepted |
| Validator.MissingOrPrimitiveTablesRejected | redgene.hpp:64-73 | a missing tables key, or a primitive tables value, is rejected |
| Validator.DateTypesRejected | redgene.hpp:30 | DATE and TIMESTAMP columns, in any case, are rejected |
| Validator.BooleanCardinality | redgene.hpp:106-109 | a boolean cardinality converts: true passes the positivity check and false fails it |
| Validator.BooleanRealBound | redgene.hpp:157-168 | a boolean real_max converts to 1.0 or 0.0: with the default real_min, true is accepted and false rejected |
| Validator.BooleanLengthRejected | redgene.hpp:145-151 | a STRING column whose length is a boolean is rejected: get<int_fast16_t> throws a type error on booleans |
| Columns.ToU64 | redgene.hpp:251-252 | the float-to-unsigned conversion drops the fraction of an in-range value |
| Columns.PdfForRanges | redgene.hpp:246-256 | sequential iff cardinality == 1; below 1, uniform over [1, floor(rows*card)] with the top <= rows; above 1, uniform over [1, floor(card)] |
| Columns.WholePartBelow | redgene.hpp:250-252 | the whole part of an amount in [0, rows] is at most rows |
| Columns.FractionOfRows | redgene.hpp:250-252 | a fraction in [0, 1) of the row count lies in [0, rows] |
| Columns.MemoPolicyCases | redgene.hpp:330-333 | a generator is built iff cardinality > 0; it bypasses the warehouse iff cardinality is in [0.7, 1] |
| Columns.Describe | redgene.hpp:244 | a column's distribution is sequential iff it is the incrementer |
| Columns.NextValue | redgene.hpp:271-274 | a uniform draw lies within the engine's bounds |
| Columns.Draw | redgene.hpp:271-274 | a draw returns the distribution's next value and advances exactly its own state |
| Columns.NewDistribution | redgene.hpp:246-256 | the new distribution has the chosen kind and range, drawing from the shared generator |
| Columns.NormalIntColumn.constructor | redgene.hpp:259-264 | the column holds the distribution its cardinality selects |
| Columns.NormalIntColumn.SetPdfContext | redgene.hpp:246-256 | the column points at a fresh distribution matching `PdfFor(cardinality, rows)` |
| Columns.NormalIntColumn.Call | redgene.hpp:271-274 | sequential columns return the count and advance it by one; uniform columns return a value in [1, hi] and take exactly one draw of the shared generator |
| Columns.NormalStringColumn.constructor | redgene.hpp:336-342 | the column holds the selected distribution, an incrementer starting at 1, and the generator its cardinality calls for, with an empty warehouse when one is kept |
| Columns.NormalStringColumn.SetPdfContext | redgene.hpp:319-334 | the generator exists iff `MemoPolicy` gives one, with that warehouse policy, length and variable-length rule |
| Columns.NormalStringColumn.Call | redgene.hpp:352-358 | "<error_in_string_gen>" without a generator, with the distribution untouched; otherwise the warehouse result for the drawn key, which is always that key's generated string, and the distribution advances: the count by one, or one draw of the shared generator |
| DdlText.SeparatedPrefixJoin | gen_redgene_ddls.py:148-151 | part way through, the loop's text is the joined items plus one trailing separator |
| DdlText.SeparatedIsJoin | gen_redgene_ddls.py:148-151 | a loop that adds the separator after every item but the last yields the joined list |
| DdlText.Split | gen_redgene_ddls.py:14 | splitting yields at least one piece |
| DdlText.SplitJoin | gen_redgene_ddls.py:148-151 | a list joined with a one-character separator that no item contains splits back into the items |
| DdlText.NatToString | gen_redgene_ddls.py:77 | str() of a number is non-empty decimal digits with no leading zero |
| DdlText.IntToStringRoundTrip | gen_redgene_ddls.py:77 | the printed integer parses back to itself |
| DdlText.StrLeTotal | gen_redgene_ddls.py:182 | Python's string order is total |
| DdlText.StrLeAntisymmetric | gen_redgene_ddls.py:182 | Python's string order is antisymmetric |
| DdlText.StrLeTransitive | gen_redgene_ddls.py:182 | Python's string order is transitive |
| DdlText.StrLeReflexive | gen_redgene_ddls.py:182 | Python's string order is reflexive |
| DdlSchema.Concat | gen_redgene_ddls.py:111 | when every piece succeeds, writing them one after another succeeds |
| DdlSchema.ConcatErrSticks | gen_redgene_ddls.py:116 | once a piece fails, the pieces after it do not change the outcome |
| DdlSchema.RefText | gen_redgene_ddls.py:23-31 | a referenced column offers text iff it is DATE, TIMESTAMP or a STRING longer than 255 |
| DdlSchema.RefColTypeSound | gen_redgene_ddls.py:18-33 | as written, any text found comes from a column `ref_col` of a table `ref_tab` that is itself DATE, TIMESTAMP or a long STRING, never from the column an untyped match refers to |
| DdlSchema.SearchTablesSound | gen_redgene_ddls.py:19-33 | the table scan finds text only in a table named ref_tab |
| DdlSchema.SearchColumnsSound | gen_redgene_ddls.py:21-31 | the column scan finds text only in a column named ref_col with that text |
| DdlSchema.SearchTablesSkip | gen_redgene_ddls.py:19-20 | tables not named ref_tab do not affect the search |
| DdlSchema.SearchColumnsSkip | gen_redgene_ddls.py:21-22 | columns not named ref_col do not affect the search |
| DdlSchema.DiscardedChainResult | gen_redgene_ddls.py:18-33 | looking up B.y, a DATE column, yields its mask either way; as written, looking up A.x, an untyped FK to B.y, finds nothing; the corrected lookup yields the DATE mask |
| DdlSchema.ChainedFollowsReference | gen_redgene_ddls.py:32-33 | the corrected lookup of an untyped referencing column returns what its own reference's lookup finds |
| DdlCreate.SqlType | gen_redgene_ddls.py:69-93 | every known type and an absent type give text starting with a space; an unknown type gives none |
| DdlCreate.VarcharLengthRoundTrip | gen_redgene_ddls.py:74-79 | the varchar2 length text parses back to the schema's length |
| DdlCreate.CreateItems | gen_redgene_ddls.py:40 | one name-and-type item per column |
| DdlCreate.CreateColumnsPrefix | gen_redgene_ddls.py:69-93 | after k columns the CREATE list is the separated prefix of the items |
| DdlCreate.CreateColumnsJoin | gen_redgene_ddls.py:72-93 | with known types the CREATE list has a comma between neighbours and none after the last |
| DdlCreate.EtEntry | gen_redgene_ddls.py:41-64 | errors come only from untyped references; as written, exactly the untyped unreferenced columns have no entry; every entry starts with the column name |
| DdlCreate.TypedEntryMatchesRefText | gen_redgene_ddls.py:41-58 | a typed column's field type is the text a column referencing it would look up |
| DdlCreate.EtTextErrSticks | gen_redgene_ddls.py:39-67 | an error in the field list stops it |
| DdlCreate.EtTextPrefix | gen_redgene_ddls.py:59-67 | corrected, after k columns the field list is the separated prefix of the entries |
| DdlCreate.EtTextJoin | gen_redgene_ddls.py:59-67 | corrected, the field list is the entries in column order with the separator only between neighbours |
| DdlCreate.LostMaskOnSecondHop | gen_redgene_ddls.py:61-64 | A.x gets the DATE mask either way; C.z, an untyped FK to A.x, gets no type text as written and the DATE mask corrected |
| DdlCreate.DanglingEtSeparator | gen_redgene_ddls.py:59-67 | as written, an untyped key column last in the table is dropped and leaves a dangling separator; corrected, it is listed |
| DdlCreate.TablePieces | gen_redgene_ddls.py:36-111 | one piece of text per table |
| DdlCreate.CreateTableDdl | gen_redgene_ddls.py:37-111 | the per-column loop builds exactly `TableText`: CREATE list, external clause, field list, location and copying statement |
| DdlCreate.CreateAllDdl | gen_redgene_ddls.py:36-111 | the table loop writes every table's statements in order and stops at the first error |
| DdlGroup.FilterKeyMember | gen_redgene_ddls.py:183 | a column listed for a key is an input column with that key |
| DdlGroup.FilterKeyHas | gen_redgene_ddls.py:183 | every input column with the key is listed for it |
| DdlGroup.FilterKeyAppend | gen_redgene_ddls.py:183 | filtering distributes over concatenation |
| DdlGroup.FilterKeyNone | gen_redgene_ddls.py:183 | no column with the key gives an empty list |
| DdlGroup.FilterKeyAll | gen_redgene_ddls.py:183 | if all columns have the key, the list is all of them |
| DdlGroup.InsertMultiset | gen_redgene_ddls.py:182 | inserting adds exactly the one column |
| DdlGroup.InsertSorted | gen_redgene_ddls.py:182 | inserting keeps a sorted sequence sorted |
| DdlGroup.InsertFilter | gen_redgene_ddls.py:182 | inserting places the column first among its key's columns and changes no other key's |
| DdlGroup.SortByKeySorted | gen_redgene_ddls.py:182 | the sort orders the referenced-table keys |
| DdlGroup.SortByKeyPermutes | gen_redgene_ddls.py:182 | the sort is a permutation of its input |
| DdlGroup.SortByKeyStable | gen_redgene_ddls.py:182 | the sort keeps each key's columns in their original order |
| DdlGroup.SortByKeyCorrect | gen_redgene_ddls.py:182 | sorted, a permutation, and stable |
| DdlGroup.FilterKeyTail | gen_redgene_ddls.py:182 | dropping the first column removes it from its own key's list only |
| DdlGroup.FirstKeyLeast | gen_redgene_ddls.py:182 | in a sorted sequence the first key is the least |
| DdlGroup.SameFirst | gen_redgene_ddls.py:182 | two sorted sequences with the same per-key lists start with the same column |
| DdlGroup.StableSortUnique | gen_redgene_ddls.py:182 | a stable sort by key has exactly one result, so Python's `sort` agrees with `SortByKey` |
| DdlGroup.SortedSuffix | gen_redgene_ddls.py:182 | a suffix of a sorted sequence is sorted |
| DdlGroup.RunLength | gen_redgene_ddls.py:183 | the leading run is non-empty, shares its first key, and ends where the key changes |
| DdlGroup.RunsFlatten | gen_redgene_ddls.py:183 | the groupby runs, concatenated in order, are the input |
| DdlGroup.RunsUniform | gen_redgene_ddls.py:183 | every run is non-empty and has one key |
| DdlGroup.SortedTailAbove | gen_redgene_ddls.py:183 | in a sorted sequence, no key after the first change equals the first key |
| DdlGroup.TailAvoidsHeadKey | gen_redgene_ddls.py:183 | after a sorted leading run no column has the run's key |
| DdlGroup.RunsAreFilters | gen_redgene_ddls.py:182-183 | on sorted input each run is all the columns of its key, in order |
| DdlGroup.RunKeysDistinct | gen_redgene_ddls.py:182-183 | on sorted input no two runs share a key |
| DdlGroup.GroupsOfColumns | gen_redgene_ddls.py:182-183 | sort-then-groupby: each group is exactly the columns referencing one table in declaration order, keys are distinct, and every column is in a group |
| DdlConstraints.ColumnStatement | gen_redgene_ddls.py:122-137 | PK gives a pk statement and FK/FK_UNIQUE an fk statement; an fk without ref_tab or ref_col fails with that key; no text otherwise |
| DdlConstraints.ColumnStatementsErrSticks | gen_redgene_ddls.py:121-137 | an error in the per-column pass stops it |
| DdlConstraints.CollectedExactly | gen_redgene_ddls.py:138-144 | each collected list holds exactly the table's columns of its kind |
| DdlConstraints.Names | gen_redgene_ddls.py:149 | one name per column |
| DdlConstraints.RefCols | gen_redgene_ddls.py:192 | one referenced name per column |
| DdlConstraints.RefPkFksErrSticks | gen_redgene_ddls.py:161-172 | an error among the referencing COMP_PK foreign keys stops them |
| DdlConstraints.GroupsTextErrSticks | gen_redgene_ddls.py:185-204 | an error in one composite foreign key stops the rest |
| DdlConstraints.ColumnListReadsBack | gen_redgene_ddls.py:148-151 | a comma-separated column list reads back as the column names |
| DdlConstraints.GroupListsAligned | gen_redgene_ddls.py:190-195 | the local and referenced lists of a composite foreign key are index-aligned |
| DdlConstraints.CompFkOnePerReferencedTable | gen_redgene_ddls.py:181-204 | with both reference keys present: one statement per referenced table, over exactly its COMP_FK columns in declaration order |
| DdlConstraints.GroupsTextOk | gen_redgene_ddls.py:185-204 | groups with every ref_col present produce no error |
| DdlConstraints.TableConstraintPieces | gen_redgene_ddls.py:116-204 | one piece of constraint text per table |
| DdlConstraints.ColumnPass | gen_redgene_ddls.py:121-144 | the per-column loop yields exactly the per-column statements and the three collected lists |
| DdlConstraints.JoinNames | gen_redgene_ddls.py:148-151 | the name loop yields the names joined by commas |
| DdlConstraints.NonrefPkDdl | gen_redgene_ddls.py:146-157 | the non-referencing COMP_PK columns give one comp_pk statement, or nothing if there are none |
| DdlConstraints.RefPkDdl | gen_redgene_ddls.py:159-179 | an fk statement per referencing COMP_PK column, then one cpk primary key |
| DdlConstraints.GroupDdl | gen_redgene_ddls.py:186-204 | the group loop builds the cfk statement with both lists, or fails on a missing ref_col |
| DdlConstraints.CompFkDdl | gen_redgene_ddls.py:181-204 | sorting, grouping and the group loop yield exactly `CompFkText` |
| DdlConstraints.TableConstraintsDdl | gen_redgene_ddls.py:116-204 | one table's statements, in the script's order |
| DdlConstraints.ConstraintsDdl | gen_redgene_ddls.py:116-204 | every table's constraint statements in order, stopping at the first error |
| DdlScript.GenerateDdls | gen_redgene_ddls.py:36-204 | the script is the CREATE half followed by the constraint half; it fails iff either half fails |
| DdlScript.OutputFileName | gen_redgene_ddls.py:14 | the output file name ends in ".sql" |
| DdlScript.OutputFileNameStem | gen_redgene_ddls.py:14 | a template `stem.ext` with a dot-free stem writes `stem.sql` |

## Left out

- The random engines (rand_engine.hpp) and the internals of `uniform_int_distribution` are
  an oracle that respects its range.
- The zipf distribution, `uniform_real_dist_engine` and `normal_real_column` are left out
  because they are floating point.
- The oracle makes the k-th draw a function of the seed, k and its own range only. The
  library's `uniform_int_distribution` may consume a range-dependent number of engine
  outputs, so earlier draws' ranges can shift later values from a shared engine. No
  property proved here depends on the actual values beyond their range.
- `reset()` of the uniform engine and the empty `reset()` of the set sampler are not
  modelled. Neither changes any state the model tracks.
- Error text printed to `cerr`/`cout` is left out. So are the validator constructor's file
  reading and JSON parsing, which arrive as an already-parsed `Option<Json>`.
- Manual `new`/`delete` ownership is left out, and so is the driver main.cpp.
- The rg_utils default constructor (`= default`) is left out. The members' default
  initialisers leave the string buffer null, so a call has undefined behaviour.
- Floats are exact reals. `get<float>` and the `float` cardinality are not rounded.
- Columns.ToU64: out-of-range float conversions are undefined in C++. The model saturates
  them.
- ProbDist.IncrementerCountsUp requires no wrap-around past 2^64. `Next` itself models the
  wrap.
- ProbDist.TraceStrictlyIncreasing requires that no successful sum wraps around 2^64. The
  source's unsigned sum can wrap.
- RgUtils.RandStrGenerator.Fill requires `Honest` of the generator. The source demands
  nothing, but without it the drawn index could fall outside the alphabet.
- JSON objects are member lists. The parser's objects have distinct keys, which the model
  does not require; `Find` returns the first member with the key, so with distinct keys it
  returns the only one. Member order is kept as given, where the parser sorts keys; with distinct
  keys, `Find` gives the same answer in either order.
- The DDL schema is typed. JSON `null` in `type`, `length`, `ref_tab` or `ref_col` counts
  as absent. The script passes a present null `ref_tab` or `ref_col` on to the nested
  lookup at gen_redgene_ddls.py:33 and 63-64, where it matches no name and gives no text.
  The model stops with `MissingKey` instead.
- A `KeyError` on the required keys `tables`, `table_name`, `columns` or `column_name` is
  not modelled. `length` is an integer.
- The DDL type names compare case-sensitively, as in the script.
- The interpreter's recursion limit is `MAX_DEPTH` (1000) nested lookups. This is a bound on
  lookups, not the exact Python frame count, so cyclic references end in `RecursionLimit`.
- In-place `list.sort` is modelled on values by an insertion sort. `StableSortUnique` shows
  that every stable sort by key gives the same sequence.
- The Python script's `sys.argv` check, file open/close and final `print` are left out.
  Writes are modelled as one text result.
- The text the script has already written to the file before an exception is not modelled.
  The result is just the error.

## Findings

| source | as written | input that shows it | evidently intended | confidence | as-written member | corrected member |
|---|---|---|---|---|---|---|
| prob_dist.hpp:334-337 | the offset is drawn from [floor, (n - last_k)/num_left], with floor = min, and the value is offset + last_k + 1 | amount 1 over [0, 10] with drawn offset 10 gives 11 > max; amount 1 over [5, 10] can only draw 5 and gives 11 | values stay within [min, max]: offset drawn from [0, range_size - 1] | not executed; follows from the arithmetic | ProbDist.SetDrawCanExceedMax | ProbDist.CappedSamplerFromConstruction |
| gen_redgene_ddls.py:33 | the nested `get_ref_col_type` result is discarded, so the function returns None | `DateChainSchema`: A.x is an untyped FK to B.y, which is DATE, and C.z is an untyped FK to A.x; C's field list gives z no type text | return the nested result, so C.z gets the DATE mask, like A.x | not executed; follows from the missing `return` | DdlSchema.DiscardedChainResult | DdlSchema.ChainedFollowsReference |
| gen_redgene_ddls.py:59-67 | an untyped column without `ref_tab` gets no field entry, yet the previous column already wrote a separator | `TrailingKeyColumns`: `a` INT, then `b` untyped PK with no reference; the list is "a,\n\t\t" | every column appears in the field list, with separators only between entries | not executed; the validator accepts such a column | DdlCreate.DanglingEtSeparator | DdlCreate.EtTextJoin |

The distribution classes model the sampler as written. The corrected offset range is the
`CappedDraws` restriction that `CappedSamplerFromConstruction` assumes. It needs
amount <= max - min, where the source's guard only asks amount <= max. The DDL modules take
`fixed`, and `fixed == true` selects the corrected lookup and field list.
