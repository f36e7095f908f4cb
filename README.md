# bpaotu query layer and BIOM export, modelled in Dafny

bpaotu is the search back end of the Australian Microbiome OTU database. A
search is an `OTUQueryParams`: a `TaxonomyFilter` (an amplicon selector and one
`{operator, value}` selector per taxonomic level, kingdom to species) and a
`ContextualFilter` (an environment selector and typed terms on sample metadata,
combined by `and` or `or`). `SampleQuery` turns the two filters into queries over
the OTU, SampleContext and SampleOTU tables. Samples are narrowed by "the samples
that have an abundance fact for a kept OTU", and OTUs by "the OTUs that have an
abundance fact for a kept sample". Each subquery is skipped when its filter is
empty. Results are cached under a key built from the import uuid and the reprs
of the query's parts. `TaxonomyOptions._possibilities` finds the first level of
a taxonomy selection that is missing or selects nothing. It then lists the
values that level can take. The BIOM export streams a BIOM 1.0 sparse OTU table:

- a fixed header;
- one row per matching OTU and one column per matching sample, each numbered
  as it is emitted;
- the shape, read from those numberings;
- the `[row, col, count]` triples of the abundance facts.

The model keeps the tables in memory as sequences (`Tables.Db`). Each SQL query
becomes an order-preserving filter (`Seqs.Where`), a join (`Seqs.JoinOn`), a
`DISTINCT` (`Seqs.Distinct`) or an `ORDER BY` (`Seqs.SortBy`). SQL `NULL`
takes part in the comparisons: a `NULL` column never satisfies `=` or `!=`,
and contextual conditions are evaluated in three-valued logic (`Tri`). The
pure parts of the source are functions and lemmas. The parts that work by
changing state are imperative:

- `ContextualFilter.add_term`;
- `determine_target`'s narrowing loop;
- the cache and the `make_cache_key` memo;
- `otu_rows` and `sample_columns` filling the caller's id-to-index dictionaries;
- `abundance_tbl`'s loop.

Each of those is proved against a specification function.

Modules, in dependency order:

- `Py`: Python values, `dict.get` slots and raised errors.
- `Strings`: `str(int)`, `repr(str)`, `join`, string order, `attr[:-3]`.
- `Seqs`: the generic sequence algebra.
- `Tables`: the tables and joins, and `id_to_value`.
- `Selectors`: `apply_op_and_val_filter` and `describe_op_and_val`.
- `TaxonomyFilters`: `TaxonomyFilter`.
- `ContextualFilters`: `ContextualFilter` and its terms.
- `Queries`: subqueries, `_assemble_*` and `matching_*`.
- `Options`: `_possibilities`.
- `Caching`: `make_cache_key` and the cache.
- `SampleQueries`: `SampleQuery` and `_q_all_cached`.
- `OptionQueries`: `TaxonomyOptions.possibilities`.
- `ContextualReprs`: the contextual filter's repr as written, and with its string components quoted.
- `QueryParams`: `OTUQueryParams`.
- `BiomExport`: biom.py.
- `ExportQueries`: the export run on a query's own results.

The BIOM `shape` is `[len(otu_to_row), len(sample_to_column)]`
(bpaotu/bpaotu/biom.py:23). It counts every OTU `matching_otus()` returns and
every sample `matching_samples()` returns, including those with no abundance
fact. `BiomExport.GenerateBiomFile` states this shape, and
`BiomExport.TriplesWithinShape` proves that every data index lies below it.

## Model

| member | source | states |
|---|---|---|
| Py.Get | bpaotu/bpaotu/query.py:696 | `d.get(k)` yields a value exactly when the key is bound to a non-None value, and yields that value |
| Selectors.ApplyOpAndValFilter | bpaotu/bpaotu/query.py:695-703 | a missing selector, or a None value, leaves the rows unchanged. `'isnot'` keeps exactly the rows whose column is non-NULL and differs from the value. Any other or missing operator keeps exactly the rows whose column equals the value |
| Selectors.ApplyOpAndValFilterIsWhere | bpaotu/bpaotu/query.py:695-711 | the selector filter keeps the surviving rows in their original order (it is one WHERE clause) |
| Selectors.OpDescr | bpaotu/bpaotu/query.py:683-686 | `OP_DESCR` is defined for `'is'` and `'isnot'` and for no other operator |
| Selectors.OptionStrRepr | bpaotu/bpaotu/query.py:692 | the repr of a looked-up value is non-empty and starts with a quote, or with `N` for None |
| Selectors.DescribeOpAndVal | bpaotu/bpaotu/query.py:689-692 | no selector describes as None. An operator outside `OP_DESCR` raises KeyError with the operator's repr. Otherwise the description succeeds exactly when the id lookup does. A description starts with the attribute without `_id` followed by `" is "`, and continues with `" is not "` exactly for `'isnot'` |
| Selectors.DescribeOpAndValReadBack | bpaotu/bpaotu/query.py:689-692 | the looked-up value reads back from the text that follows the operator phrase in the description |
| Selectors.SelectorRepr | bpaotu/bpaotu/query.py:486-489 | `str()` of a selector is `None` exactly for no selector; otherwise it is a braced dictionary text |
| Selectors.SelectorReadBack | bpaotu/bpaotu/query.py:486-489 | the selector, and whatever text follows it, read back from `str()` of the selector: the text holds the operator and the value |
| Selectors.SelectorReprPrefixFree | bpaotu/bpaotu/query.py:504-505 | a selector text followed by more text determines both the selector and the rest, so no selector text is a proper prefix of another |
| Tables.RowsWithId | bpaotu/bpaotu/query.py:273-276 | exactly the ontology rows carrying the id |
| Tables.IdToValue | bpaotu/bpaotu/query.py:273-276 | None maps to None. NoResultFound is raised exactly when no row has the id. A success is the value of a row with that id. A table with unique ids never raises MultipleResultsFound |
| Tables.RowsWithIdAtMostOne | bpaotu/bpaotu/query.py:273-276 | a table whose ids are a primary key has at most one row per id, so `.one()` cannot see two |
| Tables.FactOtuRows | bpaotu/bpaotu/query.py:409-412 | SampleOTU joined to OTU holds exactly the fact/OTU pairs with `OTU.id == SampleOTU.otu_id` |
| Tables.FactSampleRows | bpaotu/bpaotu/query.py:423-426 | SampleOTU joined to SampleContext holds exactly the fact/sample pairs with matching sample id |
| Tables.AbundanceRows | bpaotu/bpaotu/query.py:389-391 | the cross join narrowed by both id equalities holds exactly the matching fact/OTU/sample triples |
| Tables.IdOrdersArePreorders | bpaotu/bpaotu/query.py:366-372 | ordering by `SampleContext.id` and by `OTU.id` are total preorders, so the sorts are well defined |
| Strings.IntToString | bpaotu/bpaotu/biom.py:128-132 | `str(i)` is non-empty and starts with `-` exactly for negative numbers |
| Strings.NatToStringRoundTrip | bpaotu/bpaotu/biom.py:128-132 | the decimal digits `str(n)` prints read back as n |
| Strings.IntToStringInjective | bpaotu/bpaotu/biom.py:128-132 | distinct indices and counts print as distinct strings |
| Strings.DropId | bpaotu/bpaotu/query.py:179-181 | `attr[:-3]` followed by the dropped three characters is `attr`; a shorter name gives `""` |
| Strings.StrLeTotal | bpaotu/bpaotu/biom.py:109-110 | Python's string order, which `fields.sort()` uses, relates any two strings |
| Strings.StrLeTransitive | bpaotu/bpaotu/biom.py:109-110 | the string order is transitive |
| Strings.StrLeAntisymmetric | bpaotu/bpaotu/biom.py:109-110 | the string order is antisymmetric, so a sorted list of distinct fields is unique |
| Strings.ContainsAt | bpaotu/bpaotu/query.py:607-609 | `field.contains(s)` holds exactly when s occurs at some position of the field |
| Strings.PyReprStr | bpaotu/bpaotu/query.py:57 | `repr(s)` is quoted with the same quote character at both ends |
| Strings.EscapeRoundTrip | bpaotu/bpaotu/query.py:57 | the escaping inside `repr` can be undone, for either quote |
| Strings.PyReprStrRoundTrip | bpaotu/bpaotu/query.py:57 | `repr` of a string loses nothing: the string reads back from it |
| Strings.EscapeUnchanged | bpaotu/bpaotu/query.py:57 | printable ASCII text without quotes or backslashes passes through the escaping unchanged |
| Strings.PlainRepr | bpaotu/bpaotu/query.py:57 | the repr of printable ASCII text without quotes or backslashes is the text between single quotes |
| Strings.EscapeReadBack | bpaotu/bpaotu/query.py:57 | the escaped text followed by the closing quote reads back as the text, leaving what follows the quote |
| Strings.ReadQuotedRepr | bpaotu/bpaotu/query.py:57 | `repr(s)` followed by any text reads back as s and that text, so a repr ends exactly at its closing quote |
| Strings.ParseIntRoundTrip | bpaotu/bpaotu/query.py:628-629 | `str(i)` of every int, negative ones included, parses back as i |
| Strings.IntListReadBack | bpaotu/bpaotu/query.py:657-658 | `str()` of a list of ints, followed by any text, reads back as the list and that text |
| Strings.PadNatRoundTrip | bpaotu/bpaotu/query.py:594-595 | a zero-padded date field is all digits and reads back as its number |
| Strings.DateReadBack | bpaotu/bpaotu/query.py:594-595 | `str(date)` (`YYYY-MM-DD`) followed by a separator reads back as the date |
| Seqs.Where | bpaotu/bpaotu/query.py:700-702 | `q.filter(c)` keeps exactly the rows satisfying c, never more rows than q |
| Seqs.JoinOn | bpaotu/bpaotu/query.py:389-391 | a join holds exactly the pairs satisfying its condition |
| Seqs.Distinct | bpaotu/bpaotu/query.py:409-410 | `.distinct()` keeps every value of q and lists none twice |
| Seqs.SortBy | bpaotu/bpaotu/query.py:366 | `ORDER BY` yields a sorted permutation of its input |
| TaxonomyFilters.Steps | bpaotu/bpaotu/query.py:482 | `zip(hierarchy, state_vector)` visits min(7, len(state_vector)) levels |
| TaxonomyFilters.ApplyAmplicon | bpaotu/bpaotu/query.py:481 | the amplicon filter keeps exactly the rows whose OTU passes the amplicon selector |
| TaxonomyFilters.PassesLevelsEach | bpaotu/bpaotu/query.py:482-483 | passing the chained level filters 0..n-1 is passing each level's selector |
| TaxonomyFilters.ApplyLevels | bpaotu/bpaotu/query.py:482-483 | the level loop keeps exactly the rows whose OTU passes levels 0..n-1 |
| TaxonomyFilters.KeepsEach | bpaotu/bpaotu/query.py:480-484 | an OTU passes the filter exactly when it passes the amplicon selector and the selector of every level that `zip` reaches |
| TaxonomyFilters.Apply | bpaotu/bpaotu/query.py:480-484 | `apply` keeps exactly the rows whose OTU the filter keeps |
| TaxonomyFilters.ApplyLevelsIsWhere | bpaotu/bpaotu/query.py:482-483 | the chained level filters are one order-preserving WHERE |
| TaxonomyFilters.ApplyIsWhere | bpaotu/bpaotu/query.py:480-484 | `apply` keeps the kept rows in their original order |
| TaxonomyFilters.IsEmpty | bpaotu/bpaotu/query.py:477-478 | an empty filter restricts neither the amplicon nor the kingdom: neither selector has a value to select |
| TaxonomyFilters.EmptyKeepsAll | bpaotu/bpaotu/query.py:477-478 | an empty filter that selects nothing at any level keeps every OTU |
| TaxonomyFilters.EmptyCanStillNarrow | bpaotu/bpaotu/query.py:477-478 | `is_empty` reads only level 0: a filter can be "empty" and still reject an OTU at level 1 |
| TaxonomyFilters.DescribeLevel | bpaotu/bpaotu/query.py:471-473 | a level describes as something exactly when it has a selector, and that description is never the falsy `""`, so `if descr` drops exactly the levels without a selector |
| TaxonomyFilters.DescribeLevels | bpaotu/bpaotu/query.py:470-474 | the level loop fails exactly when some visited level's description fails. Otherwise there is one description per visited level with a selector, in level order, each the text `describe_op_and_val` gives for that level; no descriptions exactly when no visited level has a selector |
| TaxonomyFilters.Describe | bpaotu/bpaotu/query.py:467-475 | the pair is the amplicon description, None exactly when there is no amplicon selector, and the level descriptions of `DescribeLevels`; it fails exactly when one of them fails |
| TaxonomyFilters.DescribeNothing | bpaotu/bpaotu/query.py:467-475 | a filter describes as `(None, [])` exactly when it has no amplicon selector and no visited level selector |
| TaxonomyFilters.SelectorReprs | bpaotu/bpaotu/query.py:486-489 | `str()` of the state vector has one selector text per entry, in order |
| TaxonomyFilters.Repr | bpaotu/bpaotu/query.py:486-489 | the repr starts `<TaxonomyFilter(`, then the amplicon selector's text, then `,state_vec[` |
| TaxonomyFilters.ItemsReadBack | bpaotu/bpaotu/query.py:486-489 | the selector texts of a non-empty state vector, joined by `, ` and closed by `]`, read back as the state vector |
| TaxonomyFilters.ReprReadBack | bpaotu/bpaotu/query.py:486-489 | the repr reads back as the whole filter: the amplicon selector and every state vector entry |
| TaxonomyFilters.ReprInjective | bpaotu/bpaotu/query.py:486-489 | two taxonomy filters with the same repr are the same filter, so the repr completely represents the filter, as the cache key requires |
| ContextualFilters.NullIsUnknown | bpaotu/bpaotu/query.py:555-559 | a condition on a NULL column is Unknown, so it is never true, negated or not |
| ContextualFilters.GetConditions | bpaotu/bpaotu/query.py:555-559 | every kind of term yields exactly one condition; it is on the term's own field and is not negated. The other kinds are at query.py:607-609, 631-634 and 660-663 |
| ContextualFilters.Conditions | bpaotu/bpaotu/query.py:548-552 | `conditions` is `get_conditions()` with each condition negated exactly when the operator is `'complement'` |
| ContextualFilters.ComplementNegates | bpaotu/bpaotu/query.py:544-552 | a complement term's condition is the negation of the plain term's condition. On a non-NULL field it holds exactly when the plain one fails. On a NULL field neither holds |
| ContextualFilters.Construct | bpaotu/bpaotu/query.py:539-542 | a field that is not a SampleContext column raises AttributeError. A payload that fails its type assertion raises AssertionError. Otherwise the term holds the given field, operator and payload |
| ContextualFilters.NewFloatTerm | bpaotu/bpaotu/query.py:574-580 | the float term is built exactly when the field exists and both bounds are floats |
| ContextualFilters.NewDateTerm | bpaotu/bpaotu/query.py:586-592 | the date term is built exactly when the field exists and both bounds are dates |
| ContextualFilters.NewStringTerm | bpaotu/bpaotu/query.py:598-602 | the string term is built exactly when the field exists and `val_contains` is a str |
| ContextualFilters.NewOntologyTerm | bpaotu/bpaotu/query.py:622-626 | the ontology term is built exactly when the field exists and `val_is` is an int |
| ContextualFilters.NewSampleIdTerm | bpaotu/bpaotu/query.py:649-655 | the sample-id term is built exactly when the field exists and `val_is_in` is a list of ints; the ids are kept in order |
| ContextualFilters.DescribeTerm | bpaotu/bpaotu/query.py:561-571 | the description of each kind: a float or date range is `<from><=<name><=<to>`, and `<name><<from>,><to>` for a complement, dates in ISO form. A text term is `<name> contains "<text>"` (`does not contain`). A sample-id term is `<id name> is in "<ids>"` (`is not in`). An ontology term is `<name> is '<value>'` (`is not`), with `None` for a missing value. Only an ontology term can fail, exactly when its field has no ontology table or its id no row. Those kinds are at query.py:611-619, 636-646 and 665-673 |
| ContextualFilters.TermRepr | bpaotu/bpaotu/query.py:582-583 | a term's repr starts `<TermKind(field,operator,` with its class's name. The other kinds are at query.py:594-595, 604-605, 628-629 and 657-658 |
| ContextualFilters.ModeFromName | bpaotu/bpaotu/query.py:493-500 | only `'and'` and `'or'` name a mode; any other name raises KeyError with its repr |
| ContextualFilters.AllConditions | bpaotu/bpaotu/query.py:535 | chaining the terms' conditions gives one condition per term, in order |
| ContextualFilters.AndAllYes | bpaotu/bpaotu/query.py:533-535 | `and_` of the conditions is true exactly when every condition is true |
| ContextualFilters.OrAllYes | bpaotu/bpaotu/query.py:533-535 | `or_` of the conditions is true exactly when some condition is true |
| ContextualFilters.CombineYes | bpaotu/bpaotu/query.py:533-535 | in `and` mode a sample passes when every term holds of it. In `or` mode it passes when some term does, or when there are no terms |
| ContextualFilters.Apply | bpaotu/bpaotu/query.py:523-535 | `apply` keeps exactly the rows whose sample passes the environment selector and the combined terms |
| ContextualFilters.ApplyIsWhere | bpaotu/bpaotu/query.py:523-535 | the environment filter, applied outside the mode, and the mode's WHERE are together one order-preserving WHERE |
| ContextualFilters.IsEmpty | bpaotu/bpaotu/query.py:517-518 | an empty filter has no environment value to restrict to and keeps every sample |
| ContextualFilters.EmptyKeepsAll | bpaotu/bpaotu/query.py:517-518 | a filter with no terms and no environment selector keeps every row |
| ContextualFilters.DescribeTerms | bpaotu/bpaotu/query.py:514 | the list fails exactly when some term's description fails; otherwise it holds each term's description, in order, none of them empty |
| ContextualFilters.Describe | bpaotu/bpaotu/query.py:509-515 | the falsy entries are dropped. The list is the environment description, when there is an environment selector, followed by each term's description in order; no entry is empty. It fails exactly when one of those descriptions fails |
| ContextualFilters.TermReprs | bpaotu/bpaotu/query.py:507 | one repr per term, in order |
| ContextualFilters.Repr | bpaotu/bpaotu/query.py:504-507 | the repr starts `<ContextualFilter(mode,env[selector],[` and ends `]>`, with no `)` before the `>` |
| ContextualReprs.StringTermRepr | bpaotu/bpaotu/query.py:604-605 | a text term's repr is its head `<TermString(field,operator,` then the text, bare, then `)>` |
| ContextualReprs.ReprCollision | bpaotu/bpaotu/query.py:504-507 | as written, a filter with one text term whose text holds `)>,` and a second term's head has the same repr as a filter with two text terms |
| ContextualReprs.TermsWithoutFloatsRead | bpaotu/bpaotu/query.py:582-583 | a filter with no float range term meets the float read-back hypothesis for any float text |
| ContextualReprs.TermReadBack | bpaotu/bpaotu/query.py:582-583 | with every string component quoted, a term of any kind reads back from its repr, given that its float bounds, if it has any, read back. The other kinds are at query.py:594-595, 604-605, 628-629 and 657-658 |
| ContextualReprs.TermsReadBack | bpaotu/bpaotu/query.py:507 | the quoted term reprs joined by `,` and closed by `]` read back as the terms, given that the terms' float bounds read back |
| ContextualReprs.QuotedReprReadBack | bpaotu/bpaotu/query.py:504-507 | the corrected repr, followed by any text, reads back as the whole filter (mode, environment selector and terms) and that text, given that the filter's float bounds read back |
| ContextualReprs.QuotedReprInjective | bpaotu/bpaotu/query.py:504-507 | two contextual filters whose float bounds read back and that have the same corrected repr are the same filter |
| ContextualFilters.ContextualFilter.constructor | bpaotu/bpaotu/query.py:498-502 | a new filter holds its mode and environment selector and no terms |
| ContextualFilters.ContextualFilter.Create | bpaotu/bpaotu/query.py:493-502 | construction fails with KeyError exactly for a mode other than `'and'`/`'or'`; otherwise the filter is fresh, with no terms |
| ContextualFilters.ContextualFilter.AddTerm | bpaotu/bpaotu/query.py:520-521 | `add_term` appends the term at the end and changes nothing else |
| ContextualFilters.ContextualFilter.Snapshot | bpaotu/bpaotu/query.py:492-502 | the state `apply`, `describe` and `repr` read holds the filter's current terms |
| Queries.TaxonomySubquery | bpaotu/bpaotu/query.py:402-413 | None exactly when the taxonomy filter is empty. Otherwise it lists, without repetition, exactly the ids of samples with an abundance fact for an OTU the filter keeps |
| Queries.ContextualSubquery | bpaotu/bpaotu/query.py:415-427 | None exactly when the contextual filter is empty. Otherwise it lists, without repetition, exactly the ids of OTUs with an abundance fact for a sample the filter keeps |
| Queries.KeptOtuListed | bpaotu/bpaotu/query.py:402-413 | a sample id is among the ids selected from the facts whose OTU the taxonomy filter keeps exactly when such a fact exists |
| Queries.KeptSampleListed | bpaotu/bpaotu/query.py:415-427 | an OTU id is among the ids selected from the facts whose sample the contextual filter keeps exactly when such a fact exists |
| Queries.InSubquery | bpaotu/bpaotu/query.py:438-439 | no subquery leaves the rows unchanged; otherwise it keeps exactly the rows whose id the subquery lists. The OTU side is at query.py:453-454 |
| Queries.AssembleSampleQuery | bpaotu/bpaotu/query.py:429-442 | exactly the samples that pass the taxonomy subquery (when there is one) and the contextual filter |
| Queries.MatchingSamples | bpaotu/bpaotu/query.py:363-366 | exactly the matching samples, sorted by id |
| Queries.SampleNarrowing | bpaotu/bpaotu/query.py:402-442 | with an empty taxonomy filter a sample matches exactly when the contextual filter keeps it. Otherwise every matching sample has an abundance fact for an OTU the taxonomy filter keeps |
| Queries.ApplySubMultiset | bpaotu/bpaotu/query.py:523-535 | the contextual filter never repeats a row |
| Queries.MatchingSamplesUnique | bpaotu/bpaotu/query.py:363-366 | on a table with unique sample ids, `matching_samples()` lists each sample at most once |
| Queries.AssembleOtuQuery | bpaotu/bpaotu/query.py:444-459 | exactly the OTUs that pass the contextual subquery (when there is one), the taxonomy filter and, when given, the kingdom |
| Queries.MatchingOtus | bpaotu/bpaotu/query.py:369-373 | exactly the matching OTUs, sorted by OTU id |
| Queries.KingdomRestricts | bpaotu/bpaotu/query.py:457-458 | restricting to a kingdom keeps exactly the unrestricted result's OTUs of that kingdom |
| Queries.OtuNarrowing | bpaotu/bpaotu/query.py:415-459 | with an empty contextual filter an OTU matches exactly when the taxonomy filter keeps it. Otherwise every matching OTU has an abundance fact for a sample the contextual filter keeps |
| Queries.TaxonomySubMultiset | bpaotu/bpaotu/query.py:480-484 | the taxonomy filter never repeats a row |
| Queries.MatchingOtusUnique | bpaotu/bpaotu/query.py:369-373 | on a table with unique OTU ids, `matching_otus()` lists each OTU at most once |
| Queries.MatchingSampleOtus | bpaotu/bpaotu/query.py:385-400 | exactly the joined fact/OTU/sample rows whose OTU passes the taxonomy filter, whose sample passes the contextual filter and whose OTU has the kingdom when one is given |
| Queries.ExportClosure | bpaotu/bpaotu/query.py:385-400 | every abundance row's OTU is among `matching_otus()` and its sample among `matching_samples()` |
| Options.FirstInvalidUnique | bpaotu/bpaotu/query.py:183-196 | there is at most one first invalid level |
| Options.CompleteOrFirstInvalid | bpaotu/bpaotu/query.py:183-196 | either every visited level is valid or some level is the first invalid one |
| Options.DetermineTarget | bpaotu/bpaotu/query.py:183-196 | no target exactly means every visited level is valid. A target is the first level that has no value selected, or whose cumulative selection (amplicon and levels up to it) leaves no OTU |
| Options.NarrowStep | bpaotu/bpaotu/query.py:187-194 | one loop step applies level idx's selector to the running query, and the level is valid exactly when it has a value and the narrowed query is non-empty |
| Options.NarrowedNonEmpty | bpaotu/bpaotu/query.py:183-196 | the running query is non-empty (`count() > 0`) exactly when some OTU passes the amplicon filter and the levels so far |
| Options.Cleared | bpaotu/bpaotu/query.py:213 | the reset state keeps the levels before the target and sets the target and every later level to None, over all seven levels |
| Options.ClearedPasses | bpaotu/bpaotu/query.py:213-221 | passing the reset state's levels is passing the original levels before the target |
| Options.ValueLeIsPreorder | bpaotu/bpaotu/query.py:216 | ordering by the ontology value is a total preorder |
| Options.OptionsAt | bpaotu/bpaotu/query.py:211-222 | the options hold exactly the target level's (id, value) rows of the OTUs passing the amplicon filter and the reset state. There are no repeats (GROUP BY), and the rows are sorted by value |
| Options.LevelRowsOffered | bpaotu/bpaotu/query.py:211-222 | a row is in the join of the level table with the narrowed OTUs exactly when some OTU passing the amplicon filter and the levels before the target carries it |
| Options.Clears | bpaotu/bpaotu/query.py:203 | `clear` names the target level and every later one, without `_id`, in hierarchy order |
| Options.PossibilitiesAt | bpaotu/bpaotu/query.py:209-232 | the result names the target without `_id` and lists the `clear` names. With no amplicon filter and the kingdom as target the options are the whole kingdom table; otherwise they are the general branch's options |
| Options.FastPathCovers | bpaotu/bpaotu/query.py:209-210 | the kingdom fast path offers every kingdom the general branch would offer |
| Options.ComputePossibilities | bpaotu/bpaotu/query.py:173-232 | `{}` when every visited level is valid; otherwise the result for the first invalid level |
| Caching.KeyText | bpaotu/bpaotu/query.py:57 | the key text is the uuid, `:`, then the argument reprs joined by `:` |
| Caching.KeyTextSeparates | bpaotu/bpaotu/query.py:57 | for uuids without `:`, equal key texts have the same uuid and the same joined reprs |
| Strings.JoinStartsWithFirst | bpaotu/bpaotu/query.py:57 | the joined reprs start with the first argument's repr |
| Caching.FirstArgumentsSeparate | bpaotu/bpaotu/query.py:57 | keys whose first argument reprs differ in the second character are different |
| Caching.QAllCachedReprIsRepr | bpaotu/bpaotu/query.py:311-312 | the first key argument of `_q_all_cached` is `repr('SampleQuery._q_all_cached')`, the name between single quotes |
| Caching.PossibilitiesReprIsRepr | bpaotu/bpaotu/query.py:162-164 | the first key argument of `possibilities` is `repr('TaxonomyOptions.possibilities')`, the name between single quotes |
| Caching.CallersDoNotCollide | bpaotu/bpaotu/query.py:162-164 | a key of `_q_all_cached` (query.py:311-315) never equals a key of `possibilities`, though both share one cache |
| Caching.KeyMaker.constructor | bpaotu/bpaotu/query.py:40 | the process starts with no memoised import uuid |
| Caching.KeyMaker.MakeCacheKey | bpaotu/bpaotu/query.py:44-58 | the first call memoises the current import's uuid and later calls reuse it. The key is the key text over the memoised uuid |
| Caching.Cache.constructor | bpaotu/bpaotu/query.py:305 | the cache starts empty |
| Caching.Cache.Get | bpaotu/bpaotu/query.py:317 | `cache.get(key)` is the stored value, or None on a miss |
| Caching.Cache.Set | bpaotu/bpaotu/query.py:322 | `cache.set(key, value)` binds the key and changes no other entry |
| SampleQueries.ExistsTopic | bpaotu/bpaotu/query.py:383 | the topic of `has_matching_sample_otus` starts `has_matching_sample_otus:` |
| SampleQueries.ExistsTopicInjective | bpaotu/bpaotu/query.py:383 | different kingdom ids (None included) give different topics |
| SampleQueries.FirstBadHeader | bpaotu/bpaotu/query.py:329-334 | the first requested non-empty header that is not a SampleContext column; none exactly when every non-empty header is a column |
| SampleQueries.LookupValue | bpaotu/bpaotu/query.py:336-349 | the outer join to an ontology table yields a value of a row with that id, or NULL exactly when the id is NULL or has no row |
| SampleQueries.HeaderRow | bpaotu/bpaotu/query.py:326-347 | a result row is id, environment_id, then one value per non-empty requested header, in order |
| SampleQueries.SampleHeaders | bpaotu/bpaotu/query.py:347-352 | one header row per assembled sample, in query order |
| SampleQueries.SampleQuery.constructor | bpaotu/bpaotu/query.py:290-296 | the query holds the parameters' two filters |
| SampleQueries.SampleQuery.QAllCached | bpaotu/bpaotu/query.py:304-323 | a truthy cached value is returned unchanged, without executing. Otherwise the rows (mutated when `mutate_result` is given) are stored under the key and returned. A falsy cached value is recomputed |
| SampleQueries.SampleQuery.MatchingSamples | bpaotu/bpaotu/query.py:363-367 | the cached value on a truthy hit; otherwise the matching samples sorted by id, which are then stored |
| SampleQueries.SampleQuery.HasMatchingSampleOtus | bpaotu/bpaotu/query.py:375-383 | on a miss, whether any abundance row passes both filters and the kingdom, stored under the kingdom's topic |
| SampleQueries.SampleQuery.MatchingSampleHeaders | bpaotu/bpaotu/query.py:325-361 | an unknown header raises AttributeError before the cache is touched. Otherwise the result is the cached header rows, or the freshly computed and stored ones |
| OptionQueries.TaxonomyOptions.constructor | bpaotu/bpaotu/query.py:151-152 | the options object reads the database through the shared cache |
| OptionQueries.TaxonomyOptions.Possibilities | bpaotu/bpaotu/query.py:160-171 | without `force_cache`, any cached value (even `{}`) is returned. Otherwise, or on a miss, `_possibilities` is computed and always stored. Either way the result is the options computed for this filter, and the cache stays coherent: every options key holds the options of its own filter |
| OptionQueries.OptionsKeyInjective | bpaotu/bpaotu/query.py:160-164 | within one import, two taxonomy filters with the same options key are the same filter |
| OptionQueries.StoreKeepsCoherent | bpaotu/bpaotu/query.py:169-170 | storing a filter's computed options under its key keeps every options key holding its own filter's options |
| OptionQueries.QueryStoreKeepsCoherent | bpaotu/bpaotu/query.py:311-322 | a store by `_q_all_cached` into the shared cache never overwrites an options entry |
| QueryParams.SummaryParts | bpaotu/bpaotu/query.py:71-81 | the parts are the amplicon description when present, then the deepest level description when any, then all contextual descriptions |
| QueryParams.Summary | bpaotu/bpaotu/query.py:71-81 | the summary is `Australian Microbiome: ` followed by the summary parts joined by `; `, and it fails exactly when a description fails |
| QueryParams.SummaryOfNothing | bpaotu/bpaotu/query.py:71-81 | with no selection at all the summary is the bare prefix |
| QueryParams.Repr | bpaotu/bpaotu/query.py:132-137 | `OTUQueryParams<`, then the contextual filter's repr as written, `,`, the taxonomy repr and `>` |
| QueryParams.OTUQueryParams.constructor | bpaotu/bpaotu/query.py:62-66 | the object holds both filters, the import uuid is memoised on first use, and the state key is the cache key of the repr as written |
| QueryParams.StateKeySeparates | bpaotu/bpaotu/query.py:66 | within one import, equal state keys mean equal parameter reprs |
| QueryParams.StateKeyCollision | bpaotu/bpaotu/query.py:62-66 | as written, two different contextual filters (one text term against two) give the same state key, within one import and with any taxonomy filter |
| QueryParams.CorrectedRepr | bpaotu/bpaotu/query.py:132-137 | `OTUQueryParams<`, then the corrected contextual repr with every string component quoted, `,`, the taxonomy repr and `>` |
| QueryParams.ParamsReadBack | bpaotu/bpaotu/query.py:132-137 | the contextual filter reads back from the corrected parameters' repr, leaving the taxonomy repr and `>`, given that its float bounds read back |
| QueryParams.ReprInjective | bpaotu/bpaotu/query.py:132-137 | parameters with the same corrected repr, whose float bounds read back, have the same contextual filter and the same taxonomy filter |
| QueryParams.StateKeyIdentifies | bpaotu/bpaotu/query.py:62-66 | over the corrected repr, within one import, equal state key texts mean equal contextual filters and equal taxonomy filters (given float bounds that read back): the key completely represents the search, as query.py:48-50 requires |
| BiomExport.Separated | bpaotu/bpaotu/biom.py:156-158 | the loop after the first element puts `sep` before each element |
| BiomExport.Interpose | bpaotu/bpaotu/biom.py:151-158 | nothing for no input. For n ≥ 1 elements: 2n-1 items, the elements in order at even positions and `sep` between consecutive elements |
| BiomExport.SeparatedConcat | bpaotu/bpaotu/biom.py:156-158 | the separated tail concatenates to `sep + sep.join(xs)` |
| BiomExport.InterposeIsJoin | bpaotu/bpaotu/biom.py:151-158 | the interposed stream concatenates to `sep.join(xs)` |
| BiomExport.Wrap | bpaotu/bpaotu/biom.py:142-148 | `wrap` is `pre`, then the interposed elements, then `post` |
| BiomExport.WrapIsJoin | bpaotu/bpaotu/biom.py:142-148 | the wrapped stream concatenates to `pre + sep.join(xs) + post` |
| BiomExport.DateAsString | bpaotu/bpaotu/biom.py:137-138 | a date becomes its ISO string; every other value is unchanged |
| BiomExport.KV | bpaotu/bpaotu/biom.py:136-139 | the pair is the encoded key, `:`, then the encoded (date-converted) value |
| BiomExport.EmptyToNone | bpaotu/bpaotu/biom.py:91-95 | the result is None exactly for None and `''`; every other value is unchanged |
| BiomExport.IdIndex.constructor | bpaotu/bpaotu/biom.py:17-18 | the id-to-index dictionary starts empty |
| BiomExport.LastIndex | bpaotu/bpaotu/biom.py:82 | after `d[ids[i]] = i` over all i, every id is a key, and each key maps to a position holding that id |
| BiomExport.LastIndexIsLast | bpaotu/bpaotu/biom.py:82 | a repeated id keeps its last position |
| BiomExport.LastIndexOfDistinct | bpaotu/bpaotu/biom.py:82 | for distinct ids, each id maps to its own position and there are as many keys as ids |
| BiomExport.LastIndexAppend | bpaotu/bpaotu/biom.py:82 | numbering one more id is one more dictionary assignment |
| BiomExport.AttributeFor | bpaotu/bpaotu/biom.py:77-80 | `class` is read as `klass`; every other field is read as itself |
| BiomExport.TaxonomyArray | bpaotu/bpaotu/biom.py:74-83 | seven entries, kingdom to species, the third read from `klass` |
| BiomExport.OtuFragments | bpaotu/bpaotu/biom.py:84-87 | one row fragment per OTU, in query order |
| BiomExport.OtuRows | bpaotu/bpaotu/biom.py:72-87 | the method yields the OTUs' fragments in order and adds each OTU id's position to the dictionary |
| BiomExport.RowsNumbered | bpaotu/bpaotu/biom.py:76-82 | for unique OTU ids the rows are numbered 0..n-1 in query order, one key per OTU |
| BiomExport.NonEmptyFields | bpaotu/bpaotu/biom.py:101-107 | the first pass collects exactly the fields that some sample holds as neither None nor `''` |
| BiomExport.StrOrderIsPreorder | bpaotu/bpaotu/biom.py:110 | the string order is a total preorder |
| BiomExport.SortedFields | bpaotu/bpaotu/biom.py:109-110 | `sorted(non_empty)` holds exactly the non-empty fields, each once, in strictly increasing order |
| BiomExport.ColumnFields | bpaotu/bpaotu/biom.py:100-110 | the metadata fields are exactly the non-`id` columns that some matching sample fills, strictly sorted |
| BiomExport.SampleFragments | bpaotu/bpaotu/biom.py:115-118 | one column fragment per sample, in order, each over the same field list |
| BiomExport.FirstOccurrences | bpaotu/bpaotu/biom.py:113 | no emitted sample has an id already in the dictionary |
| BiomExport.FirstOccurrencesDistinct | bpaotu/bpaotu/biom.py:113-114 | the emitted samples have distinct ids |
| BiomExport.FirstOccurrencesCover | bpaotu/bpaotu/biom.py:113-114 | every sample's id is either already numbered or emitted |
| BiomExport.FirstOccurrencesSound | bpaotu/bpaotu/biom.py:113-114 | each emitted sample is the sample at some position of the list, the positions increase, each is the first position of its id, and that id was not already numbered |
| BiomExport.FirstOccurrencesOfUnique | bpaotu/bpaotu/biom.py:113-114 | samples with distinct ids, none already numbered, are all emitted, in order |
| BiomExport.NumberColumns | bpaotu/bpaotu/biom.py:113-118 | the second pass yields the first occurrence of each new sample id and gives each its emission position |
| BiomExport.SampleColumns | bpaotu/bpaotu/biom.py:90-118 | both passes: the column fragments over the sorted non-empty fields, and the dictionary extended with the new ids' positions |
| BiomExport.ColumnsNumbered | bpaotu/bpaotu/biom.py:113-114 | columns are numbered 0..k-1 in emission order, one key per column |
| BiomExport.TranslatablePrefix | bpaotu/bpaotu/biom.py:127-133 | the count of facts before the first whose OTU or sample has no number: every earlier fact translates, and the next does not |
| BiomExport.Triples | bpaotu/bpaotu/biom.py:121-133 | the triples translate the longest prefix of facts whose OTU and sample ids both have numbers. The next fact, if any, lacks one |
| BiomExport.TriplesComplete | bpaotu/bpaotu/biom.py:127-133 | every fact yields a triple exactly when every fact's ids are numbered |
| BiomExport.TriplesCharacterized | bpaotu/bpaotu/biom.py:121-133 | any list that translates a prefix of the facts in order and stops at the first untranslatable fact is the triples |
| BiomExport.AbundanceTable | bpaotu/bpaotu/biom.py:121-133 | the loop yields the triples. It raises no error exactly when all facts translate; otherwise it raises KeyError for the first missing id, the OTU id checked first |
| BiomExport.HeaderValues | bpaotu/bpaotu/biom.py:55-63 | the value of each header key, in order: `id` None, `format` `1.0.0`, `format_url` `http://biom-format.org`, `type` `OTU table`, `generated_by` `Bioplatforms Australia`, `date` the generation time, `matrix_type` `sparse`, `matrix_element_type` `int` |
| BiomExport.BiomHeader | bpaotu/bpaotu/biom.py:51-69 | the header opens with `{`, `"id": null`, then `"format": "1.0.0"`, and ends with the `,\n` before the rows section |
| BiomExport.NumberedFromEmpty | bpaotu/bpaotu/biom.py:17-18 | numbering into the fresh dictionaries gives the row and column numbers |
| BiomExport.NumberedSections | bpaotu/bpaotu/biom.py:15-19 | the rows and columns sections written into two fresh dictionaries; the dictionaries end up holding the row and column numbers |
| BiomExport.HeadSections | bpaotu/bpaotu/biom.py:16-23 | the header, rows, columns and shape sections are the document head, and the dictionaries hold the row and column numbers |
| BiomExport.GenerateBiomFile | bpaotu/bpaotu/biom.py:16-30 | the document is the header, rows, columns, shape and data sections, in that order. The shape is read after the rows and columns are numbered. The export succeeds exactly when every fact translates; otherwise it ends after the triples yielded before the KeyError |
| BiomExport.TriplesWithinShape | bpaotu/bpaotu/biom.py:23 | for unique OTU ids, every data triple's row index is below the row count and its column index below the column count |
| ExportQueries.ExportFacts | bpaotu/bpaotu/biom.py:122-124 | the facts the export reads are those of `matching_sample_otus()`, one per row, in order |
| ExportQueries.OtuHasRow | bpaotu/bpaotu/biom.py:82 | every exported OTU has a row number |
| ExportQueries.SampleHasColumn | bpaotu/bpaotu/biom.py:113-114 | every exported sample has a column number |
| ExportQueries.ExportColumns | bpaotu/bpaotu/biom.py:113-118 | on a database whose sample ids are unique, the columns are exactly `matching_samples()` in order, and the i-th is numbered i |
| ExportQueries.ExportHasNoKeyError | bpaotu/bpaotu/biom.py:121-133 | the export of a query never raises KeyError: every streamed fact's OTU has a row and its sample a column, so every fact yields a triple |
| ExportQueries.ExportWithinShape | bpaotu/bpaotu/biom.py:16-30 | for unique OTU ids, every triple of a query's export points inside the declared shape |

## Left out

- SQLAlchemy machinery is not modelled: sessions, `with_labels().statement.compile()`, `yield_per`, `log_query` and the context managers. Queries are evaluated over in-memory sequences.
- The compiled statement and its parameters are inputs to the cached methods (`statement`, `params`). The model does not derive them from the query.
- SHA-256 is left out. A cache key is the pre-hash text, and hash injectivity is not claimed.
- Cache expiry (`CACHE_7DAYS`, `CACHE_FOREVER`) and eviction are not modelled.
- The Django cache backend is not modelled; the cache is a map held by one shared object.
- The import uuid memo is modelled as written. Once set, it is never refreshed, so keys stay tied to the first import a process saw.
- `datetime.now()` becomes the `now` parameter of the header.
- `json.dumps` becomes the `enc` parameter: escaping and number formatting are not modelled. `otu.code` goes into the row text unescaped, as in the source.
- `util.val_or_empty` is not part of this model. It becomes the `otuValue` parameter.
- `SampleContext.display_name` becomes the `displayName` parameter.
- `str()` of floats becomes the `floatStr` parameter.
- Floating-point values are modelled as reals.
- `biom_zip_file_generator`, `save_biom_zip_file`, `filename` and the zip and file output are I/O and are left out.
- `OTUQueryParams.describe` (the long multi-section text) is left out. Its metadata section reads ImportMetadata through a session.
- `get_sample_ids`, `MetadataInfo` and `OntologyInfo.get_values`/`value_to_id` are database reads outside the modelled operations. `id_to_value` is `Tables.IdToValue`.
- `abundance_tbl` unpacks three entities from `matching_sample_otus()` called with none. The model feeds it the SampleOTU rows of the joined abundance query instead (`ExportQueries.ExportFacts`).
- `matching_sample_otus(*args)` projections are not modelled: it returns whole joined rows.
- The `sorting` argument of `matching_sample_headers` (its ORDER BY clauses) is left out, and so are the duplicate rows an outer join could add. Rows follow the assembled query's order.
- `LIKE` wildcard characters inside `field.contains(s)` are not modelled; containment is plain substring search.
- `sqlalchemy.and_()` and `or_()` with no arguments are taken to add no restriction. The or-mode statement covers this case explicitly.
- A `NULL` compared with `BETWEEN`, `LIKE`, `=` or `IN` is Unknown, and so is its negation. The complement property is therefore exact only on non-NULL fields.
- TaxonomyFilters.IsEmpty requires that `state_vector[0]` can be read. With no amplicon filter and an empty state vector the source raises IndexError, and the model does not model that error. Every query that calls `is_empty` inherits the requirement.
- Python selector dictionaries are modelled with their two keys, `operator` and `value`, printed in that order by `str()`. No other key is modelled.
- Strings.PyReprStr: only the backslash, the chosen quote, newline, carriage return and tab are escaped. Python also writes other non-printable characters as `\xNN`, `\uNNNN` or `\UNNNNNNNN`, and the model does not. The round trip and the plain-text lemmas hold for the escaping as modelled, and `PlainChar` is restricted to printable ASCII so that the plain-text lemmas also hold for Python's.
- Options.OptionsAt: the options are ordered by code point (`Options.ValueLe`, `Strings.StrLe`). The source orders them with the database's collation for `ORDER BY value`, which the model does not know.
- BiomExport.BiomHeader: the contract states the opening two pairs and the closing separator, not each of the eight pairs.
- ContextualFilters.Repr: models the repr as written, which does not determine the filter (`ContextualReprs.ReprCollision`). `QueryParams.Repr` and the state key are built from it, as in the source, so two different searches can share a state key (`QueryParams.StateKeyCollision`, under Findings). Injectivity is proved only for the corrected `ContextualReprs.QuotedRepr` and `QueryParams.CorrectedRepr`.
- ContextualFilters.TermRepr: as written, a term's field name, operator and text are printed bare, so two different terms can share a repr; only the corrected `ContextualReprs.QuotedTermRepr` reads back (`ContextualReprs.TermReadBack`).
- ContextualReprs.QuotedReprInjective: `str()` of a float is the `floatStr` parameter, and float printing itself is not modelled. This lemma, the read-back lemmas it rests on, QueryParams.ParamsReadBack, QueryParams.ReprInjective and QueryParams.StateKeyIdentifies hold for filters whose float bounds read back: for each bound x of each float range term, `floatOf(floatStr(x)) == Some(x)` and the text holds no `,` or `)` (`ContextualReprs.FloatReads`, `ContextualReprs.TermsFloatsRead`). Python's repr of a finite float meets this for every float it can hold. Filters without float terms meet it for any `floatStr` (`ContextualReprs.TermsWithoutFloatsRead`).
- OptionQueries.TaxonomyOptions.Possibilities: the contract assumes the shared cache is coherent: every options key holds the options computed for its own filter. Only `possibilities` and `_q_all_cached` write the cache, and both keep it coherent (`OptionQueries.StoreKeepsCoherent`, `OptionQueries.QueryStoreKeepsCoherent`). Expiry, other writers and data re-imported under a memoised uuid are not modelled.

## Findings

| source | as written | input that shows it | evidently intended | confidence | as-written member | corrected member |
|---|---|---|---|---|---|---|
| bpaotu/bpaotu/query.py:504-507, 604-605 | the contextual filter's repr prints each term with `%s`, so a text term's value, field name and operator appear bare, and the terms are joined by `,` | one text term on field f with operator op and text `a)>,<TermString(f,op,b`, against two text terms on f with op and texts `a` and `b` | the repr completely represents the filter, so that different searches get different cache keys (query.py:48-50, 133-134) | not executed | QueryParams.StateKeyCollision | QueryParams.StateKeyIdentifies |

`QueryParams.StateKeyCollision` rests on `ContextualReprs.ReprCollision`, where the two filters' reprs are already equal. The corrected repr writes the field name, operator and text of every term with `repr` (`ContextualReprs.QuotedRepr`, `QueryParams.CorrectedRepr`). It reads back (`ContextualReprs.QuotedReprReadBack`, `QueryParams.ParamsReadBack`), so the state key over it tells every two searches apart (`ContextualReprs.QuotedReprInjective`, `QueryParams.ReprInjective`, `QueryParams.StateKeyIdentifies`). `QueryParams.Repr` and the `OTUQueryParams` constructor keep the repr as written.
