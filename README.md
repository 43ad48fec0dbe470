# exam-oms product list: a Dafny model

This project models the query-translation core of the `exam-oms` Magento module:

- **`GraphQlSearchCriteria`** (the search-criteria helper) turns a GraphQL argument bag
  (`search`, `filter`, `sort`, `pageSize`, `currentPage`) into a framework
  `SearchCriteria`: a list of filter groups (ANDed; the filters inside one group are ORed),
  a sort list and the pagination. It works step by step on two pieces of state: the
  filter-group builder's buffer of pending filters, which `addFilter` grows and each
  commit (`setFilterGroups`) drains into one new group, and the criteria object it fills.
  It also holds `isDateValid` and the guard of `getLocalDate`.
- **`GetProductList::resolve`** (the GraphQL resolver) checks that the caller is a customer,
  checks `currentPage` and then `pageSize`, looks the customer up, builds the criteria,
  asks the product repository for a page, and projects each product into a response record
  with a status label and a formatted price, plus `total_count` and `page_info`.

Files:

- `wrappers.dfy` — `Option` and `Result`.
- `dates.dfy` — `isDateValid` as a parse/format round trip over "Y-m-d H:i:s", and `getLocalDate`'s guard.
- `criteria_spec.dfy` — what `build` computes, as functions on values, with the lemmas about it.
- `criteria_helper.dfy` — the helper as a class (`GraphQlSearchCriteria`, `SearchCriteria`) whose
  methods update state in place; `Build` is proved to compute exactly `BuildResult`.
- `product_list.dfy` — the resolver: a class whose `Resolve` is proved equal to the function
  `Resolved`, the item projection loop, the status rule, the page count, and the lemmas.

Assumptions:

- The framework's `FilterGroupBuilder::create()` returns the pending filters and empties the buffer.
- The resolver imports `Swiftoms\General\Helper\GraphQlSearchCriteria`, whose source is not part of this
  model; the model instantiates its `build` with the `Icube` helper modelled here.
- The customer repository, the product repository, the price formatter and the timezone conversions are
  collaborators: function-valued fields (`Backend`, `GraphQlSearchCriteria.toUtc`) or parameters.
- PHP's default timezone is UTC (Magento's bootstrap sets it), so every in-range local time exists and
  `isDateValid` depends on the text alone.
- The functions of `criteria_spec.dfy` take the date check as a parameter `isDate` beside `toUtc`, and their
  lemmas hold for any date check; the helper class and the resolver always pass `Dates.IsDateValid`, as the
  source always calls its own `isDateValid`.

Behaviour of the code worth noting:

- A free-text search adds all column filters to the buffer and commits once
  (src/module-exam-oms/Helper/GraphQlSearchCriteria.php:103-106), so it produces **one** filter group with one `like` filter per
  column.
- Authorization fails only when `isCustomer` is exactly `false` (src/module-exam-oms/Model/Resolver/GetProductList.php:82, a strict `===`);
  an unset flag passes. The flag is an `Option<bool>`.
- `empty()` treats the search term `"0"` as empty, so it adds no search group (`SearchRequested`).
- If anything is still pending in the helper's buffer when `build` starts, the first group `build`
  commits takes it along; the model keeps that (`BuildResult` takes the buffer as input), and the
  group-shape lemmas are stated for an empty buffer, which is what a fresh helper has.

## Model

| member | source | states |
|---|---|---|
| Dates.IsDateValid | src/module-exam-oms/Helper/GraphQlSearchCriteria.php:143-147 | a string that passes is canonical "YYYY-MM-DD HH:MM:SS" with every field in range (IsDateValidExactly gives the converse) |
| Dates.Parse | src/module-exam-oms/Helper/GraphQlSearchCriteria.php:145 | no contract of its own: ParseFormat and FormatParse state that it inverts Format on every valid instant and on every string it accepts; the roll-over and unpadded fields it does not reproduce are listed under Left out |
| Dates.Format | src/module-exam-oms/Helper/GraphQlSearchCriteria.php:146 | "Y-m-d H:i:s" output is always 19 characters |
| Dates.ParseFormat | src/module-exam-oms/Helper/GraphQlSearchCriteria.php:143-147 | every valid instant prints as text that parses back to that same instant |
| Dates.FormatParse | src/module-exam-oms/Helper/GraphQlSearchCriteria.php:143-147 | whatever parses prints back as exactly the string it was read from |
| Dates.IsDateValidExactly | src/module-exam-oms/Helper/GraphQlSearchCriteria.php:143-147 | isDateValid holds iff the string is canonical "YYYY-MM-DD HH:MM:SS" and its fields are in range (month, day of that month with leap years, hour, minute, second) |
| Dates.FormattedIsDateValid | src/module-exam-oms/Helper/GraphQlSearchCriteria.php:143-147 | the text of every valid instant passes isDateValid |
| Dates.RejectsFebruary30 | src/module-exam-oms/Helper/GraphQlSearchCriteria.php:143-147 | "2023-02-30 10:00:00" fails the round trip |
| Dates.LeapDayIn2024 | src/module-exam-oms/Helper/GraphQlSearchCriteria.php:143-147 | "2024-02-29 00:00:00" passes: 2024 is a leap year |
| Dates.NoLeapDayIn2023 | src/module-exam-oms/Helper/GraphQlSearchCriteria.php:143-147 | "2023-02-29 00:00:00" fails: 2023 is not a leap year |
| Dates.LeapDayOnlyInLeapYears | src/module-exam-oms/Helper/GraphQlSearchCriteria.php:143-147 | 29 February passes in 2024 and fails in 2023 |
| Dates.RejectsDateOnly | src/module-exam-oms/Helper/GraphQlSearchCriteria.php:143-147 | a date without a time fails the default format |
| Dates.LocalDate | src/module-exam-oms/Helper/GraphQlSearchCriteria.php:251-261 | the date comes back unchanged unless it is a valid date string, and then it is the conversion's result when the conversion succeeds |
| SearchCriteriaSpec.SearchRequested | src/module-exam-oms/Helper/GraphQlSearchCriteria.php:102 | no contract of its own: SearchPass states that the search step commits one group iff it holds, and NoSearchGroup and BuildGroups that no search group appears otherwise |
| SearchCriteriaSpec.SearchPass | src/module-exam-oms/Helper/GraphQlSearchCriteria.php:102-107 | the search step commits exactly one group iff a search is requested, and then leaves the buffer empty; otherwise the buffer is untouched |
| SearchCriteriaSpec.FilterPassShape | src/module-exam-oms/Helper/GraphQlSearchCriteria.php:110-122 | from a bare buffer, the filter step commits one group per filter; the first group takes what was pending plus its filter, every later group is its filter alone; the buffer ends empty unless there were no filters |
| SearchCriteriaSpec.SortPass | src/module-exam-oms/Helper/GraphQlSearchCriteria.php:125-128 | with no sort entries the list is the initial one; otherwise it is the single order of the last entry |
| SearchCriteriaSpec.EntryFilter | src/module-exam-oms/Helper/GraphQlSearchCriteria.php:111-121 | the filter for a triple keeps its field and condition; its value differs from the input only for `like` or for a string the date check accepts |
| SearchCriteriaSpec.BuildResult | src/module-exam-oms/Helper/GraphQlSearchCriteria.php:99-134 | page size and current page are copied verbatim; at most one sort order survives |
| SearchCriteriaSpec.FilterPassSnoc | src/module-exam-oms/Helper/GraphQlSearchCriteria.php:110-122 | committing one more filter, from any helper state, appends one group of the pending filters plus it, and empties the buffer |
| SearchCriteriaSpec.FilterPassAppend | src/module-exam-oms/Helper/GraphQlSearchCriteria.php:110-122 | committing a + b is committing a, then b from the state a left |
| SearchCriteriaSpec.FilterPassClosed | src/module-exam-oms/Helper/GraphQlSearchCriteria.php:110-122 | from a bare buffer, a non-empty filter step leaves the groups [pending + first filter] followed by each later filter alone, and an empty buffer |
| SearchCriteriaSpec.FilterPassPrefix | src/module-exam-oms/Helper/GraphQlSearchCriteria.php:110-122 | the filter step only appends: groups committed before it stay in front, unchanged, and what it adds depends on the buffer alone |
| SearchCriteriaSpec.FlattenNext | src/module-exam-oms/Helper/GraphQlSearchCriteria.php:110-111 | the triples of the first i + 1 fields are those of the first i, then field i's conditions in order |
| SearchCriteriaSpec.FieldPassFlat | src/module-exam-oms/Helper/GraphQlSearchCriteria.php:111-122 | the inner foreach over a field's first n conditions, add then commit each, leaves the state the filter step gives for those triples |
| SearchCriteriaSpec.FieldsPassFlat | src/module-exam-oms/Helper/GraphQlSearchCriteria.php:110-123 | the two nested foreach loops over the first n fields leave the state the filter step gives for all their triples in iteration order |
| SearchCriteriaSpec.FlattenAppend | src/module-exam-oms/Helper/GraphQlSearchCriteria.php:110-111 | the triples of consecutive fields come in field order |
| SearchCriteriaSpec.FlattenOne | src/module-exam-oms/Helper/GraphQlSearchCriteria.php:110-111 | one field contributes its conditions in order under its own name |
| SearchCriteriaSpec.BuildGroups | src/module-exam-oms/Helper/GraphQlSearchCriteria.php:102-122 | from an empty buffer, the groups are the single search group (only when search is set and non-empty) followed by one single-filter group per filter triple in iteration order, and the buffer ends empty |
| SearchCriteriaSpec.SearchGroupShape | src/module-exam-oms/Helper/GraphQlSearchCriteria.php:102-107 | with a search term, the first group holds exactly one `like` filter per column, in column order, on "%term%" |
| SearchCriteriaSpec.NoSearchGroup | src/module-exam-oms/Helper/GraphQlSearchCriteria.php:102-122 | without a usable search term, the groups are exactly the filter triples' groups |
| SearchCriteriaSpec.FilterGroupShape | src/module-exam-oms/Helper/GraphQlSearchCriteria.php:110-122 | each filter triple has its own group of one filter on that field and condition, placed after any search group |
| SearchCriteriaSpec.LikeIsWrapped | src/module-exam-oms/Helper/GraphQlSearchCriteria.php:112-114 | a `like` value is wrapped in "%...%" and never date-converted |
| SearchCriteriaSpec.OtherConditionValue | src/module-exam-oms/Helper/GraphQlSearchCriteria.php:115-119 | under any other condition a string the date check accepts becomes its UTC conversion and every other value is kept |
| SearchCriteriaSpec.SortLastWins | src/module-exam-oms/Helper/GraphQlSearchCriteria.php:125-128 | the sort list is the single last sort entry; earlier entries never matter |
| SearchCriteriaSpec.NonArrayIsEmpty | src/module-exam-oms/Helper/GraphQlSearchCriteria.php:109-125 | a non-array `filter` or `sort` gives the same result as an absent or empty one |
| SearchCriteriaSpec.NoSortKeepsDefault | src/module-exam-oms/Helper/GraphQlSearchCriteria.php:125-128 | with no sort entries the fresh criteria's sort list is untouched |
| SearchCriteriaHelper.SearchCriteria.constructor | src/module-exam-oms/Helper/GraphQlSearchCriteria.php:101 | a fresh criteria object has no groups, no sort orders and no pagination |
| SearchCriteriaHelper.GraphQlSearchCriteria.constructor | src/module-exam-oms/Helper/GraphQlSearchCriteria.php:66-82 | a new helper has an empty buffer and no columns, and keeps the given UTC conversion |
| SearchCriteriaHelper.GraphQlSearchCriteria.GetSearchCriteria | src/module-exam-oms/Helper/GraphQlSearchCriteria.php:89-92 | returns a fresh, empty criteria object |
| SearchCriteriaHelper.GraphQlSearchCriteria.AddFilter | src/module-exam-oms/Helper/GraphQlSearchCriteria.php:156-168 | the buffer gains exactly the one filter built from field, value and condition |
| SearchCriteriaHelper.GraphQlSearchCriteria.SetFilterGroups | src/module-exam-oms/Helper/GraphQlSearchCriteria.php:199-205 | all existing groups are kept in order and one group of the pending filters is appended; the buffer empties; sort list and pagination are unchanged |
| SearchCriteriaHelper.GraphQlSearchCriteria.AddOptionalFilter | src/module-exam-oms/Helper/GraphQlSearchCriteria.php:178-191 | appends one group of the pending filters plus the new one, and empties the buffer |
| SearchCriteriaHelper.GraphQlSearchCriteria.AddSortOrder | src/module-exam-oms/Helper/GraphQlSearchCriteria.php:212-224 | the sort list becomes exactly the one given order; groups unchanged |
| SearchCriteriaHelper.GraphQlSearchCriteria.SetColumns | src/module-exam-oms/Helper/GraphQlSearchCriteria.php:232-244 | getColumns returns the columns set; the buffer is unchanged |
| SearchCriteriaHelper.GraphQlSearchCriteria.GetColumns | src/module-exam-oms/Helper/GraphQlSearchCriteria.php:241-244 | no contract of its own: SetColumns states `GetColumns() == cs`, so it returns the columns last set |
| SearchCriteriaHelper.GraphQlSearchCriteria.CommitSearch | src/module-exam-oms/Helper/GraphQlSearchCriteria.php:102-107 | appends one group: the pending filters followed by one `like` filter per column |
| SearchCriteriaHelper.GraphQlSearchCriteria.CommitCondition | src/module-exam-oms/Helper/GraphQlSearchCriteria.php:111-121 | one pass of the inner loop: from the state FieldPass gives for the first j conditions it reaches the one for j + 1, appending the pending filters plus the j-th triple's filter (wrapped for `like`, converted when isDateValid accepts it) |
| SearchCriteriaHelper.GraphQlSearchCriteria.CommitField | src/module-exam-oms/Helper/GraphQlSearchCriteria.php:111-122 | ends in the state FieldPass gives for all of the field's conditions from the state on entry, which FieldPassFlat equates with the filter step over its triples |
| SearchCriteriaHelper.GraphQlSearchCriteria.CommitFilters | src/module-exam-oms/Helper/GraphQlSearchCriteria.php:109-123 | ends in the state FieldsPass gives for every field of `filter` from the state on entry, which FieldsPassFlat equates with the filter step over all triples in iteration order |
| SearchCriteriaHelper.GraphQlSearchCriteria.ApplySorts | src/module-exam-oms/Helper/GraphQlSearchCriteria.php:125-128 | the sort list ends as SortPass gives: the last entry, or unchanged when there is none |
| SearchCriteriaHelper.GraphQlSearchCriteria.Build | src/module-exam-oms/Helper/GraphQlSearchCriteria.php:99-134 | returns a fresh criteria equal to BuildResult for the buffer found on entry, and leaves the buffer BuildResult says |
| ProductListResolver.BelowOne | src/module-exam-oms/Model/Resolver/GetProductList.php:88-94 | no contract of its own: Resolved states that an input error happens iff the caller is authorized and a page argument is missing or below 1, and PageChecksInOrder that currentPage is checked before pageSize |
| ProductListResolver.Project | src/module-exam-oms/Model/Resolver/GetProductList.php:120-132 | a product's record keeps its id, name and sku, formats its price, and carries its status with the Enabled-iff-1 label |
| ProductListResolver.StatusOf | src/module-exam-oms/Model/Resolver/GetProductList.php:107-118 | the status value is the item's status; the label is "Enabled" iff the status is 1, otherwise "Disabled" |
| ProductListResolver.TotalPages | src/module-exam-oms/Model/Resolver/GetProductList.php:143 | total pages p satisfies (p - 1) * size < total <= p * size, the integer ceiling of total / size |
| ProductListResolver.TotalPagesIsCeiling | src/module-exam-oms/Model/Resolver/GetProductList.php:143 | no other page count satisfies that bound |
| ProductListResolver.TotalPagesExamples | src/module-exam-oms/Model/Resolver/GetProductList.php:143 | 25 items in pages of 10 give 3 pages, 20 give 2, 0 give 0 |
| ProductListResolver.ProjectItems | src/module-exam-oms/Model/Resolver/GetProductList.php:105-135 | one record per repository item, same length and order, each the item's projection |
| ProductListResolver.AuthorizationFirst | src/module-exam-oms/Model/Resolver/GetProductList.php:82-86 | an explicit `false` isCustomer fails with the authorization error whatever the arguments |
| ProductListResolver.PageChecksInOrder | src/module-exam-oms/Model/Resolver/GetProductList.php:88-94 | currentPage below 1 (or missing) fails first; then pageSize below 1 (or missing) fails |
| ProductListResolver.MissingCustomerIsNotFound | src/module-exam-oms/Model/Resolver/GetProductList.php:96-100 | a failed customer lookup becomes a not-found error carrying the repository's message |
| ProductListResolver.ErrorsIgnoreBuilderAndRepository | src/module-exam-oms/Model/Resolver/GetProductList.php:82-103 | an error result does not depend on the builder's state, the product repository or the price formatter |
| ProductListResolver.SuccessfulPage | src/module-exam-oms/Model/Resolver/GetProductList.php:102-145 | a page is returned iff every guard passes; its items follow the repository's in length and order with the status rule and formatted price; page size and current page echo the arguments; total count echoes the repository; total pages is the ceiling |
| ProductListResolver.Resolved | src/module-exam-oms/Model/Resolver/GetProductList.php:74-148 | an authorization error iff isCustomer is exactly false; an input error iff authorized and a page argument is missing or below 1; a returned page has page size and current page at least 1 |
| ProductListResolver.GetProductList.constructor | src/module-exam-oms/Model/Resolver/GetProductList.php:57-69 | keeps the given helper and collaborators |
| ProductListResolver.GetProductList.Resolve | src/module-exam-oms/Model/Resolver/GetProductList.php:74-148 | returns exactly Resolved; the helper's buffer changes only when build ran, which is exactly when a page is returned |

## Left out

- `getFormattedPrice` and `PricingHelper::currency` (src/module-exam-oms/Helper/GraphQlSearchCriteria.php:269-272, src/module-exam-oms/Model/Resolver/GetProductList.php:124): locale and float currency formatting; the price formatter is an uninterpreted function field (`Backend.formatPrice`).
- `TimezoneInterface::convertConfigTimeToUtc` and `TimezoneInterface::date`: timezone arithmetic of the framework; the UTC conversion is the helper's function field `toUtc`, and the body of `getLocalDate`'s `try` block (conversion, optional formatting, exception fallback) is the `localize` parameter of `LocalDate`, whose `None` stands for the exception.
- Dates.Parse: PHP rolls out-of-range fields over into neighbouring ones (30 February becomes 2 March), reads `m`, `d` and `H` fields written without their leading zeros ("2023-1-5 7:00:00"), and reads a `Y` field of fewer than four digits ("987-01-01 00:00:00" is year 987, which prints as "0987-01-01 00:00:00"); in all these cases the model returns no instant instead. This gives the same isDateValid verdict, because a rolled-over instant never prints back as the input and Format pads every field. Formats other than the default "Y-m-d H:i:s" are not modelled.
- Filter values other than strings and integers (floats, booleans, null, nested arrays), and a field entry of `filter` that is not itself an array, are not modelled.
- The framework's checks inside `SortOrderBuilder` (such as rejecting an unknown sort direction) and the internals of `FilterBuilder` and `SearchCriteria`: filters, groups and sort orders are plain records. A fresh criteria's unset sort list is modelled as empty.
- The customer and product repositories: `getById` is a function from the user id to found / not found (other exceptions are not modelled), and `getList` a function from criteria to items and total count.
- The GraphQL runtime (`Field`, `ResolveInfo`, `$value`), the unused `companyRepository`, and the unused customer returned by the lookup.
- ProductListResolver.TotalPages: PHP's `ceil` returns a float; the model uses integer ceiling division on a non-negative count.
- PHP loose typing: the `@` suppression and `switch` loose comparison are not modelled; status is an integer and the arguments are typed optional fields.
