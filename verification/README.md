# Orion relationship graph, document validation and local store, in Dafny

Orion is a field-policing application that records approaches
(*abordagens*): an approach has an id, a timestamp, a place and the
people (*pessoas*) involved. This project models three parts of it and
proves what they promise.

- **The relationship graph** (`src/components/RelacoesGraph.tsx`). Given
  every approach and a focal person, `processRelations` walks co-occurrence
  depth first from level 0. A person already processed, or a level above 2,
  stops the walk. Each person entered gets a node whose size depends on the
  level (20, 15, 10). Each pair of people meeting in an approach updates one
  link:
  - its value goes up by one;
  - the approach id is added if absent;
  - `isIndirect` is fixed when the link is created.

  The maps are then flattened into the arrays the renderer receives.
  - `GraphModel` holds the traversal as mutually recursive functions, one
    per level of the source's nesting.
  - `GraphBuild.Builder` is the traversal as the source runs it: a class
    whose maps and processed set are updated in place by nested loops and
    recursion. It is proved to compute exactly the functional model.
  - `GraphInvariants` and `GraphCoverage` prove what holds throughout the
    traversal.
  - `GraphBuild` states the properties of the final graph.
  - `GraphScenarios` computes three small graphs completely.
- **CPF and RG validation and formatting** (`src/utils/validation.ts`).
  - The CPF is the 11-digit taxpayer number with two mod-11 check digits.
    `ValidateCPF` runs the two weighted-sum loops and is proved equal to the
    predicate `IsValidCPF`.
  - The RG is the identity-card number. It is checked only by its digit
    count.
  - Formatting keeps the digits, is idempotent and never changes validity.
- **The local store** (`src/utils/storage.ts`). People and approaches live
  as JSON lists under two localStorage keys. `Storage.LocalStore` holds the
  two keys' contents as fields, which the save and delete methods reassign.
  The lookup, search and per-person listing are functions of that state.

Shared pieces:
- `Types` holds the records.
- `Lists` holds the array operations the source uses (`findIndex`, `filter`
  and a stable `sort`), each specified once.
- `LinkKeys` holds the link key.

Three behaviours of the code are easy to misread. The scenarios make
them explicit:
- **A link's value counts matches, not approaches.** One approach holding A
  and B adds 1 when A is expanded and 1 more when B is. When both people
  are expanded, one shared approach gives value 2 and two give 4
  (`GraphScenarios.TwoSharedEvents`). A link whose other end is never
  expanded counts each approach once, and an approach that lists a person
  twice counts that person twice.
- **Links are created to people who get no node.** A level-2 person is
  linked to every co-participant, although it enters none of them. In the
  chain A-B, B-C, C-D, the link C-D exists while D has no node
  (`GraphScenarios.ChainFromA`).
- **The order is depth first, not breadth first.** A direct co-participant
  of the focal person can first be reached through someone else. It is then
  placed at level 2, and its link with the focal person is indirect
  (`GraphScenarios.DirectPartnerAtLevelTwo`).

## Model

| member | source | states |
|---|---|---|
| GraphModel.Expand | src/components/RelacoesGraph.tsx:86-124 | models `processRelations` as a function of the working state: a processed person or a level above 2 returns at once; otherwise the person is entered and its approaches scanned (no contract of its own; its properties are the `Expand*` lemmas below) |
| GraphModel.Touch | src/components/RelacoesGraph.tsx:108-114 | models one link update: a missing link starts at value 0 with no approaches and `isIndirect` = level > 0; the value goes up by one and the approach id is added when absent (its properties are `GraphInvariants.TouchGrows`) |
| GraphBuild.Flatten | src/components/RelacoesGraph.tsx:129-144 | models turning the two maps into arrays in insertion order, each link's pair key giving its source and target (its properties are the `Build*` lemmas) |
| GraphBuild.Builder.ProcessRelations | src/components/RelacoesGraph.tsx:86-124 | the in-place traversal (a processed set, two maps, nested loops over approaches and participants, recursion one level down) leaves exactly the state of the functional traversal `Expand` from the state it started in |
| GraphBuild.Builder.TouchLink | src/components/RelacoesGraph.tsx:108-114 | creating or updating one link in place leaves the state `Touch` describes: value +1, approach id added once, a new link's `isIndirect` set from the level |
| GraphBuild.Builder.constructor | src/components/RelacoesGraph.tsx:81-83 | the traversal starts with empty node and link maps and no processed person |
| GraphBuild.BuildGraph | src/components/RelacoesGraph.tsx:76-144 | running the class from empty maps on the focal person at level 0 and flattening yields the graph `Build` |
| GraphBuild.TraverseFacts | src/components/RelacoesGraph.tsx:126-127 | the final state satisfies the node, link and endpoint invariants and the level bound, and still holds the focal person's level-0 node |
| GraphBuild.BuildFocalFirst | src/components/RelacoesGraph.tsx:86-100 | the first node is always the focal person at level 0 with size 20 |
| GraphBuild.BuildNodeIdsUnique | src/components/RelacoesGraph.tsx:87-100 | no person appears as two nodes, and each node wraps the person whose id it carries |
| GraphBuild.BuildNodeLevels | src/components/RelacoesGraph.tsx:87-98 | every node has level at most 2 and size 20/15/10 by level; level 0 is exactly the focal person; a level-n node is within n co-occurrence steps of the focal person |
| GraphBuild.BuildLinksWellFormed | src/components/RelacoesGraph.tsx:106-114 | every link joins two different people in sorted order, lists at least one approach and no approach twice, has value at least the number of approaches, lists only approaches both ends took part in, and is direct only if the focal person is an end |
| GraphBuild.BuildLinkEnds | src/components/RelacoesGraph.tsx:106-114 | at least one end of every link has a node, and no two links join the same pair |
| GraphBuild.BuildCoversEvents | src/components/RelacoesGraph.tsx:103-123 | for every node and every approach it is in, each other participant has a link with it listing that approach, and also a node when the node's level is below 2 |
| GraphBuild.BuildOmitsDistant | src/components/RelacoesGraph.tsx:87-119 | a person more than two co-occurrence steps from the focal person gets no node |
| GraphBuild.IsolatedFocal | src/components/RelacoesGraph.tsx:86-144 | a focal person in no approach gives exactly one node (itself at level 0) and no links |
| GraphInvariants.EnterGrows | src/components/RelacoesGraph.tsx:87-100 | entering a person only adds its node, created at the given level when absent, and keeps the processed set equal to the node keys |
| GraphInvariants.TouchGrows | src/components/RelacoesGraph.tsx:108-114 | a link update changes no node, keeps every other link, adds the approach id, increments the value (1 for a new link), and keeps an existing link's `isIndirect` |
| GraphInvariants.ExpandGrows | src/components/RelacoesGraph.tsx:86-124 | a call of `processRelations` never removes or replaces a node, never changes a link's `isIndirect`, only grows values and approach lists, and leaves the person with a node when the level is at most 2 |
| GraphInvariants.MeetGrows | src/components/RelacoesGraph.tsx:106-119 | meeting a co-participant only extends the state, and below level 2 leaves the co-participant with a node |
| GraphInvariants.EnterOk | src/components/RelacoesGraph.tsx:87-100 | entering an unprocessed person at level at most 2 keeps the invariant |
| GraphInvariants.TouchOk | src/components/RelacoesGraph.tsx:106-114 | a link update for two people who share the approach keeps the invariant, provided an update at level 0 comes from the focal person |
| GraphInvariants.ExpandOk | src/components/RelacoesGraph.tsx:86-124 | `processRelations` keeps the invariant: unique well-formed nodes, well-formed links, and a node at one end of every link |
| GraphInvariants.MeetOk | src/components/RelacoesGraph.tsx:106-119 | meeting a co-participant in a shared approach keeps the invariant |
| GraphInvariants.ExpandLevels | src/components/RelacoesGraph.tsx:86-124 | every node created is within its level's number of co-occurrence steps of the focal person |
| GraphInvariants.MeetLevels | src/components/RelacoesGraph.tsx:116-119 | expanding a co-participant one level down keeps every node within its level's distance |
| GraphInvariants.EmptyInv | src/components/RelacoesGraph.tsx:81-83 | the empty maps satisfy the invariant |
| GraphCoverage.ExpandCovers | src/components/RelacoesGraph.tsx:86-124 | every person who gets a node during a call has, by its end, a link with every co-participant of every approach it is in, and those co-participants have nodes when its level is below 2 |
| GraphCoverage.ScanEventsCovers | src/components/RelacoesGraph.tsx:103-123 | after the loop over approaches, the expanded person is linked with all its co-participants from the given approach on |
| GraphCoverage.ScanPeopleCovers | src/components/RelacoesGraph.tsx:105-121 | after the loop over one approach's participants, the expanded person is linked with each of them through that approach |
| GraphCoverage.MeetCovers | src/components/RelacoesGraph.tsx:106-119 | meeting a different person links the pair through the approach |
| GraphScenarios.ChainFromA | src/components/RelacoesGraph.tsx:86-144 | chain A-B, B-C, C-D from A: nodes A0, B1, C2; links A-B (value 2, direct), B-C (value 2, indirect) and C-D (value 1, indirect) although D has no node |
| GraphScenarios.TwoSharedEvents | src/components/RelacoesGraph.tsx:108-114 | two approaches holding A and B give one link listing both, with value 4 |
| GraphScenarios.DirectPartnerAtLevelTwo | src/components/RelacoesGraph.tsx:103-119 | triangle A-B, B-C, A-C from A: C is reached through B first, so it gets level 2 and the A-C link is indirect |
| LinkKeys.KeyOf | src/components/RelacoesGraph.tsx:108 | the link key is the pair in sorted order, whichever person is expanded |
| LinkKeys.KeyOfSymmetric | src/components/RelacoesGraph.tsx:108 | both orders of a pair give the same key, so their matches aggregate into one link |
| LinkKeys.KeyOfInjective | src/components/RelacoesGraph.tsx:108 | two pairs share a key exactly when they are the same unordered pair |
| LinkKeys.BeforeDash | src/components/RelacoesGraph.tsx:131 | the text before the first '-' is a dash-free prefix of the key |
| LinkKeys.JoinLinkId | src/components/RelacoesGraph.tsx:108 | models `[a, b].sort().join('-')`, the string key the source uses (its properties are `SplitJoinRoundTrip` and `DashedIdsBreakStringKey`) |
| LinkKeys.SplitLinkId | src/components/RelacoesGraph.tsx:131 | `id.split('-')` keeps the first two parts: neither contains '-', the target is missing exactly when the key has no '-', and then the source is the whole key |
| LinkKeys.SplitJoinRoundTrip | src/components/RelacoesGraph.tsx:108-131 | splitting the joined string key gives back the sorted pair when neither id contains '-' |
| LinkKeys.DashedIdsBreakStringKey | src/components/RelacoesGraph.tsx:108-131 | with a '-' inside an id, two different pairs get the same string key, and splitting it gives back neither pair |
| LinkKeys.PairKeyRecoversIds | src/components/RelacoesGraph.tsx:130-138 | the pair key always yields its two ids, and different pairs have different keys |
| Validation.Digits | src/utils/validation.ts:2 | removing the non-digits leaves only digits and never lengthens the text |
| Validation.DigitsIdempotent | src/utils/validation.ts:2 | removing non-digits twice is removing them once |
| Validation.CheckDigit | src/utils/validation.ts:8-13 | a check digit is always between 0 and 9 |
| Validation.ValidateCPF | src/utils/validation.ts:1-25 | the loops accept exactly the CPFs with 11 digits, not all the same, whose 10th and 11th digits are the check digits of the first 9 and 10 |
| Validation.CompletedCPFIsValid | src/utils/validation.ts:8-22 | nine digits followed by their two check digits are accepted exactly when the eleven digits are not all the same |
| Validation.ValidCPFIsCompleted | src/utils/validation.ts:8-22 | an accepted CPF's last two digits are the check digits of its first nine |
| Validation.RepeatedDigitPassesChecksums | src/utils/validation.ts:6-22 | eleven copies of one digit pass both checksums, so only the repeated-digit test rejects them |
| Validation.ValidateRG | src/utils/validation.ts:27-30 | an RG passes when it has seven to nine digits: a bare digit string passes exactly at lengths 7 to 9, and nothing shorter than seven characters passes |
| Validation.FormatCPF | src/utils/validation.ts:32-35 | models `formatCPF`: the digits, the first eleven masked when there are that many (its properties are the `FormatCPF*` lemmas below) |
| Validation.FormatRG | src/utils/validation.ts:37-43 | models `formatRG`: exactly nine digits are masked, any other count is returned bare (its properties are the `FormatRG*` lemmas below) |
| Validation.FormatCPFKeepsDigits | src/utils/validation.ts:32-35 | formatting a CPF keeps its digits, in order |
| Validation.FormatCPFShape | src/utils/validation.ts:32-35 | fewer than 11 digits are returned bare; otherwise the first 11 are masked ddd.ddd.ddd-dd and the rest follow |
| Validation.FormatCPFIdempotent | src/utils/validation.ts:32-35 | formatting a formatted CPF changes nothing |
| Validation.FormatCPFFixesMask | src/utils/validation.ts:32-35 | a CPF already in mask form is returned unchanged |
| Validation.ValidateCPFIgnoresFormat | src/utils/validation.ts:1-35 | a CPF validates after formatting exactly when it validated before |
| Validation.FormatRGKeepsDigits | src/utils/validation.ts:37-43 | formatting an RG keeps its digits, in order |
| Validation.FormatRGShape | src/utils/validation.ts:37-43 | exactly nine digits are masked dd.ddd.ddd-d; any other count is returned as bare digits |
| Validation.FormatRGIdempotent | src/utils/validation.ts:37-43 | formatting a formatted RG changes nothing |
| Validation.ValidateRGIgnoresFormat | src/utils/validation.ts:27-43 | an RG validates after formatting exactly when it validated before |
| Storage.Load | src/utils/storage.ts:7-15 | models `getPessoas` and `getAbordagens` (lines 85-93 alike): the stored list, or [] when the key is missing or its text does not parse |
| Storage.SearchTerm | src/utils/storage.ts:68 | the lower-cased query with white space cut from both ends: no longer than the query, neither starting nor ending with white space, and only white space cut |
| Storage.DecimalString | src/utils/storage.ts:43 | a generated id is a non-empty string of decimal digits |
| Storage.DecimalStringRoundTrip | src/utils/storage.ts:43 | a generated id reads back as the clock value it came from |
| Storage.Overlay | src/utils/storage.ts:34-38 | updating a stored person keeps its id, takes every property the update has and keeps every other stored property |
| Storage.OverlayIdempotent | src/utils/storage.ts:34-38 | applying the same update twice equals applying it once |
| Storage.OverlayFullUpdate | src/utils/storage.ts:34-38 | an update with the stored id and every property replaces the record outright |
| Storage.LocalStore.GetPessoa | src/utils/storage.ts:17-25 | nothing exactly when no stored person has the id; otherwise the first stored person with that id |
| Storage.LocalStore.GetAbordagem | src/utils/storage.ts:95-103 | nothing exactly when no stored approach has the id; otherwise the first stored approach with that id |
| Storage.LocalStore.SavePessoa | src/utils/storage.ts:27-52 | with a successful write: an existing person is overlaid in place, others untouched, list length kept; a new one is appended, with a clock id when its own is empty; afterwards the id is found. A failed write throws the save error and changes nothing |
| Storage.LocalStore.DeletePessoa | src/utils/storage.ts:54-63 | with a successful write the list keeps every other person in order and the id is no longer found; a failed write throws the delete error and changes nothing |
| Storage.LocalStore.SearchPessoas | src/utils/storage.ts:65-83 | a blank query gives nothing; otherwise exactly the stored people whose name, mother's or father's name, RG or CPF contains the lower-cased, trimmed query, in stored order and each as often as stored |
| Storage.LocalStore.SaveAbordagem | src/utils/storage.ts:105-123 | with a successful write the first approach with the id is replaced wholesale, or the approach is appended, and afterwards the id finds it; a failed write throws the save error and changes nothing |
| Storage.LocalStore.DeleteAbordagem | src/utils/storage.ts:125-134 | with a successful write the list keeps every other approach in order and the id is no longer found; a failed write throws the delete error and changes nothing |
| Storage.LocalStore.GetAbordagensByPessoa | src/utils/storage.ts:136-146 | exactly the stored approaches that involve the person, each as often as stored, newest first |
| Storage.Matching | src/utils/storage.ts:72-78 | the people that pass the five-field test, as a subsequence of the list that holds each matching person as often as the list does |
| Storage.InvolvingPessoa | src/utils/storage.ts:140 | keeps exactly the approaches one of whose participants has the id, in stored order and each as often as stored |
| Storage.NewestEventsFirst | src/utils/storage.ts:141 | the sort is a reordering, newest first |
| Lists.IndexOf | src/utils/storage.ts:30 | -1 exactly when no element has the id, otherwise the first position that has it |
| Lists.Filter | src/utils/storage.ts:72-78 | the result is no longer than the list, holds only elements of the list that pass the test, and every element that passes it |
| Lists.FilterKeepsOrder | src/utils/storage.ts:72-78 | the result is a subsequence of the list: stored order is kept |
| Lists.FilterKeepsCount | src/utils/storage.ts:72-78 | an element that passes the test occurs in the result as often as in the list |
| Lists.WithoutId | src/utils/storage.ts:57 | removing an id keeps every other element, in order and as often as it occurs, and nothing with that id (line 128 alike) |
| Lists.FilterIdempotent | src/utils/storage.ts:72-78 | filtering twice by the same test is filtering once |
| Lists.WithoutIdIdempotent | src/utils/storage.ts:57 | removing an id twice is removing it once |
| Lists.NewestFirst | src/utils/storage.ts:141 | the sort is a permutation and puts later timestamps first |
| Lists.NewestFirstStable | src/utils/storage.ts:141 | the sort is stable: approaches with equal timestamps keep their stored order |

## Left out

- **Rendering and loading state.** The React component's state, the loading and error flags, `ForceGraph2D`, node colours and the detail panel are not modelled. They only display the graph data.
- **Where the approaches come from.** Fetching them from the database service is not part of this model. They are a parameter of the traversal, and a failed fetch (the error branch of `loadData`) is not modelled.
- **Link source and target.** The output is taken from the pair key, not from splitting the joined string key. The two agree whenever no id contains '-' (`LinkKeys.SplitJoinRoundTrip`); see Findings for when they do not.
- **Recursion depth.** The `Builder` recurses as the source does; a stack overflow is not modelled. Levels stop at 2, so the depth is bounded by three nested calls.
- **localStorage and JSON.** A key's content is abstracted to missing, unparsable or a stored list. Stored JSON that parses to something other than an array is not modelled. The unused `MAX_ITEMS` constant is not modelled either.
- **Failing writes.** Whether `setItem` throws (for example on a full quota) is the parameter `writeOk`. The thrown error is the `Failed` outcome carrying the source's message.
- **The clock.** `Date.now()` is the parameter `now`.
- **Timestamps.** `new Date(timestamp).getTime()` is the parameter `timeOf`; date parsing and NaN times are not modelled.
- Storage.LocalStore.GetAbordagensByPessoa: the order is proved for an integer-valued `timeOf`. The JavaScript sort compares by a subtraction that is NaN for unparsable timestamps, and that case is not modelled.
- Storage.LocalStore.SearchPessoas: lower-casing covers ASCII and Latin-1 capitals only. Full Unicode case mapping, such as Greek or Cyrillic letters, is not modelled. A person property that is present but not a string, which would make the search throw and return [], is not modelled either.
- Storage.Overlay: a property that is present with the value `undefined` overrides the stored one under JavaScript spread. The model treats it as absent, because `Option` has no third state.
- **String ordering.** The sort that builds the link key is lexicographic over `char` values. JavaScript compares UTF-16 code units, which differs only outside the Basic Multilingual Plane.
- **Concurrency.** Other tabs writing to the same localStorage keys are not modelled.

## Findings

| source | as written | input that shows it | evidently intended | confidence | as-written member | corrected member |
|---|---|---|---|---|---|---|
| src/components/RelacoesGraph.tsx:108-131 | the link key joins the sorted pair with '-' and the output splits the key at '-' | ids "a-b" and "c" give the key "a-b-c", which is also the key of "a" and "b-c"; splitting it gives source "a", target "b" (database-generated ids such as UUIDs contain '-') | each link keeps the two ids it was made from, and different pairs stay different links | medium, not executed | LinkKeys.DashedIdsBreakStringKey | LinkKeys.KeyOfInjective |
