# sad-app-v2 document pipeline, modelled in Dafny

sad-app-v2 checks engineering deliverables. A batch of physical document files on disk is checked against a manifest spreadsheet, the source of truth for what should exist. The pipeline has three use cases and the infrastructure behind them.

- **Validation (UC-01).** Every file is matched to a manifest item by the base name of its file name. A file whose name ends in `_<revision>` has that suffix dropped first. A file is marked *validated* and linked to its item, or marked *unrecognized*.
- **Resolution (UC-02).** An unrecognized file's text is read. A report code is searched for in that text with the regular expressions of an extraction profile. The code is cleaned of a one-character revision suffix and looked up in the manifest.
- **Organisation (UC-03).** Validated files are grouped by document code. The groups are balanced into output lots, largest first and always into the currently lightest lot. For each lot the use case:
  - creates a directory named from a pattern with a sequence number;
  - moves the lot's files into it;
  - fills a copy of the master spreadsheet template with one row per file.

  The first `CoreError` any of this raises becomes a failed report.

The infrastructure models cover:
- the manifest reader;
- the template filler;
- the profile-driven extractor;
- the greedy balancer;
- the collision-free naming and checked renaming helpers for the local disk.

Each module of the model follows one part of the program:

| module | part of the program |
|---|---|
| `Wrappers`, `Maps`, `Strings`, `Paths` | `Option`; dicts built by comprehension (last write wins); the `str` operations the core uses (`split`, `join`, `replace`, `strip`, `rfind`, `lower`, `str(n)`, `{n:04d}`); `pathlib` names, parents, stems and suffixes |
| `Errors` | the `CoreError` family and the built-in exceptions that reach the core; `Result` is "returns a value or raises" |
| `Domain` | `DocumentStatus`, `ManifestItem`, `DocumentFile` (a class: its status and association are updated in place), `DocumentGroup`, `OutputLot`, `OrganizationResult` |
| `Collaborators` | the protocols the use cases call. Each is played by an in-memory stand-in class that records every call in a shared `Journal` and answers from its configuration. |
| `ValidateBatch`, `ResolveException` | the first two use cases |
| `OrganizeLots`, `OrganizeProperties` | the organisation use case, and the properties proved about it |
| `Services` | the greedy lot balancer |
| `Extraction` | the profile-driven text and code extractor |
| `Workbooks`, `ExcelReader`, `TemplateFiller` | spreadsheet contents as rows of cell values; the manifest reader; the template filler with its own copy, load and save |
| `SafeFileOperations` | unique-name generation, safe rename and copy-then-delete on a file system given as a map from file path to size plus a set of directories |

The methods follow the code's loops and in-place updates. Each is proved against a specification function:
- `ValidateFiles` marks each `DocumentFile` object;
- `GroupByCode` fills a dictionary in key-insertion order;
- `FillSheet` appends rows to a sheet.

The properties of those functions are then proved as lemmas.

Some parts are parameters of the model:
- the clock (`int(time.time())`);
- the regular-expression engine;
- the PDF and DOCX readers;
- the answers of the collaborators.

Some behaviours follow the code rather than the project's design description:

- **Lots hold groups.** `OutputLot` is declared with a `files` list, but the balancer appends to `lot.groups` and the organisation use case reads `lot.groups`. The model's `OutputLot` holds groups, as the code uses it. What the declared type does is recorded under Findings.
- **`OrganizationResult`** is not declared in `domain.py`. Its fields `lots_created`, `files_moved`, `success` and `message` are taken from how `organize_lots.py` builds it.
- **The lot limit only sets the number of lots.** The per-lot limit gives `ceil(n / limit)` lots, but every group is still placed in the lightest lot. A lot can therefore end up with more groups than the limit (`Services.LimitNotEnforcedPerLot`).
- **The filler's test expects another column layout.** Its integration test reads the revision in column A and the title in column B. The code writes the code in column A, the revision in B and the title in C (`TemplateFiller.TestLayoutDiffers`).
- **Copy onto an existing directory.** `copy2` writes into a directory at the new path, and changes no file at that path. The size check then compares the directory's own size with the source's. A mismatch raises, and the clean-up cannot delete the directory, so the stray copy stays (`SafeFileOperations.CopyIntoDirectoryLeavesCopy`). Equal sizes, with a source of at least 50 MB, delete the source and return the directory as the final path (`SafeFileOperations.CopyThenDeleteSuccess`).
- **The timestamp name is never checked.** `_generate_unique_filename` falls back to a timestamp name without checking whether it exists. When that name is the source itself, `safe_rename_file` ends up deleting the source (`SafeFileOperations.RenameOntoItselfDeletesSource`).

## Model

| member | source | states |
|---|---|---|
| Maps.ToMap | src/sad_app_v2/core/use_cases/validate_batch.py:49-51 | the dict built from pairs has exactly the pairs' keys; each key's value is that of its last pair (`Maps.ToMapLastWins`) |
| Maps.ToMapLastWins | src/sad_app_v2/core/use_cases/validate_batch.py:49-51 | a key is bound to the value of its last pair |
| Maps.Get | src/sad_app_v2/infrastructure/template_filler.py:55-63 | `dict.get(k, default)`: the bound value when the key is present, the default otherwise |
| Maps.Lookup | src/sad_app_v2/core/use_cases/validate_batch.py:62 | `dict.get(k)`: `Some` exactly when the key is present, carrying its value |
| Strings.Split | src/sad_app_v2/core/use_cases/validate_batch.py:31 | `split` on one character gives at least one part, and exactly one part when the separator does not occur |
| Strings.SplitParts | src/sad_app_v2/core/use_cases/validate_batch.py:31 | no part of a split holds the separator |
| Strings.JoinAllButLast | src/sad_app_v2/core/use_cases/validate_batch.py:31-35 | joining all parts but the last with the separator gives the text before the last separator |
| Strings.LastIndexOf | src/sad_app_v2/core/use_cases/validate_batch.py:29 | `rfind` is -1 exactly when the character is absent, and otherwise is an index of the string |
| Strings.LastIndexOfMeaning | src/sad_app_v2/core/use_cases/validate_batch.py:29 | a found position holds the character and no later position does |
| Strings.ReplaceAbsent | src/sad_app_v2/core/use_cases/organize_lots.py:54 | `replace` changes nothing when the target does not occur |
| Strings.ReplaceSingle | src/sad_app_v2/core/use_cases/organize_lots.py:54 | an occurrence surrounded by text without the target's first character is replaced, and the text around it is kept |
| Strings.Strip | src/sad_app_v2/core/use_cases/resolve_exception.py:34 | the result neither starts nor ends with whitespace, and a string without outer whitespace is unchanged |
| Strings.StripLeft | src/sad_app_v2/core/use_cases/resolve_exception.py:34 | removes exactly the leading whitespace |
| Strings.StripRight | src/sad_app_v2/core/use_cases/resolve_exception.py:34 | removes exactly the trailing whitespace |
| Strings.NatToString | src/sad_app_v2/core/use_cases/organize_lots.py:54 | `str(n)` is a non-empty string of decimal digits |
| Strings.ZeroPad | src/sad_app_v2/core/use_cases/organize_lots.py:54 | padding gives `max(width, len)` characters ending with the padded text |
| Strings.Lower | src/sad_app_v2/infrastructure/extraction.py:37 | lower-casing maps each character and keeps the length |
| Paths.NameAfterLastSlash | src/sad_app_v2/core/use_cases/validate_batch.py:59 | `path.name` is what follows the last '/', or the whole path when it has none |
| Paths.NameHasNoSlash | src/sad_app_v2/core/use_cases/organize_lots.py:64 | a name holds no '/' |
| Paths.StemSuffix | src/sad_app_v2/core/use_cases/validate_batch.py:29 | stem and suffix put back together give the name, and a non-empty suffix is a dot followed by at least one character |
| Paths.NameOfJoin | src/sad_app_v2/core/use_cases/organize_lots.py:64 | joining a plain name onto a directory and taking `.name` gives the name back |
| Errors.CoreFamily | src/sad_app_v2/core/interfaces.py:14-53 | what `except CoreError` catches is `CoreError` itself and the eight classes declared on it, and nothing from outside that family |
| Errors.StrIsMessage | src/sad_app_v2/core/use_cases/organize_lots.py:81 | `str(e)` is the message the exception was raised with; every specific kind is a `CoreError` |
| Domain.LabelsDistinct | src/sad_app_v2/core/domain.py:8-12 | two statuses have the same label exactly when they are the same status |
| Domain.DocumentFile.constructor | src/sad_app_v2/core/domain.py:26-34 | a file keeps the path, size, status and association it is given |
| Domain.NewFileDefaults | src/sad_app_v2/core/domain.py:30-34 | a new file is unvalidated and has no associated item |
| Domain.ManifestItemDefaults | src/sad_app_v2/core/domain.py:15-23 | an item keeps its fields, and its metadata defaults to an empty map |
| Domain.SumSizesAppend | src/sad_app_v2/core/domain.py:50-52 | the size of two file lists together is the sum of their sizes |
| Domain.GroupTotal | src/sad_app_v2/core/domain.py:49-52 | an empty group weighs 0, and a group's total adds up over its files |
| Domain.LotTotal | src/sad_app_v2/core/domain.py:62-65 | a lot's total is the sum of the sizes of the files it lists; a lot without groups lists nothing and weighs 0 |
| Domain.LotAddGroup | src/sad_app_v2/infrastructure/services.py:42-43 | adding a group to a lot appends its files after the lot's files and adds its total to the lot's total |
| Domain.FilesOfPermutation | src/sad_app_v2/infrastructure/services.py:37-42 | group lists that are permutations of each other hold the same files, counted with multiplicity |
| Domain.ManifestMap | src/sad_app_v2/core/use_cases/validate_batch.py:49-51 | the code-to-item table has exactly the manifest's codes as keys, and each maps to an item with that code |
| Domain.ManifestMapLastWins | src/sad_app_v2/core/use_cases/validate_batch.py:49-51 | when codes repeat, the table holds the last item carrying the code |
| Domain.ManifestMapHolds | src/sad_app_v2/core/use_cases/resolve_exception.py:61-63 | every value of the table is one of the manifest's items |
| Collaborators.ManifestRepository.LoadFromFile | src/sad_app_v2/core/interfaces.py:59-61 | the load is recorded in the journal, and the configured items or exception come back |
| Collaborators.FileRepository.Answer | src/sad_app_v2/core/interfaces.py:67-69 | listing succeeds exactly for a known directory, with its files; otherwise it raises `SourceDirectoryNotFoundError` |
| Collaborators.FileRepository.ListFiles | src/sad_app_v2/core/interfaces.py:67-69 | the listing is recorded, and its outcome is the directory's answer |
| Collaborators.ContentExtractor.ExtractText | src/sad_app_v2/core/interfaces.py:75-77 | the call is recorded, and the text or exception configured for the file's path and the profile comes back |
| Collaborators.CodeExtractor.FindCode | src/sad_app_v2/core/interfaces.py:83-85 | the call is recorded, and the code (or none) configured for the text and the profile comes back |
| Collaborators.LotBalancer.BalanceLots | src/sad_app_v2/core/interfaces.py:91-95 | the call is recorded with its groups and limit, and the configured lots or exception come back |
| Collaborators.FileSystemManager.CreateDirectory | src/sad_app_v2/core/interfaces.py:101-103 | the call is recorded, and it raises exactly the failure configured for it |
| Collaborators.FileSystemManager.MoveFile | src/sad_app_v2/core/interfaces.py:105-107 | the call is recorded, and it raises exactly the failure configured for it |
| Collaborators.FileSystemManager.CopyFile | src/sad_app_v2/core/interfaces.py:109-111 | the call is recorded, and it raises exactly the failure configured for it |
| Collaborators.TemplateFiller.FillAndSave | src/sad_app_v2/core/interfaces.py:117-125 | the call is recorded with the lot's groups, and it raises exactly the failure configured for it |
| ValidateBatch.BaseNameCutsAtLastUnderscore | src/sad_app_v2/core/use_cases/validate_batch.py:22-36 | the base name is the stem cut at its last '_', or the whole stem when it has none |
| ValidateBatch.BaseNameOfRevisedName | src/sad_app_v2/core/use_cases/validate_batch.py:29-35 | `<code>_<revision>.<ext>` has base name `<code>`, whatever underscores the code contains |
| ValidateBatch.BaseNameOfPlainName | src/sad_app_v2/core/use_cases/validate_batch.py:29-36 | a name without '_' before its extension is its own base name |
| ValidateBatch.BaseNameExampleRevisionLetter | tests/unit/core/use_cases/test_validate_batch.py:123 | "DOC-001_A.pdf" has base name "DOC-001" |
| ValidateBatch.BaseNameExampleRevisionWord | tests/unit/core/use_cases/test_validate_batch.py:125 | "REPORT-123_rev1.docx" has base name "REPORT-123" |
| ValidateBatch.BaseNameExampleNoRevision | tests/unit/core/use_cases/test_validate_batch.py:128 | "DOC-003.pdf" has base name "DOC-003" |
| ValidateBatch.BaseNameExampleUnderscores | tests/unit/core/use_cases/test_validate_batch.py:131 | "COMPLEX_DOC_NAME_A.pdf" has base name "COMPLEX_DOC_NAME" |
| ValidateBatch.Partition | src/sad_app_v2/core/use_cases/validate_batch.py:53-74 | the two lists together hold the listing with multiplicity; a file is validated exactly when its base name is a manifest code, and unrecognized exactly when it is not |
| ValidateBatch.KeptInOrder | src/sad_app_v2/core/use_cases/validate_batch.py:58-72 | each list is the listing read at strictly increasing positions, so disk order is kept |
| ValidateBatch.MarkFile | src/sad_app_v2/core/use_cases/validate_batch.py:62-72 | a matching file becomes validated and is linked to its item; any other becomes unrecognized and keeps its link |
| ValidateBatch.ValidateFiles | src/sad_app_v2/core/use_cases/validate_batch.py:53-74 | the loop returns the validated and the unrecognized files, and leaves every listed file marked by its match |
| ValidateBatch.ValidateBatchUseCase.constructor | src/sad_app_v2/core/use_cases/validate_batch.py:14-20 | the use case keeps the two repositories it is given |
| ValidateBatch.ValidateBatchUseCase.Execute | src/sad_app_v2/core/use_cases/validate_batch.py:38-74 | loads the manifest, then lists the directory; an exception from either propagates with no file touched; otherwise returns the two lists of the partition, with each file marked |
| ResolveException.StripRevisionSuffix | src/sad_app_v2/core/use_cases/resolve_exception.py:33 | removing the suffix never lengthens the code |
| ResolveException.SuffixRemoved | src/sad_app_v2/core/use_cases/resolve_exception.py:33 | a final `_` followed by one letter or digit (either case) is removed |
| ResolveException.NoSuffixUnchanged | src/sad_app_v2/core/use_cases/resolve_exception.py:33 | a code that does not end in such a suffix (allowing one final newline) is left as it is |
| ResolveException.SuffixBeforeNewline | src/sad_app_v2/core/use_cases/resolve_exception.py:33-34 | before one final newline the suffix is removed too, as `$` matches there |
| ResolveException.TrailingBlankKeepsSuffix | src/sad_app_v2/core/use_cases/resolve_exception.py:33-34 | a suffix followed by a blank survives, because the substitution runs before the strip |
| ResolveException.SanitizeExample | tests/unit/core/use_cases/test_resolve_exception.py:36-51 | "DOC-RESOLVED_A" sanitizes to "DOC-RESOLVED" |
| ResolveException.ResolutionOutcomes | src/sad_app_v2/core/use_cases/resolve_exception.py:50-77 | `ExtractionFailedError` exactly when no code (or an empty one) is found; `CodeNotInManifestError` exactly when the sanitized code is no item's code; otherwise the item whose code is exactly the sanitized code; every error is a `CoreError` |
| ResolveException.ResolvedScenario | tests/unit/core/use_cases/test_resolve_exception.py:27-51 | the scenario of the use case's tests resolves to the "DOC-RESOLVED" item |
| ResolveException.ResolveUnrecognizedFileUseCase.constructor | src/sad_app_v2/core/use_cases/resolve_exception.py:18-25 | the use case keeps its two extractors |
| ResolveException.ResolveUnrecognizedFileUseCase.Execute | src/sad_app_v2/core/use_cases/resolve_exception.py:36-77 | a read error propagates after one call; otherwise the code is searched; a resolved file is validated, linked to the item and returned; on an error the file is untouched |
| Extraction.CodeOf | src/sad_app_v2/infrastructure/extraction.py:73-76 | a match yields group 1 when the pattern has groups, and the whole match otherwise |
| Extraction.FirstMatch | src/sad_app_v2/infrastructure/extraction.py:69-78 | the index found is of a matching pattern with no matching pattern before it; none is found exactly when no pattern matches |
| Extraction.NothingWithoutProfileOrText | src/sad_app_v2/infrastructure/extraction.py:64-66 | an unknown or empty profile, or an empty text, finds nothing |
| Extraction.FirstMatchingPatternDecides | src/sad_app_v2/infrastructure/extraction.py:68-76 | the first matching pattern decides the code |
| Extraction.LaterPatternsIgnored | src/sad_app_v2/infrastructure/extraction.py:69-76 | patterns after the first matching one do not change the result |
| Extraction.FoundOnlyByAMatch | src/sad_app_v2/infrastructure/extraction.py:62-78 | whatever is found comes from some matching pattern, and nothing is found when no pattern matches |
| Extraction.ProfiledExtractorService.constructor | src/sad_app_v2/infrastructure/extraction.py:19-20 | the service keeps its profiles, search engine and readers |
| Extraction.ProfiledExtractorService.FindCode | src/sad_app_v2/infrastructure/extraction.py:62-78 | the loop over the patterns returns what the first matching pattern yields, or none |
| Extraction.ProfiledExtractorService.ExtractText | src/sad_app_v2/infrastructure/extraction.py:34-45 | every failure is a `FileReadError`, a `CoreError` |
| Extraction.ExtractTextRoutes | src/sad_app_v2/infrastructure/extraction.py:34-45 | ".pdf" and ".docx" (compared in lower case) go to their reader, other files read as ""; a reader's failure becomes a `FileReadError` naming the file and carrying the reader's message |
| Extraction.UpperCaseExtension | src/sad_app_v2/infrastructure/extraction.py:37 | "REPORT.PDF" goes to the PDF reader |
| Services.InsertBySize | src/sad_app_v2/infrastructure/services.py:20-22 | inserting adds exactly one group; the result is a permutation of the group and the list (`Services.InsertPermutes`) |
| Services.SortBySizeDesc | src/sad_app_v2/infrastructure/services.py:20-22 | sorting keeps the number of groups; the result is ordered by size, descending, and a permutation of the input (`Services.SortIsOrderedPermutation`) |
| Services.InsertPermutes | src/sad_app_v2/infrastructure/services.py:20-22 | inserting adds the group to the multiset |
| Services.InsertKeepsSorted | src/sad_app_v2/infrastructure/services.py:20-22 | inserting keeps the groups heaviest first |
| Services.InsertKeepsSum | src/sad_app_v2/infrastructure/services.py:20-22 | inserting adds the group's size to the total of the list |
| Services.SortIsOrderedPermutation | src/sad_app_v2/infrastructure/services.py:20-22 | the sort is heaviest first and a permutation of its input |
| Services.SortKeepsSum | src/sad_app_v2/infrastructure/services.py:20-22 | sorting keeps the total size of the groups |
| Services.SortIsStable | src/sad_app_v2/infrastructure/services.py:20-22 | groups of equal size keep their input order, as Python's stable sort keeps them with `reverse=True` |
| Services.EqualSizesKeepOrder | src/sad_app_v2/infrastructure/services.py:20-22 | groups all of one size are left in their order |
| Services.LotCount | src/sad_app_v2/infrastructure/services.py:26-29 | for n groups: one lot when the limit is 0 or less, otherwise the least k with n ≤ k·limit |
| Services.CeilingDivision | src/sad_app_v2/infrastructure/services.py:29 | integer ceiling division is the least multiple count covering n |
| Services.EmptyLots | src/sad_app_v2/infrastructure/services.py:32-34 | k empty lots named "Lote_1" … "Lote_k" |
| Services.EmptyLotsHoldNothing | src/sad_app_v2/infrastructure/services.py:32-34 | freshly created lots hold no group and weigh 0 together |
| Services.LightestIndex | src/sad_app_v2/infrastructure/services.py:39 | `min` by total: a lot of smallest total, the first such |
| Services.Place | src/sad_app_v2/infrastructure/services.py:37-42 | a placement keeps the number and names of the lots; the group goes into the lightest lot (`Services.PlaceInLightest`) |
| Services.Distribute | src/sad_app_v2/infrastructure/services.py:37-42 | distributing keeps the number of lots; every group lands in exactly one lot (`Services.DistributeAccounts`) |
| Services.BalanceLots | src/sad_app_v2/infrastructure/services.py:11-45 | the loop computes the greedy balancing |
| Services.DistributeAccounts | src/sad_app_v2/infrastructure/services.py:37-42 | distributing adds every remaining group exactly once, adds their sizes to the sum of the totals, and keeps the lot names |
| Services.BalanceResult | src/sad_app_v2/infrastructure/services.py:11-45 | no lots for no groups; otherwise `ceil(n/limit)` lots named "Lote_1" … that together hold every group exactly once and whose totals add up to the groups' total |
| Services.PlaceInLightest | src/sad_app_v2/infrastructure/services.py:39-42 | each step appends the group to the first lot of smallest total and leaves the other lots as they were |
| Services.PlaceGroups | src/sad_app_v2/infrastructure/services.py:39-43 | the same step stated on groups and totals: that lot's total grows by the group's size |
| Services.PlaceInTwo | src/sad_app_v2/infrastructure/services.py:39-42 | with two lots, a group goes to the first unless the second is strictly lighter |
| Services.DistributeAppend | src/sad_app_v2/infrastructure/services.py:37-42 | placing two batches one after the other is placing them together |
| Services.BalanceScenarioBySize | tests/unit/infrastructure/test_services.py:7-45 | groups of 10, 80, 100 and 60 bytes, at most two per lot, give two lots: 100+10 and 80+60 |
| Services.SortScenarioBySize | tests/unit/infrastructure/test_services.py:26 | those groups sort as 100, 80, 60, 10 |
| Services.BalanceScenarioEqualSizes | tests/unit/infrastructure/test_services.py:48-69 | seven equal groups, at most three per lot, give three lots of three, two and two groups |
| Services.LimitNotEnforcedPerLot | src/sad_app_v2/infrastructure/services.py:24-42 | one heavy and three light groups at most two per lot put all three light groups into one lot |
| Services.BalanceAsDeclaredFails | src/sad_app_v2/infrastructure/services.py:42 | against the declared `OutputLot`, any non-empty input raises `AttributeError` |
| OrganizeLots.CodesOf | src/sad_app_v2/core/use_cases/organize_lots.py:38-39 | one code per file: the document code of its item |
| OrganizeLots.FirstAppearances | src/sad_app_v2/core/use_cases/organize_lots.py:37-44 | the distinct codes are exactly the codes that occur |
| OrganizeLots.GroupingStep | src/sad_app_v2/core/use_cases/organize_lots.py:38-42 | one more file adds its code if new, and goes to the end of its code's group |
| OrganizeLots.InsertKeepsDescription | src/sad_app_v2/core/use_cases/organize_lots.py:40-42 | one pass of the loop body keeps the dictionary and its key order describing the grouping |
| OrganizeLots.ValuesInOrder | src/sad_app_v2/core/use_cases/organize_lots.py:44 | `list(groups_map.values())` is the grouping, in key-insertion order |
| OrganizeLots.GroupByCode | src/sad_app_v2/core/use_cases/organize_lots.py:36-44 | the grouping loop computes the grouping, or the error of a file without an item |
| OrganizeLots.Moves | src/sad_app_v2/core/use_cases/organize_lots.py:63-66 | one move per file |
| OrganizeLots.FirstRaise | src/sad_app_v2/core/use_cases/organize_lots.py:52-72 | the position found is of a call that raises; none is found exactly when no call raises |
| OrganizeLots.OutcomeNone | src/sad_app_v2/core/use_cases/organize_lots.py:52-72 | attempting the calls raises nothing exactly when no call raises |
| OrganizeLots.AttemptMeaning | src/sad_app_v2/core/use_cases/organize_lots.py:52-72 | with no raising call, all calls are made; otherwise the calls up to and including the first raising one are made, and its exception is the outcome |
| OrganizeLots.AttemptStops | src/sad_app_v2/core/use_cases/organize_lots.py:52-72 | the first call that raises ends the attempt with its exception |
| OrganizeLots.AttemptAll | src/sad_app_v2/core/use_cases/organize_lots.py:52-72 | when no call raises, every call is made, in order |
| OrganizeLots.AttemptAppend | src/sad_app_v2/core/use_cases/organize_lots.py:52-72 | attempting `a` then `b`: when `a` raises nothing of `b` is made |
| OrganizeLots.GroupMovesAreFileMoves | src/sad_app_v2/core/use_cases/organize_lots.py:62-66 | moving group after group is moving the lot's files in order |
| OrganizeLots.LotCallsShape | src/sad_app_v2/core/use_cases/organize_lots.py:56-72 | per lot: create its directory, then move each file into it under its own name, then fill `<dir>/<lot name>.xlsx` with its groups |
| OrganizeLots.LotAttempt | src/sad_app_v2/core/use_cases/organize_lots.py:58-72 | a failed creation stops the lot; otherwise the moves are attempted, and the manifest is filled only when none raised |
| OrganizeLots.LotCreateRaises | src/sad_app_v2/core/use_cases/organize_lots.py:59 | a failed directory creation is the lot's only call |
| OrganizeLots.LotMoveRaises | src/sad_app_v2/core/use_cases/organize_lots.py:62-72 | a failed move means the manifest is not filled |
| OrganizeLots.LotFills | src/sad_app_v2/core/use_cases/organize_lots.py:68-72 | with no failed move, the manifest is filled and all the lot's files are moved |
| OrganizeLots.LotRaises | src/sad_app_v2/core/use_cases/organize_lots.py:52-72 | a raising lot after lots that raised nothing decides the outcome of the run |
| OrganizeLots.LotCompletes | src/sad_app_v2/core/use_cases/organize_lots.py:52-66 | a lot that raises nothing adds its files to the number moved |
| OrganizeLots.PlanCompletes | src/sad_app_v2/core/use_cases/organize_lots.py:52-66 | when no lot raises, the whole plan is made |
| OrganizeLots.LotPlanAt | src/sad_app_v2/core/use_cases/organize_lots.py:53-56 | the calls made for lot i are lot i's part of the plan |
| OrganizeLots.OrganizeEnds | src/sad_app_v2/core/use_cases/organize_lots.py:74-81 | the report follows from what the lots raised: a success counting lots and files, or the first exception caught or propagated |
| OrganizeLots.OrganizeUngrouped | src/sad_app_v2/core/use_cases/organize_lots.py:36-44 | a failed grouping ends the run before any call |
| OrganizeLots.OrganizeUnbalanced | src/sad_app_v2/core/use_cases/organize_lots.py:47 | a failing balancer ends the run after its call |
| OrganizeLots.FileMoveRaises | src/sad_app_v2/core/use_cases/organize_lots.py:63-66 | a raising move after moves that raised nothing decides the group's outcome |
| OrganizeLots.FileMoveCompletes | src/sad_app_v2/core/use_cases/organize_lots.py:63-66 | a move that raises nothing extends the moves made |
| OrganizeLots.FileMovesComplete | src/sad_app_v2/core/use_cases/organize_lots.py:63-66 | with no raising move, all the group's files are moved |
| OrganizeLots.GroupRaises | src/sad_app_v2/core/use_cases/organize_lots.py:62-66 | a group whose moves raise decides the lot's moves |
| OrganizeLots.GroupCompletes | src/sad_app_v2/core/use_cases/organize_lots.py:62-66 | a group whose moves raise nothing extends the lot's moves |
| OrganizeLots.GroupMovesComplete | src/sad_app_v2/core/use_cases/organize_lots.py:62-66 | with no raising group, all the lot's moves are made |
| OrganizeLots.OrganizeAndGenerateLotsUseCase.constructor | src/sad_app_v2/core/use_cases/organize_lots.py:16-24 | the use case keeps its balancer, file manager and template filler |
| OrganizeLots.OrganizeAndGenerateLotsUseCase.MoveGroupFiles | src/sad_app_v2/core/use_cases/organize_lots.py:63-66 | the inner loop makes the group's moves up to the first that raises, and counts them |
| OrganizeLots.OrganizeAndGenerateLotsUseCase.MoveLotFiles | src/sad_app_v2/core/use_cases/organize_lots.py:62-66 | the lot's moves, group by group, up to the first that raises |
| OrganizeLots.OrganizeAndGenerateLotsUseCase.ProcessLot | src/sad_app_v2/core/use_cases/organize_lots.py:56-72 | one lot's calls are attempted in order, and the first exception is reported |
| OrganizeLots.OrganizeAndGenerateLotsUseCase.ProcessLots | src/sad_app_v2/core/use_cases/organize_lots.py:52-72 | the loop over the lots attempts the plan, names each lot from its position, and counts the files moved |
| OrganizeLots.OrganizeAndGenerateLotsUseCase.Execute | src/sad_app_v2/core/use_cases/organize_lots.py:26-81 | the result and the calls made are those of `Organize`: group, balance once, then the lots' calls until one raises; a `CoreError` becomes a failed report |
| OrganizeProperties.FirstAppearancesDistinct | src/sad_app_v2/core/use_cases/organize_lots.py:37-44 | no code appears twice among the distinct codes |
| OrganizeProperties.FirstAppearancesOrdered | src/sad_app_v2/core/use_cases/organize_lots.py:37-44 | the distinct codes come in order of first appearance |
| OrganizeProperties.FilesWithPresent | src/sad_app_v2/core/use_cases/organize_lots.py:40-42 | a code that occurs selects at least one file |
| OrganizeProperties.FilesWithMembers | src/sad_app_v2/core/use_cases/organize_lots.py:40-42 | the files selected for a code are files of the input carrying that code |
| OrganizeProperties.GroupingGrows | src/sad_app_v2/core/use_cases/organize_lots.py:40-42 | a file with a known code joins the end of that group |
| OrganizeProperties.GroupingExtends | src/sad_app_v2/core/use_cases/organize_lots.py:40-42 | a file with a new code starts a new group at the end |
| OrganizeProperties.GroupingPermutes | src/sad_app_v2/core/use_cases/organize_lots.py:37-44 | the groups hold every input file exactly once |
| OrganizeProperties.GroupingDistinct | src/sad_app_v2/core/use_cases/organize_lots.py:37-44 | one group per distinct code, and no code twice |
| OrganizeProperties.GroupingOrdered | src/sad_app_v2/core/use_cases/organize_lots.py:37-44 | groups come in order of their codes' first appearance |
| OrganizeProperties.GroupingMembers | src/sad_app_v2/core/use_cases/organize_lots.py:37-44 | no group is empty, and a group holds only files with its code |
| OrganizeProperties.GroupedMeaning | src/sad_app_v2/core/use_cases/organize_lots.py:36-44 | for associated files the grouping succeeds with all the properties above |
| OrganizeProperties.UnassociatedFilePropagates | src/sad_app_v2/core/use_cases/organize_lots.py:39 | a file without an item raises `AttributeError`, outside `CoreError`: the run calls nothing and the exception escapes |
| OrganizeProperties.LotNameSingleMarker | src/sad_app_v2/core/use_cases/organize_lots.py:54 | in a pattern whose only X's are one "XXXX", that marker is replaced by the zero-padded sequence number |
| OrganizeProperties.LotNameExample | tests/unit/core/use_cases/test_organize_lots.py:67-68 | "LOTE-XXXX-TESTE" from 1 names "LOTE-0001-TESTE" and "LOTE-0002-TESTE" |
| OrganizeProperties.ZeroPadOneDigit | src/sad_app_v2/core/use_cases/organize_lots.py:54 | a one-digit number is written with three leading zeros |
| OrganizeProperties.LotNameWithoutMarker | src/sad_app_v2/core/use_cases/organize_lots.py:54 | a pattern without "XXXX" names every lot the same |
| OrganizeProperties.SequenceNumberDigits | src/sad_app_v2/core/use_cases/organize_lots.py:54 | a non-negative number is written with `max(4, digits)` characters: zeros, then its decimal digits |
| OrganizeProperties.DestinationKeepsName | src/sad_app_v2/core/use_cases/organize_lots.py:64 | a moved file keeps its name |
| OrganizeProperties.PlanKinds | src/sad_app_v2/core/use_cases/organize_lots.py:52-72 | the plan holds only directory creations, moves and fills |
| OrganizeProperties.BalancerAskedOnce | src/sad_app_v2/core/use_cases/organize_lots.py:47 | after a successful grouping the balancer is asked exactly once, first, with the groups and the limit; after a failed grouping nothing is called |
| OrganizeProperties.CaughtMeaning | src/sad_app_v2/core/use_cases/organize_lots.py:79-81 | a `CoreError` becomes a failed report with its text and zero counts; any other exception propagates |
| OrganizeProperties.OrganizeSucceeds | src/sad_app_v2/core/use_cases/organize_lots.py:35-77 | a run succeeds exactly when grouping and balancing succeed and no planned call raises; it then counts every lot and every file, and has made every call |
| OrganizeProperties.OrganizeStops | src/sad_app_v2/core/use_cases/organize_lots.py:52-81 | the first raising call ends the run: the calls up to it are made, and its exception is reported or propagates |
| OrganizeProperties.FailedRunsReportNothing | src/sad_app_v2/core/use_cases/organize_lots.py:79-81 | a failed report counts nothing and carries a `CoreError`'s text; a raised exception is outside that family |
| OrganizeProperties.GreedyRunMovesEveryFile | src/sad_app_v2/core/use_cases/organize_lots.py:36-77 | with the greedy balancer and nothing raising: success, every file moved exactly once, as many lots as the lot count |
| OrganizeProperties.TwoCodesTwoGroups | src/sad_app_v2/core/use_cases/organize_lots.py:37-44 | two files with different codes form one group each, in order |
| OrganizeProperties.OneFileOneGroup | src/sad_app_v2/core/use_cases/organize_lots.py:37-44 | one file forms one group |
| OrganizeProperties.HappyPathScenario | tests/unit/core/use_cases/test_organize_lots.py:13-95 | the test's run creates two lots and moves two files, with exactly the directory, move and fill calls the test expects |
| OrganizeProperties.CreateDirectoryFailsScenario | tests/unit/core/use_cases/test_organize_lots.py:97-144 | a failing first directory creation gives a failed report with "Erro de teste" and zero counts, and nothing after it is attempted |
| SafeFileOperations.FirstFreeNumberedMeaning | src/sad_app_v2/infrastructure/safe_file_operations.py:35-51 | the search finds the first free numbered name at or after the counter, or else all up to 1000 are taken and the timestamp name comes back |
| SafeFileOperations.UniqueNameMeaning | src/sad_app_v2/infrastructure/safe_file_operations.py:17-51 | the target when it is free; otherwise the first free `<stem>_NNN<suffix>` for 001..1000; only when all are taken the unchecked timestamp name |
| SafeFileOperations.FirstFreeAlternativeFails | src/sad_app_v2/infrastructure/safe_file_operations.py:258-270 | the search raises exactly when every alternative from the counter to 999 is taken, with the "Muitos arquivos" `ValueError` |
| SafeFileOperations.FirstFreeAlternativeFinds | src/sad_app_v2/infrastructure/safe_file_operations.py:258-266 | a returned name is the first free alternative at or after the counter |
| SafeFileOperations.SafeNameMeaning | src/sad_app_v2/infrastructure/safe_file_operations.py:234-270 | the preferred name when free; otherwise the first free alternative 001..999; a `ValueError` exactly when all are taken; what it returns is free |
| SafeFileOperations.LocalFileSystem.MakeDirectory | src/sad_app_v2/infrastructure/safe_file_operations.py:87 | the directory exists afterwards unless a regular file is in the way (`FileExistsError`) |
| SafeFileOperations.LocalFileSystem.Rename | src/sad_app_v2/infrastructure/safe_file_operations.py:105 | the file moves to the destination with its size, replacing any file there; onto a directory it raises and nothing changes |
| SafeFileOperations.LocalFileSystem.Copy | src/sad_app_v2/infrastructure/safe_file_operations.py:196 | `copy2` writes a file of the copied size at the destination, or inside it under the source's name when it is a directory; it raises the configured error, `SameFileError` with the reprs of both paths, or `IsADirectoryError` for a directory source or a directory in the written path's place, and then nothing changes |
| SafeFileOperations.LocalFileSystem.Unlink | src/sad_app_v2/infrastructure/safe_file_operations.py:216 | a regular file is removed unless its deletion is configured to raise; a directory raises `IsADirectoryError`, a missing path `FileNotFoundError`; nothing changes when it raises |
| SafeFileOperations.LocalFileSystem.GenerateUniqueFilename | src/sad_app_v2/infrastructure/safe_file_operations.py:17-51 | the probing loop returns the unique name |
| SafeFileOperations.LocalFileSystem.GenerateSafeFilename | src/sad_app_v2/infrastructure/safe_file_operations.py:234-270 | the probing loop returns the safe name or its `ValueError` |
| SafeFileOperations.LocalFileSystem.SafeRenameFile | src/sad_app_v2/infrastructure/safe_file_operations.py:54-156 | the result and the new file system are those of the rename outcome |
| SafeFileOperations.LocalFileSystem.RenameChecked | src/sad_app_v2/infrastructure/safe_file_operations.py:103-128 | the rename and its checks fail exactly on a rename error, a directory at the new path, or a source that is the new path; on success the file has moved |
| SafeFileOperations.LocalFileSystem.ReportRenameFailure | src/sad_app_v2/infrastructure/safe_file_operations.py:130-156 | the clean-up removes the file at the new path unless that deletion raises, reports which happened, and raises the `OSError` with the state report |
| SafeFileOperations.LocalFileSystem.SafeCopyThenDelete | src/sad_app_v2/infrastructure/safe_file_operations.py:159-231 | the result and the new file system are those of the copy-then-delete outcome |
| SafeFileOperations.LocalFileSystem.CopyAndCheck | src/sad_app_v2/infrastructure/safe_file_operations.py:193-222 | the copy and its checks raise, and leave the state, as the copy-then-delete outcome after the directory is made says |
| SafeFileOperations.LocalFileSystem.CleanUpCopy | src/sad_app_v2/infrastructure/safe_file_operations.py:224-231 | the clean-up deletes a regular file at the new path unless that deletion raises, which is ignored, and raises the wrapping `OSError` |
| SafeFileOperations.LocalFileSystem.CopyError | src/sad_app_v2/infrastructure/safe_file_operations.py:196 | `copy2` raises nothing only for a regular source whose written path is neither the source nor a directory |
| SafeFileOperations.RenameSuccess | src/sad_app_v2/infrastructure/safe_file_operations.py:79-128 | succeeds exactly when the directory can be made, both directories are writable, the rename does not raise, and the new path is neither a directory nor the source; then the file has moved and nothing else changed |
| SafeFileOperations.RenameFailureKeepsSource | src/sad_app_v2/infrastructure/safe_file_operations.py:130-156 | on failure a source other than the new path is still there with its size, and nothing but the new path changed |
| SafeFileOperations.RenameFailureFiles | src/sad_app_v2/infrastructure/safe_file_operations.py:130-156 | a failed rename leaves the files as they were, or only removes the new path |
| SafeFileOperations.RenameFailureRemovesNewPath | src/sad_app_v2/infrastructure/safe_file_operations.py:141-150 | the clean-up raises an `OSError` and leaves no file at the new path, unless its deletion raises, in which case the files are unchanged |
| SafeFileOperations.RenameFailureWarns | src/sad_app_v2/infrastructure/safe_file_operations.py:147-150 | when the file at the new path cannot be deleted, the report ends with the warning that it could not be removed |
| SafeFileOperations.RenameOntoItselfDeletesSource | src/sad_app_v2/infrastructure/safe_file_operations.py:114-150 | a unique name equal to the source raises after the source check, and the clean-up deletes the source unless that deletion raises |
| SafeFileOperations.CopyThenDeleteSuccess | src/sad_app_v2/infrastructure/safe_file_operations.py:193-222 | succeeds exactly when the source is a regular file, the directory can be made, the copy does not raise, the written path is neither the source nor a directory, the new path then reports the source's size (a directory there reports its own, and is refused when the source was hashed), and the source can be deleted; then the copy is where `copy2` wrote it, the source is gone and nothing else changed |
| SafeFileOperations.CopyThenDeleteFailure | src/sad_app_v2/infrastructure/safe_file_operations.py:224-231 | on failure an `OSError` is raised, a regular file at the new path is removed unless its deletion raises, a distinct source is kept with its size, and only the new path and the written path can differ |
| SafeFileOperations.CopyIntoDirectoryLeavesCopy | src/sad_app_v2/infrastructure/safe_file_operations.py:196-229 | when the new path is a directory, `copy2` writes inside it; if the directory's size differs from the source's, the wrapped size error is raised and the copy stays behind with the source |
| SafeFileOperations.SourceRefusals | src/sad_app_v2/infrastructure/safe_file_operations.py:71-76 | a missing source raises `FileNotFoundError` in both; a directory source is refused by rename, and by copy-then-delete with the `IsADirectoryError` of hashing it when it is below 50 MB, changing nothing; a larger one fails at the copy |
| ExcelReader.MetadataPairs | src/sad_app_v2/infrastructure/excel_reader.py:34-38 | the pairs `(header[i], row[i])` for i from 3 below both lengths, left to right |
| ExcelReader.NonEmptyRows | src/sad_app_v2/infrastructure/excel_reader.py:23-24 | the rows kept are at most the rows given |
| ExcelReader.NonEmptyRowsMeaning | src/sad_app_v2/infrastructure/excel_reader.py:21-24 | every kept row has a truthy cell and comes from the sheet, and every such row is kept |
| ExcelReader.RowItemFields | src/sad_app_v2/infrastructure/excel_reader.py:27-47 | code from column A, `str()` of column B, title from C; metadata keys are the header names from column D; a name used once maps to its column's cell |
| ExcelReader.ReadRowsFails | src/sad_app_v2/infrastructure/excel_reader.py:21-47 | the row loop succeeds exactly when every non-empty row has three cells, and otherwise raises the `IndexError` |
| ExcelReader.ReadRowsItems | src/sad_app_v2/infrastructure/excel_reader.py:21-48 | on success, one item per non-empty row, in order |
| ExcelReader.LoadFromFile | src/sad_app_v2/infrastructure/excel_reader.py:14-54 | the loop computes the load |
| ExcelReader.LoadErrors | src/sad_app_v2/infrastructure/excel_reader.py:50-54 | a missing file gives the not-found `ManifestReadError`, an unreadable one the read-error one; every failure is a `ManifestReadError` and a `CoreError` |
| ExcelReader.LoadSucceeds | src/sad_app_v2/infrastructure/excel_reader.py:14-49 | loading succeeds exactly on a workbook whose non-empty data rows have three cells, and yields one item per such row |
| ExcelReader.TwoRowManifest | tests/integration/infrastructure/test_excel_reader.py:9-27 | two filled rows give two items in order, with column-D metadata under the header name |
| TemplateFiller.Sheet.Append | src/sad_app_v2/infrastructure/template_filler.py:65 | the row goes after the existing rows |
| TemplateFiller.Disk.CopyFile | src/sad_app_v2/infrastructure/template_filler.py:32 | raises the configured failure, or gives the destination the source's content |
| TemplateFiller.Disk.Load | src/sad_app_v2/infrastructure/template_filler.py:36-37 | a missing path raises `FileNotFoundError`, an unreadable one its load error, a workbook gives a sheet of its rows |
| TemplateFiller.Disk.Save | src/sad_app_v2/infrastructure/template_filler.py:67 | raises the configured failure, or writes the sheet's rows |
| TemplateFiller.OpenpyxlTemplateFiller.constructor | src/sad_app_v2/infrastructure/template_filler.py:20-21 | the filler keeps its file manager |
| TemplateFiller.OpenpyxlTemplateFiller.FillAndSave | src/sad_app_v2/infrastructure/template_filler.py:23-70 | what it raises and the disk afterwards are those of `FillOutcome` |
| TemplateFiller.OpenpyxlTemplateFiller.FillLoaded | src/sad_app_v2/infrastructure/template_filler.py:35-70 | filling and saving the loaded copy gives `FillCopy`'s outcome |
| TemplateFiller.FillSheet | src/sad_app_v2/infrastructure/template_filler.py:40-65 | the loops append exactly the filled rows, or report the first group's error |
| TemplateFiller.AppendFileRows | src/sad_app_v2/infrastructure/template_filler.py:47-65 | one row per file of the group is appended |
| TemplateFiller.RowCells | src/sad_app_v2/infrastructure/template_filler.py:50-64 | nine cells: code, revision, title, file name, FORMATO defaulting to "A4", and four metadata columns defaulting to "" |
| TemplateFiller.TestLayoutDiffers | tests/integration/infrastructure/test_template_filler.py:57-66 | the code's row for the test item does not match the test's column positions |
| TemplateFiller.FileRowsMeaning | src/sad_app_v2/infrastructure/template_filler.py:47-65 | one row per file, in order, all from the same item |
| TemplateFiller.GroupRowsMeaning | src/sad_app_v2/infrastructure/template_filler.py:42-65 | a group without files raises `IndexError`; a first file without an item adds nothing; otherwise every file gets a row from the first file's item |
| TemplateFiller.FilledRowsFails | src/sad_app_v2/infrastructure/template_filler.py:40-65 | filling raises exactly when some group has no files |
| TemplateFiller.FilledRowsFiles | src/sad_app_v2/infrastructure/template_filler.py:40-65 | on success one row per file of the described groups, in order, each with nine cells and naming its file |
| TemplateFiller.FilledRowsAppend | src/sad_app_v2/infrastructure/template_filler.py:40-65 | filling `a + b` appends `a`'s rows and then `b`'s; the first failure wins |
| TemplateFiller.TemplateMissing | src/sad_app_v2/infrastructure/template_filler.py:26-29 | a missing template raises `TemplateNotFoundError`, a `CoreError`, and changes nothing |
| TemplateFiller.FillSucceeds | src/sad_app_v2/infrastructure/template_filler.py:23-67 | returns exactly when the template exists, copies, loads, every group has a file and the save works; the output then holds the template's rows then the filled rows |
| TemplateFiller.FillFailures | src/sad_app_v2/infrastructure/template_filler.py:32-70 | a failed copy re-raises the copy's own error and changes nothing; later failures raise `TemplateFillError` and leave the plain copy; no path but the output ever changes |

## Left out

- **Protocols.** The collaborator protocols are modelled as configurable recording stand-ins, not as abstract interfaces. The use cases are proved against any configuration of those stand-ins.
- **Concrete infrastructure** behind `IFileRepository` and `IFileSystemManager` (directory scanning, `shutil` moves) is not part of this model.
- **Outside code.** The regular-expression engine, PyPDF2 and python-docx are parameters of `Extraction`. The model proves what `find_code` and `extract_text` do with their answers.
- **Profile loading.** `_load_profiles` reads YAML. The profiles are given to the constructor; YAML parsing and the empty-dict fallbacks are not modelled.
- **Other parameters.** `time.time()` is a parameter (`timestamp`). `print` output is not modelled.
- **Copy-then-delete hashing.** The md5 comparison in `safe_copy_then_delete` is not modelled: file contents are not part of the state, only sizes. A copy of the right size is taken to have the right contents. The 50 MB threshold is modelled only as far as it decides whether a directory is opened for hashing.
- **Permissions.** `os.access` is a configured set of unwritable directories. `mkdir(parents=True)` adds only the target directory, not its missing ancestors.
- **SafeFileOperations.LocalFileSystem.Copy:** `copystat` is not modelled, and a directory's `st_size` is a configured value. Hard links that make two paths the same file are not modelled; only equal paths are.
- **POSIX only.** The file system follows POSIX: `rename` replaces an existing file, and the error texts are the POSIX `[Errno …]` ones. On Windows, renaming onto an existing file raises `FileExistsError`, and error texts are different; that is not modelled.
- **Spreadsheet cells** are `None`, strings or integers. Float and date cells are not modelled, and only the active sheet is.
- **Excel load.** `openpyxl.load_workbook(read_only=True)` is a lookup in a map from path to content. A file that exists but cannot be parsed is `Unreadable` with its error.
- **TemplateFiller.FillFailures:** a save that fails part-way is modelled as writing nothing. The output keeps the plain copy of the template, while the program could leave a partly written file.
- **TemplateFiller.Disk:** this disk holds files only. When the output path is a directory, the configured copy failure stands in for the error.
- **OrganizeLots.OrganizeAndGenerateLotsUseCase.Execute:** the template filler it calls is the recording stand-in. The filler's own model (`TemplateFiller.OpenpyxlTemplateFiller`) is proved separately, not composed into the use case.
- **Services.LotCount:** uses exact integer ceiling division. The source's `math.ceil(len / limit)` divides in floating point, which differs only above 2^53 groups.
- **Services.BalanceResult:** does not claim that the greedy placement minimises the spread between lot totals. Only lot count, lot names, the exact partition of the groups and the totals are proved.
- **Paths:** paths are '/'-separated strings. No normalisation (`..`, repeated slashes, Windows drive letters) is modelled.
- **Revision-renaming features** of the presentation layer (RIR renaming, suffix correction, the FIM handling of the scripts at the repository's root) are not part of this model.

## Findings

| source | as written | input that shows it | evidently intended | confidence | as-written member | corrected member |
|---|---|---|---|---|---|---|
| src/sad_app_v2/infrastructure/services.py:42 | `lightest_lot.groups.append(group)` on `OutputLot`, which is declared (src/sad_app_v2/core/domain.py:55-65) with `lot_name` and `files` only | any non-empty list of groups: the first append raises `AttributeError: 'OutputLot' object has no attribute 'groups'` | lots hold the groups placed in them, as organize_lots.py:62 and :71 read `lot.groups` | high for the declared dataclass, not executed | Services.BalanceAsDeclaredFails | Services.BalanceResult |
