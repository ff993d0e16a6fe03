# SRA cleanup sweep and guardrail lookup, modelled in Dafny

This project models the data logic of the AWS Security Reference Architecture
(SRA) cleanup script `cleanup-sra-dev.py`. It also models the guardrail lookup
`get_guardrail_id` of the Bedrock guardrails solution.

The cleanup script walks three accounts and lists the resources whose
lower-cased name contains `sra`. It covers CloudFormation stacks and
StackSets, Lambda functions, IAM roles, SSM parameters, CloudWatch log groups
and S3 buckets. In delete mode it also deletes them. Everything it does is
logged in a `CleanupReport`, which has four fields:

- an append-only list of errors per key;
- an append-only list of successes per key;
- a table of found counts per key and resource type;
- a table of deleted counts per key and resource type.

The key is `"account (region)"`, or the bare account name when there is no
region.

The model is imperative where the source is:

- `CleanupReport` is a class whose methods update its map fields in place.
- The page, region and batch loops are methods with loop invariants.
- Each method is proved against a specification function of its inputs.

Every cloud call is an input to the model, so the model decides nothing the
cloud would decide:

- A listing is a sequence of pages, or the error message it raised. An
  unpaginated list call is its one response, or its error message.
- A delete call is a function from its arguments to `Done` or
  `ClientError(message)`.

Modules, one per file:

- `Wrappers`: the `Option` and `CallResult` types.
- `Seqs`: flattening of pages.
- `Text`: `str.lower()` and substring search.
- `Ledger`: the report keys, the logs and count tables, and the
  `CleanupReport` class.
- `Selection`: the SRA name filter and the StackSet filter, with their page
  loops.
- `Batching`: the slices of ten, and the split of a StackSet instance batch
  into account and region lists.
- `Sweep`: the region listing loop and the per-item delete loop shared by
  stacks, Lambda functions, log groups, IAM roles and S3 buckets. It also
  holds the stack waiter and status decision.
- `SsmCleanup`: grouping by region, then batch deletion of SSM parameters.
- `StackSets`: StackSet and StackSet instance deletion.
- `Guardrails`: `get_guardrail_id`.

## Model

| member | source | states |
|---|---|---|
| Ledger.ReportKey | cleanup-sra-dev.py:57 | With a non-empty region the key extends the account name; it has the same length exactly when there is no usable region. |
| Ledger.ReportKeyRoundTrip | cleanup-sra-dev.py:57-86 | The region can be read back from the key built from it. All four `add_*` methods use this one key rule. |
| Ledger.ReportKeyInjective | cleanup-sra-dev.py:57-86 | Two regions give the same key for an account only when both are absent or equal. |
| Ledger.Appended | cleanup-sra-dev.py:58-63 | Appending keeps every earlier entry of every key and adds exactly one entry, at the end of that key's list. No other key's list changes. |
| Ledger.CountSet | cleanup-sra-dev.py:76-79 | The count for (key, type) becomes the new value. Other types under the key and other keys keep their counts. |
| Ledger.CountSetOverwrites | cleanup-sra-dev.py:74-86 | Setting the same (key, type) twice leaves only the second count. |
| Ledger.CountSetCommutes | cleanup-sra-dev.py:74-86 | Settings of different (key, type) pairs do not interfere. |
| Ledger.CleanupReport.constructor | cleanup-sra-dev.py:49-53 | A new report has four empty maps and totals of zero. |
| Ledger.CleanupReport.AddError | cleanup-sra-dev.py:55-63 | Appends one error entry under the key. The error total grows by one. The other three fields are unchanged. |
| Ledger.CleanupReport.AddSuccess | cleanup-sra-dev.py:65-72 | Appends one success entry under the key. The success total grows by one. The other fields are unchanged. |
| Ledger.CleanupReport.AddResourceFound | cleanup-sra-dev.py:74-79 | Overwrites the found count for (key, type). The other fields are unchanged. |
| Ledger.CleanupReport.AddResourceDeleted | cleanup-sra-dev.py:81-86 | Overwrites the deleted count for (key, type). The other fields are unchanged. |
| Ledger.CleanupReport.Totals | cleanup-sra-dev.py:111-137 | The summary totals are the sums of the list lengths over all keys. Each total is at least the number of keys of its log. It is positive exactly when the log is non-empty, so the `if self.errors:` section and the `total_errors > 0` warning agree. |
| Ledger.NonEmptyLogTotal | cleanup-sra-dev.py:120-137 | In a log with no empty list, the total is at least the number of keys, and is zero exactly when the log is empty. |
| Ledger.SumValues | cleanup-sra-dev.py:130-131 | The loop over the keys sums the list lengths. |
| Ledger.SumAppended | cleanup-sra-dev.py:58-70 | One append raises the total by one, whether or not the key is new. |
| Ledger.SumAppendEach | cleanup-sra-dev.py:55-72 | n appends raise the total by n. |
| Ledger.TotalFromEmpty | cleanup-sra-dev.py:49-53 | From an empty report, the total after n `add_error` (or `add_success`) calls is n. |
| Ledger.AppendEachConcat | cleanup-sra-dev.py:55-72 | Logging two runs of entries one after the other equals logging their concatenation. |
| Ledger.AppendEachKeepsNoEmptyLists | cleanup-sra-dev.py:58-70 | Logs only ever hold keys with at least one entry. |
| Text.LowerChar | cleanup-sra-dev.py:202 | Each capital `A`-`Z` maps to its own lower-case letter, 32 code points on. Other characters are kept, and no capital remains. |
| Text.Lower | cleanup-sra-dev.py:202 | `lower()` keeps the length and lower-cases each character in place. |
| Text.LowerIdempotent | cleanup-sra-dev.py:202 | Lower-casing twice is lower-casing once. |
| Text.Contains | cleanup-sra-dev.py:202 | `needle in haystack` holds exactly when the needle occurs at some position. |
| Text.ContainsInConcat | cleanup-sra-dev.py:202 | A name found in part of a string is found in the whole. |
| Selection.IsSraName | cleanup-sra-dev.py:202 | A name is an SRA name exactly when, at some position, its next three characters are `s`, `r`, `a`, each in either case. |
| Selection.IsLiveSraStackSet | cleanup-sra-dev.py:611-612 | A StackSet is kept exactly when its status is not `DELETED` and its name spells `sra` somewhere, in any case. |
| Selection.IsSraNameIgnoresCase | cleanup-sra-dev.py:202 | The SRA test ignores case. |
| Selection.FilterSra | cleanup-sra-dev.py:201-203 | A name is kept exactly when it is listed and its lower-cased form contains `sra`. The result is never longer than the input. |
| Selection.FilterSraAppend | cleanup-sra-dev.py:286-289 | Filtering distributes over concatenation, so listing order is kept. |
| Selection.FilterSraAllKept | cleanup-sra-dev.py:201-203 | The filter returns its input exactly when every name is an SRA name. |
| Selection.SelectSraNames | cleanup-sra-dev.py:347-350 | The page loop returns the SRA names of all pages, in page then item order. |
| Selection.FilterStackSets | cleanup-sra-dev.py:608-613 | A StackSet name is kept exactly when some summary has it, an SRA name, and a status other than `DELETED`. |
| Selection.FilterStackSetsIsFilterSra | cleanup-sra-dev.py:611-613 | The StackSet filter is the SRA filter applied to the StackSets that are not `DELETED`. |
| Selection.FilterStackSetsAppend | cleanup-sra-dev.py:608-613 | The StackSet filter keeps listing order across pages. |
| Selection.SelectStackSets | cleanup-sra-dev.py:606-613 | The StackSet page loop returns the filtered names of all pages, in order. |
| Seqs.FlattenAppend | cleanup-sra-dev.py:347-350 | Flattening pages distributes over concatenation of page lists. |
| Seqs.FlattenLength | cleanup-sra-dev.py:347-350 | The flattened length is the sum of the page lengths. |
| Batching.Batches | cleanup-sra-dev.py:381-382 | There are no batches exactly when the list is empty. Every batch holds between 1 and 10 items. |
| Batching.BatchesFlatten | cleanup-sra-dev.py:381-382 | Concatenating the slices `[i:i+10]` gives back the list. |
| Batching.BatchesBounds | cleanup-sra-dev.py:381-382 | There are ceil(n/10) slices, and all but the last hold exactly 10 items. |
| Batching.BatchAt | cleanup-sra-dev.py:381-382 | The k-th slice starts at 10k, which is inside the list, and is `lst[10k:10k+10]`. |
| Batching.BatchCount | cleanup-sra-dev.py:381 | Slice k exists exactly when 10k is below the length, which is the `range(0, n, 10)` condition. |
| Batching.SplitInstances | cleanup-sra-dev.py:647-649 | The account and region lists have the batch's length, and position k of both comes from instance k. |
| Batching.SplitZip | cleanup-sra-dev.py:647-649 | Zipping the two lists back gives the batch. |
| Guardrails.FirstMatchId | aws_sra/solutions/genai/bedrock_guardrails/lambda/src/sra_bedrock.py:74-81 | With no guardrail of that name the result is `""`. Otherwise it is the id of the first guardrail whose name equals the query exactly. |
| Guardrails.FirstMatchIdAppend | aws_sra/solutions/genai/bedrock_guardrails/lambda/src/sra_bedrock.py:76-80 | A match in an earlier page wins over any later page. |
| Guardrails.PagedLookup | aws_sra/solutions/genai/bedrock_guardrails/lambda/src/sra_bedrock.py:76-80 | The page-by-page search, which stops at the first page with a match, equals the search of the concatenated pages. |
| Guardrails.PaginationIrrelevant | aws_sra/solutions/genai/bedrock_guardrails/lambda/src/sra_bedrock.py:76-77 | Splitting the same guardrails into pages differently gives the same answer. |
| Guardrails.GetGuardrailId | aws_sra/solutions/genai/bedrock_guardrails/lambda/src/sra_bedrock.py:65-81 | The nested loop with its early return yields the first match's id in page then item order, or `""`. |
| Sweep.Tagged | cleanup-sra-dev.py:288-289 | Each selected name is paired with the listing's region, in order. |
| Sweep.FoundInSelected | cleanup-sra-dev.py:278-294 | Every collected resource has an SRA name and comes from a listing, with that listing's region. |
| Sweep.FoundInComplete | cleanup-sra-dev.py:278-294 | Every SRA name of every successful listing is collected, with that listing's region. |
| Sweep.FoundCountsAddUp | cleanup-sra-dev.py:292-294 | The per-region found counts add up to the number of resources collected. |
| Sweep.ListingErrorsCount | cleanup-sra-dev.py:296-299 | Each failed listing adds exactly one error entry. |
| Sweep.ListAcrossRegions | cleanup-sra-dev.py:278-299 | The region loop collects the selected resources. It logs one `listado` error per failed region and sets a found count for each region that found some. |
| Sweep.ItemCallsPartition | cleanup-sra-dev.py:308-325 | Each deleted candidate gets exactly one entry, a success or an error. |
| Sweep.DeleteEach | cleanup-sra-dev.py:307-327 | The per-item delete loop logs one entry per resource. `deleted_count` is the number of successes and never exceeds the number found. The count is recorded under the bare account. |
| Sweep.SweepResource | cleanup-sra-dev.py:268-327 | A whole listing function returns the collected resources and sets a found count per region. With nothing found, or in a dry run, it adds only the listing errors and deletes nothing. Otherwise it also logs one entry per resource, and records `deleted_count`, the number of successes, under the bare account. |
| Sweep.AsListing | cleanup-sra-dev.py:195-201 | A single unpaginated response is a listing of one page: it selects the SRA names of that response, or nothing when the call failed. |
| Sweep.SweepLogGroups | cleanup-sra-dev.py:268-327 | `list_cloudwatch_log_groups` has the whole effect of `SweepResource` for log groups. |
| Sweep.SweepRoles | cleanup-sra-dev.py:400-460 | `list_iam_roles` reads one paginated listing of the global IAM service. Every role is found with no region. |
| Sweep.SweepLambdaFunctions | cleanup-sra-dev.py:462-521 | `list_lambda_functions` has the whole effect of `SweepResource` for Lambda functions. |
| Sweep.SweepBuckets | cleanup-sra-dev.py:523-592 | `list_s3_buckets` reads the one `list_buckets` response. The buckets found are its SRA names, in order and with no region. |
| Sweep.StackOutcome | cleanup-sra-dev.py:229-264 | A stack counts as deleted exactly when `delete_stack` succeeded and either the waiter completed or the status is `DELETE_COMPLETE`. A failed call or status check passes its error on. |
| Sweep.SweepStacks | cleanup-sra-dev.py:180-266 | `list_cloudformation_stacks` reads one `list_stacks` response per region. It has the whole effect of `SweepResource`, where a stack counts as deleted when `StackOutcome` accepts it. |
| SsmCleanup.NamesInAppend | cleanup-sra-dev.py:370-375 | Grouping keeps listing order within a region. |
| SsmCleanup.NamesInMembers | cleanup-sra-dev.py:370-375 | A region's group holds exactly the names of the parameters listed in that region. |
| SsmCleanup.RegionsInOrderSpec | cleanup-sra-dev.py:370-375 | Groups are created once each, exactly for the regions where something was listed, and are never empty. |
| SsmCleanup.GroupByRegion | cleanup-sra-dev.py:370-375 | The grouping loop builds the dictionary: key order of first occurrence, and each region's names in listing order. |
| SsmCleanup.GroupsPartition | cleanup-sra-dev.py:370-375 | Every parameter is in exactly one group, so the group sizes add up to the number of parameters. |
| SsmCleanup.RegionPlan | cleanup-sra-dev.py:379-382 | A region's delete calls are its names' slices of ten, in order. |
| SsmCleanup.RegionPlanSize | cleanup-sra-dev.py:381-382 | A region's batches carry exactly its names. |
| SsmCleanup.SsmPlanCoversParameters | cleanup-sra-dev.py:379-382 | All batches together carry as many names as there are parameters. |
| SsmCleanup.PlanAccounting | cleanup-sra-dev.py:383-396 | Each batched name gets exactly one entry. Successes number `deleted_count`, the size of the successful batches, which is at most the names batched. |
| SsmCleanup.NameCallsLength | cleanup-sra-dev.py:388-396 | A batch logs one entry per name, whichever way it went. |
| SsmCleanup.SsmAccounting | cleanup-sra-dev.py:378-398 | `deleted_count` is at most the number of parameters. The success total grows by it, and the two totals together grow by the number of parameters. |
| SsmCleanup.RecordSuccesses | cleanup-sra-dev.py:388-390 | After a successful batch call, each name gets one success entry, in order, and `deleted_count` grows by the batch size. Nothing else changes. |
| SsmCleanup.RecordErrors | cleanup-sra-dev.py:395-396 | After a failed batch call, each name gets one error entry with the call's message, in order. Nothing else changes. |
| SsmCleanup.RecordBatch | cleanup-sra-dev.py:383-396 | One batch logs a success per name if its call succeeded, else an error per name with the call's message. |
| SsmCleanup.DeleteRegion | cleanup-sra-dev.py:381-396 | The batch loop of one region makes the region's calls in order and logs their entries. |
| SsmCleanup.DeleteSsmParameters | cleanup-sra-dev.py:370-398 | Grouping, then every region's batches. The logs get the plan's entries, `deleted_count` is the successful batch size, and the count is recorded under the bare account. |
| SsmCleanup.SweepSsm | cleanup-sra-dev.py:329-398 | `list_ssm_parameters`: it lists every region, and in delete mode deletes in batches what it found. |
| StackSets.InstanceCallsCover | cleanup-sra-dev.py:646-658 | Each `delete_stack_instances` call names the StackSet and carries 1 to 10 instances, with as many accounts as regions. Zipping each call's accounts and regions back together, call after call, gives the listed instances in order. |
| StackSets.InstanceErrorsCount | cleanup-sra-dev.py:663-666 | Each failed instance batch adds one instances-type error naming the StackSet, under the bare account. |
| StackSets.OneVerdict | cleanup-sra-dev.py:627-679 | Each StackSet gets exactly one verdict, a success or one StackSet-type error, plus one error per failed instance batch. |
| StackSets.StackSetsAccounting | cleanup-sra-dev.py:623-681 | `deleted_count` equals the number of successes and is at most the number of StackSets. Successes plus StackSet errors equal the number of StackSets. |
| StackSets.DeletedAreListed | cleanup-sra-dev.py:673-674 | A StackSet is logged as deleted exactly when it was selected and its instance listing and `delete_stack_set` succeeded. |
| StackSets.CountOfTypeConcat | cleanup-sra-dev.py:666-679 | Counting entries of one type distributes over concatenation. |
| StackSets.CollectInstances | cleanup-sra-dev.py:632-640 | The instance page loop collects all instances in order. |
| StackSets.DeleteInstances | cleanup-sra-dev.py:646-666 | The batch loop makes the calls of `InstanceCalls` and logs an error for each failed one. It goes on after a failure. |
| StackSets.DeleteStackSet | cleanup-sra-dev.py:625-679 | The body for one StackSet logs its entries as `StackSetSuccessCalls` and `StackSetErrorCalls` say. It reports whether the StackSet was deleted. |
| StackSets.DeleteStackSets | cleanup-sra-dev.py:622-681 | The StackSet loop: `deleted_count` is the number deleted, at most the number selected, and is recorded under the bare account. |
| StackSets.SweepStackSets | cleanup-sra-dev.py:594-686 | `list_cloudformation_stacksets`: a failed listing adds one `listado` error. Otherwise the live SRA StackSets are counted when there are any, and deleted in delete mode. |

## Left out

- Every boto3 call is an input, not modelled behaviour. This covers sessions, clients, `list_*` calls and paginators, `delete_*` calls, the CloudFormation waiter and `describe_stacks`. A listing is given as pages or as an error message. A delete call is given as a function from its arguments to its outcome.
- `list_stacks` and `list_buckets` are called once, without a paginator. Pages after their first response are never read, and the model reads only that one response.
- A listing that fails after some pages is modelled as failing outright. Such a listing adds its error entry and selects nothing, as in the source.
- `time.sleep`, the `logging` text, and the emoji and line formatting of `print_summary` are left out. Only the two totals of `print_summary` are modelled.
- `parse_arguments`, `get_session`, `scan_account` and `main` are left out. They are orchestration: profile lookup, the fixed order of the listing functions, the StackSets-only-on-master rule, and `success_count` over the accounts.
- The `SRA_REGIONS` and `ACCOUNTS` constants are left out. The regions are whatever listings are given.
- S3 object-version and delete-marker purging before `delete_bucket` is left out. So is IAM policy detachment before `delete_role`. Each is a sequence of cloud calls whose combined outcome is the resource's one delete outcome.
- Only `ClientError` is modelled as a failure of a delete or listing call. Any other exception would escape the listing function and be caught by `scan_account`, which is not part of this model.
- Text.Lower maps only the ASCII capitals. No non-ASCII character lower-cases to `s`, `r` or `a`, so `'sra' in name.lower()` gives the same answer either way. The lengths of lower-cased non-ASCII strings are not modelled.
- Error entries hold the message of the exception (`str(e)`) as a string; exception objects are not modelled.
- Guardrails.GetGuardrailId has no error path. A failing `list_guardrails` paginator raises out of `get_guardrail_id`, which catches nothing, so the model takes a listing that succeeded.
- `create_guardrail` and `delete_guardrail` in sra_bedrock.py are single client calls and are left out.
- sra_sqs.py, inline_lambda.py and sra-prepare-layer-code.py are not part of this model. They are thin wrappers around SQS, Organizations, `pip` and the file system.
