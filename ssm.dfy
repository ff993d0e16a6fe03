/** Deletion of SSM parameters (`list_ssm_parameters` in cleanup-sra-dev.py):
    the selected parameters are grouped by region, each region's names are
    deleted in batches of at most ten, and every name of a batch is logged as
    a success or an error according to that batch's delete call. */
module SsmCleanup {
  import opened Wrappers
  import opened Seqs
  import opened Ledger
  import opened Batching
  import opened Sweep

  // ----- grouping by region (`parameters_by_region`) -----

  /** The names of the parameters listed in `region`, in listing order. */
  function NamesIn(params: seq<Located>, region: Option<string>): seq<string>
  {
    if params == [] then []
    else
      var last := params[|params| - 1];
      NamesIn(params[..|params| - 1], region) + (if last.region == region then [last.name] else [])
  }

  /** Grouping keeps listing order: the names of a region listed earlier
      come first in its group. */
  lemma {:induction false} NamesInAppend(a: seq<Located>, b: seq<Located>, region: Option<string>)
    ensures NamesIn(a + b, region) == NamesIn(a, region) + NamesIn(b, region)
    decreases |b|
  {
    if b == [] {
      assert a + b == a;
    } else {
      assert (a + b)[..|a + b| - 1] == a + b[..|b| - 1];
      NamesInAppend(a, b[..|b| - 1], region);
    }
  }

  /** A region's group holds exactly the names of the parameters listed in
      that region. */
  lemma {:induction false} NamesInMembers(params: seq<Located>, region: Option<string>, name: string)
    ensures name in NamesIn(params, region) <==> Located(name, region) in params
  {
    if params != [] {
      var init := params[..|params| - 1];
      NamesInMembers(init, region, name);
      assert params == init + [params[|params| - 1]];
    }
  }

  /** The regions in the order they first occur: the key order of the
      dictionary the grouping loop fills. */
  function RegionsInOrder(params: seq<Located>): seq<Option<string>>
  {
    if params == [] then []
    else
      var prev := RegionsInOrder(params[..|params| - 1]);
      var region := params[|params| - 1].region;
      if region in prev then prev else prev + [region]
  }

  /** No sequence element occurs twice. */
  ghost predicate Distinct<T>(s: seq<T>)
  {
    forall i, j :: 0 <= i < j < |s| ==> s[i] != s[j]
  }

  /** Some parameter was listed in `region`. */
  ghost predicate ListedIn(params: seq<Located>, region: Option<string>)
  {
    exists i :: 0 <= i < |params| && params[i].region == region
  }

  /** A region has a group exactly when some parameter was listed in it, and
      then its group is not empty; no region is entered twice. */
  lemma {:induction false} RegionsInOrderSpec(params: seq<Located>)
    ensures Distinct(RegionsInOrder(params))
    ensures forall r :: r in RegionsInOrder(params) <==> ListedIn(params, r)
    ensures forall r :: r in RegionsInOrder(params) <==> NamesIn(params, r) != []
  {
    if params != [] {
      var init := params[..|params| - 1];
      var last := params[|params| - 1];
      RegionsInOrderSpec(init);
      forall r ensures ListedIn(params, r) <==> ListedIn(init, r) || last.region == r {
        if i :| 0 <= i < |params| && params[i].region == r {
          if i < |init| {
            assert init[i] == params[i];
          }
        }
        if i :| 0 <= i < |init| && init[i].region == r {
          assert params[i] == init[i];
        }
      }
    }
  }

  /** The grouping loop: walks the parameters and appends each name to the
      list of its region, creating the list on the region's first occurrence.
      The dictionary is its key order `order` plus its contents `groups`. */
  method GroupByRegion(params: seq<Located>) returns (order: seq<Option<string>>, groups: map<Option<string>, seq<string>>)
    ensures order == RegionsInOrder(params)
    ensures forall r :: r in groups <==> r in order
    ensures forall r :: r in groups ==> groups[r] == NamesIn(params, r)
  {
    order := [];
    groups := map[];
    for i := 0 to |params|
      invariant order == RegionsInOrder(params[..i])
      invariant forall r :: r in groups <==> r in order
      invariant forall r :: r in groups ==> groups[r] == NamesIn(params[..i], r)
    {
      var param := params[i];
      assert params[..i + 1][..i] == params[..i];
      assert params[..i + 1][i] == param;
      RegionsInOrderSpec(params[..i]);
      if param.region !in groups {
        order := order + [param.region];
        groups := groups[param.region := []];
      }
      groups := groups[param.region := groups[param.region] + [param.name]];
      forall r | r in groups ensures groups[r] == NamesIn(params[..i + 1], r) {
        if r != param.region {
          assert NamesIn(params[..i + 1], r) == NamesIn(params[..i], r) + [];
        }
      }
    }
    assert params[..|params|] == params;
  }

  /** Sum of the group sizes over a list of regions. */
  function GroupedCount(params: seq<Located>, regions: seq<Option<string>>): nat
  {
    if regions == [] then 0
    else GroupedCount(params, regions[..|regions| - 1]) + |NamesIn(params, regions[|regions| - 1])|
  }

  /** How often `r` occurs in `regions`. */
  function Occurrences(regions: seq<Option<string>>, r: Option<string>): nat
  {
    if regions == [] then 0
    else Occurrences(regions[..|regions| - 1], r) + (if regions[|regions| - 1] == r then 1 else 0)
  }

  lemma {:induction false} GroupedCountSnocParam(init: seq<Located>, p: Located, regions: seq<Option<string>>)
    ensures GroupedCount(init + [p], regions) == GroupedCount(init, regions) + Occurrences(regions, p.region)
  {
    if regions != [] {
      GroupedCountSnocParam(init, p, regions[..|regions| - 1]);
      assert (init + [p])[..|init + [p]| - 1] == init;
    }
  }

  lemma {:induction false} OccurrencesDistinct(regions: seq<Option<string>>, r: Option<string>)
    requires Distinct(regions)
    ensures Occurrences(regions, r) == if r in regions then 1 else 0
  {
    if regions != [] {
      var init := regions[..|regions| - 1];
      OccurrencesDistinct(init, r);
      if r == regions[|regions| - 1] {
        assert r !in init;
      } else {
        assert r in regions <==> r in init;
      }
    }
  }

  /** The groups partition the parameters: each parameter is in exactly one
      region's list, so the group sizes add up to the number of parameters. */
  lemma {:induction false} GroupsPartition(params: seq<Located>)
    ensures GroupedCount(params, RegionsInOrder(params)) == |params|
  {
    if params != [] {
      var init := params[..|params| - 1];
      var p := params[|params| - 1];
      assert params == init + [p];
      GroupsPartition(init);
      RegionsInOrderSpec(init);
      RegionsInOrderSpec(params);
      var prev := RegionsInOrder(init);
      GroupedCountSnocParam(init, p, RegionsInOrder(params));
      OccurrencesDistinct(RegionsInOrder(params), p.region);
      if p.region !in prev {
        assert (prev + [p.region])[..|prev + [p.region]| - 1] == prev;
        assert NamesIn(init, p.region) == [];
      }
    }
  }

  // ----- the batch plan -----

  /** One `delete_parameters` call: the region and the names it carries. */
  datatype BatchCall = BatchCall(region: Option<string>, names: seq<string>)

  /** The calls made for one region: its names in batches of ten. */
  function RegionPlan(region: Option<string>, names: seq<string>): (r: seq<BatchCall>)
    ensures |r| == |Batches(names)|
    ensures forall k :: 0 <= k < |r| ==> r[k] == BatchCall(region, Batches(names)[k])
  {
    seq(|Batches(names)|, k requires 0 <= k < |Batches(names)| => BatchCall(region, Batches(names)[k]))
  }

  /** The calls made for a list of regions, region after region. */
  function PlanFor(params: seq<Located>, regions: seq<Option<string>>): seq<BatchCall>
  {
    if regions == [] then []
    else
      var r := regions[|regions| - 1];
      PlanFor(params, regions[..|regions| - 1]) + RegionPlan(r, NamesIn(params, r))
  }

  /** All the delete calls of the SSM cleanup, in the order they are made. */
  function SsmPlan(params: seq<Located>): seq<BatchCall>
  {
    PlanFor(params, RegionsInOrder(params))
  }

  /** Number of names over a list of calls. */
  function PlanSize(plan: seq<BatchCall>): nat
  {
    if plan == [] then 0 else PlanSize(plan[..|plan| - 1]) + |plan[|plan| - 1].names|
  }

  /** Number of names over the calls that succeeded. */
  function DeletedOf(plan: seq<BatchCall>, deleteBatch: BatchCall -> CallResult): nat
  {
    if plan == [] then 0
    else
      var last := plan[|plan| - 1];
      DeletedOf(plan[..|plan| - 1], deleteBatch) + (if deleteBatch(last).Done? then |last.names| else 0)
  }

  /** A success entry for each of the names, in order. */
  function NameSuccessCalls(account: string, region: Option<string>, names: seq<string>): seq<(string, SuccessEntry)>
  {
    if names == [] then []
    else NameSuccessCalls(account, region, names[..|names| - 1]) +
         [(ReportKey(account, region), SuccessEntry(SsmParameters.itemType, names[|names| - 1], region))]
  }

  /** An error entry, with the batch's error text, for each of the names. */
  function NameErrorCalls(account: string, region: Option<string>, names: seq<string>, message: string): seq<(string, ErrorEntry)>
  {
    if names == [] then []
    else NameErrorCalls(account, region, names[..|names| - 1], message) +
         [(ReportKey(account, region), ErrorEntry(SsmParameters.itemType, names[|names| - 1], message, region))]
  }

  /** The entries one batch adds to the success log. */
  function BatchSuccessCalls(account: string, call: BatchCall, result: CallResult): seq<(string, SuccessEntry)>
  {
    if result.Done? then NameSuccessCalls(account, call.region, call.names) else []
  }

  /** The entries one batch adds to the error log. */
  function BatchErrorCalls(account: string, call: BatchCall, result: CallResult): seq<(string, ErrorEntry)>
  {
    if result.ClientError? then NameErrorCalls(account, call.region, call.names, result.message) else []
  }

  /** The entries a list of calls adds to the success log. */
  function SuccessCallsOf(account: string, plan: seq<BatchCall>, deleteBatch: BatchCall -> CallResult): seq<(string, SuccessEntry)>
  {
    if plan == [] then []
    else
      var last := plan[|plan| - 1];
      SuccessCallsOf(account, plan[..|plan| - 1], deleteBatch) + BatchSuccessCalls(account, last, deleteBatch(last))
  }

  /** The entries a list of calls adds to the error log. */
  function ErrorCallsOf(account: string, plan: seq<BatchCall>, deleteBatch: BatchCall -> CallResult): seq<(string, ErrorEntry)>
  {
    if plan == [] then []
    else
      var last := plan[|plan| - 1];
      ErrorCallsOf(account, plan[..|plan| - 1], deleteBatch) + BatchErrorCalls(account, last, deleteBatch(last))
  }

  /** The entries and count of a plan of one call are that call's. */
  lemma SingleCall(account: string, call: BatchCall, deleteBatch: BatchCall -> CallResult)
    ensures SuccessCallsOf(account, [call], deleteBatch) == BatchSuccessCalls(account, call, deleteBatch(call))
    ensures ErrorCallsOf(account, [call], deleteBatch) == BatchErrorCalls(account, call, deleteBatch(call))
    ensures DeletedOf([call], deleteBatch) == if deleteBatch(call).Done? then |call.names| else 0
  {
    assert [call][..0] == [];
  }

  lemma {:induction false} NameCallsLength(account: string, region: Option<string>, names: seq<string>, message: string)
    ensures |NameSuccessCalls(account, region, names)| == |names|
    ensures |NameErrorCalls(account, region, names, message)| == |names|
  {
    if names != [] {
      NameCallsLength(account, region, names[..|names| - 1], message);
    }
  }

  /** Every name of every batch gets exactly one entry: a success when its
      batch's call succeeded, an error otherwise; the successes are exactly
      the names of the succeeded batches. */
  lemma {:induction false} PlanAccounting(account: string, plan: seq<BatchCall>, deleteBatch: BatchCall -> CallResult)
    ensures |SuccessCallsOf(account, plan, deleteBatch)| == DeletedOf(plan, deleteBatch)
    ensures |SuccessCallsOf(account, plan, deleteBatch)| + |ErrorCallsOf(account, plan, deleteBatch)| == PlanSize(plan)
    ensures DeletedOf(plan, deleteBatch) <= PlanSize(plan)
  {
    if plan != [] {
      var last := plan[|plan| - 1];
      PlanAccounting(account, plan[..|plan| - 1], deleteBatch);
      var result := deleteBatch(last);
      NameCallsLength(account, last.region, last.names, if result.ClientError? then result.message else "");
    }
  }

  lemma {:induction false} SuccessCallsConcat(account: string, a: seq<BatchCall>, b: seq<BatchCall>, deleteBatch: BatchCall -> CallResult)
    ensures SuccessCallsOf(account, a + b, deleteBatch) == SuccessCallsOf(account, a, deleteBatch) + SuccessCallsOf(account, b, deleteBatch)
    decreases |b|
  {
    if b == [] {
      assert a + b == a;
    } else {
      assert (a + b)[..|a + b| - 1] == a + b[..|b| - 1];
      SuccessCallsConcat(account, a, b[..|b| - 1], deleteBatch);
    }
  }

  lemma {:induction false} ErrorCallsConcat(account: string, a: seq<BatchCall>, b: seq<BatchCall>, deleteBatch: BatchCall -> CallResult)
    ensures ErrorCallsOf(account, a + b, deleteBatch) == ErrorCallsOf(account, a, deleteBatch) + ErrorCallsOf(account, b, deleteBatch)
    decreases |b|
  {
    if b == [] {
      assert a + b == a;
    } else {
      assert (a + b)[..|a + b| - 1] == a + b[..|b| - 1];
      ErrorCallsConcat(account, a, b[..|b| - 1], deleteBatch);
    }
  }

  lemma {:induction false} DeletedConcat(a: seq<BatchCall>, b: seq<BatchCall>, deleteBatch: BatchCall -> CallResult)
    ensures DeletedOf(a + b, deleteBatch) == DeletedOf(a, deleteBatch) + DeletedOf(b, deleteBatch)
    decreases |b|
  {
    if b == [] {
      assert a + b == a;
    } else {
      assert (a + b)[..|a + b| - 1] == a + b[..|b| - 1];
      DeletedConcat(a, b[..|b| - 1], deleteBatch);
    }
  }

  lemma {:induction false} PlanSizeConcat(a: seq<BatchCall>, b: seq<BatchCall>)
    ensures PlanSize(a + b) == PlanSize(a) + PlanSize(b)
    decreases |b|
  {
    if b == [] {
      assert a + b == a;
    } else {
      assert (a + b)[..|a + b| - 1] == a + b[..|b| - 1];
      PlanSizeConcat(a, b[..|b| - 1]);
    }
  }

  lemma {:induction false} PlanSizeOfBatches(region: Option<string>, names: seq<string>, k: nat)
    requires k <= |Batches(names)|
    ensures PlanSize(RegionPlan(region, names)[..k]) == |Flatten(Batches(names)[..k])|
  {
    if k > 0 {
      var plan := RegionPlan(region, names);
      PlanSizeOfBatches(region, names, k - 1);
      assert plan[..k][..k - 1] == plan[..k - 1];
      assert Batches(names)[..k] == Batches(names)[..k - 1] + [Batches(names)[k - 1]];
      FlattenSnoc(Batches(names)[..k - 1], Batches(names)[k - 1]);
    }
  }

  /** A region's batches carry exactly its names. */
  lemma RegionPlanSize(region: Option<string>, names: seq<string>)
    ensures PlanSize(RegionPlan(region, names)) == |names|
  {
    var plan := RegionPlan(region, names);
    PlanSizeOfBatches(region, names, |plan|);
    assert plan[..|plan|] == plan;
    assert Batches(names)[..|plan|] == Batches(names);
    BatchesFlatten(names);
  }

  lemma {:induction false} PlanForSize(params: seq<Located>, regions: seq<Option<string>>)
    ensures PlanSize(PlanFor(params, regions)) == GroupedCount(params, regions)
  {
    if regions != [] {
      var r := regions[|regions| - 1];
      PlanForSize(params, regions[..|regions| - 1]);
      PlanSizeConcat(PlanFor(params, regions[..|regions| - 1]), RegionPlan(r, NamesIn(params, r)));
      RegionPlanSize(r, NamesIn(params, r));
    }
  }

  /** The plan carries every selected parameter: its batches hold, all
      together, as many names as there are parameters. */
  lemma SsmPlanCoversParameters(params: seq<Located>)
    ensures PlanSize(SsmPlan(params)) == |params|
  {
    PlanForSize(params, RegionsInOrder(params));
    GroupsPartition(params);
  }

  /** The plan grows region by region. */
  lemma PlanForStep(params: seq<Located>, regions: seq<Option<string>>, g: nat)
    requires g < |regions|
    ensures PlanFor(params, regions[..g + 1]) == PlanFor(params, regions[..g]) + RegionPlan(regions[g], NamesIn(params, regions[g]))
  {
    assert regions[..g + 1][..g] == regions[..g];
  }

  /** Turn k of a region's batch loop makes the plan's k-th call, on the
      slice starting at 10k. */
  lemma RegionPlanStep(region: Option<string>, names: seq<string>, k: nat)
    requires k < |RegionPlan(region, names)|
    ensures k * BatchSize < |names|
    ensures RegionPlan(region, names)[..k + 1]
         == RegionPlan(region, names)[..k] + [BatchCall(region, SliceFrom(names, k * BatchSize))]
  {
    BatchAt(names, k);
    var plan := RegionPlan(region, names);
    assert plan[k] == BatchCall(region, SliceFrom(names, k * BatchSize));
    assert plan[..k + 1] == plan[..k] + [plan[k]];
  }

  /** One more call adds its entries after those of the earlier calls. */
  lemma BatchStep(account: string, prefix: seq<BatchCall>, call: BatchCall, deleteBatch: BatchCall -> CallResult,
                  successes: map<string, seq<SuccessEntry>>, errors: map<string, seq<ErrorEntry>>)
    ensures AppendEach(successes, SuccessCallsOf(account, prefix + [call], deleteBatch))
         == AppendEach(AppendEach(successes, SuccessCallsOf(account, prefix, deleteBatch)),
                       BatchSuccessCalls(account, call, deleteBatch(call)))
    ensures AppendEach(errors, ErrorCallsOf(account, prefix + [call], deleteBatch))
         == AppendEach(AppendEach(errors, ErrorCallsOf(account, prefix, deleteBatch)),
                       BatchErrorCalls(account, call, deleteBatch(call)))
    ensures DeletedOf(prefix + [call], deleteBatch)
         == DeletedOf(prefix, deleteBatch) + if deleteBatch(call).Done? then |call.names| else 0
  {
    SingleCall(account, call, deleteBatch);
    SuccessCallsConcat(account, prefix, [call], deleteBatch);
    ErrorCallsConcat(account, prefix, [call], deleteBatch);
    DeletedConcat(prefix, [call], deleteBatch);
    AppendEachConcat(successes, SuccessCallsOf(account, prefix, deleteBatch), SuccessCallsOf(account, [call], deleteBatch));
    AppendEachConcat(errors, ErrorCallsOf(account, prefix, deleteBatch), ErrorCallsOf(account, [call], deleteBatch));
  }

  /** Accounting of the whole SSM deletion: the number deleted never exceeds
      the number of parameters, the success log grows by exactly that number,
      and both logs together grow by one entry per parameter. */
  lemma SsmAccounting(account: string, params: seq<Located>, deleteBatch: BatchCall -> CallResult,
                      successes: map<string, seq<SuccessEntry>>, errors: map<string, seq<ErrorEntry>>)
    ensures DeletedOf(SsmPlan(params), deleteBatch) <= |params|
    ensures SumLengths(AppendEach(successes, SuccessCallsOf(account, SsmPlan(params), deleteBatch)))
         == SumLengths(successes) + DeletedOf(SsmPlan(params), deleteBatch)
    ensures SumLengths(AppendEach(successes, SuccessCallsOf(account, SsmPlan(params), deleteBatch)))
          + SumLengths(AppendEach(errors, ErrorCallsOf(account, SsmPlan(params), deleteBatch)))
         == SumLengths(successes) + SumLengths(errors) + |params|
  {
    var plan := SsmPlan(params);
    PlanAccounting(account, plan, deleteBatch);
    SsmPlanCoversParameters(params);
    SumAppendEach(successes, SuccessCallsOf(account, plan, deleteBatch));
    SumAppendEach(errors, ErrorCallsOf(account, plan, deleteBatch));
  }

  // ----- the deletion loops -----

  /** `for param_name in batch: add_success(...); deleted_count += 1`. */
  method RecordSuccesses(report: CleanupReport, account: string, region: Option<string>, batch: seq<string>)
    returns (deleted: nat)
    requires report.Valid()
    modifies report
    ensures report.Valid()
    ensures deleted == |batch|
    ensures report.successes == AppendEach(old(report.successes), NameSuccessCalls(account, region, batch))
    ensures report.errors == old(report.errors)
    ensures report.resourcesFound == old(report.resourcesFound)
    ensures report.resourcesDeleted == old(report.resourcesDeleted)
  {
    deleted := 0;
    for j := 0 to |batch|
      invariant report.Valid()
      invariant deleted == j
      invariant report.successes == AppendEach(old(report.successes), NameSuccessCalls(account, region, batch[..j]))
      invariant report.errors == old(report.errors)
      invariant report.resourcesFound == old(report.resourcesFound)
      invariant report.resourcesDeleted == old(report.resourcesDeleted)
    {
      assert batch[..j + 1][..j] == batch[..j];
      AppendEachSnoc(old(report.successes), NameSuccessCalls(account, region, batch[..j]),
                     (ReportKey(account, region), SuccessEntry(SsmParameters.itemType, batch[j], region)));
      report.AddSuccess(account, SsmParameters.itemType, batch[j], region);
      deleted := deleted + 1;
    }
    assert batch[..|batch|] == batch;
  }

  /** `for param_name in batch: add_error(..., e, region)`. */
  method RecordErrors(report: CleanupReport, account: string, region: Option<string>, batch: seq<string>, message: string)
    requires report.Valid()
    modifies report
    ensures report.Valid()
    ensures report.errors == AppendEach(old(report.errors), NameErrorCalls(account, region, batch, message))
    ensures report.successes == old(report.successes)
    ensures report.resourcesFound == old(report.resourcesFound)
    ensures report.resourcesDeleted == old(report.resourcesDeleted)
  {
    for j := 0 to |batch|
      invariant report.Valid()
      invariant report.errors == AppendEach(old(report.errors), NameErrorCalls(account, region, batch[..j], message))
      invariant report.successes == old(report.successes)
      invariant report.resourcesFound == old(report.resourcesFound)
      invariant report.resourcesDeleted == old(report.resourcesDeleted)
    {
      assert batch[..j + 1][..j] == batch[..j];
      AppendEachSnoc(old(report.errors), NameErrorCalls(account, region, batch[..j], message),
                     (ReportKey(account, region), ErrorEntry(SsmParameters.itemType, batch[j], message, region)));
      report.AddError(account, SsmParameters.itemType, batch[j], message, region);
    }
    assert batch[..|batch|] == batch;
  }

  /** The body of one batch turn: the `try` logs every name of the batch as a
      success when the call succeeded, the `except` logs each as an error. */
  method RecordBatch(report: CleanupReport, account: string, call: BatchCall, result: CallResult)
    returns (deleted: nat)
    requires report.Valid()
    modifies report
    ensures report.Valid()
    ensures deleted == if result.Done? then |call.names| else 0
    ensures report.successes == AppendEach(old(report.successes), BatchSuccessCalls(account, call, result))
    ensures report.errors == AppendEach(old(report.errors), BatchErrorCalls(account, call, result))
    ensures report.resourcesFound == old(report.resourcesFound)
    ensures report.resourcesDeleted == old(report.resourcesDeleted)
  {
    match result {
      case Done =>
        deleted := RecordSuccesses(report, account, call.region, call.names);
      case ClientError(message) =>
        RecordErrors(report, account, call.region, call.names, message);
        deleted := 0;
    }
  }

  /** The batch loop of one region, `for i in range(0, len(names), 10)`:
      deletes `names[i:i+10]` and records the outcome of each call. */
  method DeleteRegion(report: CleanupReport, account: string, region: Option<string>, names: seq<string>,
                      deleteBatch: BatchCall -> CallResult)
    returns (deleted: nat)
    requires report.Valid()
    modifies report
    ensures report.Valid()
    ensures deleted == DeletedOf(RegionPlan(region, names), deleteBatch)
    ensures report.successes == AppendEach(old(report.successes), SuccessCallsOf(account, RegionPlan(region, names), deleteBatch))
    ensures report.errors == AppendEach(old(report.errors), ErrorCallsOf(account, RegionPlan(region, names), deleteBatch))
    ensures report.resourcesFound == old(report.resourcesFound)
    ensures report.resourcesDeleted == old(report.resourcesDeleted)
  {
    var plan := RegionPlan(region, names);
    deleted := 0;
    var i := 0;
    ghost var k := 0;
    while i < |names|
      invariant i == k * BatchSize && k <= |plan|
      invariant k < |plan| <==> i < |names|
      invariant report.Valid()
      invariant deleted == DeletedOf(plan[..k], deleteBatch)
      invariant report.successes == AppendEach(old(report.successes), SuccessCallsOf(account, plan[..k], deleteBatch))
      invariant report.errors == AppendEach(old(report.errors), ErrorCallsOf(account, plan[..k], deleteBatch))
      invariant report.resourcesFound == old(report.resourcesFound)
      invariant report.resourcesDeleted == old(report.resourcesDeleted)
      decreases |names| - i
    {
      RegionPlanStep(region, names, k);
      var batch := SliceFrom(names, i);
      var call := BatchCall(region, batch);
      BatchStep(account, plan[..k], call, deleteBatch, old(report.successes), old(report.errors));
      var d := RecordBatch(report, account, call, deleteBatch(call));
      deleted := deleted + d;
      i := i + BatchSize;
      k := k + 1;
      BatchCount(names, k);
    }
    assert plan[..k] == plan;
  }

  /** The deletion part of `list_ssm_parameters`: groups the selected
      parameters by region, runs the batch loop of each region in the order
      the regions first appeared, and records the number deleted under the
      bare account name. */
  method DeleteSsmParameters(report: CleanupReport, account: string, params: seq<Located>,
                             deleteBatch: BatchCall -> CallResult)
    returns (deletedCount: nat)
    requires report.Valid()
    modifies report
    ensures report.Valid()
    ensures deletedCount == DeletedOf(SsmPlan(params), deleteBatch) <= |params|
    ensures report.successes == AppendEach(old(report.successes), SuccessCallsOf(account, SsmPlan(params), deleteBatch))
    ensures report.errors == AppendEach(old(report.errors), ErrorCallsOf(account, SsmPlan(params), deleteBatch))
    ensures SumLengths(report.successes) == old(SumLengths(report.successes)) + deletedCount
    ensures SumLengths(report.successes) + SumLengths(report.errors)
         == old(SumLengths(report.successes)) + old(SumLengths(report.errors)) + |params|
    ensures report.resourcesDeleted == CountSet(old(report.resourcesDeleted), account, SsmParameters.tableType, deletedCount)
    ensures report.resourcesFound == old(report.resourcesFound)
  {
    var order, groups := GroupByRegion(params);
    deletedCount := 0;
    for g := 0 to |order|
      invariant report.Valid()
      invariant deletedCount == DeletedOf(PlanFor(params, order[..g]), deleteBatch)
      invariant report.successes == AppendEach(old(report.successes), SuccessCallsOf(account, PlanFor(params, order[..g]), deleteBatch))
      invariant report.errors == AppendEach(old(report.errors), ErrorCallsOf(account, PlanFor(params, order[..g]), deleteBatch))
      invariant report.resourcesFound == old(report.resourcesFound)
      invariant report.resourcesDeleted == old(report.resourcesDeleted)
    {
      var region := order[g];
      var names := groups[region];
      ghost var done := PlanFor(params, order[..g]);
      ghost var next := RegionPlan(region, names);
      PlanForStep(params, order, g);
      SuccessCallsConcat(account, done, next, deleteBatch);
      ErrorCallsConcat(account, done, next, deleteBatch);
      DeletedConcat(done, next, deleteBatch);
      AppendEachConcat(old(report.successes), SuccessCallsOf(account, done, deleteBatch), SuccessCallsOf(account, next, deleteBatch));
      AppendEachConcat(old(report.errors), ErrorCallsOf(account, done, deleteBatch), ErrorCallsOf(account, next, deleteBatch));
      var d := DeleteRegion(report, account, region, names, deleteBatch);
      deletedCount := deletedCount + d;
    }
    assert order[..|order|] == order;
    SsmAccounting(account, params, deleteBatch, old(report.successes), old(report.errors));
    report.AddResourceDeleted(account, SsmParameters.tableType, deletedCount, None);
  }

  /** `list_ssm_parameters`: lists every region; in delete mode, when
      anything was found, deletes it in batches. */
  method SweepSsm(report: CleanupReport, account: string, listings: seq<Listing>, deleteMode: bool,
                  deleteBatch: BatchCall -> CallResult)
    returns (found: seq<Located>, deletedCount: nat)
    requires report.Valid()
    modifies report
    ensures report.Valid()
    ensures found == FoundIn(listings)
    ensures report.resourcesFound == SetEach(old(report.resourcesFound), FoundCountCalls(account, SsmParameters, listings))
    ensures !deleteMode || found == [] ==>
      && deletedCount == 0
      && report.errors == AppendEach(old(report.errors), ListingErrorCalls(account, SsmParameters, listings))
      && report.successes == old(report.successes)
      && report.resourcesDeleted == old(report.resourcesDeleted)
    ensures deleteMode && found != [] ==>
      && deletedCount == DeletedOf(SsmPlan(found), deleteBatch) <= |found|
      && report.errors == AppendEach(AppendEach(old(report.errors), ListingErrorCalls(account, SsmParameters, listings)),
                                     ErrorCallsOf(account, SsmPlan(found), deleteBatch))
      && report.successes == AppendEach(old(report.successes), SuccessCallsOf(account, SsmPlan(found), deleteBatch))
      && report.resourcesDeleted == CountSet(old(report.resourcesDeleted), account, SsmParameters.tableType, deletedCount)
  {
    deletedCount := 0;
    found := ListAcrossRegions(report, account, SsmParameters, listings);
    if found == [] {
      return;
    }
    if deleteMode {
      deletedCount := DeleteSsmParameters(report, account, found, deleteBatch);
    }
  }
}
