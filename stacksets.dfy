/** `list_cloudformation_stacksets` in cleanup-sra-dev.py: select the live
    SRA StackSets, and in delete mode remove each one's instances in batches
    of ten and then the StackSet itself. Every cloud call is an input: the
    StackSet listing is its pages or its error, and the instance listing and
    the two delete calls are functions of their arguments. */
module StackSets {
  import opened Wrappers
  import opened Seqs
  import opened Selection
  import opened Ledger
  import opened Batching
  import Sweep

  /** The report labels used for StackSets. */
  const StackSetsType := "CloudFormation StackSets"
  const StackSetType := "CloudFormation StackSet"
  const InstancesType := "CloudFormation StackSet Instances"

  /** What `list_stack_sets` returned: its pages, or the error it raised. */
  datatype StackSetListing = StackSetPages(pages: seq<seq<StackSetSummary>>) | StackSetListingFailed(message: string)

  /** What `list_stack_instances` returned for one StackSet. */
  datatype InstanceListing = InstancePages(pages: seq<seq<StackInstance>>) | InstanceListingFailed(message: string)

  /** The arguments of one `delete_stack_instances` call. */
  datatype InstanceCall = InstanceCall(stackSetName: string, accounts: seq<string>, regions: seq<string>)

  /** What the cloud answers, call by call. */
  datatype StackSetCloud = StackSetCloud(
    listInstances: string -> InstanceListing,
    deleteInstances: InstanceCall -> CallResult,
    deleteStackSet: string -> CallResult)

  // ----- the instance batches -----

  /** The `delete_stack_instances` calls made for one StackSet: one per
      batch of ten instances, with the batch split into its accounts and its
      regions. */
  function InstanceCalls(name: string, instances: seq<StackInstance>): (r: seq<InstanceCall>)
    ensures |r| == |Batches(instances)|
  {
    var batches := Batches(instances);
    seq(|batches|, k requires 0 <= k < |batches| =>
      InstanceCall(name, SplitInstances(batches[k]).0, SplitInstances(batches[k]).1))
  }

  /** The instances each call targets, account and region paired back up. */
  function TargetsOf(calls: seq<InstanceCall>): (r: seq<seq<StackInstance>>)
    requires forall k :: 0 <= k < |calls| ==> |calls[k].accounts| == |calls[k].regions|
    ensures |r| == |calls|
  {
    seq(|calls|, k requires 0 <= k < |calls| => Zip(calls[k].accounts, calls[k].regions))
  }

  /** The calls for a StackSet all name it, and each carries one to ten
      instances with as many accounts as regions. Zipping each call's
      accounts and regions back together, call after call, gives the listed
      instances in order. */
  lemma InstanceCallsCover(name: string, instances: seq<StackInstance>)
    ensures forall k :: 0 <= k < |InstanceCalls(name, instances)| ==>
      && InstanceCalls(name, instances)[k].stackSetName == name
      && |InstanceCalls(name, instances)[k].accounts| == |InstanceCalls(name, instances)[k].regions|
      && 0 < |InstanceCalls(name, instances)[k].accounts| <= BatchSize
    ensures Flatten(TargetsOf(InstanceCalls(name, instances))) == instances
  {
    var calls := InstanceCalls(name, instances);
    var batches := Batches(instances);
    forall k | 0 <= k < |calls|
      ensures TargetsOf(calls)[k] == batches[k]
    {
      SplitZip(batches[k]);
    }
    assert TargetsOf(calls) == batches;
    BatchesFlatten(instances);
  }

  /** The error entries the failed instance batches add, under the bare
      account name. */
  function InstanceErrorCalls(account: string, calls: seq<InstanceCall>, deleteInstances: InstanceCall -> CallResult)
    : seq<(string, ErrorEntry)>
  {
    if calls == [] then []
    else
      var last := calls[|calls| - 1];
      InstanceErrorCalls(account, calls[..|calls| - 1], deleteInstances) +
      (if deleteInstances(last).ClientError?
       then [(ReportKey(account, None), ErrorEntry(InstancesType, last.stackSetName, deleteInstances(last).message, None))]
       else [])
  }

  /** Number of instance batches whose delete call failed. */
  function FailedCalls(calls: seq<InstanceCall>, deleteInstances: InstanceCall -> CallResult): nat
  {
    if calls == [] then 0
    else FailedCalls(calls[..|calls| - 1], deleteInstances) + (if deleteInstances(calls[|calls| - 1]).ClientError? then 1 else 0)
  }

  /** Each failed batch adds exactly one error entry, of the instances type,
      naming the StackSet. */
  lemma {:induction false} InstanceErrorsCount(account: string, calls: seq<InstanceCall>, deleteInstances: InstanceCall -> CallResult)
    ensures |InstanceErrorCalls(account, calls, deleteInstances)| == FailedCalls(calls, deleteInstances)
    ensures forall e :: e in InstanceErrorCalls(account, calls, deleteInstances) ==>
      e.0 == account && e.1.resourceType == InstancesType && e.1.region == None &&
      exists k :: 0 <= k < |calls| && e.1.resourceName == calls[k].stackSetName
  {
    if calls != [] {
      var init := calls[..|calls| - 1];
      InstanceErrorsCount(account, init, deleteInstances);
      forall e | e in InstanceErrorCalls(account, calls, deleteInstances)
        ensures e.0 == account && e.1.resourceType == InstancesType && e.1.region == None &&
          exists k :: 0 <= k < |calls| && e.1.resourceName == calls[k].stackSetName
      {
        if e in InstanceErrorCalls(account, init, deleteInstances) {
          var k :| 0 <= k < |init| && e.1.resourceName == init[k].stackSetName;
          assert init[k] == calls[k];
        } else {
          assert e.1.resourceName == calls[|calls| - 1].stackSetName;
        }
      }
    }
  }

  // ----- one StackSet -----

  /** Whether a StackSet ends up deleted: its instances could be listed and
      `delete_stack_set` succeeded. A failed instance batch does not stop the
      attempt. */
  predicate StackSetDeleted(cloud: StackSetCloud, name: string)
  {
    cloud.listInstances(name).InstancePages? && cloud.deleteStackSet(name).Done?
  }

  /** The success entry of one StackSet, if it was deleted. */
  function StackSetSuccessCalls(account: string, cloud: StackSetCloud, name: string): seq<(string, SuccessEntry)>
  {
    if StackSetDeleted(cloud, name) then [(ReportKey(account, None), SuccessEntry(StackSetType, name, None))] else []
  }

  /** The error entries of one StackSet: the failed listing of its
      instances, or the failed instance batches followed by the failed
      `delete_stack_set`, if it failed. */
  function StackSetErrorCalls(account: string, cloud: StackSetCloud, name: string): seq<(string, ErrorEntry)>
  {
    match cloud.listInstances(name)
    case InstanceListingFailed(message) =>
      [(ReportKey(account, None), ErrorEntry(StackSetType, name, message, None))]
    case InstancePages(pages) =>
      InstanceErrorCalls(account, InstanceCalls(name, Flatten(pages)), cloud.deleteInstances) +
      (if cloud.deleteStackSet(name).ClientError?
       then [(ReportKey(account, None), ErrorEntry(StackSetType, name, cloud.deleteStackSet(name).message, None))]
       else [])
  }

  /** Number of entries of a given resource type in a list of error entries. */
  function CountOfType(calls: seq<(string, ErrorEntry)>, resourceType: string): nat
  {
    if calls == [] then 0
    else CountOfType(calls[..|calls| - 1], resourceType) + (if calls[|calls| - 1].1.resourceType == resourceType then 1 else 0)
  }

  lemma {:induction false} CountOfTypeConcat(a: seq<(string, ErrorEntry)>, b: seq<(string, ErrorEntry)>, resourceType: string)
    ensures CountOfType(a + b, resourceType) == CountOfType(a, resourceType) + CountOfType(b, resourceType)
    decreases |b|
  {
    if b == [] {
      assert a + b == a;
    } else {
      assert (a + b)[..|a + b| - 1] == a + b[..|b| - 1];
      CountOfTypeConcat(a, b[..|b| - 1], resourceType);
    }
  }

  lemma {:induction false} InstanceErrorsUntyped(account: string, calls: seq<InstanceCall>, deleteInstances: InstanceCall -> CallResult)
    ensures CountOfType(InstanceErrorCalls(account, calls, deleteInstances), StackSetType) == 0
  {
    if calls != [] {
      var init := calls[..|calls| - 1];
      InstanceErrorsUntyped(account, init, deleteInstances);
      var last := calls[|calls| - 1];
      var tail := if deleteInstances(last).ClientError?
        then [(ReportKey(account, None), ErrorEntry(InstancesType, last.stackSetName, deleteInstances(last).message, None))]
        else [];
      CountOfTypeConcat(InstanceErrorCalls(account, init, deleteInstances), tail, StackSetType);
      assert tail != [] ==> tail[..0] == [];
    }
  }

  /** Every StackSet gets exactly one verdict: either a success entry, or
      one error entry of the StackSet type; the other errors it adds are one
      per failed instance batch. */
  lemma OneVerdict(account: string, cloud: StackSetCloud, name: string)
    ensures |StackSetSuccessCalls(account, cloud, name)| == if StackSetDeleted(cloud, name) then 1 else 0
    ensures |StackSetSuccessCalls(account, cloud, name)| + CountOfType(StackSetErrorCalls(account, cloud, name), StackSetType) == 1
    ensures cloud.listInstances(name).InstancePages? ==>
      CountOfType(StackSetErrorCalls(account, cloud, name), InstancesType)
      == FailedCalls(InstanceCalls(name, Flatten(cloud.listInstances(name).pages)), cloud.deleteInstances)
  {
    var key := ReportKey(account, None);
    match cloud.listInstances(name)
    case InstanceListingFailed(message) =>
      assert [(key, ErrorEntry(StackSetType, name, message, None))][..0] == [];
    case InstancePages(pages) =>
      var calls := InstanceCalls(name, Flatten(pages));
      var inst := InstanceErrorCalls(account, calls, cloud.deleteInstances);
      var tail := if cloud.deleteStackSet(name).ClientError?
        then [(key, ErrorEntry(StackSetType, name, cloud.deleteStackSet(name).message, None))]
        else [];
      assert tail != [] ==> tail[..0] == [];
      InstanceErrorsUntyped(account, calls, cloud.deleteInstances);
      CountOfTypeConcat(inst, tail, StackSetType);
      CountOfTypeConcat(inst, tail, InstancesType);
      InstanceErrorsTyped(account, calls, cloud.deleteInstances);
  }

  /** All entries of the failed instance batches are of the instances type. */
  lemma {:induction false} InstanceErrorsTyped(account: string, calls: seq<InstanceCall>, deleteInstances: InstanceCall -> CallResult)
    ensures CountOfType(InstanceErrorCalls(account, calls, deleteInstances), InstancesType) == FailedCalls(calls, deleteInstances)
  {
    if calls != [] {
      var init := calls[..|calls| - 1];
      InstanceErrorsTyped(account, init, deleteInstances);
      var last := calls[|calls| - 1];
      var tail := if deleteInstances(last).ClientError?
        then [(ReportKey(account, None), ErrorEntry(InstancesType, last.stackSetName, deleteInstances(last).message, None))]
        else [];
      CountOfTypeConcat(InstanceErrorCalls(account, init, deleteInstances), tail, InstancesType);
      assert tail != [] ==> tail[..0] == [];
    }
  }

  // ----- all StackSets -----

  /** The success entries of the delete loop, StackSet by StackSet. */
  function SuccessCalls(account: string, cloud: StackSetCloud, names: seq<string>): seq<(string, SuccessEntry)>
  {
    if names == [] then []
    else SuccessCalls(account, cloud, names[..|names| - 1]) + StackSetSuccessCalls(account, cloud, names[|names| - 1])
  }

  /** The error entries of the delete loop, StackSet by StackSet. */
  function ErrorCalls(account: string, cloud: StackSetCloud, names: seq<string>): seq<(string, ErrorEntry)>
  {
    if names == [] then []
    else ErrorCalls(account, cloud, names[..|names| - 1]) + StackSetErrorCalls(account, cloud, names[|names| - 1])
  }

  /** Number of the given StackSets that end up deleted. */
  function DeletedAmong(cloud: StackSetCloud, names: seq<string>): nat
  {
    if names == [] then 0
    else DeletedAmong(cloud, names[..|names| - 1]) + (if StackSetDeleted(cloud, names[|names| - 1]) then 1 else 0)
  }

  /** The delete loop's accounting: one success entry per deleted StackSet,
      at most one per StackSet, and every StackSet gets exactly one verdict,
      a success or an error of the StackSet type. */
  lemma {:induction false} StackSetsAccounting(account: string, cloud: StackSetCloud, names: seq<string>)
    ensures |SuccessCalls(account, cloud, names)| == DeletedAmong(cloud, names) <= |names|
    ensures |SuccessCalls(account, cloud, names)| + CountOfType(ErrorCalls(account, cloud, names), StackSetType) == |names|
  {
    if names != [] {
      var init := names[..|names| - 1];
      var last := names[|names| - 1];
      StackSetsAccounting(account, cloud, init);
      OneVerdict(account, cloud, last);
      CountOfTypeConcat(ErrorCalls(account, cloud, init), StackSetErrorCalls(account, cloud, last), StackSetType);
    }
  }

  /** The StackSets recorded as deleted are exactly the listed ones that
      the cloud let be deleted. */
  lemma {:induction false} DeletedAreListed(account: string, cloud: StackSetCloud, names: seq<string>, name: string)
    ensures (ReportKey(account, None), SuccessEntry(StackSetType, name, None)) in SuccessCalls(account, cloud, names)
        <==> name in names && StackSetDeleted(cloud, name)
  {
    if names != [] {
      var init := names[..|names| - 1];
      DeletedAreListed(account, cloud, init, name);
      assert names == init + [names[|names| - 1]];
    }
  }

  lemma StackSetStep(account: string, cloud: StackSetCloud, names: seq<string>, i: nat)
    requires i < |names|
    ensures SuccessCalls(account, cloud, names[..i + 1]) == SuccessCalls(account, cloud, names[..i]) + StackSetSuccessCalls(account, cloud, names[i])
    ensures ErrorCalls(account, cloud, names[..i + 1]) == ErrorCalls(account, cloud, names[..i]) + StackSetErrorCalls(account, cloud, names[i])
    ensures DeletedAmong(cloud, names[..i + 1]) == DeletedAmong(cloud, names[..i]) + (if StackSetDeleted(cloud, names[i]) then 1 else 0)
  {
    assert names[..i + 1][..i] == names[..i];
    assert names[..i + 1][i] == names[i];
  }

  // ----- the loops -----

  /** The page loop of `list_stack_instances`: collects every instance. */
  method CollectInstances(pages: seq<seq<StackInstance>>) returns (instances: seq<StackInstance>)
    ensures instances == Flatten(pages)
  {
    instances := [];
    for p := 0 to |pages|
      invariant instances == Flatten(pages[..p])
    {
      var page := pages[p];
      assert Flatten(pages[..p]) + page[..0] == Flatten(pages[..p]);
      for j := 0 to |page|
        invariant instances == Flatten(pages[..p]) + page[..j]
      {
        assert page[..j + 1] == page[..j] + [page[j]];
        instances := instances + [page[j]];
      }
      assert page[..|page|] == page;
      assert pages[..p + 1] == pages[..p] + [page];
      FlattenSnoc(pages[..p], page);
    }
    assert pages[..|pages|] == pages;
  }

  /** The batch loop over a StackSet's instances: one
      `delete_stack_instances` call per batch of ten, an error entry for each
      call that fails, and on to the next batch either way. */
  method DeleteInstances(report: CleanupReport, account: string, name: string, instances: seq<StackInstance>,
                         deleteInstances: InstanceCall -> CallResult)
    requires report.Valid()
    modifies report
    ensures report.Valid()
    ensures report.errors == AppendEach(old(report.errors), InstanceErrorCalls(account, InstanceCalls(name, instances), deleteInstances))
    ensures report.successes == old(report.successes)
    ensures report.resourcesFound == old(report.resourcesFound)
    ensures report.resourcesDeleted == old(report.resourcesDeleted)
  {
    var calls := InstanceCalls(name, instances);
    var i := 0;
    ghost var k := 0;
    while i < |instances|
      invariant i == k * BatchSize && k <= |calls|
      invariant k < |calls| <==> i < |instances|
      invariant report.Valid()
      invariant report.errors == AppendEach(old(report.errors), InstanceErrorCalls(account, calls[..k], deleteInstances))
      invariant report.successes == old(report.successes)
      invariant report.resourcesFound == old(report.resourcesFound)
      invariant report.resourcesDeleted == old(report.resourcesDeleted)
      decreases |instances| - i
    {
      var batch := SliceFrom(instances, i);
      BatchAt(instances, k);
      var (accounts, regions) := SplitInstances(batch);
      var call := InstanceCall(name, accounts, regions);
      assert call == calls[k];
      assert calls[..k + 1][..k] == calls[..k];
      ghost var errs := InstanceErrorCalls(account, calls[..k], deleteInstances);
      match deleteInstances(call) {
        case Done =>
          assert errs + [] == errs;
        case ClientError(message) =>
          AppendEachSnoc(old(report.errors), errs, (ReportKey(account, None), ErrorEntry(InstancesType, name, message, None)));
          report.AddError(account, InstancesType, name, message, None);
      }
      i := i + BatchSize;
      k := k + 1;
      BatchCount(instances, k);
    }
    assert calls[..k] == calls;
  }

  /** The body of the StackSet loop: list the instances, delete them in
      batches, then delete the StackSet; a failed listing or a failed
      `delete_stack_set` is the StackSet's error entry. */
  method DeleteStackSet(report: CleanupReport, account: string, name: string, cloud: StackSetCloud)
    returns (deleted: bool)
    requires report.Valid()
    modifies report
    ensures report.Valid()
    ensures deleted == StackSetDeleted(cloud, name)
    ensures report.successes == AppendEach(old(report.successes), StackSetSuccessCalls(account, cloud, name))
    ensures report.errors == AppendEach(old(report.errors), StackSetErrorCalls(account, cloud, name))
    ensures report.resourcesFound == old(report.resourcesFound)
    ensures report.resourcesDeleted == old(report.resourcesDeleted)
  {
    var key := ReportKey(account, None);
    match cloud.listInstances(name) {
      case InstanceListingFailed(message) =>
        AppendEachSnoc(old(report.errors), [], (key, ErrorEntry(StackSetType, name, message, None)));
        assert [] + [(key, ErrorEntry(StackSetType, name, message, None))] == [(key, ErrorEntry(StackSetType, name, message, None))];
        report.AddError(account, StackSetType, name, message, None);
        deleted := false;
      case InstancePages(pages) =>
        var instances := CollectInstances(pages);
        DeleteInstances(report, account, name, instances, cloud.deleteInstances);
        ghost var inst := InstanceErrorCalls(account, InstanceCalls(name, instances), cloud.deleteInstances);
        match cloud.deleteStackSet(name) {
          case Done =>
            AppendEachSnoc(old(report.successes), [], (key, SuccessEntry(StackSetType, name, None)));
            assert [] + [(key, SuccessEntry(StackSetType, name, None))] == [(key, SuccessEntry(StackSetType, name, None))];
            report.AddSuccess(account, StackSetType, name, None);
            assert inst + [] == inst;
            deleted := true;
          case ClientError(message) =>
            AppendEachSnoc(old(report.errors), inst, (key, ErrorEntry(StackSetType, name, message, None)));
            report.AddError(account, StackSetType, name, message, None);
            deleted := false;
        }
    }
  }

  /** The delete loop over the selected StackSets, then the number deleted
      recorded under the bare account name. */
  method DeleteStackSets(report: CleanupReport, account: string, names: seq<string>, cloud: StackSetCloud)
    returns (deletedCount: nat)
    requires report.Valid()
    modifies report
    ensures report.Valid()
    ensures deletedCount == DeletedAmong(cloud, names) <= |names|
    ensures report.successes == AppendEach(old(report.successes), SuccessCalls(account, cloud, names))
    ensures report.errors == AppendEach(old(report.errors), ErrorCalls(account, cloud, names))
    ensures report.resourcesDeleted == CountSet(old(report.resourcesDeleted), account, StackSetsType, deletedCount)
    ensures report.resourcesFound == old(report.resourcesFound)
  {
    deletedCount := 0;
    for i := 0 to |names|
      invariant report.Valid()
      invariant deletedCount == DeletedAmong(cloud, names[..i])
      invariant report.successes == AppendEach(old(report.successes), SuccessCalls(account, cloud, names[..i]))
      invariant report.errors == AppendEach(old(report.errors), ErrorCalls(account, cloud, names[..i]))
      invariant report.resourcesDeleted == old(report.resourcesDeleted)
      invariant report.resourcesFound == old(report.resourcesFound)
    {
      StackSetStep(account, cloud, names, i);
      AppendEachConcat(old(report.successes), SuccessCalls(account, cloud, names[..i]), StackSetSuccessCalls(account, cloud, names[i]));
      AppendEachConcat(old(report.errors), ErrorCalls(account, cloud, names[..i]), StackSetErrorCalls(account, cloud, names[i]));
      var deleted := DeleteStackSet(report, account, names[i], cloud);
      if deleted {
        deletedCount := deletedCount + 1;
      }
    }
    assert names[..|names|] == names;
    StackSetsAccounting(account, cloud, names);
    report.AddResourceDeleted(account, StackSetsType, deletedCount, None);
  }

  /** `list_cloudformation_stacksets`: a failed listing is one error entry;
      otherwise the live SRA StackSets are counted when there are any, and
      in delete mode deleted. */
  method SweepStackSets(report: CleanupReport, account: string, listing: StackSetListing, deleteMode: bool, cloud: StackSetCloud)
    returns (selected: seq<string>, deletedCount: nat)
    requires report.Valid()
    modifies report
    ensures report.Valid()
    ensures listing.StackSetListingFailed? ==>
      && selected == [] && deletedCount == 0
      && report.errors == Appended(old(report.errors), account, ErrorEntry(StackSetsType, Sweep.ListingName, listing.message, None))
      && report.successes == old(report.successes)
      && report.resourcesFound == old(report.resourcesFound)
      && report.resourcesDeleted == old(report.resourcesDeleted)
    ensures listing.StackSetPages? ==> selected == FilterStackSets(Flatten(listing.pages))
    ensures listing.StackSetPages? && selected == [] ==>
      && deletedCount == 0
      && report.errors == old(report.errors) && report.successes == old(report.successes)
      && report.resourcesFound == old(report.resourcesFound)
      && report.resourcesDeleted == old(report.resourcesDeleted)
    ensures listing.StackSetPages? && selected != [] ==>
      report.resourcesFound == CountSet(old(report.resourcesFound), account, StackSetsType, |selected|)
    ensures listing.StackSetPages? && selected != [] && !deleteMode ==>
      && deletedCount == 0
      && report.errors == old(report.errors) && report.successes == old(report.successes)
      && report.resourcesDeleted == old(report.resourcesDeleted)
    ensures listing.StackSetPages? && selected != [] && deleteMode ==>
      && deletedCount == DeletedAmong(cloud, selected) <= |selected|
      && report.successes == AppendEach(old(report.successes), SuccessCalls(account, cloud, selected))
      && report.errors == AppendEach(old(report.errors), ErrorCalls(account, cloud, selected))
      && report.resourcesDeleted == CountSet(old(report.resourcesDeleted), account, StackSetsType, deletedCount)
  {
    selected := [];
    deletedCount := 0;
    match listing {
      case StackSetListingFailed(message) =>
        report.AddError(account, StackSetsType, Sweep.ListingName, message, None);
      case StackSetPages(pages) =>
        selected := SelectStackSets(pages);
        if selected == [] {
          return;
        }
        report.AddResourceFound(account, StackSetsType, |selected|, None);
        if deleteMode {
          deletedCount := DeleteStackSets(report, account, selected, cloud);
        }
    }
  }
}
