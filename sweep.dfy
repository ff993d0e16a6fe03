/** The listing and deletion loops shared by the resource kinds of the cleanup
    sweep (`list_cloudformation_stacks`, `list_cloudwatch_log_groups`,
    `list_lambda_functions`, `list_iam_roles`, `list_s3_buckets` in
    cleanup-sra-dev.py). Every cloud call is an input: a listing is a list of
    pages or the text of the error it raised, and a deletion outcome is a
    function from the resource to what its delete call did. */
module Sweep {
  import opened Wrappers
  import opened Seqs
  import opened Selection
  import opened Ledger

  /** The record `{'name': ..., 'region': ...}` kept for a selected
      resource; resources of global services (IAM, S3) carry no region. */
  datatype Located = Located(name: string, region: Option<string>)

  /** What one listing returned: its pages of names, or the error it raised. */
  datatype ListingResult = Pages(pages: seq<seq<string>>) | ListingFailed(message: string)

  /** One listing: the region it was made in (none for a global service). */
  datatype Listing = Listing(region: Option<string>, result: ListingResult)

  /** What a single, unpaginated list call returned (`list_stacks`,
      `list_buckets`): the names of its one response, or its error. Later
      pages, if the service had any, are never read. */
  datatype Response = Response(region: Option<string>, result: ResponseResult)
  datatype ResponseResult = Names(names: seq<string>) | ResponseFailed(message: string)

  /** The two labels the report uses for a kind of resource: the plural for
      the count tables and listing errors, the singular for each item. */
  datatype ResourceKind = ResourceKind(tableType: string, itemType: string)

  const CloudFormationStacks := ResourceKind("CloudFormation Stacks", "CloudFormation Stack")
  const CloudWatchLogGroups := ResourceKind("CloudWatch Log Groups", "CloudWatch Log Group")
  const SsmParameters := ResourceKind("SSM Parameters", "SSM Parameter")
  const IamRoles := ResourceKind("IAM Roles", "IAM Role")
  const LambdaFunctions := ResourceKind("Lambda Functions", "Lambda Function")
  const S3Buckets := ResourceKind("S3 Buckets", "S3 Bucket")

  /** The resource name recorded for a failed listing. */
  const ListingName := "listado"

  /** Attaches the listing's region to each selected name. */
  function Tagged(names: seq<string>, region: Option<string>): (r: seq<Located>)
    ensures |r| == |names|
    ensures forall i :: 0 <= i < |r| ==> r[i] == Located(names[i], region)
  {
    seq(|names|, i requires 0 <= i < |names| => Located(names[i], region))
  }

  /** The SRA names one listing yields (none when it failed). */
  function Selected(l: Listing): seq<string>
  {
    if l.result.Pages? then FilterSra(Flatten(l.result.pages)) else []
  }

  /** A single response read as a listing of exactly one page. */
  function AsListing(r: Response): (l: Listing)
    ensures l.region == r.region
    ensures l.result.ListingFailed? <==> r.result.ResponseFailed?
    ensures r.result.ResponseFailed? ==> l.result.message == r.result.message
    ensures Selected(l) == if r.result.Names? then FilterSra(r.result.names) else []
  {
    match r.result
    case Names(names) =>
      assert [names][1..] == [];
      assert Flatten([names]) == names + Flatten<string>([]);
      assert Flatten([names]) == names;
      var l := Listing(r.region, Pages([names]));
      assert Selected(l) == FilterSra(names);
      l
    case ResponseFailed(message) => Listing(r.region, ListingFailed(message))
  }

  /** The responses of the regions, read as listings. */
  function AsListings(rs: seq<Response>): (ls: seq<Listing>)
    ensures |ls| == |rs|
    ensures forall i :: 0 <= i < |rs| ==> ls[i] == AsListing(rs[i])
  {
    seq(|rs|, i requires 0 <= i < |rs| => AsListing(rs[i]))
  }

  /** All resources selected over the listings, in listing order. */
  function FoundIn(ls: seq<Listing>): seq<Located>
  {
    if ls == [] then []
    else
      var last := ls[|ls| - 1];
      FoundIn(ls[..|ls| - 1]) + Tagged(Selected(last), last.region)
  }

  /** The error entries the listings add: one per failed listing. */
  function ListingErrorCalls(account: string, kind: ResourceKind, ls: seq<Listing>): seq<(string, ErrorEntry)>
  {
    if ls == [] then []
    else
      var last := ls[|ls| - 1];
      ListingErrorCalls(account, kind, ls[..|ls| - 1]) +
      (if last.result.ListingFailed?
       then [(ReportKey(account, last.region), ErrorEntry(kind.tableType, ListingName, last.result.message, last.region))]
       else [])
  }

  /** The counts the listings record: one per listing that found something. */
  function FoundCountCalls(account: string, kind: ResourceKind, ls: seq<Listing>): seq<(string, string, nat)>
  {
    if ls == [] then []
    else
      var last := ls[|ls| - 1];
      FoundCountCalls(account, kind, ls[..|ls| - 1]) +
      (if Selected(last) != [] then [(ReportKey(account, last.region), kind.tableType, |Selected(last)|)] else [])
  }

  /** Number of listings that raised an error. */
  function FailedListings(ls: seq<Listing>): nat
  {
    if ls == [] then 0
    else FailedListings(ls[..|ls| - 1]) + (if ls[|ls| - 1].result.ListingFailed? then 1 else 0)
  }

  /** Sum of the counts of a list of count settings. */
  function CountTotal(calls: seq<(string, string, nat)>): nat
  {
    if calls == [] then 0 else CountTotal(calls[..|calls| - 1]) + calls[|calls| - 1].2
  }

  /** Every selected resource has an SRA name and comes from one of the
      listings, with that listing's region. */
  lemma {:induction false} FoundInSelected(ls: seq<Listing>)
    ensures forall k :: 0 <= k < |FoundIn(ls)| ==>
      IsSraName(FoundIn(ls)[k].name) &&
      exists i :: 0 <= i < |ls| && FoundIn(ls)[k].region == ls[i].region && FoundIn(ls)[k].name in Selected(ls[i])
  {
    if ls != [] {
      var init := ls[..|ls| - 1];
      var last := ls[|ls| - 1];
      FoundInSelected(init);
      var tail := Tagged(Selected(last), last.region);
      forall k | 0 <= k < |FoundIn(ls)|
        ensures IsSraName(FoundIn(ls)[k].name)
        ensures exists i :: 0 <= i < |ls| && FoundIn(ls)[k].region == ls[i].region && FoundIn(ls)[k].name in Selected(ls[i])
      {
        if k < |FoundIn(init)| {
          assert FoundIn(ls)[k] == FoundIn(init)[k];
          var i :| 0 <= i < |init| && FoundIn(init)[k].region == init[i].region && FoundIn(init)[k].name in Selected(init[i]);
          assert init[i] == ls[i];
        } else {
          var j := k - |FoundIn(init)|;
          assert FoundIn(ls)[k] == tail[j];
          assert tail[j].name == Selected(last)[j];
          assert FoundIn(ls)[k].name in Selected(ls[|ls| - 1]);
        }
      }
    }
  }

  /** Every SRA name of every successful listing is collected, with that
      listing's region. */
  lemma {:induction false} FoundInComplete(ls: seq<Listing>, i: nat, name: string)
    requires i < |ls| && name in Selected(ls[i])
    ensures Located(name, ls[i].region) in FoundIn(ls)
  {
    var j :| 0 <= j < |Selected(ls[i])| && Selected(ls[i])[j] == name;
    FoundInAt(ls, i, j);
  }

  /** The j-th selected name of listing i is collected, by induction on the
      listings. */
  lemma {:induction false} FoundInAt(ls: seq<Listing>, i: nat, j: nat)
    requires i < |ls| && j < |Selected(ls[i])|
    ensures Located(Selected(ls[i])[j], ls[i].region) in FoundIn(ls)
  {
    var init := ls[..|ls| - 1];
    var last := ls[|ls| - 1];
    var tail := Tagged(Selected(last), last.region);
    var x := Located(Selected(ls[i])[j], ls[i].region);
    assert FoundIn(ls) == FoundIn(init) + tail;
    if i < |init| {
      assert init[i] == ls[i];
      FoundInAt(init, i, j);
      assert x in FoundIn(init);
    } else {
      assert tail[j] == x;
    }
  }

  /** The counts recorded for the listings add up to the number of resources
      selected: each listing records exactly how many it found. */
  lemma {:induction false} FoundCountsAddUp(account: string, kind: ResourceKind, ls: seq<Listing>)
    ensures CountTotal(FoundCountCalls(account, kind, ls)) == |FoundIn(ls)|
  {
    if ls != [] {
      var init := ls[..|ls| - 1];
      var last := ls[|ls| - 1];
      FoundCountsAddUp(account, kind, init);
      var prev := FoundCountCalls(account, kind, init);
      if Selected(last) != [] {
        var c := (ReportKey(account, last.region), kind.tableType, |Selected(last)|);
        assert (prev + [c])[..|prev + [c]| - 1] == prev;
      } else {
        assert prev + [] == prev;
      }
    }
  }

  /** Each failed listing adds exactly one error entry. */
  lemma {:induction false} ListingErrorsCount(account: string, kind: ResourceKind, ls: seq<Listing>)
    ensures |ListingErrorCalls(account, kind, ls)| == FailedListings(ls)
  {
    if ls != [] {
      ListingErrorsCount(account, kind, ls[..|ls| - 1]);
    }
  }

  /** How the listing summaries grow when one more listing is taken. */
  lemma ListingStep(account: string, kind: ResourceKind, ls: seq<Listing>, r: nat)
    requires r < |ls|
    ensures FoundIn(ls[..r + 1]) == FoundIn(ls[..r]) + Tagged(Selected(ls[r]), ls[r].region)
    ensures ListingErrorCalls(account, kind, ls[..r + 1]) == ListingErrorCalls(account, kind, ls[..r]) +
      (if ls[r].result.ListingFailed?
       then [(ReportKey(account, ls[r].region), ErrorEntry(kind.tableType, ListingName, ls[r].result.message, ls[r].region))]
       else [])
    ensures FoundCountCalls(account, kind, ls[..r + 1]) == FoundCountCalls(account, kind, ls[..r]) +
      (if Selected(ls[r]) != [] then [(ReportKey(account, ls[r].region), kind.tableType, |Selected(ls[r])|)] else [])
  {
    assert ls[..r + 1][..r] == ls[..r];
    assert ls[..r + 1][r] == ls[r];
  }

  /** The region loop of a listing function: lists each region, records a
      listing error or the number of SRA resources found there, and collects
      the selected resources. */
  method ListAcrossRegions(report: CleanupReport, account: string, kind: ResourceKind, listings: seq<Listing>)
    returns (found: seq<Located>)
    requires report.Valid()
    modifies report
    ensures report.Valid()
    ensures found == FoundIn(listings)
    ensures report.errors == AppendEach(old(report.errors), ListingErrorCalls(account, kind, listings))
    ensures report.resourcesFound == SetEach(old(report.resourcesFound), FoundCountCalls(account, kind, listings))
    ensures report.successes == old(report.successes)
    ensures report.resourcesDeleted == old(report.resourcesDeleted)
  {
    found := [];
    for r := 0 to |listings|
      invariant report.Valid()
      invariant found == FoundIn(listings[..r])
      invariant report.errors == AppendEach(old(report.errors), ListingErrorCalls(account, kind, listings[..r]))
      invariant report.resourcesFound == SetEach(old(report.resourcesFound), FoundCountCalls(account, kind, listings[..r]))
      invariant report.successes == old(report.successes)
      invariant report.resourcesDeleted == old(report.resourcesDeleted)
    {
      var listing := listings[r];
      ListingStep(account, kind, listings, r);
      ghost var errs := ListingErrorCalls(account, kind, listings[..r]);
      ghost var counts := FoundCountCalls(account, kind, listings[..r]);
      match listing.result {
        case ListingFailed(message) =>
          AppendEachSnoc(old(report.errors), errs, (ReportKey(account, listing.region), ErrorEntry(kind.tableType, ListingName, message, listing.region)));
          report.AddError(account, kind.tableType, ListingName, message, listing.region);
          assert Tagged([], listing.region) == [];
          assert found + [] == found && counts + [] == counts;
        case Pages(pages) =>
          var names := SelectSraNames(pages);
          assert errs + [] == errs;
          if names == [] {
            assert Tagged(names, listing.region) == [];
            assert found + [] == found && counts + [] == counts;
          } else {
            SetEachSnoc(old(report.resourcesFound), counts, (ReportKey(account, listing.region), kind.tableType, |names|));
            found := found + Tagged(names, listing.region);
            report.AddResourceFound(account, kind.tableType, |names|, listing.region);
          }
      }
    }
    assert listings[..|listings|] == listings;
  }

  // ----- deletion, one resource at a time -----

  /** The success entries a deletion loop adds: one per deleted resource. */
  function ItemSuccessCalls(account: string, kind: ResourceKind, items: seq<Located>, outcome: Located -> CallResult): seq<(string, SuccessEntry)>
  {
    if items == [] then []
    else
      var last := items[|items| - 1];
      ItemSuccessCalls(account, kind, items[..|items| - 1], outcome) +
      (if outcome(last).Done? then [(ReportKey(account, last.region), SuccessEntry(kind.itemType, last.name, last.region))] else [])
  }

  /** The error entries a deletion loop adds: one per resource whose delete failed. */
  function ItemErrorCalls(account: string, kind: ResourceKind, items: seq<Located>, outcome: Located -> CallResult): seq<(string, ErrorEntry)>
  {
    if items == [] then []
    else
      var last := items[|items| - 1];
      ItemErrorCalls(account, kind, items[..|items| - 1], outcome) +
      (if outcome(last).ClientError?
       then [(ReportKey(account, last.region), ErrorEntry(kind.itemType, last.name, outcome(last).message, last.region))]
       else [])
  }

  /** Every resource gets exactly one entry, a success or an error. */
  lemma {:induction false} ItemCallsPartition(account: string, kind: ResourceKind, items: seq<Located>, outcome: Located -> CallResult)
    ensures |ItemSuccessCalls(account, kind, items, outcome)| + |ItemErrorCalls(account, kind, items, outcome)| == |items|
  {
    if items != [] {
      ItemCallsPartition(account, kind, items[..|items| - 1], outcome);
    }
  }

  /** How the entry lists grow when one more resource is handled. */
  lemma ItemStep(account: string, kind: ResourceKind, items: seq<Located>, i: nat, outcome: Located -> CallResult)
    requires i < |items|
    ensures ItemSuccessCalls(account, kind, items[..i + 1], outcome) == ItemSuccessCalls(account, kind, items[..i], outcome) +
      (if outcome(items[i]).Done? then [(ReportKey(account, items[i].region), SuccessEntry(kind.itemType, items[i].name, items[i].region))] else [])
    ensures ItemErrorCalls(account, kind, items[..i + 1], outcome) == ItemErrorCalls(account, kind, items[..i], outcome) +
      (if outcome(items[i]).ClientError?
       then [(ReportKey(account, items[i].region), ErrorEntry(kind.itemType, items[i].name, outcome(items[i]).message, items[i].region))]
       else [])
  {
    assert items[..i + 1][..i] == items[..i];
    assert items[..i + 1][i] == items[i];
  }

  /** The delete loop of a listing function: deletes the selected resources
      one by one, logging each success or error, counts the deletions and
      records that count under the bare account name. */
  method DeleteEach(report: CleanupReport, account: string, kind: ResourceKind, items: seq<Located>, outcome: Located -> CallResult)
    returns (deletedCount: nat)
    requires report.Valid()
    modifies report
    ensures report.Valid()
    ensures deletedCount == |ItemSuccessCalls(account, kind, items, outcome)| <= |items|
    ensures report.successes == AppendEach(old(report.successes), ItemSuccessCalls(account, kind, items, outcome))
    ensures report.errors == AppendEach(old(report.errors), ItemErrorCalls(account, kind, items, outcome))
    ensures report.resourcesDeleted == CountSet(old(report.resourcesDeleted), account, kind.tableType, deletedCount)
    ensures report.resourcesFound == old(report.resourcesFound)
  {
    deletedCount := 0;
    for i := 0 to |items|
      invariant report.Valid()
      invariant deletedCount == |ItemSuccessCalls(account, kind, items[..i], outcome)|
      invariant report.successes == AppendEach(old(report.successes), ItemSuccessCalls(account, kind, items[..i], outcome))
      invariant report.errors == AppendEach(old(report.errors), ItemErrorCalls(account, kind, items[..i], outcome))
      invariant report.resourcesDeleted == old(report.resourcesDeleted)
      invariant report.resourcesFound == old(report.resourcesFound)
    {
      var item := items[i];
      ItemStep(account, kind, items, i, outcome);
      ghost var oks := ItemSuccessCalls(account, kind, items[..i], outcome);
      ghost var errs := ItemErrorCalls(account, kind, items[..i], outcome);
      match outcome(item) {
        case Done =>
          AppendEachSnoc(old(report.successes), oks, (ReportKey(account, item.region), SuccessEntry(kind.itemType, item.name, item.region)));
          report.AddSuccess(account, kind.itemType, item.name, item.region);
          deletedCount := deletedCount + 1;
          assert errs + [] == errs;
        case ClientError(message) =>
          AppendEachSnoc(old(report.errors), errs, (ReportKey(account, item.region), ErrorEntry(kind.itemType, item.name, message, item.region)));
          report.AddError(account, kind.itemType, item.name, message, item.region);
          assert oks + [] == oks;
      }
    }
    assert items[..|items|] == items;
    ItemCallsPartition(account, kind, items, outcome);
    report.AddResourceDeleted(account, kind.tableType, deletedCount, None);
  }

  /** What one whole listing function does to the report, from state
      `before` to state `after`: it records the found counts of every
      listing; when nothing was found, or in a dry run, it only adds the
      listing errors; otherwise it also deletes the resources found one by
      one and records how many went under the bare account name. */
  ghost predicate Swept(account: string, kind: ResourceKind, listings: seq<Listing>, deleteMode: bool,
                        outcome: Located -> CallResult, found: seq<Located>, deletedCount: nat,
                        before: ReportState, after: ReportState)
  {
    && found == FoundIn(listings)
    && after.resourcesFound == SetEach(before.resourcesFound, FoundCountCalls(account, kind, listings))
    && (!deleteMode || found == [] ==>
      && deletedCount == 0
      && after.errors == AppendEach(before.errors, ListingErrorCalls(account, kind, listings))
      && after.successes == before.successes
      && after.resourcesDeleted == before.resourcesDeleted)
    && (deleteMode && found != [] ==>
      && deletedCount == |ItemSuccessCalls(account, kind, found, outcome)| <= |found|
      && after.errors == AppendEach(AppendEach(before.errors, ListingErrorCalls(account, kind, listings)),
                                    ItemErrorCalls(account, kind, found, outcome))
      && after.successes == AppendEach(before.successes, ItemSuccessCalls(account, kind, found, outcome))
      && after.resourcesDeleted == CountSet(before.resourcesDeleted, account, kind.tableType, deletedCount))
  }

  /** One whole listing function: list every region, and in delete mode,
      when anything was found, delete it. */
  method SweepResource(report: CleanupReport, account: string, kind: ResourceKind, listings: seq<Listing>,
                       deleteMode: bool, outcome: Located -> CallResult)
    returns (found: seq<Located>, deletedCount: nat)
    requires report.Valid()
    modifies report
    ensures report.Valid()
    ensures found == FoundIn(listings)
    ensures Swept(account, kind, listings, deleteMode, outcome, found, deletedCount, old(report.State()), report.State())
  {
    deletedCount := 0;
    found := ListAcrossRegions(report, account, kind, listings);
    if found == [] {
      return;
    }
    if deleteMode {
      deletedCount := DeleteEach(report, account, kind, found, outcome);
    }
  }

  /** `list_cloudwatch_log_groups`: one paginated listing per region. */
  method SweepLogGroups(report: CleanupReport, account: string, listings: seq<Listing>, deleteMode: bool,
                        outcome: Located -> CallResult)
    returns (found: seq<Located>, deletedCount: nat)
    requires report.Valid()
    modifies report
    ensures report.Valid()
    ensures found == FoundIn(listings)
    ensures Swept(account, CloudWatchLogGroups, listings, deleteMode, outcome, found, deletedCount, old(report.State()), report.State())
  {
    found, deletedCount := SweepResource(report, account, CloudWatchLogGroups, listings, deleteMode, outcome);
  }

  /** `list_lambda_functions`: one paginated listing per region. */
  method SweepLambdaFunctions(report: CleanupReport, account: string, listings: seq<Listing>, deleteMode: bool,
                              outcome: Located -> CallResult)
    returns (found: seq<Located>, deletedCount: nat)
    requires report.Valid()
    modifies report
    ensures report.Valid()
    ensures found == FoundIn(listings)
    ensures Swept(account, LambdaFunctions, listings, deleteMode, outcome, found, deletedCount, old(report.State()), report.State())
  {
    found, deletedCount := SweepResource(report, account, LambdaFunctions, listings, deleteMode, outcome);
  }

  /** `list_iam_roles`: one paginated listing of the global IAM service, so
      every entry and count is under the bare account name. */
  method SweepRoles(report: CleanupReport, account: string, listing: ListingResult, deleteMode: bool,
                    outcome: Located -> CallResult)
    returns (found: seq<Located>, deletedCount: nat)
    requires report.Valid()
    modifies report
    ensures report.Valid()
    ensures found == FoundIn([Listing(None, listing)])
    ensures forall k :: 0 <= k < |found| ==> found[k].region == None
    ensures Swept(account, IamRoles, [Listing(None, listing)], deleteMode, outcome, found, deletedCount, old(report.State()), report.State())
  {
    FoundInSelected([Listing(None, listing)]);
    found, deletedCount := SweepResource(report, account, IamRoles, [Listing(None, listing)], deleteMode, outcome);
  }

  /** `list_s3_buckets`: the one `list_buckets` response of the global S3
      service. */
  method SweepBuckets(report: CleanupReport, account: string, response: ResponseResult, deleteMode: bool,
                      outcome: Located -> CallResult)
    returns (found: seq<Located>, deletedCount: nat)
    requires report.Valid()
    modifies report
    ensures report.Valid()
    ensures found == FoundIn([AsListing(Response(None, response))])
    ensures response.Names? ==> found == Tagged(FilterSra(response.names), None)
    ensures Swept(account, S3Buckets, [AsListing(Response(None, response))], deleteMode, outcome, found, deletedCount,
                  old(report.State()), report.State())
  {
    var listings := [AsListing(Response(None, response))];
    assert listings[..0] == [];
    found, deletedCount := SweepResource(report, account, S3Buckets, listings, deleteMode, outcome);
  }

  // ----- CloudFormation stacks: what the waiter and the status check decide -----

  /** What `describe_stacks` returned after a failed wait. */
  datatype DescribeResult = StackStatus(status: string) | DescribeFailed(message: string)

  /** Everything the cloud said while deleting one stack: the `delete_stack`
      call, whether the deletion waiter completed, and the status check made
      when it did not. */
  datatype StackDeletion = StackDeletion(deleteCall: CallResult, waiterCompleted: bool, describe: DescribeResult)

  /** Whether a stack counts as deleted, and the error text logged when not. */
  function StackOutcome(d: StackDeletion): (r: CallResult)
    ensures r.Done? <==> d.deleteCall.Done? && (d.waiterCompleted || d.describe == StackStatus("DELETE_COMPLETE"))
    ensures d.deleteCall.ClientError? ==> r == d.deleteCall
    ensures d.deleteCall.Done? && !d.waiterCompleted && d.describe.DescribeFailed? ==> r == ClientError(d.describe.message)
  {
    match d.deleteCall
    case ClientError(_) => d.deleteCall
    case Done =>
      if d.waiterCompleted then Done
      else match d.describe
        case DescribeFailed(message) => ClientError(message)
        case StackStatus(status) =>
          if status == "DELETE_COMPLETE" then Done
          else if status == "DELETE_FAILED" then ClientError("Estado: " + status + " - Requiere eliminación manual")
          else ClientError("Estado: " + status)
  }

  /** `list_cloudformation_stacks`: one unpaginated `list_stacks` response
      per region, then the generic sweep, with each stack's deletion decided
      by its delete call, waiter and status check. */
  method SweepStacks(report: CleanupReport, account: string, responses: seq<Response>, deleteMode: bool,
                     deletions: Located -> StackDeletion)
    returns (found: seq<Located>, deletedCount: nat)
    requires report.Valid()
    modifies report
    ensures report.Valid()
    ensures found == FoundIn(AsListings(responses))
    ensures Swept(account, CloudFormationStacks, AsListings(responses), deleteMode,
                  (l: Located) => StackOutcome(deletions(l)), found, deletedCount, old(report.State()), report.State())
  {
    found, deletedCount := SweepResource(report, account, CloudFormationStacks, AsListings(responses), deleteMode,
                                         (l: Located) => StackOutcome(deletions(l)));
  }
}
