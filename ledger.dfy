/** The in-memory cleanup report (`CleanupReport` in cleanup-sra-dev.py):
    two append-only logs, of errors and of successes, and two tables of
    resource counts, all grouped under a key built from the account name and
    the optional region. */
module Ledger {
  import opened Wrappers

  /** One entry of an error log: what failed, and the error's text. */
  datatype ErrorEntry = ErrorEntry(resourceType: string, resourceName: string, error: string, region: Option<string>)

  /** One entry of a success log. */
  datatype SuccessEntry = SuccessEntry(resourceType: string, resourceName: string, region: Option<string>)

  /** Python truthiness of the optional region: absent and `""` are both false. */
  predicate HasRegion(region: Option<string>)
  {
    region.Some? && region.value != ""
  }

  /** The region as the key records it: `""` is folded into "no region". */
  function KeyedRegion(region: Option<string>): Option<string>
  {
    if HasRegion(region) then region else None
  }

  /** The report key: `account (region)` when a non-empty region is given,
      the bare account name otherwise. */
  function ReportKey(account: string, region: Option<string>): (key: string)
    ensures account <= key
    ensures |key| == |account| <==> !HasRegion(region)
  {
    if HasRegion(region) then account + " (" + region.value + ")" else account
  }

  /** Reads the region back out of a key made for `account`. */
  function KeyRegion(account: string, key: string): Option<string>
  {
    if |key| < |account| + 4 then None else Some(key[|account| + 2..|key| - 1])
  }

  /** Decoding a key gives back the region it was built from (with `""`
      folded into "no region"): the key rule loses nothing else. */
  lemma ReportKeyRoundTrip(account: string, region: Option<string>)
    ensures KeyRegion(account, ReportKey(account, region)) == KeyedRegion(region)
  {
    if HasRegion(region) {
      var key := ReportKey(account, region);
      assert key[|account| + 2..|key| - 1] == region.value;
    }
  }

  /** Two regions of the same account share a report key only when they
      are the same region (or both are absent/empty). */
  lemma ReportKeyInjective(account: string, r1: Option<string>, r2: Option<string>)
    requires ReportKey(account, r1) == ReportKey(account, r2)
    ensures KeyedRegion(r1) == KeyedRegion(r2)
  {
    ReportKeyRoundTrip(account, r1);
    ReportKeyRoundTrip(account, r2);
  }

  // ----- the two logs: maps from key to append-only lists -----

  /** `defaultdict(list)` read: a missing key reads as the empty list. */
  function Lookup<V>(m: map<string, seq<V>>, key: string): seq<V>
  {
    if key in m then m[key] else []
  }

  /** The log after `log[key].append(e)`. */
  function Appended<V>(m: map<string, seq<V>>, key: string, e: V): (r: map<string, seq<V>>)
    ensures r.Keys == m.Keys + {key}
    ensures forall k :: Lookup(m, k) <= Lookup(r, k)
    ensures |Lookup(r, key)| == |Lookup(m, key)| + 1 && Lookup(r, key)[|Lookup(m, key)|] == e
    ensures forall k :: k != key ==> Lookup(r, k) == Lookup(m, k)
  {
    m[key := Lookup(m, key) + [e]]
  }

  /** The log after appending each `(key, entry)` pair in turn. */
  function AppendEach<V>(m: map<string, seq<V>>, calls: seq<(string, V)>): map<string, seq<V>>
  {
    if calls == [] then m
    else
      var last := calls[|calls| - 1];
      Appended(AppendEach(m, calls[..|calls| - 1]), last.0, last.1)
  }

  /** Appending one more entry to a run of appends. */
  lemma AppendEachSnoc<V>(m: map<string, seq<V>>, calls: seq<(string, V)>, c: (string, V))
    ensures AppendEach(m, calls + [c]) == Appended(AppendEach(m, calls), c.0, c.1)
  {
    assert (calls + [c])[..|calls|] == calls;
  }

  /** The tables after setting one more count. */
  lemma SetEachSnoc(m: map<string, map<string, nat>>, calls: seq<(string, string, nat)>, c: (string, string, nat))
    ensures SetEach(m, calls + [c]) == CountSet(SetEach(m, calls), c.0, c.1, c.2)
  {
    assert (calls + [c])[..|calls|] == calls;
  }

  /** Appending two batches of entries one after the other. */
  lemma {:induction false} AppendEachConcat<V>(m: map<string, seq<V>>, a: seq<(string, V)>, b: seq<(string, V)>)
    ensures AppendEach(m, a + b) == AppendEach(AppendEach(m, a), b)
    decreases |b|
  {
    if b == [] {
      assert a + b == a;
    } else {
      assert (a + b)[..|a + b| - 1] == a + b[..|b| - 1];
      AppendEachConcat(m, a, b[..|b| - 1]);
    }
  }

  /** No key of a log holds an empty list: keys are only created by appending. */
  ghost predicate NoEmptyLists<V>(m: map<string, seq<V>>)
  {
    forall k :: k in m ==> m[k] != []
  }

  /** Sum of the list lengths under the given keys. */
  ghost function SumOver<V>(m: map<string, seq<V>>, keys: set<string>): nat
    requires keys <= m.Keys
  {
    if keys == {} then 0 else var k :| k in keys; |m[k]| + SumOver(m, keys - {k})
  }

  /** `sum(len(v) for v in m.values())`: the summary's total. */
  ghost function SumLengths<V>(m: map<string, seq<V>>): nat
  {
    SumOver(m, m.Keys)
  }

  /** The sum may be taken by removing any key first. */
  lemma {:induction false} SumOverRemove<V>(m: map<string, seq<V>>, keys: set<string>, k: string)
    requires keys <= m.Keys && k in keys
    ensures SumOver(m, keys) == |m[k]| + SumOver(m, keys - {k})
    decreases |keys|
  {
    var j :| j in keys && SumOver(m, keys) == |m[j]| + SumOver(m, keys - {j});
    if j != k {
      SumOverRemove(m, keys - {j}, k);
      SumOverRemove(m, keys - {k}, j);
      assert keys - {j} - {k} == keys - {k} - {j};
    }
  }

  /** Every key of a log without empty lists adds at least one entry. */
  lemma {:induction false} SumOverAtLeastKeys<V>(m: map<string, seq<V>>, keys: set<string>)
    requires keys <= m.Keys && NoEmptyLists(m)
    ensures SumOver(m, keys) >= |keys|
    decreases |keys|
  {
    if keys != {} {
      var k :| k in keys;
      SumOverRemove(m, keys, k);
      SumOverAtLeastKeys(m, keys - {k});
    }
  }

  /** In a log where keys are only created by appending, the total is at
      least the number of keys, and it is zero exactly when the log is empty. */
  lemma NonEmptyLogTotal<V>(m: map<string, seq<V>>)
    requires NoEmptyLists(m)
    ensures SumLengths(m) >= |m.Keys|
    ensures SumLengths(m) == 0 <==> m == map[]
  {
    SumOverAtLeastKeys(m, m.Keys);
    if m != map[] {
      var k :| k in m;
      assert k in m.Keys;
    }
  }

  /** Two logs whose lists have the same lengths on `keys` have the same sum there. */
  lemma {:induction false} SumOverSameLengths<V>(m1: map<string, seq<V>>, m2: map<string, seq<V>>, keys: set<string>)
    requires keys <= m1.Keys && keys <= m2.Keys
    requires forall k :: k in keys ==> |m1[k]| == |m2[k]|
    ensures SumOver(m1, keys) == SumOver(m2, keys)
    decreases |keys|
  {
    if keys != {} {
      var k :| k in keys;
      SumOverRemove(m1, keys, k);
      SumOverRemove(m2, keys, k);
      SumOverSameLengths(m1, m2, keys - {k});
    }
  }

  /** One append raises the total by exactly one. */
  lemma SumAppended<V>(m: map<string, seq<V>>, key: string, e: V)
    ensures SumLengths(Appended(m, key, e)) == SumLengths(m) + 1
  {
    var r := Appended(m, key, e);
    SumOverRemove(r, r.Keys, key);
    SumOverSameLengths(r, m, m.Keys - {key});
    if key in m {
      SumOverRemove(m, m.Keys, key);
      assert r.Keys - {key} == m.Keys - {key};
    } else {
      assert r.Keys - {key} == m.Keys;
      assert m.Keys - {key} == m.Keys;
    }
  }

  /** After n appends the total has grown by n. */
  lemma {:induction false} SumAppendEach<V>(m: map<string, seq<V>>, calls: seq<(string, V)>)
    ensures SumLengths(AppendEach(m, calls)) == SumLengths(m) + |calls|
    decreases |calls|
  {
    if calls != [] {
      var last := calls[|calls| - 1];
      SumAppendEach(m, calls[..|calls| - 1]);
      SumAppended(AppendEach(m, calls[..|calls| - 1]), last.0, last.1);
    }
  }

  /** From an empty log, the total after n appends is n. */
  lemma TotalFromEmpty<V>(calls: seq<(string, V)>)
    ensures SumLengths(AppendEach(map[], calls)) == |calls|
  {
    SumAppendEach(map[], calls);
  }

  /** Appending many entries keeps every list non-empty. */
  lemma {:induction false} AppendEachKeepsNoEmptyLists<V>(m: map<string, seq<V>>, calls: seq<(string, V)>)
    requires NoEmptyLists(m)
    ensures NoEmptyLists(AppendEach(m, calls))
    decreases |calls|
  {
    if calls != [] {
      AppendEachKeepsNoEmptyLists(m, calls[..|calls| - 1]);
    }
  }

  /** Appending keeps every list non-empty. */
  lemma AppendedKeepsNoEmptyLists<V>(m: map<string, seq<V>>, key: string, e: V)
    requires NoEmptyLists(m)
    ensures NoEmptyLists(Appended(m, key, e))
  {
  }

  /** The loop behind the summary's totals: walks the keys of a log and adds
      up the lengths of their lists. */
  method SumValues<V>(m: map<string, seq<V>>) returns (total: nat)
    ensures total == SumLengths(m)
  {
    total := 0;
    var keys := m.Keys;
    while keys != {}
      invariant keys <= m.Keys
      invariant total + SumOver(m, keys) == SumLengths(m)
      decreases |keys|
    {
      var k :| k in keys;
      SumOverRemove(m, keys, k);
      total := total + |m[k]|;
      keys := keys - {k};
    }
  }

  // ----- the two count tables: maps from key to (resource type -> count) -----

  /** `defaultdict(dict)` read: a missing key reads as the empty table. */
  function Table(m: map<string, map<string, nat>>, key: string): map<string, nat>
  {
    if key in m then m[key] else map[]
  }

  /** The tables after `tables[key][resourceType] = count`. */
  function CountSet(m: map<string, map<string, nat>>, key: string, resourceType: string, count: nat): (r: map<string, map<string, nat>>)
    ensures r.Keys == m.Keys + {key}
    ensures Table(r, key).Keys == Table(m, key).Keys + {resourceType}
    ensures Table(r, key)[resourceType] == count
    ensures forall t :: t in Table(m, key) && t != resourceType ==> Table(r, key)[t] == Table(m, key)[t]
    ensures forall k :: k != key ==> Table(r, k) == Table(m, k)
  {
    m[key := Table(m, key)[resourceType := count]]
  }

  /** Setting the same count twice is the same as setting it once, and a
      later count for the same pair overwrites an earlier one. */
  lemma CountSetOverwrites(m: map<string, map<string, nat>>, key: string, resourceType: string, c1: nat, c2: nat)
    ensures CountSet(CountSet(m, key, resourceType, c1), key, resourceType, c2) == CountSet(m, key, resourceType, c2)
  {
    var once := CountSet(m, key, resourceType, c2);
    var twice := CountSet(CountSet(m, key, resourceType, c1), key, resourceType, c2);
    assert Table(twice, key) == Table(once, key);
    assert forall k :: k in twice ==> twice[k] == Table(twice, k);
    assert forall k :: k in once ==> once[k] == Table(once, k);
  }

  /** Counts for different (key, type) pairs do not interfere: the order of
      two settings does not matter. */
  lemma CountSetCommutes(m: map<string, map<string, nat>>, k1: string, t1: string, c1: nat, k2: string, t2: string, c2: nat)
    requires k1 != k2 || t1 != t2
    ensures CountSet(CountSet(m, k1, t1, c1), k2, t2, c2) == CountSet(CountSet(m, k2, t2, c2), k1, t1, c1)
  {
    if k1 != k2 {
      var u1 := Table(m, k1)[t1 := c1];
      var u2 := Table(m, k2)[t2 := c2];
      assert Table(m[k1 := u1], k2) == Table(m, k2);
      assert Table(m[k2 := u2], k1) == Table(m, k1);
      assert m[k1 := u1][k2 := u2] == m[k2 := u2][k1 := u1];
    } else {
      var table: map<string, nat> := Table(m, k1);
      assert table[t1 := c1][t2 := c2] == table[t2 := c2][t1 := c1];
    }
  }

  /** The tables after setting each `(key, type, count)` triple in turn. */
  function SetEach(m: map<string, map<string, nat>>, calls: seq<(string, string, nat)>): map<string, map<string, nat>>
  {
    if calls == [] then m
    else
      var last := calls[|calls| - 1];
      CountSet(SetEach(m, calls[..|calls| - 1]), last.0, last.1, last.2)
  }

  /** No key of a count table holds an empty table. */
  ghost predicate NoEmptyTables(m: map<string, map<string, nat>>)
  {
    forall k :: k in m ==> m[k] != map[]
  }

  /** The four fields of a report at one moment. */
  datatype ReportState = ReportState(
    errors: map<string, seq<ErrorEntry>>,
    successes: map<string, seq<SuccessEntry>>,
    resourcesFound: map<string, map<string, nat>>,
    resourcesDeleted: map<string, map<string, nat>>)

  /** The cleanup report. Each `add_*` method updates one field in place. */
  class CleanupReport {
    var errors: map<string, seq<ErrorEntry>>
    var successes: map<string, seq<SuccessEntry>>
    var resourcesFound: map<string, map<string, nat>>
    var resourcesDeleted: map<string, map<string, nat>>

    /** The class invariant: every key present holds at least one entry, as
        the source only creates a key when it records something under it. */
    ghost predicate Valid()
      reads this
    {
      NoEmptyLists(errors) && NoEmptyLists(successes) &&
      NoEmptyTables(resourcesFound) && NoEmptyTables(resourcesDeleted)
    }

    /** The report's fields as a value. */
    ghost function State(): ReportState
      reads this
    {
      ReportState(errors, successes, resourcesFound, resourcesDeleted)
    }

    /** A fresh, empty report; its totals are zero. */
    constructor ()
      ensures Valid()
      ensures errors == map[] && successes == map[]
      ensures resourcesFound == map[] && resourcesDeleted == map[]
      ensures SumLengths(errors) == 0 && SumLengths(successes) == 0
    {
      errors := map[];
      successes := map[];
      resourcesFound := map[];
      resourcesDeleted := map[];
    }

    /** `add_error`: appends one entry to the error list under the key. */
    method AddError(account: string, resourceType: string, resourceName: string, errorMsg: string, region: Option<string>)
      requires Valid()
      modifies this
      ensures Valid()
      ensures errors == Appended(old(errors), ReportKey(account, region), ErrorEntry(resourceType, resourceName, errorMsg, region))
      ensures SumLengths(errors) == old(SumLengths(errors)) + 1
      ensures successes == old(successes)
      ensures resourcesFound == old(resourcesFound) && resourcesDeleted == old(resourcesDeleted)
    {
      var key := ReportKey(account, region);
      var entry := ErrorEntry(resourceType, resourceName, errorMsg, region);
      SumAppended(errors, key, entry);
      errors := Appended(errors, key, entry);
    }

    /** `add_success`: appends one entry to the success list under the key. */
    method AddSuccess(account: string, resourceType: string, resourceName: string, region: Option<string>)
      requires Valid()
      modifies this
      ensures Valid()
      ensures successes == Appended(old(successes), ReportKey(account, region), SuccessEntry(resourceType, resourceName, region))
      ensures SumLengths(successes) == old(SumLengths(successes)) + 1
      ensures errors == old(errors)
      ensures resourcesFound == old(resourcesFound) && resourcesDeleted == old(resourcesDeleted)
    {
      var key := ReportKey(account, region);
      var entry := SuccessEntry(resourceType, resourceName, region);
      SumAppended(successes, key, entry);
      successes := Appended(successes, key, entry);
    }

    /** `add_resource_found`: sets (and overwrites) the count for the pair
        (key, resource type). */
    method AddResourceFound(account: string, resourceType: string, count: nat, region: Option<string>)
      requires Valid()
      modifies this
      ensures Valid()
      ensures resourcesFound == CountSet(old(resourcesFound), ReportKey(account, region), resourceType, count)
      ensures errors == old(errors) && successes == old(successes)
      ensures resourcesDeleted == old(resourcesDeleted)
    {
      var key := ReportKey(account, region);
      resourcesFound := CountSet(resourcesFound, key, resourceType, count);
    }

    /** `add_resource_deleted`: sets (and overwrites) the count for the pair
        (key, resource type). */
    method AddResourceDeleted(account: string, resourceType: string, count: nat, region: Option<string>)
      requires Valid()
      modifies this
      ensures Valid()
      ensures resourcesDeleted == CountSet(old(resourcesDeleted), ReportKey(account, region), resourceType, count)
      ensures errors == old(errors) && successes == old(successes)
      ensures resourcesFound == old(resourcesFound)
    {
      var key := ReportKey(account, region);
      resourcesDeleted := CountSet(resourcesDeleted, key, resourceType, count);
    }

    /** The two totals of `print_summary`: the number of error entries and of
        success entries over all keys. A log's section is printed when it has
        a key, and the error warning when its total is positive: by the
        invariant the two agree, and each printed key has an entry. */
    method Totals() returns (totalErrors: nat, totalSuccesses: nat)
      requires Valid()
      ensures totalErrors == SumLengths(errors)
      ensures totalSuccesses == SumLengths(successes)
      ensures totalErrors >= |errors.Keys| && (totalErrors > 0 <==> errors != map[])
      ensures totalSuccesses >= |successes.Keys| && (totalSuccesses > 0 <==> successes != map[])
    {
      NonEmptyLogTotal(errors);
      NonEmptyLogTotal(successes);
      totalErrors := SumValues(errors);
      totalSuccesses := SumValues(successes);
    }
  }
}
