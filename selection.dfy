/** The selection rule of the cleanup sweep: a listed resource is SRA's when
    its lower-cased name contains "sra"; a StackSet must also not be in
    status DELETED. Listings arrive page by page and are scanned in order. */
module Selection {
  import opened Text
  import opened Seqs

  /** The three characters of `name` from position i spell "sra" in any
      mix of upper and lower case. */
  ghost predicate SraAt(name: string, i: int)
  {
    0 <= i && i + 3 <= |name| && name[i] in "sS" && name[i + 1] in "rR" && name[i + 2] in "aA"
  }

  /** `'sra' in name.lower()`: "sra" occurs in the name, ignoring case. */
  predicate IsSraName(name: string): (b: bool)
    ensures b <==> exists i :: SraAt(name, i)
  {
    SraAtLower(name);
    Contains(Lower(name), "sra")
  }

  /** "sra" occurs in the lower-cased name exactly where the name spells it
      in any case. */
  lemma SraAtLower(name: string)
    ensures forall i :: OccursAt(Lower(name), "sra", i) <==> SraAt(name, i)
  {
    forall i | 0 <= i && i + 3 <= |name|
      ensures OccursAt(Lower(name), "sra", i) <==> SraAt(name, i)
    {
      var low := Lower(name);
      assert low[i..i + 3] == "sra" <==> low[i] == 's' && low[i + 1] == 'r' && low[i + 2] == 'a' by {
        assert low[i..i + 3] == [low[i], low[i + 1], low[i + 2]];
      }
    }
  }

  /** The test ignores case: a name and its lower-cased form are selected
      alike, so "SRA-Stack" and "sra-stack" are both taken. */
  lemma IsSraNameIgnoresCase(name: string)
    ensures IsSraName(Lower(name)) <==> IsSraName(name)
    ensures IsSraName("SRA-Stack") && IsSraName("sra-stack")
  {
    LowerIdempotent(name);
    assert Lower("SRA-Stack")[..3] == "sra";
    assert Lower("sra-stack")[..3] == "sra";
  }

  /** The SRA names of a listing, in listing order. */
  function FilterSra(names: seq<string>): (r: seq<string>)
    ensures forall x :: x in r <==> x in names && IsSraName(x)
    ensures |r| <= |names|
  {
    if names == [] then []
    else (if IsSraName(names[0]) then [names[0]] else []) + FilterSra(names[1..])
  }

  /** Filtering two listings one after the other is filtering their
      concatenation: the filter keeps listing order and works page by page. */
  lemma {:induction false} FilterSraAppend(a: seq<string>, b: seq<string>)
    ensures FilterSra(a + b) == FilterSra(a) + FilterSra(b)
  {
    if a == [] {
      assert a + b == b;
    } else {
      assert (a + b)[1..] == a[1..] + b;
      FilterSraAppend(a[1..], b);
    }
  }

  /** A one-name listing is kept exactly when the name is an SRA name. */
  lemma FilterSraSingle(name: string)
    ensures FilterSra([name]) == if IsSraName(name) then [name] else []
  {
    assert [name][1..] == [];
  }

  /** Every name of a listing is kept exactly when every name is an SRA
      name; no name is invented or reordered. */
  lemma {:induction false} FilterSraAllKept(names: seq<string>)
    ensures FilterSra(names) == names <==> forall i :: 0 <= i < |names| ==> IsSraName(names[i])
  {
    if names != [] {
      FilterSraAllKept(names[1..]);
      if !IsSraName(names[0]) {
        assert |FilterSra(names)| <= |names[1..]| < |names|;
      }
    }
  }

  /** The page loop of a listing function: walks the pages and their items
      and appends every SRA name to the result. */
  method SelectSraNames(pages: seq<seq<string>>) returns (selected: seq<string>)
    ensures selected == FilterSra(Flatten(pages))
  {
    selected := [];
    for p := 0 to |pages|
      invariant selected == FilterSra(Flatten(pages[..p]))
    {
      var page := pages[p];
      ghost var before := Flatten(pages[..p]);
      assert before + page[..0] == before;
      for j := 0 to |page|
        invariant selected == FilterSra(before + page[..j])
      {
        FilterSraStep(before, page, j);
        if IsSraName(page[j]) {
          selected := selected + [page[j]];
        }
      }
      assert page[..|page|] == page;
      FlattenPrefixStep(pages, p);
    }
    assert pages[..|pages|] == pages;
  }

  /** How the selection grows when one more listed name is scanned. */
  lemma FilterSraStep(before: seq<string>, page: seq<string>, j: nat)
    requires j < |page|
    ensures FilterSra(before + page[..j + 1]) == FilterSra(before + page[..j]) + (if IsSraName(page[j]) then [page[j]] else [])
  {
    assert page[..j + 1] == page[..j] + [page[j]];
    assert before + page[..j + 1] == (before + page[..j]) + [page[j]];
    FilterSraAppend(before + page[..j], [page[j]]);
    FilterSraSingle(page[j]);
  }

  // ----- StackSets -----

  /** A StackSet summary as listed: its name and its status. */
  datatype StackSetSummary = StackSetSummary(name: string, status: string)

  /** A StackSet is taken when its name is an SRA name and it is not DELETED. */
  predicate IsLiveSraStackSet(s: StackSetSummary): (b: bool)
    ensures b <==> s.status != "DELETED" && exists i :: SraAt(s.name, i)
  {
    IsSraName(s.name) && s.status != "DELETED"
  }

  /** The names of the selected StackSets, in listing order. */
  function FilterStackSets(summaries: seq<StackSetSummary>): (r: seq<string>)
    ensures forall x :: x in r <==> exists i :: 0 <= i < |summaries| && summaries[i].name == x && IsLiveSraStackSet(summaries[i])
  {
    if summaries == [] then []
    else
      var rest := FilterStackSets(summaries[1..]);
      assert forall i :: 1 <= i < |summaries| ==> summaries[i] == summaries[1..][i - 1];
      (if IsLiveSraStackSet(summaries[0]) then [summaries[0].name] else []) + rest
  }

  /** The names of the summaries that are not DELETED, in listing order. */
  function LiveNames(summaries: seq<StackSetSummary>): seq<string>
  {
    if summaries == [] then []
    else (if summaries[0].status != "DELETED" then [summaries[0].name] else []) + LiveNames(summaries[1..])
  }

  /** StackSet selection is the SRA name filter applied after dropping the
      DELETED StackSets: the two conditions are independent. */
  lemma {:induction false} FilterStackSetsIsFilterSra(summaries: seq<StackSetSummary>)
    ensures FilterStackSets(summaries) == FilterSra(LiveNames(summaries))
  {
    if summaries != [] {
      var s := summaries[0];
      FilterStackSetsIsFilterSra(summaries[1..]);
      var head := if s.status != "DELETED" then [s.name] else [];
      FilterSraAppend(head, LiveNames(summaries[1..]));
      if s.status != "DELETED" {
        FilterSraSingle(s.name);
      }
    }
  }

  lemma {:induction false} LiveNamesAppend(a: seq<StackSetSummary>, b: seq<StackSetSummary>)
    ensures LiveNames(a + b) == LiveNames(a) + LiveNames(b)
  {
    if a == [] {
      assert a + b == b;
    } else {
      assert (a + b)[0] == a[0] && (a + b)[1..] == a[1..] + b;
      LiveNamesAppend(a[1..], b);
    }
  }

  lemma FilterStackSetsAppend(a: seq<StackSetSummary>, b: seq<StackSetSummary>)
    ensures FilterStackSets(a + b) == FilterStackSets(a) + FilterStackSets(b)
  {
    FilterStackSetsIsFilterSra(a + b);
    FilterStackSetsIsFilterSra(a);
    FilterStackSetsIsFilterSra(b);
    LiveNamesAppend(a, b);
    FilterSraAppend(LiveNames(a), LiveNames(b));
  }

  /** The page loop of the StackSet listing. */
  method SelectStackSets(pages: seq<seq<StackSetSummary>>) returns (selected: seq<string>)
    ensures selected == FilterStackSets(Flatten(pages))
  {
    selected := [];
    for p := 0 to |pages|
      invariant selected == FilterStackSets(Flatten(pages[..p]))
    {
      var page := pages[p];
      assert Flatten(pages[..p]) + page[..0] == Flatten(pages[..p]);
      for j := 0 to |page|
        invariant selected == FilterStackSets(Flatten(pages[..p]) + page[..j])
      {
        assert page[..j + 1] == page[..j] + [page[j]];
        assert Flatten(pages[..p]) + page[..j + 1] == (Flatten(pages[..p]) + page[..j]) + [page[j]];
        FilterStackSetsAppend(Flatten(pages[..p]) + page[..j], [page[j]]);
        assert [page[j]][1..] == [];
        if IsLiveSraStackSet(page[j]) {
          selected := selected + [page[j].name];
        }
      }
      assert page[..|page|] == page;
      FlattenPrefixStep(pages, p);
    }
    assert pages[..|pages|] == pages;
  }
}
