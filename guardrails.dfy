/** Lookup of a Bedrock guardrail's id by its name (`SRABedrock.get_guardrail_id`
    in sra_bedrock.py). The `list_guardrails` paginator becomes a list of
    pages of guardrail summaries. */
module Guardrails {
  import opened Seqs

  /** A guardrail summary as listed: its name and its id. */
  datatype Guardrail = Guardrail(name: string, id: string)

  /** Some guardrail of the listing has exactly this name. */
  predicate HasName(items: seq<Guardrail>, name: string)
  {
    exists i :: 0 <= i < |items| && items[i].name == name
  }

  /** Guardrail i is the first of the listing named `name`. */
  ghost predicate FirstNamed(items: seq<Guardrail>, name: string, i: int)
  {
    0 <= i < |items| && items[i].name == name && forall j :: 0 <= j < i ==> items[j].name != name
  }

  /** The id of the first guardrail named `name` (the name compared exactly,
      without case folding), or "" when there is none. */
  function FirstMatchId(items: seq<Guardrail>, name: string): (id: string)
    ensures !HasName(items, name) ==> id == ""
    ensures HasName(items, name) ==> exists i :: FirstNamed(items, name, i) && id == items[i].id
  {
    if items == [] then ""
    else if items[0].name == name then
      assert FirstNamed(items, name, 0);
      items[0].id
    else
      var id := FirstMatchId(items[1..], name);
      FirstNamedShift(items, name, id);
      id
  }

  /** A first match after a head of another name is a first match of the
      whole listing, one position further on. */
  lemma FirstNamedShift(items: seq<Guardrail>, name: string, id: string)
    requires items != [] && items[0].name != name
    requires !HasName(items[1..], name) ==> id == ""
    requires HasName(items[1..], name) ==> exists i :: FirstNamed(items[1..], name, i) && id == items[1..][i].id
    ensures !HasName(items, name) ==> id == ""
    ensures HasName(items, name) ==> exists i :: FirstNamed(items, name, i) && id == items[i].id
  {
  }

  /** Searching two listings in turn: the first decides when it has a match. */
  lemma {:induction false} FirstMatchIdAppend(a: seq<Guardrail>, b: seq<Guardrail>, name: string)
    ensures FirstMatchId(a + b, name) == if HasName(a, name) then FirstMatchId(a, name) else FirstMatchId(b, name)
  {
    if a == [] {
      assert a + b == b;
    } else {
      assert (a + b)[1..] == a[1..] + b;
      FirstMatchIdAppend(a[1..], b, name);
      if a[0].name != name {
        assert HasName(a, name) <==> HasName(a[1..], name) by {
          if HasName(a, name) {
            var i :| 0 <= i < |a| && a[i].name == name;
            assert a[1..][i - 1] == a[i];
          }
          if HasName(a[1..], name) {
            var i :| 0 <= i < |a[1..]| && a[1..][i].name == name;
            assert a[i + 1] == a[1..][i];
          }
        }
      } else {
        assert HasName(a, name) by { assert a[0].name == name; }
      }
    }
  }

  /** The search as the nested loop runs it: a page with a match answers
      with its first match, otherwise the search goes on with the next page. */
  /** Searching page by page is searching the concatenated listing. */
  function PagedLookup(pages: seq<seq<Guardrail>>, name: string): (id: string)
    ensures id == FirstMatchId(Flatten(pages), name)
  {
    if pages == [] then ""
    else
      FirstMatchIdAppend(pages[0], Flatten(pages[1..]), name);
      if HasName(pages[0], name) then FirstMatchId(pages[0], name)
      else PagedLookup(pages[1..], name)
  }

  /** The answer depends only on the guardrails in listing order, not on how
      the paginator split them into pages. */
  lemma PaginationIrrelevant(pages1: seq<seq<Guardrail>>, pages2: seq<seq<Guardrail>>, name: string)
    requires Flatten(pages1) == Flatten(pages2)
    ensures PagedLookup(pages1, name) == PagedLookup(pages2, name)
  {
  }

  /** The loop's early return: guardrail j of page p is the first with the
      name, so its id is the answer for the whole listing. */
  lemma MatchAt(pages: seq<seq<Guardrail>>, p: nat, j: nat, name: string)
    requires p < |pages| && j < |pages[p]| && pages[p][j].name == name
    requires !HasName(Flatten(pages[..p]) + pages[p][..j], name)
    ensures FirstMatchId(Flatten(pages), name) == pages[p][j].id
  {
    var before := Flatten(pages[..p]) + pages[p][..j];
    var after := pages[p][j..] + Flatten(pages[p + 1..]);
    FlattenSplitAt(pages, p, j);
    FirstMatchIdAppend(before, after, name);
    assert after[0] == pages[p][j];
  }

  /** A scanned guardrail of another name keeps the name absent from what
      was scanned. */
  lemma NoMatchStep(before: seq<Guardrail>, page: seq<Guardrail>, j: nat, name: string)
    requires j < |page| && page[j].name != name
    requires !HasName(before + page[..j], name)
    ensures !HasName(before + page[..j + 1], name)
  {
    var s := before + page[..j + 1];
    assert s == (before + page[..j]) + [page[j]];
    forall i | 0 <= i < |s| ensures s[i].name != name {
      if i < |s| - 1 {
        assert s[i] == (before + page[..j])[i];
      }
    }
  }

  /** `get_guardrail_id`: scans the pages and their guardrails in order and
      returns the id of the first guardrail named `guardrailName`, or "". */
  method GetGuardrailId(pages: seq<seq<Guardrail>>, guardrailName: string) returns (guardrailId: string)
    ensures guardrailId == FirstMatchId(Flatten(pages), guardrailName)
  {
    guardrailId := "";
    for p := 0 to |pages|
      invariant !HasName(Flatten(pages[..p]), guardrailName)
    {
      var page := pages[p];
      for j := 0 to |page|
        invariant !HasName(Flatten(pages[..p]) + page[..j], guardrailName)
      {
        var guardrail := page[j];
        if guardrail.name == guardrailName {
          guardrailId := guardrail.id;
          MatchAt(pages, p, j, guardrailName);
          return;
        }
        NoMatchStep(Flatten(pages[..p]), page, j, guardrailName);
      }
      assert page[..|page|] == page;
      FlattenPrefixStep(pages, p);
    }
    assert pages[..|pages|] == pages;
  }
}
