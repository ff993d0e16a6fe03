/** Sequence helpers shared by the listing, batching and lookup models. */
module Seqs {

  /** Concatenation of a list of pages, in page order then item order. */
  function Flatten<T>(pages: seq<seq<T>>): (r: seq<T>)
  {
    if pages == [] then [] else pages[0] + Flatten(pages[1..])
  }

  /** Flattening distributes over concatenation of page lists. */
  lemma {:induction false} FlattenAppend<T>(a: seq<seq<T>>, b: seq<seq<T>>)
    ensures Flatten(a + b) == Flatten(a) + Flatten(b)
  {
    if a == [] {
      assert a + b == b;
    } else {
      assert (a + b)[1..] == a[1..] + b;
      FlattenAppend(a[1..], b);
    }
  }

  /** Appending one page to a page list appends its items to the flattening. */
  lemma FlattenSnoc<T>(a: seq<seq<T>>, page: seq<T>)
    ensures Flatten(a + [page]) == Flatten(a) + page
  {
    FlattenAppend(a, [page]);
    assert Flatten([page]) == page + Flatten([page][1..]);
    assert [page][1..] == [];
  }

  /** A page loop's turn p adds page p to what the earlier turns saw. */
  lemma FlattenPrefixStep<T>(pages: seq<seq<T>>, p: nat)
    requires p < |pages|
    ensures Flatten(pages[..p + 1]) == Flatten(pages[..p]) + pages[p]
  {
    assert pages[..p + 1] == pages[..p] + [pages[p]];
    FlattenSnoc(pages[..p], pages[p]);
  }

  /** Splitting a page list at item j of page p: the earlier pages and the
      first j items of page p, then the rest. */
  lemma FlattenSplitAt<T>(pages: seq<seq<T>>, p: nat, j: nat)
    requires p < |pages| && j <= |pages[p]|
    ensures Flatten(pages) == (Flatten(pages[..p]) + pages[p][..j]) + (pages[p][j..] + Flatten(pages[p + 1..]))
  {
    var page := pages[p];
    assert pages == pages[..p] + [page] + pages[p + 1..];
    FlattenAppend(pages[..p] + [page], pages[p + 1..]);
    FlattenSnoc(pages[..p], page);
    assert page == page[..j] + page[j..];
  }

  /** Sum of the page lengths. */
  function SumLens<T>(pages: seq<seq<T>>): nat
  {
    if pages == [] then 0 else |pages[0]| + SumLens(pages[1..])
  }

  /** The flattening holds as many items as all the pages together, whatever
      the length of each page. */
  lemma {:induction false} FlattenLength<T>(pages: seq<seq<T>>)
    ensures |Flatten(pages)| == SumLens(pages)
  {
    if pages != [] {
      FlattenLength(pages[1..]);
    }
  }
}
