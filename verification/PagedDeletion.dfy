/** Paged, filtered, chunked deletion of everything a query matches.  A page is any set of
    matching documents of the requested size. */
module PagedDeletion {
  import opened Common

  type Doc = nat

  const SAFE_BATCH_CHUNK_SIZE: nat := 400
  const DEFAULT_CLEANUP_PAGE_SIZE: nat := 400
  const DEFAULT_MAX_CLEANUP_PAGES: nat := 10

  function SetOf(refs: seq<Doc>): set<Doc> {
    set d | d in refs
  }

  ghost predicate NoDuplicates(refs: seq<Doc>) {
    forall i, j :: 0 <= i < j < |refs| ==> refs[i] != refs[j]
  }

  lemma {:induction false} SetOfSize(refs: seq<Doc>)
    requires NoDuplicates(refs)
    ensures |SetOf(refs)| == |refs|
  {
    if refs == [] {
      assert SetOf(refs) == {};
    } else {
      var front := refs[..|refs| - 1];
      SetOfSize(front);
      assert SetOf(refs) == SetOf(front) + {refs[|refs| - 1]};
    }
  }

  /** What `query.limit(n).get()` may answer when `docs` match. */
  ghost predicate IsPage(docs: set<Doc>, n: nat, page: set<Doc>) {
    page <= docs && |page| == Min(n, |docs|)
  }

  /** The documents a call with `pages` pages left may leave behind, and its `truncated`. */
  ghost predicate CanReturn(docs: set<Doc>, excluded: set<Doc>, pageSize: nat, pages: nat, left: set<Doc>, truncated: bool)
    decreases pages
  {
    if pages == 0 then left == docs && !truncated
    else exists page :: IsPage(docs, pageSize, page) && AfterPage(docs, excluded, pageSize, pages, page, left, truncated)
  }

  /** The rest of the call, once its first page is `page`. */
  ghost predicate AfterPage(docs: set<Doc>, excluded: set<Doc>, pageSize: nat, pages: nat, page: set<Doc>,
                            left: set<Doc>, truncated: bool)
    requires pages > 0
    decreases pages, 0
  {
    if page <= excluded then left == docs && !truncated
    else
      var rest := docs - (page - excluded);
      if |page| < pageSize || pages == 1 then left == rest && truncated == (|page| >= pageSize)
      else CanReturn(rest, excluded, pageSize, pages - 1, left, truncated)
  }

  /** Firestore refuses a batch of more writes than this. */
  const MAX_BATCH_WRITES: nat := 500

  class Collection {
    var docs: set<Doc>
    var commits: nat          // batches committed or tried so far
    const up: nat -> bool     // whether the database takes the batch of that number

    constructor (docs: set<Doc>, up: nat -> bool)
      ensures this.docs == docs && commits == 0 && this.up == up
    {
      this.docs, commits, this.up := docs, 0, up;
    }

    method Get(limit: nat) returns (snapshot: seq<Doc>)
      ensures NoDuplicates(snapshot) && IsPage(docs, limit, SetOf(snapshot))
    {
      snapshot := [];
      var others := docs;
      while |snapshot| < limit && others != {}
        invariant NoDuplicates(snapshot) && |snapshot| <= limit
        invariant others == docs - SetOf(snapshot) && SetOf(snapshot) <= docs
        decreases limit - |snapshot|
      {
        var d :| d in others;
        assert SetOf(snapshot + [d]) == SetOf(snapshot) + {d};
        others := others - {d};
        snapshot := snapshot + [d];
      }
      SetOfSize(snapshot);
      if others == {} {
        assert docs <= SetOf(snapshot) by {
          assert forall d :: d in docs - SetOf(snapshot) ==> d in others;
        }
        assert SetOf(snapshot) == docs;
      } else {
        assert SetOf(snapshot) < docs;
        SubsetSize(SetOf(snapshot), docs);
      }
    }

    /** One write batch; it is done as a whole or not at all. */
    method Commit(chunk: seq<Doc>) returns (ok: bool)
      modifies this
      ensures ok == (up(old(commits)) && |chunk| <= MAX_BATCH_WRITES)
      ensures docs == if ok then old(docs) - SetOf(chunk) else old(docs)
      ensures commits == old(commits) + 1
    {
      ok := up(commits) && |chunk| <= MAX_BATCH_WRITES;
      commits := commits + 1;
      if ok {
        docs := docs - SetOf(chunk);
      }
    }
  }

  lemma SubsetSize(a: set<Doc>, b: set<Doc>)
    requires a <= b
    ensures |a| <= |b|
    ensures |b - a| == |b| - |a|
  {
  }

  lemma Covered(page: set<Doc>, excluded: set<Doc>)
    ensures page <= excluded <==> |page - excluded| == 0
  {
    if |page - excluded| == 0 {
      assert forall d :: d in page && d !in excluded ==> d in page - excluded;
    }
  }

  /** Deletes the references chunk by chunk; a batch that fails ends it, and none fails for its size
      if the chunks are within the limit. */
  method DeleteDocumentsInChunks(c: Collection, refs: seq<Doc>, chunkSize: nat) returns (deletedCount: nat, ok: bool)
    requires chunkSize > 0
    modifies c
    ensures ok ==> c.docs == old(c.docs) - SetOf(refs) && deletedCount == |refs|
    ensures old(c.docs) - SetOf(refs) <= c.docs <= old(c.docs)
    ensures chunkSize <= 500 && (forall i :: c.up(i)) ==> ok
  {
    deletedCount := 0;
    var offset := 0;
    while offset < |refs|
      invariant deletedCount == Min(offset, |refs|)
      invariant c.docs == old(c.docs) - SetOf(refs[..Min(offset, |refs|)])
    {
      var end := Min(offset + chunkSize, |refs|);
      var chunk := refs[offset..end];
      ok := c.Commit(chunk);
      if !ok {
        return;
      }
      assert refs[..end] == refs[..offset] + chunk;
      assert SetOf(refs[..end]) == SetOf(refs[..offset]) + SetOf(chunk);
      deletedCount := deletedCount + |chunk|;
      offset := offset + chunkSize;
    }
    assert refs[..Min(offset, |refs|)] == refs;
    ok := true;
  }

  /** The documents of a page that the filter lets through. */
  method Deletable(snapshot: seq<Doc>, excluded: set<Doc>) returns (refs: seq<Doc>)
    requires NoDuplicates(snapshot)
    ensures NoDuplicates(refs) && SetOf(refs) == SetOf(snapshot) - excluded
  {
    refs := [];
    for i := 0 to |snapshot|
      invariant NoDuplicates(refs) && SetOf(refs) == SetOf(snapshot[..i]) - excluded
    {
      assert snapshot[..i + 1] == snapshot[..i] + [snapshot[i]];
      assert SetOf(snapshot[..i + 1]) == SetOf(snapshot[..i]) + {snapshot[i]};
      assert snapshot[i] !in SetOf(snapshot[..i]);
      if snapshot[i] !in excluded {
        assert SetOf(refs + [snapshot[i]]) == SetOf(refs) + {snapshot[i]};
        assert snapshot[i] !in SetOf(refs);
        refs := refs + [snapshot[i]];
      }
    }
    assert snapshot[..|snapshot|] == snapshot;
  }

  function OrDefault(option: Option<nat>, default: nat): nat {
    match option
    case Some(n) => n
    case None => default
  }

  method DeletePagedQueryResults(c: Collection, excluded: set<Doc>, pageSizeOption: Option<nat>, maxPagesOption: Option<nat>)
    returns (deletedCount: nat, truncated: bool, ok: bool)
    modifies c
    ensures old(c.docs) * excluded <= c.docs <= old(c.docs)
    ensures ok ==> CanReturn(old(c.docs), excluded, OrDefault(pageSizeOption, 400), OrDefault(maxPagesOption, 10),
                             c.docs, truncated)
    ensures ok ==> deletedCount == |old(c.docs)| - |c.docs|
    ensures (forall i :: c.up(i)) ==> ok
  {
    var pageSize := OrDefault(pageSizeOption, DEFAULT_CLEANUP_PAGE_SIZE);
    var maxPages := OrDefault(maxPagesOption, DEFAULT_MAX_CLEANUP_PAGES);
    deletedCount, truncated, ok := 0, false, true;
    var page := 0;
    ghost var start := c.docs;
    while page < maxPages
      invariant 0 <= page <= maxPages
      invariant start * excluded <= c.docs <= start
      invariant deletedCount == |start| - |c.docs|
      invariant truncated ==> page == maxPages
      invariant page < maxPages ==>
          forall left, t :: CanReturn(c.docs, excluded, pageSize, maxPages - page, left, t) ==>
                              CanReturn(start, excluded, pageSize, maxPages, left, t)
      invariant page == maxPages ==> CanReturn(start, excluded, pageSize, maxPages, c.docs, truncated)
    {
      ghost var before := c.docs;
      var snapshot := c.Get(pageSize);
      ghost var p := SetOf(snapshot);
      SetOfSize(snapshot);
      var refs := Deletable(snapshot, excluded);
      SetOfSize(refs);
      Covered(p, excluded);
      if |snapshot| == 0 || |refs| == 0 {
        assert AfterPage(before, excluded, pageSize, maxPages - page, p, before, false);
        return;
      }
      var n;
      n, ok := DeleteDocumentsInChunks(c, refs, SAFE_BATCH_CHUNK_SIZE);
      if !ok {
        return;
      }
      SubsetSize(SetOf(refs), before);
      deletedCount := deletedCount + n;
      if |snapshot| < pageSize {
        assert AfterPage(before, excluded, pageSize, maxPages - page, p, c.docs, false);
        return;
      }
      if page == maxPages - 1 {
        truncated := true;
        assert AfterPage(before, excluded, pageSize, maxPages - page, p, c.docs, true);
      } else {
        forall left, t | CanReturn(c.docs, excluded, pageSize, maxPages - page - 1, left, t)
          ensures CanReturn(start, excluded, pageSize, maxPages, left, t)
        {
          assert AfterPage(before, excluded, pageSize, maxPages - page, p, left, t);
        }
      }
      page := page + 1;
    }
  }

  // ---- what every answer means ----

  /** Excluded documents stay, nothing is invented. */
  lemma {:induction false} OnlyDeletable(docs: set<Doc>, excluded: set<Doc>, pageSize: nat, pages: nat, left: set<Doc>, truncated: bool)
    requires CanReturn(docs, excluded, pageSize, pages, left, truncated)
    ensures docs * excluded <= left <= docs
    decreases pages
  {
    if pages > 0 {
      var page :| IsPage(docs, pageSize, page) && AfterPage(docs, excluded, pageSize, pages, page, left, truncated);
      var rest := docs - (page - excluded);
      if !(page <= excluded) && |page| >= pageSize && pages > 1 {
        OnlyDeletable(rest, excluded, pageSize, pages - 1, left, truncated);
      }
    }
  }

  /** Fewer excluded documents than a page holds: an answer that is not truncated has deleted
      everything deletable. */
  lemma {:induction false} UntruncatedIsComplete(docs: set<Doc>, excluded: set<Doc>, pageSize: nat, pages: nat, left: set<Doc>)
    requires CanReturn(docs, excluded, pageSize, pages, left, false)
    requires pages > 0 && |docs * excluded| < pageSize
    ensures left == docs * excluded
    decreases pages
  {
    var page :| IsPage(docs, pageSize, page) && AfterPage(docs, excluded, pageSize, pages, page, left, false);
    var rest := docs - (page - excluded);
    if page <= excluded {
      SubsetSize(page, docs * excluded);
      SameSize(page, docs);
    } else if |page| < pageSize {
      SameSize(page, docs);
    } else if pages > 1 {
      assert rest * excluded == docs * excluded;
      UntruncatedIsComplete(rest, excluded, pageSize, pages - 1, left);
    }
  }

  lemma SameSize(a: set<Doc>, b: set<Doc>)
    requires a <= b
    ensures |a| == |b| ==> a == b
  {
    SubsetSize(a, b);
    if |a| == |b| {
      assert b - a == {};
    }
  }

  /** What so many pages delete at least, each of them its share. */
  function Budget(pages: nat, share: int): int {
    if pages == 0 then 0 else share + Budget(pages - 1, share)
  }

  lemma {:induction false} BudgetIsProduct(pages: nat, share: int)
    ensures Budget(pages, share) == pages * share
  {
    if pages > 0 {
      BudgetIsProduct(pages - 1, share);
      assert share + (pages - 1) * share == pages * share;
    }
  }

  lemma PageShare(docs: set<Doc>, excluded: set<Doc>, page: set<Doc>)
    requires page <= docs
    ensures |docs| - |docs - (page - excluded)| >= |page| - |docs * excluded|
    ensures (docs - (page - excluded)) * excluded == docs * excluded
  {
    SubsetSize(page - excluded, docs);
    SubsetSize(page * excluded, docs * excluded);
    SubsetSize(page * excluded, page);
    assert page - page * excluded == page - excluded;
  }

  lemma {:induction false} TruncatedUsedItsBudget(docs: set<Doc>, excluded: set<Doc>, pageSize: nat, pages: nat, left: set<Doc>)
    requires CanReturn(docs, excluded, pageSize, pages, left, true)
    ensures |docs| - |left| >= Budget(pages, pageSize - |docs * excluded|)
    ensures |left| < |docs|
    decreases pages
  {
    var page :| IsPage(docs, pageSize, page) && AfterPage(docs, excluded, pageSize, pages, page, left, true);
    var rest := docs - (page - excluded);
    PageShare(docs, excluded, page);
    SubsetSize(page - excluded, docs);
    if pages > 1 {
      TruncatedUsedItsBudget(rest, excluded, pageSize, pages - 1, left);
    }
  }

  /** A truncated answer has used its whole budget: each page deleted all but the excluded. */
  lemma TruncatedDidItsShare(docs: set<Doc>, excluded: set<Doc>, pageSize: nat, pages: nat, left: set<Doc>)
    requires CanReturn(docs, excluded, pageSize, pages, left, true)
    ensures |docs| - |left| >= pages * (pageSize - |docs * excluded|)
    ensures |left| < |docs|
  {
    TruncatedUsedItsBudget(docs, excluded, pageSize, pages, left);
    BudgetIsProduct(pages, pageSize - |docs * excluded|);
  }

  lemma {:induction false} PickSubset(from: set<Doc>, n: nat) returns (s: set<Doc>)
    requires n <= |from|
    ensures s <= from && |s| == n
  {
    if n == 0 {
      s := {};
    } else {
      var d :| d in from;
      var rest := PickSubset(from - {d}, n - 1);
      s := rest + {d};
    }
  }

  /** "Not truncated means nothing deletable is left" can be relied on exactly when a page cannot
      fill up with excluded documents, or there is nothing to delete at all. */
  lemma CompleteIff(docs: set<Doc>, excluded: set<Doc>, pageSize: nat, pages: nat)
    ensures (forall left :: CanReturn(docs, excluded, pageSize, pages, left, false) ==> left == docs * excluded)
       <==> (pages > 0 && |docs * excluded| < pageSize) || docs <= excluded
  {
    if docs <= excluded {
      forall left | CanReturn(docs, excluded, pageSize, pages, left, false)
        ensures left == docs * excluded
      {
        OnlyDeletable(docs, excluded, pageSize, pages, left, false);
      }
    } else if pages > 0 && |docs * excluded| < pageSize {
      forall left | CanReturn(docs, excluded, pageSize, pages, left, false)
        ensures left == docs * excluded
      {
        UntruncatedIsComplete(docs, excluded, pageSize, pages, left);
      }
    } else if pages == 0 {
      assert CanReturn(docs, excluded, pageSize, pages, docs, false);
    } else {
      var page := PickSubset(docs * excluded, pageSize);
      SubsetSize(docs * excluded, docs);
      assert IsPage(docs, pageSize, page) && AfterPage(docs, excluded, pageSize, pages, page, docs, false);
      assert CanReturn(docs, excluded, pageSize, pages, docs, false);
    }
  }
}
