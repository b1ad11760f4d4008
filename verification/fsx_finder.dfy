/** `finder.FileSystemByID`: look a file system up by id in the paginated
    DescribeFileSystems listing, first match wins. */
module FsxFinder {
  import opened AwsBase
  import opened Fsx

  /** What the paginated DescribeFileSystems call produces for one request:
      the pages, in order, that are handed to the page callback, and the
      error, if any, of fetching the page after the last of them. The pager
      flags a page as the last one exactly when it is the final element of
      `pages` and no fetch failure follows it. */
  datatype Listing = Listing(pages: seq<seq<FileSystem>>, failure: Option<ApiError>)

  /** The pair `(*fsx.FileSystem, error)` the finder returns. */
  datatype FinderResult = FinderResult(fileSystem: Option<FileSystem>, err: Option<ApiError>)

  predicate Matches(fs: FileSystem, id: string) {
    StringValue(fs.fileSystemId) == id
  }

  /** Index of the first file system of `page` with the requested id, or
      |page| when there is none. */
  function MatchIndex(page: seq<FileSystem>, id: string): (j: nat)
    ensures j <= |page|
    ensures j < |page| ==> Matches(page[j], id)
    ensures forall i :: 0 <= i < j ==> !Matches(page[i], id)
  {
    if page == [] then 0
    else if Matches(page[0], id) then 0
    else 1 + MatchIndex(page[1..], id)
  }

  /** Index of the first page holding a file system with the requested id,
      or |pages| when no page holds one. */
  function MatchingPage(pages: seq<seq<FileSystem>>, id: string): (k: nat)
    ensures k <= |pages|
    ensures k < |pages| ==> MatchIndex(pages[k], id) < |pages[k]|
    ensures forall i :: 0 <= i < k ==> MatchIndex(pages[i], id) == |pages[i]|
  {
    if pages == [] then 0
    else if MatchIndex(pages[0], id) < |pages[0]| then 0
    else 1 + MatchingPage(pages[1..], id)
  }

  /** The finder's result: the first match in page order and then in-page
      order; otherwise no file system, with the paging error if one ended
      the listing and no error at all when the listing was exhausted. */
  function Lookup(listing: Listing, id: string): (r: FinderResult)
    ensures r.fileSystem.Some? ==> Matches(r.fileSystem.value, id)
    ensures r.err.Some? ==> r.fileSystem.None?
    ensures r.fileSystem.None? ==> r.err == listing.failure
  {
    var k := MatchingPage(listing.pages, id);
    if k < |listing.pages| then
      FinderResult(Some(listing.pages[k][MatchIndex(listing.pages[k], id)]), None)
    else
      FinderResult(None, listing.failure)
  }

  /** A file system with the requested id at page k, position j, with no
      such file system at any earlier page or earlier position of page k. */
  ghost predicate FirstMatchAt(pages: seq<seq<FileSystem>>, id: string, k: nat, j: nat) {
    && k < |pages| && j < |pages[k]|
    && Matches(pages[k][j], id)
    && (forall i :: 0 <= i < j ==> !Matches(pages[k][i], id))
    && (forall p, i :: 0 <= p < k && 0 <= i < |pages[p]| ==> !Matches(pages[p][i], id))
  }

  /** First match wins: the finder returns exactly the earliest match, with
      no error, whatever the later pages or the paging error would be. */
  lemma {:induction false} LookupReturnsFirstMatch(listing: Listing, id: string, k: nat, j: nat)
    requires FirstMatchAt(listing.pages, id, k, j)
    ensures Lookup(listing, id) == FinderResult(Some(listing.pages[k][j]), None)
  {
    var pages := listing.pages;
    assert MatchIndex(pages[k], id) <= j;
    var m := MatchingPage(pages, id);
    assert m <= k;
    if m < |pages| {
      assert Matches(pages[m][MatchIndex(pages[m], id)], id);
    }
  }

  /** Absence is not an error: when no page holds the id, the result is nil,
      and the error is exactly the paging failure (none when the listing was
      exhausted normally). And conversely, a nil result means no page holds
      the id. */
  lemma {:induction false} LookupAbsence(listing: Listing, id: string)
    ensures Lookup(listing, id).fileSystem.None? <==>
      (forall p, i :: 0 <= p < |listing.pages| && 0 <= i < |listing.pages[p]| ==>
        !Matches(listing.pages[p][i], id))
    ensures (forall p, i :: 0 <= p < |listing.pages| && 0 <= i < |listing.pages[p]| ==>
        !Matches(listing.pages[p][i], id)) ==>
      Lookup(listing, id) == FinderResult(None, listing.failure)
  {
    var pages := listing.pages;
    var m := MatchingPage(pages, id);
    if m < |pages| {
      var i := MatchIndex(pages[m], id);
      assert Matches(pages[m][i], id);
    } else {
      forall p, i | 0 <= p < |pages| && 0 <= i < |pages[p]|
        ensures !Matches(pages[p][i], id)
      {
        assert MatchIndex(pages[p], id) == |pages[p]|;
      }
    }
  }

  /** The first matching page is the one after a run of pages without a
      match, when it holds a match itself (or when no page is left). */
  lemma MatchingPageAfter(pages: seq<seq<FileSystem>>, id: string, k: nat)
    requires k <= |pages|
    requires forall p :: 0 <= p < k ==> MatchIndex(pages[p], id) == |pages[p]|
    requires k < |pages| ==> MatchIndex(pages[k], id) < |pages[k]|
    ensures MatchingPage(pages, id) == k
  {
  }

  /** The page callback's scan: the first file system of the page with the
      requested id, if any. */
  method ScanPage(page: seq<FileSystem>, id: string) returns (filesystem: Option<FileSystem>)
    ensures filesystem.Some? <==> MatchIndex(page, id) < |page|
    ensures filesystem.Some? ==> filesystem.value == page[MatchIndex(page, id)]
  {
    filesystem := None;
    var j := 0;
    while j < |page|
      invariant j <= |page|
      invariant forall i :: 0 <= i < j ==> !Matches(page[i], id)
    {
      if Matches(page[j], id) {
        assert MatchIndex(page, id) == j;
        return Some(page[j]);
      }
      j := j + 1;
    }
    assert MatchIndex(page, id) == |page|;
  }

  /** The finder as the source runs it: the pager hands each page to a
      callback that scans the page's file systems, captures the first one
      with the requested id and stops paging; otherwise paging continues
      unless the page was the last. A paging error discards whatever was
      captured. `consumed` is the number of pages handed to the callback:
      no page after the one holding the match is fetched. */
  method FileSystemByID(listing: Listing, id: string)
    returns (fileSystem: Option<FileSystem>, err: Option<ApiError>, consumed: nat)
    ensures FinderResult(fileSystem, err) == Lookup(listing, id)
    ensures consumed == if MatchingPage(listing.pages, id) < |listing.pages|
                        then MatchingPage(listing.pages, id) + 1
                        else |listing.pages|
  {
    var pages := listing.pages;
    var filesystem: Option<FileSystem> := None;
    var keepPaging := true;
    consumed := 0;
    while keepPaging && consumed < |pages|
      invariant consumed <= |pages|
      invariant keepPaging ==> filesystem.None?
      invariant keepPaging ==> forall p :: 0 <= p < consumed ==> MatchIndex(pages[p], id) == |pages[p]|
      invariant !keepPaging && filesystem.Some? ==>
        0 < consumed && MatchingPage(pages, id) == consumed - 1 &&
        filesystem.value == pages[consumed - 1][MatchIndex(pages[consumed - 1], id)]
      invariant !keepPaging && filesystem.None? ==>
        consumed == |pages| && listing.failure.None? && MatchingPage(pages, id) == |pages|
      decreases |pages| - consumed
    {
      filesystem := ScanPage(pages[consumed], id);
      if filesystem.Some? {
        MatchingPageAfter(pages, id, consumed);
      }
      consumed := consumed + 1;
      var lastPage := consumed == |pages| && listing.failure.None?;
      if filesystem.Some? {
        keepPaging := false;
      } else {
        keepPaging := !lastPage;
        if lastPage {
          MatchingPageAfter(pages, id, consumed);
        }
      }
    }

    err := None;
    if keepPaging {
      // the pager asked for one more page and the request failed
      err := listing.failure;
    }
    if err.Some? {
      fileSystem := None;
      return;
    }
    fileSystem := filesystem;
  }
}
