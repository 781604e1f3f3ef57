/**
 * The records page: search and filter the registrant directory, cut the
 * result into pages of ten, and move between pages with clamped
 * Previous / Next controls.
 */
module Records {
  import opened JsText
  import opened Directory

  const ItemsPerPage: int := 10

  /** The filter predicate of `filteredRecords`. */
  predicate Matches(r: Registrant, query: string, filterType: string, filterStatus: string)
    ensures query == [] && filterType == "All" && filterStatus == "All" ==> Matches(r, query, filterType, filterStatus)
  {
    && (filterType == "All" || r.kind == filterType)
    && (filterStatus == "All" || r.status == filterStatus)
    && (Includes(ToLower(r.name), ToLower(query)) || Includes(ToLower(r.barangay), ToLower(query)))
  }

  /** `a` is `b` with some elements left out and the rest in their order. */
  ghost predicate IsSublist<T>(a: seq<T>, b: seq<T>)
    decreases |b|
  {
    if a == [] then true
    else if b == [] then false
    else (a[0] == b[0] && IsSublist(a[1..], b[1..])) || IsSublist(a, b[1..])
  }

  /**
   * `mockRecords.filter(…)`: an order-preserving sublist holding exactly the
   * records that match, each as many times as it occurs.
   */
  function Filter(records: seq<Registrant>, query: string, filterType: string, filterStatus: string)
    : (r: seq<Registrant>)
    ensures |r| <= |records|
    ensures IsSublist(r, records)
    ensures forall x :: x in r <==> x in records && Matches(x, query, filterType, filterStatus)
    ensures forall x :: multiset(r)[x] == if Matches(x, query, filterType, filterStatus) then multiset(records)[x] else 0
  {
    if records == [] then []
    else
      var rest := Filter(records[1..], query, filterType, filterStatus);
      assert records == [records[0]] + records[1..];
      if Matches(records[0], query, filterType, filterStatus) then
        assert ([records[0]] + rest)[1..] == rest;
        [records[0]] + rest
      else rest
  }

  /** Every string includes the empty string. */
  lemma IncludesEmpty(s: string)
    ensures Includes(s, "")
  {
    assert OccursAt(s, "", 0);
  }

  /** With an empty query and both filters at "All" every record is listed, in order. */
  lemma {:induction false} NoFilterKeepsAll(records: seq<Registrant>)
    ensures Filter(records, "", "All", "All") == records
  {
    if records != [] {
      IncludesEmpty(ToLower(records[0].name));
      NoFilterKeepsAll(records[1..]);
      assert [records[0]] + records[1..] == records;
    }
  }

  /** `Math.ceil(n / itemsPerPage)` for a count `n`. */
  function TotalPages(n: nat): (r: nat)
    ensures r == 0 <==> n == 0
    ensures n > 0 ==> (r - 1) * ItemsPerPage < n <= r * ItemsPerPage
  {
    (n + ItemsPerPage - 1) / ItemsPerPage
  }

  function Min(a: int, b: int): int { if a <= b then a else b }

  /** `list.slice((page - 1) * itemsPerPage, page * itemsPerPage)`. */
  function Page<T>(list: seq<T>, page: int): (r: seq<T>)
    ensures page >= 1 ==> |r| <= ItemsPerPage
    ensures page >= 1 ==> forall k :: 0 <= k < |r| ==> (page - 1) * ItemsPerPage + k < |list| && r[k] == list[(page - 1) * ItemsPerPage + k]
  {
    Slice(list, (page - 1) * ItemsPerPage, page * ItemsPerPage)
  }

  /** Page `p` (from 1) is the run of at most ten items that starts at item (p - 1) * 10. */
  lemma PageIsWindow<T>(list: seq<T>, p: int)
    requires p >= 1
    ensures |Page(list, p)| <= ItemsPerPage
    ensures (p - 1) * ItemsPerPage < |list| ==>
              Page(list, p) == list[(p - 1) * ItemsPerPage..Min(p * ItemsPerPage, |list|)]
    ensures (p - 1) * ItemsPerPage >= |list| ==> Page(list, p) == []
  {
  }

  /** Pages 1 to k, one after the other. */
  function PagesUpTo<T>(list: seq<T>, k: nat): seq<T> {
    if k == 0 then [] else PagesUpTo(list, k - 1) + Page(list, k)
  }

  /** The first k pages together are the first min(10k, n) items. */
  lemma {:induction false} PagesUpToIsPrefix<T>(list: seq<T>, k: nat)
    ensures PagesUpTo(list, k) == list[..Min(k * ItemsPerPage, |list|)]
  {
    if k > 0 {
      PagesUpToIsPrefix(list, k - 1);
      PageIsWindow(list, k);
      var a := Min((k - 1) * ItemsPerPage, |list|);
      var b := Min(k * ItemsPerPage, |list|);
      if (k - 1) * ItemsPerPage < |list| {
        assert list[..a] + list[a..b] == list[..b];
      }
    }
  }

  /** Concatenating every page in order gives back the whole list. */
  lemma AllPagesRebuildList<T>(list: seq<T>)
    ensures PagesUpTo(list, TotalPages(|list|)) == list
  {
    PagesUpToIsPrefix(list, TotalPages(|list|));
    assert list[..|list|] == list;
  }

  /** The log line of the mock delete (`console.log('Delete record:', id)`). */
  datatype LogLine = LogLine(tag: string, id: int)

  class RecordsPage {
    const records: seq<Registrant>
    var searchQuery: string
    var filterType: string
    var filterStatus: string
    var currentPage: int

    function Filtered(): seq<Registrant>
      reads this
    {
      Filter(records, searchQuery, filterType, filterStatus)
    }

    function PageCount(): nat
      reads this
    {
      TotalPages(|Filtered()|)
    }

    /** `paginatedRecords`. */
    function Paginated(): seq<Registrant>
      reads this
    {
      Page(Filtered(), currentPage)
    }

    /** The Previous / Next controls are rendered only for more than one page. */
    predicate ControlsShown()
      reads this
    {
      PageCount() > 1
    }

    /** The current page is at least 1 and names an existing page (or page 1 of an empty list). */
    ghost predicate Valid()
      reads this
    {
      1 <= currentPage && (currentPage == 1 || currentPage <= PageCount())
    }

    constructor (records: seq<Registrant>)
      ensures Valid() && this.records == records
      ensures searchQuery == "" && filterType == "All" && filterStatus == "All" && currentPage == 1
      ensures Filtered() == records
    {
      this.records := records;
      searchQuery := "";
      filterType := "All";
      filterStatus := "All";
      currentPage := 1;
      new;
      NoFilterKeepsAll(records);
    }

    /** "Showing X of Y records": the page never shows more than the filtered count, nor more than ten. */
    function ShownCount(): (n: nat)
      reads this
      requires Valid()
      ensures n <= |Filtered()| && n <= ItemsPerPage
    {
      PageIsWindow(Filtered(), currentPage);
      |Paginated()|
    }

    /** Typing in the search box: new query, back to page 1. */
    method SetSearchQuery(q: string)
      modifies this
      ensures Valid()
      ensures searchQuery == q && currentPage == 1
      ensures filterType == old(filterType) && filterStatus == old(filterStatus)
    {
      searchQuery := q;
      currentPage := 1;
    }

    /** Choosing a type filter: new filter, back to page 1. */
    method SetFilterType(t: string)
      modifies this
      ensures Valid()
      ensures filterType == t && currentPage == 1
      ensures searchQuery == old(searchQuery) && filterStatus == old(filterStatus)
    {
      filterType := t;
      currentPage := 1;
    }

    /** Choosing a status filter: new filter, back to page 1. */
    method SetFilterStatus(s: string)
      modifies this
      ensures Valid()
      ensures filterStatus == s && currentPage == 1
      ensures searchQuery == old(searchQuery) && filterType == old(filterType)
    {
      filterStatus := s;
      currentPage := 1;
    }

    /** Previous: `Math.max(p - 1, 1)`. */
    method Previous()
      requires Valid() && ControlsShown()
      modifies this`currentPage
      ensures Valid() && 1 <= currentPage <= PageCount()
      ensures currentPage == if old(currentPage) > 1 then old(currentPage) - 1 else 1
    {
      currentPage := if currentPage - 1 > 1 then currentPage - 1 else 1;
    }

    /** Next: `Math.min(p + 1, totalPages)`. */
    method Next()
      requires Valid() && ControlsShown()
      modifies this`currentPage
      ensures Valid() && 1 <= currentPage <= PageCount()
      ensures currentPage == if old(currentPage) < PageCount() then old(currentPage) + 1 else PageCount()
    {
      var total := PageCount();
      currentPage := if currentPage + 1 < total then currentPage + 1 else total;
    }

    /** The mock delete: nothing on the page changes; the id is only logged. */
    method HandleDeleteRecord(id: int) returns (logged: LogLine)
      ensures logged == LogLine("Delete record:", id)
    {
      logged := LogLine("Delete record:", id);
    }
  }
}
