/** InvoiceRepository (BillingExtractor.Infrastructure/Repositories/InvoiceRepository.cs)
    over an in-memory sequence of invoices, in insertion order, standing for
    the tracked `Invoices` set. Queries are functions of that sequence;
    `AddAsync` and `DeleteAsync` are methods of a class holding it. */
module Repositories {
  import opened Results
  import opened Text
  import opened Clock
  import opened Invoices

  /** The index of the first invoice satisfying `p`, or -1. */
  function FirstIndex(s: seq<InvoiceRecord>, p: InvoiceRecord -> bool): (k: int)
    ensures -1 <= k < |s|
    ensures k >= 0 ==> p(s[k]) && forall i :: 0 <= i < k ==> !p(s[i])
    ensures k < 0 <==> forall i :: 0 <= i < |s| ==> !p(s[i])
  {
    if s == [] then -1
    else if p(s[0]) then 0
    else
      var k := FirstIndex(s[1..], p);
      if k < 0 then -1 else k + 1
  }

  /** `FirstOrDefault(p)`: the first invoice satisfying `p`, or null. */
  function FirstOrNone(s: seq<InvoiceRecord>, p: InvoiceRecord -> bool): (r: Option<InvoiceRecord>)
    ensures r.None? <==> forall i :: 0 <= i < |s| ==> !p(s[i])
    ensures r.Some? ==> exists k :: 0 <= k < |s| && s[k] == r.value && p(r.value) && forall i :: 0 <= i < k ==> !p(s[i])
  {
    var k := FirstIndex(s, p);
    if k < 0 then None else Some(s[k])
  }

  /** `Where(p)`: the invoices satisfying `p`, in their order. */
  function Filter(s: seq<InvoiceRecord>, p: InvoiceRecord -> bool): (r: seq<InvoiceRecord>)
    ensures |r| <= |s|
    ensures forall x :: x in r <==> x in s && p(x)
    ensures forall x :: multiset(r)[x] == if p(x) then multiset(s)[x] else 0
  {
    if s == [] then []
    else
      var rest := Filter(s[..|s| - 1], p);
      var x := s[|s| - 1];
      assert s == s[..|s| - 1] + [x];
      if p(x) then rest + [x] else rest
  }

  /** Where `GetByIdAsync` finds the id, or -1. */
  function IndexOfId(invoices: seq<InvoiceRecord>, id: nat): (k: int)
    ensures -1 <= k < |invoices|
    ensures k >= 0 ==> invoices[k].id == id && forall i :: 0 <= i < k ==> invoices[i].id != id
    ensures k < 0 <==> forall i :: 0 <= i < |invoices| ==> invoices[i].id != id
  {
    FirstIndex(invoices, (x: InvoiceRecord) => x.id == id)
  }

  function GetById(invoices: seq<InvoiceRecord>, id: nat): (r: Option<InvoiceRecord>)
    ensures r.None? <==> forall i :: 0 <= i < |invoices| ==> invoices[i].id != id
    ensures r.Some? ==> r.value in invoices && r.value.id == id
  {
    var k := IndexOfId(invoices, id);
    if k < 0 then None else Some(invoices[k])
  }

  function GetByNumber(invoices: seq<InvoiceRecord>, invoiceNumber: string, vendorName: string): (r: Option<InvoiceRecord>)
    ensures r.None? <==> forall i :: 0 <= i < |invoices| ==>
                           invoices[i].invoiceNumber != invoiceNumber || invoices[i].vendorName != vendorName
    ensures r.Some? ==> r.value in invoices && r.value.invoiceNumber == invoiceNumber && r.value.vendorName == vendorName
  {
    FirstOrNone(invoices, (x: InvoiceRecord) => x.invoiceNumber == invoiceNumber && x.vendorName == vendorName)
  }

  /** `GetByFileHashAsync`: an invoice with that hash, null iff there is none. */
  function GetByFileHash(invoices: seq<InvoiceRecord>, fileHash: string): (r: Option<InvoiceRecord>)
    ensures r.None? <==> forall i :: 0 <= i < |invoices| ==> invoices[i].fileHash != fileHash
    ensures r.Some? ==> r.value in invoices && r.value.fileHash == fileHash
  {
    FirstOrNone(invoices, (x: InvoiceRecord) => x.fileHash == fileHash)
  }

  /** The unique index on FileHash that the database keeps. */
  predicate HashesUnique(invoices: seq<InvoiceRecord>) {
    forall i, j :: 0 <= i < j < |invoices| ==> invoices[i].fileHash != invoices[j].fileHash
  }

  /** Under the unique index, the invoice found for a hash is the only one. */
  lemma GetByFileHashUnique(invoices: seq<InvoiceRecord>, fileHash: string, k: nat)
    requires HashesUnique(invoices)
    requires k < |invoices| && invoices[k].fileHash == fileHash
    ensures GetByFileHash(invoices, fileHash) == Some(invoices[k])
  {
    var j := FirstIndex(invoices, (x: InvoiceRecord) => x.fileHash == fileHash);
    assert j >= 0;
    assert !(j < k) && !(k < j);
  }

  /** The `Where` filters of `GetAllAsync`: the vendor test only for a
      non-blank argument, by ordinal substring; inclusive date bounds, each
      only when given. */
  predicate MatchesFilters(x: InvoiceRecord, vendorName: Option<string>, fromDate: Option<nat>, toDate: Option<nat>) {
    && (vendorName.Some? && !IsBlank(vendorName.value) ==> Contains(x.vendorName, vendorName.value))
    && (fromDate.Some? ==> fromDate.value <= x.invoiceDate)
    && (toDate.Some? ==> x.invoiceDate <= toDate.value)
  }

  predicate SortedByProcessedAtDesc(s: seq<InvoiceRecord>) {
    forall i, j :: 0 <= i < j < |s| ==> s[i].processedAt >= s[j].processedAt
  }

  /** The number of leading invoices processed no earlier than `key`. */
  function InsertPosition(s: seq<InvoiceRecord>, key: nat): (k: nat)
    ensures k <= |s|
    ensures forall i :: 0 <= i < k ==> s[i].processedAt >= key
    ensures k < |s| ==> s[k].processedAt < key
  {
    if s == [] || s[0].processedAt < key then 0 else 1 + InsertPosition(s[1..], key)
  }

  /** Puts `x` into a sorted list after every invoice processed no earlier,
      so among equal keys the earlier invoice stays first. */
  function InsertByProcessedAt(s: seq<InvoiceRecord>, x: InvoiceRecord): (r: seq<InvoiceRecord>)
    requires SortedByProcessedAtDesc(s)
    ensures SortedByProcessedAtDesc(r)
    ensures multiset(r) == multiset(s) + multiset{x}
    ensures |r| == |s| + 1
  {
    var k := InsertPosition(s, x.processedAt);
    InsertKeepsOrder(s, x);
    InsertAddsOne(s, x, k);
    s[..k] + [x] + s[k..]
  }

  lemma InsertKeepsOrder(s: seq<InvoiceRecord>, x: InvoiceRecord)
    requires SortedByProcessedAtDesc(s)
    ensures SortedByProcessedAtDesc(s[..InsertPosition(s, x.processedAt)] + [x] + s[InsertPosition(s, x.processedAt)..])
  {
    var k := InsertPosition(s, x.processedAt);
    var r := s[..k] + [x] + s[k..];
    forall i, j | 0 <= i < j < |r|
      ensures r[i].processedAt >= r[j].processedAt
    {
      if j < k {
        assert r[i] == s[i] && r[j] == s[j];
      } else if j == k {
        assert r[i] == s[i];
      } else if i < k {
        assert r[i] == s[i] && r[j] == s[j - 1];
      } else if i == k {
        assert r[j] == s[j - 1];
      } else {
        assert r[i] == s[i - 1] && r[j] == s[j - 1];
      }
    }
  }

  lemma InsertAddsOne(s: seq<InvoiceRecord>, x: InvoiceRecord, k: nat)
    requires k <= |s|
    ensures multiset(s[..k] + [x] + s[k..]) == multiset(s) + multiset{x}
  {
    assert s == s[..k] + s[k..];
  }

  /** `OrderByDescending(i => i.ProcessedAt)`, a stable sort. */
  function SortByProcessedAtDesc(s: seq<InvoiceRecord>): (r: seq<InvoiceRecord>)
    ensures SortedByProcessedAtDesc(r)
    ensures multiset(r) == multiset(s)
    ensures |r| == |s|
  {
    if s == [] then []
    else
      assert s == s[..|s| - 1] + [s[|s| - 1]];
      InsertByProcessedAt(SortByProcessedAtDesc(s[..|s| - 1]), s[|s| - 1])
  }

  /** `Skip((page - 1) * pageSize).Take(pageSize)`: the `pageSize` invoices
      after the first (page - 1) * pageSize, or as many as remain. */
  function Page(s: seq<InvoiceRecord>, page: nat, pageSize: nat): (r: seq<InvoiceRecord>)
    requires page > 0
    ensures |r| <= pageSize
    ensures |r| == if (page - 1) * pageSize >= |s| then 0
                   else if |s| - (page - 1) * pageSize < pageSize then |s| - (page - 1) * pageSize
                   else pageSize
    ensures forall m :: 0 <= m < |r| ==> r[m] == s[(page - 1) * pageSize + m]
    ensures forall x :: x in r ==> x in s
    ensures SortedByProcessedAtDesc(s) ==> SortedByProcessedAtDesc(r)
  {
    var skip := (page - 1) * pageSize;
    if skip >= |s| then []
    else
      var end := if skip + pageSize >= |s| then |s| else skip + pageSize;
      SliceSorted(s, skip, end);
      s[skip..end]
  }

  lemma SliceSorted(s: seq<InvoiceRecord>, a: nat, b: nat)
    requires a <= b <= |s|
    ensures SortedByProcessedAtDesc(s) ==> SortedByProcessedAtDesc(s[a..b])
  {
    assert forall i :: 0 <= i < b - a ==> s[a..b][i] == s[a + i];
  }

  /** A page holds at most `pageSize` invoices, and the invoice at position
      j of the whole list is on page j / pageSize + 1, at position
      j % pageSize: the pages split the list without gaps or overlaps. */
  lemma PageSplitsList(s: seq<InvoiceRecord>, pageSize: nat, j: nat)
    requires pageSize > 0 && j < |s|
    ensures |Page(s, j / pageSize + 1, pageSize)| <= pageSize
    ensures j % pageSize < |Page(s, j / pageSize + 1, pageSize)|
    ensures Page(s, j / pageSize + 1, pageSize)[j % pageSize] == s[j]
  {
    var q, m := j / pageSize, j % pageSize;
    DivModParts(j, pageSize);
    PageAt(s, q + 1, pageSize, m);
  }

  lemma DivModParts(j: nat, d: nat)
    requires d > 0
    ensures (j / d + 1 - 1) * d + j % d == j && j % d < d
  {
  }

  /** Position m of page `page` is position (page - 1) * pageSize + m of
      the list, when both exist. */
  lemma PageAt(s: seq<InvoiceRecord>, page: nat, pageSize: nat, m: nat)
    requires page > 0 && m < pageSize && (page - 1) * pageSize + m < |s|
    ensures m < |Page(s, page, pageSize)| && Page(s, page, pageSize)[m] == s[(page - 1) * pageSize + m]
  {
  }

  /** The invoices passing the filters, latest processed first. */
  function MatchingSorted(invoices: seq<InvoiceRecord>, vendorName: Option<string>, fromDate: Option<nat>,
                          toDate: Option<nat>): (r: seq<InvoiceRecord>)
    ensures SortedByProcessedAtDesc(r)
    ensures forall x :: multiset(r)[x] == if MatchesFilters(x, vendorName, fromDate, toDate) then multiset(invoices)[x] else 0
  {
    SortByProcessedAtDesc(Filter(invoices, (x: InvoiceRecord) => MatchesFilters(x, vendorName, fromDate, toDate)))
  }

  /** `GetAllAsync`: filter, order by ProcessedAt descending, then page when
      both page and pageSize are positive. */
  function GetAll(invoices: seq<InvoiceRecord>, page: int, pageSize: int, vendorName: Option<string>,
                  fromDate: Option<nat>, toDate: Option<nat>): (r: seq<InvoiceRecord>)
    ensures SortedByProcessedAtDesc(r)
    ensures forall x :: x in r ==> x in invoices && MatchesFilters(x, vendorName, fromDate, toDate)
    ensures page > 0 && pageSize > 0 ==> |r| <= pageSize
    ensures page > 0 && pageSize > 0 ==> r == Page(MatchingSorted(invoices, vendorName, fromDate, toDate), page, pageSize)
    ensures !(page > 0 && pageSize > 0) ==>
              forall x :: multiset(r)[x] == if MatchesFilters(x, vendorName, fromDate, toDate) then multiset(invoices)[x] else 0
  {
    var sorted := MatchingSorted(invoices, vendorName, fromDate, toDate);
    assert forall x :: x in sorted ==> x in multiset(sorted);
    if page > 0 && pageSize > 0 then Page(sorted, page, pageSize) else sorted
  }

  /** The similarity test of `FindSimilarAsync` and `ExistsAsync`. */
  predicate Similar(x: InvoiceRecord, invoiceNumber: string, vendorName: string, invoiceDate: nat) {
    x.invoiceNumber == invoiceNumber && x.vendorName == vendorName && Day(x.invoiceDate) == Day(invoiceDate)
  }

  /** `FindSimilarAsync`: exactly the stored invoices with that number and
      vendor on that calendar day. */
  function FindSimilar(invoices: seq<InvoiceRecord>, invoiceNumber: string, vendorName: string, invoiceDate: nat): (r: seq<InvoiceRecord>)
    ensures forall x :: x in r <==> x in invoices && Similar(x, invoiceNumber, vendorName, invoiceDate)
  {
    Filter(invoices, (x: InvoiceRecord) => Similar(x, invoiceNumber, vendorName, invoiceDate))
  }

  /** `ExistsAsync`: `AnyAsync` with the same test. */
  predicate Exists(invoices: seq<InvoiceRecord>, invoiceNumber: string, vendorName: string, invoiceDate: nat) {
    exists i :: 0 <= i < |invoices| && Similar(invoices[i], invoiceNumber, vendorName, invoiceDate)
  }

  lemma ExistsIffSimilarFound(invoices: seq<InvoiceRecord>, invoiceNumber: string, vendorName: string, invoiceDate: nat)
    ensures Exists(invoices, invoiceNumber, vendorName, invoiceDate) <==> FindSimilar(invoices, invoiceNumber, vendorName, invoiceDate) != []
  {
    var r := FindSimilar(invoices, invoiceNumber, vendorName, invoiceDate);
    if r != [] {
      assert r[0] in r;
    }
  }

  /** A stored near duplicate of an invoice (`IsDuplicateOf`) is among the
      invoices `FindSimilarAsync` returns for it. */
  lemma NearDuplicateIsSimilar(invoices: seq<InvoiceRecord>, x: InvoiceRecord, y: InvoiceRecord)
    requires y in invoices && NearDuplicate(x, y)
    ensures y in FindSimilar(invoices, x.invoiceNumber, x.vendorName, x.invoiceDate)
  {
  }

  /** The list without the element at index k. */
  function RemoveAt(s: seq<InvoiceRecord>, k: nat): (r: seq<InvoiceRecord>)
    requires k < |s|
    ensures |r| == |s| - 1
    ensures forall i :: 0 <= i < |r| ==> r[i] == if i < k then s[i] else s[i + 1]
    ensures multiset(r) == multiset(s) - multiset{s[k]}
  {
    assert s == s[..k] + [s[k]] + s[k + 1..];
    s[..k] + s[k + 1..]
  }

  /** The primary key: no two stored invoices share an id. */
  predicate IdsUnique(invoices: seq<InvoiceRecord>) {
    forall i, j :: 0 <= i < j < |invoices| ==> invoices[i].id != invoices[j].id
  }

  /** Deleting by a unique id leaves no invoice with it and keeps every other
      invoice, in order. */
  lemma RemoveById(invoices: seq<InvoiceRecord>, id: nat)
    requires IdsUnique(invoices)
    requires IndexOfId(invoices, id) >= 0
    ensures GetById(RemoveAt(invoices, IndexOfId(invoices, id)), id).None?
    ensures forall x :: x in invoices && x.id != id ==> x in RemoveAt(invoices, IndexOfId(invoices, id))
    ensures RemoveAt(invoices, IndexOfId(invoices, id))
              == invoices[..IndexOfId(invoices, id)] + invoices[IndexOfId(invoices, id) + 1..]
  {
  }

  class InvoiceRepository {
    var invoices: seq<InvoiceRecord>

    constructor ()
      ensures invoices == []
    {
      invoices := [];
    }

    /** `AddAsync` (with the SaveChanges that follows it): the invoice is
        stored after the others and returned. */
    method Add(invoice: InvoiceRecord) returns (r: InvoiceRecord)
      modifies this
      ensures invoices == old(invoices) + [invoice]
      ensures r == invoice
    {
      invoices := invoices + [invoice];
      return invoice;
    }

    /** `DeleteAsync`: false with nothing changed when no invoice has the id;
        otherwise the invoice `GetByIdAsync` finds is removed. */
    method Delete(id: nat) returns (deleted: bool)
      modifies this
      ensures deleted <==> GetById(old(invoices), id).Some?
      ensures !deleted ==> invoices == old(invoices)
      ensures deleted ==> invoices == RemoveAt(old(invoices), IndexOfId(old(invoices), id))
    {
      var k := IndexOfId(invoices, id);
      if k < 0 {
        return false;
      }
      invoices := RemoveAt(invoices, k);
      return true;
    }
  }
}
