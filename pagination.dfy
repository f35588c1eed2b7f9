/** The page plan of `dpla_fetch`: `count` records are asked for as
    `count div 500` full pages of 500, then one page holding the remainder
    when the remainder is not zero. */
module Pagination {

  /** The fixed page size (`page_size = 500`). */
  const PageSize: nat := 500

  /** One page request: its 1-based page number and its page size. */
  datatype Page = Page(number: nat, size: nat)

  /** `num_pages = count / 500`, floor division on a non-negative count. */
  function FullPages(count: nat): nat
  {
    count / PageSize
  }

  /** `final_page_size = count % 500`. */
  function FinalPageSize(count: nat): nat
  {
    count % PageSize
  }

  /** How many requests the plan issues: one per full page, one more for a
      non-zero remainder. */
  function RequestCount(count: nat): nat
  {
    FullPages(count) + (if FinalPageSize(count) != 0 then 1 else 0)
  }

  /** The pages requested, in the order they are requested. The remainder
      page is numbered after the last full page. */
  function PagePlan(count: nat): seq<Page>
  {
    seq(FullPages(count), i requires 0 <= i => Page(i + 1, PageSize))
      + (if FinalPageSize(count) != 0 then [Page(FullPages(count) + 1, FinalPageSize(count))] else [])
  }

  /** The number of records a plan asks for, summed over its pages. */
  function TotalSize(plan: seq<Page>): nat
  {
    if plan == [] then 0 else plan[0].size + TotalSize(plan[1..])
  }

  /** The request count is the ceiling of count / 500: the least number of
      pages of 500 that cover `count` records. */
  lemma RequestCountIsCeiling(count: nat)
    ensures RequestCount(count) * PageSize >= count
    ensures forall k: nat :: k * PageSize >= count ==> k >= RequestCount(count)
    ensures RequestCount(count) == (count + PageSize - 1) / PageSize
  {
    assert count == FullPages(count) * PageSize + FinalPageSize(count);
  }

  /** The plan has one page per request issued, and none at all exactly when
      nothing is asked for. */
  lemma PlanLength(count: nat)
    ensures |PagePlan(count)| == RequestCount(count)
    ensures PagePlan(count) == [] <==> count == 0
  {
  }

  /** Pages are numbered 1, 2, ..., k in request order; the full pages come
      first with size 500, and a remainder page, when present, is the last one,
      numbered `count div 500 + 1`, with size `count mod 500`. */
  lemma PlanPages(count: nat)
    ensures forall i :: 0 <= i < |PagePlan(count)| ==> PagePlan(count)[i].number == i + 1
    ensures forall i :: 0 <= i < FullPages(count) ==> PagePlan(count)[i].size == PageSize
    ensures FinalPageSize(count) != 0 ==>
      |PagePlan(count)| == FullPages(count) + 1 &&
      PagePlan(count)[FullPages(count)] == Page(FullPages(count) + 1, FinalPageSize(count))
    ensures forall i :: 0 <= i < |PagePlan(count)| ==> 0 < PagePlan(count)[i].size <= PageSize
  {
  }

  lemma {:induction false} TotalSizeAppend(a: seq<Page>, b: seq<Page>)
    ensures TotalSize(a + b) == TotalSize(a) + TotalSize(b)
  {
    if a == [] {
      assert a + b == b;
    } else {
      assert (a + b)[1..] == a[1..] + b;
      TotalSizeAppend(a[1..], b);
    }
  }

  /** `n` pages that are all full ask for `500 * n` records. */
  lemma {:induction false} TotalSizeOfFullPages(plan: seq<Page>)
    requires forall i :: 0 <= i < |plan| ==> plan[i].size == PageSize
    ensures TotalSize(plan) == PageSize * |plan|
  {
    if plan != [] {
      TotalSizeOfFullPages(plan[1..]);
    }
  }

  /** The page sizes of the whole plan add up to exactly `count`. */
  lemma PlanCoversCount(count: nat)
    ensures TotalSize(PagePlan(count)) == count
  {
    var full := seq(FullPages(count), i requires 0 <= i => Page(i + 1, PageSize));
    var rest := if FinalPageSize(count) != 0 then [Page(FullPages(count) + 1, FinalPageSize(count))] else [];
    assert PagePlan(count) == full + rest;
    TotalSizeAppend(full, rest);
    TotalSizeOfFullPages(full);
    if rest != [] {
      assert TotalSize(rest) == FinalPageSize(count) + TotalSize(rest[1..]);
      assert rest[1..] == [];
    }
  }

  /** 1200 records: pages 1 and 2 of 500, then page 3 of 200. */
  lemma PlanFor1200()
    ensures PagePlan(1200) == [Page(1, 500), Page(2, 500), Page(3, 200)]
  {
  }

  /** 500 records: one full page and no remainder page. */
  lemma PlanFor500()
    ensures PagePlan(500) == [Page(1, 500)]
  {
  }
}
