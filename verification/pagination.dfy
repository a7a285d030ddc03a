/** `RepositoryPager.paginate`: page/limit clamping and the meta block. */
module Pagination {
  import opened Common
  import opened Json
  import opened SuccessResponse

  const DefaultPage: int := 1
  const DefaultLimit: int := 10

  function Max(a: int, b: int): int { if a >= b then a else b }
  function Min(a: int, b: int): int { if a <= b then a else b }

  /** `Math.ceil(a / b)` for a non-negative `a` and positive `b`: the least `n`
      with `n * b >= a`. */
  function CeilDiv(a: nat, b: int): (n: nat)
    requires b >= 1
    ensures n * b >= a
    ensures n > 0 ==> (n - 1) * b < a
  {
    var q := a / b;
    assert a == q * b + a % b;
    if a % b == 0 then q else q + 1
  }

  /** The window the query fetches. */
  datatype Window = Window(page: int, limit: int, skip: int)

  /** `page = max(1, page ?? 1)`, `limit = max(1, limit ?? 10)`,
      `skip = (page - 1) * limit`. */
  function WindowOf(page: Option<int>, limit: Option<int>): (w: Window)
    ensures w.page >= 1 && w.limit >= 1 && w.skip >= 0
    ensures page.None? ==> w.page == DefaultPage
    ensures limit.None? ==> w.limit == DefaultLimit
    ensures page.Some? && page.value >= 1 ==> w.page == page.value
    ensures limit.Some? && limit.value >= 1 ==> w.limit == limit.value
    ensures w.skip == (w.page - 1) * w.limit
  {
    var p := Max(1, page.GetOr(DefaultPage));
    var l := Max(1, limit.GetOr(DefaultLimit));
    Window(p, l, (p - 1) * l)
  }

  datatype Meta = Meta(totalElements: nat, totalPages: nat, pageSize: int, currentPage: int, from: int, to: int)

  function MetaOf(w: Window, total: nat): (m: Meta)
    requires w.page >= 1 && w.limit >= 1 && w.skip == (w.page - 1) * w.limit
    ensures m.totalElements == total && m.pageSize == w.limit && m.currentPage == w.page
    ensures m.totalPages == 0 <==> total == 0
    ensures m.totalPages * w.limit >= total
    ensures m.totalPages > 0 ==> (m.totalPages - 1) * w.limit < total
    ensures m.from == 0 <==> total == 0
    ensures total > 0 ==> m.from == w.skip + 1
    ensures m.to == Min(w.skip + w.limit, total) && m.to <= total
  {
    Meta(
      totalElements := total,
      totalPages := CeilDiv(total, w.limit),
      pageSize := w.limit,
      currentPage := w.page,
      from := if total == 0 then 0 else w.skip + 1,
      to := Min(w.skip + w.limit, total))
  }

  /** The page holds rows exactly when it lies within the page count; then it
      holds `to - from + 1` rows, at most `limit`. */
  lemma PageWithinRange(w: Window, total: nat)
    requires w.page >= 1 && w.limit >= 1 && w.skip == (w.page - 1) * w.limit
    ensures var m := MetaOf(w, total);
      (1 <= m.from <= m.to) <==> (total > 0 && w.page <= m.totalPages)
    ensures var m := MetaOf(w, total);
      1 <= m.from <= m.to ==> m.to - m.from + 1 <= w.limit
  {
    var m := MetaOf(w, total);
    if total > 0 {
      if w.page <= m.totalPages {
        assert (w.page - 1) * w.limit <= (m.totalPages - 1) * w.limit by {
          MulMonotone(w.page - 1, m.totalPages - 1, w.limit);
        }
      } else {
        assert m.totalPages * w.limit <= (w.page - 1) * w.limit by {
          MulMonotone(m.totalPages, w.page - 1, w.limit);
        }
      }
    }
  }

  lemma MulMonotone(a: int, b: int, c: int)
    requires 0 <= a <= b && c >= 0
    ensures a * c <= b * c
  {
  }

  function MetaJson(m: Meta): Json {
    JObj(map[
      "totalElements" := JNum(m.totalElements),
      "totalPages" := JNum(m.totalPages),
      "pageSize" := JNum(m.pageSize),
      "currentPage" := JNum(m.currentPage),
      "from" := JNum(m.from),
      "to" := JNum(m.to)])
  }

  /** `paginate`: `rows` is what the query returned for the window and `total`
      the number of matching rows. The envelope always carries the meta block. */
  function Paginate(page: Option<int>, limit: Option<int>, rows: seq<Json>, total: nat): (r: Success)
    ensures r.statusCode == 200 && r.message == DefaultMessage && r.data == JArr(rows)
    ensures r.meta == Some(MetaJson(MetaOf(WindowOf(page, limit), total)))
  {
    SuccessRes(JArr(rows), 200, DefaultMessage, MetaJson(MetaOf(WindowOf(page, limit), total)))
  }
}
