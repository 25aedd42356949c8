/**
 * The defaulting block of `GetMovieList` in query.controllers.go: before the
 * list service is called, the bound request has its page, limit, sort and
 * year pulled back to allowed values.
 */
module QueryController {
  import opened Models

  const DefaultSortField := "modified.time"
  const DefaultSortType := "desc"
  const DefaultLimit := 20
  const MaxLimit := 64
  const FirstYear := 1970
  const LastYear := 2025

  predicate ValidSortField(s: string) {
    s == "modified.time" || s == "_id" || s == "year"
  }

  predicate ValidSortType(s: string) {
    s == "asc" || s == "desc"
  }

  /** An empty language means "any"; otherwise one of the three dubbing kinds. */
  predicate ValidSortLang(s: string) {
    s == "" || s == "vietsub" || s == "thuyet-minh" || s == "long-tieng"
  }

  /** Zero means "any year". */
  predicate ValidYear(y: int) {
    y == 0 || FirstYear <= y <= LastYear
  }

  /** A request the service may be called with. */
  predicate WellFormed(req: ListRequest) {
    req.page >= 1 && 1 <= req.limit <= MaxLimit &&
    ValidSortField(req.sortField) && ValidSortType(req.sortType) &&
    ValidSortLang(req.sortLang) && ValidYear(req.year)
  }

  /**
   * The request after defaulting: every field that is out of range takes its
   * default, every field in range is kept, and the filters pass through.
   */
  function Defaulted(req: ListRequest): (r: ListRequest)
    ensures WellFormed(r)
    ensures r.typeList == req.typeList && r.category == req.category && r.country == req.country
    ensures r.page == (if req.page <= 0 then 1 else req.page)
    ensures r.limit == (if 1 <= req.limit <= MaxLimit then req.limit else DefaultLimit)
    ensures r.sortField == (if ValidSortField(req.sortField) then req.sortField else DefaultSortField)
    ensures r.sortType == (if ValidSortType(req.sortType) then req.sortType else DefaultSortType)
    ensures r.sortLang == (if ValidSortLang(req.sortLang) then req.sortLang else "")
    ensures r.year == (if ValidYear(req.year) then req.year else 0)
  {
    var sortField := if req.sortField == "" then DefaultSortField else req.sortField;
    var sortType := if req.sortType == "" then DefaultSortType else req.sortType;
    req.(page := if req.page <= 0 then 1 else req.page,
         sortField := if ValidSortField(sortField) then sortField else DefaultSortField,
         sortType := if ValidSortType(sortType) then sortType else DefaultSortType,
         limit := if req.limit <= 0 || req.limit > MaxLimit then DefaultLimit else req.limit,
         sortLang := if req.sortLang != "" && !ValidSortLang(req.sortLang) then "" else req.sortLang,
         year := if req.year != 0 && (req.year < FirstYear || req.year > LastYear) then 0 else req.year)
  }

  /** Defaulting changes exactly the requests that are not well formed. */
  lemma DefaultedFixes(req: ListRequest)
    ensures Defaulted(req) == req <==> WellFormed(req)
  {
  }

  /** Defaulting twice is defaulting once. */
  lemma DefaultedIdempotent(req: ListRequest)
    ensures Defaulted(Defaulted(req)) == Defaulted(req)
  {
    DefaultedFixes(Defaulted(req));
  }

  /** The defaulting block of `GetMovieList`, reassigning one field after another. */
  method ApplyDefaults(req: ListRequest) returns (r: ListRequest)
    ensures r == Defaulted(req)
  {
    r := req;
    if r.page <= 0 {
      r := r.(page := 1);
    }
    if r.sortField == "" {
      r := r.(sortField := DefaultSortField);
    }
    if r.sortType == "" {
      r := r.(sortType := DefaultSortType);
    }
    if r.limit <= 0 || r.limit > MaxLimit {
      r := r.(limit := DefaultLimit);
    }
    if !ValidSortField(r.sortField) {
      r := r.(sortField := DefaultSortField);
    }
    if r.sortType != "asc" && r.sortType != "desc" {
      r := r.(sortType := DefaultSortType);
    }
    if r.sortLang != "" {
      if !ValidSortLang(r.sortLang) {
        r := r.(sortLang := "");
      }
    }
    if r.year != 0 && (r.year < FirstYear || r.year > LastYear) {
      r := r.(year := 0);
    }
  }
}
