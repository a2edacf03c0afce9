/**
 * The mobile app's `useReports` hook: a cached list of reports plus a loading
 * flag and an error message, updated by each API operation.  The HTTP
 * client is outside the model: each operation receives what the API call
 * returned or threw.
 */
module UseReports {
  import opened Wrappers
  import opened ClientReports

  /** What an API call threw: the client's `ApiError`, or anything else. */
  datatype Thrown = ApiError(status: int, message: string) | Unexpected

  /** The settled promise of an API call. */
  datatype Call<T> = Returned(value: T) | Threw(thrown: Thrown)

  const UnexpectedMessage: string := "An unexpected error occurred"

  /** The message `handleError` stores. */
  function ErrorMessage(e: Thrown): string {
    match e
    case ApiError(_, m) => m
    case Unexpected => UnexpectedMessage
  }

  /** `[...prev, newReport]`. */
  function Appended(rs: seq<ClientReport>, r: ClientReport): (res: seq<ClientReport>)
    ensures |res| == |rs| + 1
    ensures res[..|rs|] == rs && res[|rs|] == r
  {
    rs + [r]
  }

  /** `prev.map(report => report.id === id ? updated : report)`. */
  function Replaced(rs: seq<ClientReport>, id: string, updated: ClientReport): (res: seq<ClientReport>)
    ensures |res| == |rs|
    ensures forall k | 0 <= k < |rs| :: res[k] == (if rs[k].id == id then updated else rs[k])
  {
    if rs == [] then []
    else [if rs[0].id == id then updated else rs[0]] + Replaced(rs[1..], id, updated)
  }

  /** `prev.filter(report => report.id !== id)`. */
  function Removed(rs: seq<ClientReport>, id: string): (res: seq<ClientReport>)
    ensures |res| <= |rs|
    ensures forall k | 0 <= k < |res| :: res[k].id != id
  {
    if rs == [] then []
    else (if rs[0].id == id then [] else [rs[0]]) + Removed(rs[1..], id)
  }

  /** Removal keeps exactly the entries with another id. */
  lemma {:induction false} RemovedMembers(rs: seq<ClientReport>, id: string, x: ClientReport)
    ensures x in Removed(rs, id) <==> x in rs && x.id != id
  {
    if rs != [] {
      RemovedMembers(rs[1..], id, x);
      assert rs == [rs[0]] + rs[1..];
    }
  }

  /** Removal keeps the order of what remains: it distributes over concatenation. */
  lemma {:induction false} RemovedAppend(a: seq<ClientReport>, b: seq<ClientReport>, id: string)
    ensures Removed(a + b, id) == Removed(a, id) + Removed(b, id)
  {
    if a == [] {
      assert a + b == b;
    } else {
      assert (a + b)[1..] == a[1..] + b;
      RemovedAppend(a[1..], b, id);
    }
  }

  /** Removing an id no entry carries changes nothing. */
  lemma {:induction false} RemovedAbsent(rs: seq<ClientReport>, id: string)
    requires forall k | 0 <= k < |rs| :: rs[k].id != id
    ensures Removed(rs, id) == rs
  {
    if rs != [] {
      RemovedAbsent(rs[1..], id);
    }
  }

  /** Deleting an id after its entries were replaced by a report with that id is deleting it directly. */
  lemma {:induction false} ReplaceThenRemove(rs: seq<ClientReport>, id: string, updated: ClientReport)
    requires updated.id == id
    ensures Removed(Replaced(rs, id, updated), id) == Removed(rs, id)
    decreases |rs|
  {
    if rs != [] {
      ReplaceThenRemove(rs[1..], id, updated);
    }
  }

  /** Replacing an id no entry carries changes nothing. */
  lemma ReplacedAbsent(rs: seq<ClientReport>, id: string, updated: ClientReport)
    requires forall k | 0 <= k < |rs| :: rs[k].id != id
    ensures Replaced(rs, id, updated) == rs
  {
  }

  class ReportsHook {
    var reports: seq<ClientReport>
    var loading: bool
    var error: Option<string>

    /** The initial state: no reports, not loading, no error. */
    constructor()
      ensures reports == [] && !loading && error == None
    {
      reports := [];
      loading := false;
      error := None;
    }

    /** `setLoading(true); setError(null)` at the start of every operation. */
    method Begin()
      modifies this
      ensures reports == old(reports) && loading && error == None
    {
      loading := true;
      error := None;
    }

    /** `handleError`. */
    method HandleError(e: Thrown)
      modifies this
      ensures reports == old(reports) && loading == old(loading)
      ensures e.ApiError? ==> error == Some(e.message)
      ensures e.Unexpected? ==> error == Some(UnexpectedMessage)
    {
      match e
      case ApiError(_, m) => error := Some(m);
      case Unexpected => error := Some(UnexpectedMessage);
    }

    /** `fetchReports` and `fetchMyReports`: replace the list on success; a failure is recorded, not rethrown. */
    method Fetch(response: Call<seq<ClientReport>>)
      modifies this
      ensures !loading
      ensures response.Returned? ==> reports == response.value && error == None
      ensures response.Threw? ==> reports == old(reports) && error == Some(ErrorMessage(response.thrown))
    {
      Begin();
      match response {
        case Returned(data) => reports := data;
        case Threw(e) => HandleError(e);
      }
      loading := false;
    }

    /** `getReport`: the list is untouched; the fetched report is returned or the error rethrown. */
    method GetReport(response: Call<ClientReport>) returns (r: Call<ClientReport>)
      modifies this
      ensures r == response && !loading && reports == old(reports)
      ensures error == (if response.Threw? then Some(ErrorMessage(response.thrown)) else None)
    {
      Begin();
      if response.Threw? {
        HandleError(response.thrown);
      }
      r := response;
      loading := false;
    }

    /** `createReport`: append the created report; on failure record and rethrow. */
    method CreateReport(response: Call<ClientReport>) returns (thrown: Option<Thrown>)
      modifies this
      ensures !loading
      ensures response.Returned? ==> reports == Appended(old(reports), response.value) && error == None && thrown == None
      ensures response.Threw? ==>
        reports == old(reports) && error == Some(ErrorMessage(response.thrown)) && thrown == Some(response.thrown)
    {
      Begin();
      thrown := None;
      match response {
        case Returned(created) => reports := reports + [created];
        case Threw(e) =>
          HandleError(e);
          thrown := Some(e);
      }
      loading := false;
    }

    /** `updateReport` and `updateReportStatus`: replace every entry with the id by the returned report. */
    method Update(id: string, response: Call<ClientReport>) returns (thrown: Option<Thrown>)
      modifies this
      ensures !loading
      ensures response.Returned? ==>
        reports == Replaced(old(reports), id, response.value) && error == None && thrown == None
      ensures response.Threw? ==>
        reports == old(reports) && error == Some(ErrorMessage(response.thrown)) && thrown == Some(response.thrown)
    {
      Begin();
      thrown := None;
      match response {
        case Returned(updated) => reports := Replaced(reports, id, updated);
        case Threw(e) =>
          HandleError(e);
          thrown := Some(e);
      }
      loading := false;
    }

    /** `deleteReport`: drop every entry with the id once the API confirms. */
    method DeleteReport(id: string, response: Call<()>) returns (thrown: Option<Thrown>)
      modifies this
      ensures !loading
      ensures response.Returned? ==> reports == Removed(old(reports), id) && error == None && thrown == None
      ensures response.Threw? ==>
        reports == old(reports) && error == Some(ErrorMessage(response.thrown)) && thrown == Some(response.thrown)
    {
      Begin();
      thrown := None;
      match response {
        case Returned(_) => reports := Removed(reports, id);
        case Threw(e) =>
          HandleError(e);
          thrown := Some(e);
      }
      loading := false;
    }
  }
}
