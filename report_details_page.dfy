/**
 * The admin dashboard's report-details page: its own category and status
 * translations, the status chip colour, video detection and the status
 * update form.
 */
module ReportDetailsPage {
  import opened Wrappers
  import Js
  import opened ClientReports

  /** `statusColors`. */
  const StatusColors: map<string, string> :=
    map[Pending := "#FFC107", InProgress := "#2196F3", Resolved := "#4CAF50", Rejected := "#F44336"]

  const FallbackChipColor: string := "#757575"

  /** `statusColors[report.status] || '#757575'`. */
  function ChipColor(status: string): (c: string)
    ensures status in StatusColors ==> c == StatusColors[status]
    ensures status !in StatusColors ==> c == FallbackChipColor
  {
    if status in StatusColors then StatusColors[status] else FallbackChipColor
  }

  /** The colour table covers exactly the enum, with distinct colours none of which is the fallback. */
  lemma ChipColorsCoverStatuses(a: string, b: string)
    ensures a in StatusColors <==> a in Statuses
    ensures a in Statuses ==> ChipColor(a) != FallbackChipColor
    ensures a in Statuses && b in Statuses && a != b ==> ChipColor(a) != ChipColor(b)
  {
  }

  const CategoryLabelTable: seq<string> := ["Infraestrutura", "Meio Ambiente", "Segurança", "Outros"]
  const StatusLabelTable: seq<string> := ["Pendente", "Em Andamento", "Resolvido", "Rejeitado"]

  /** The page's `getCategoryTranslation`, falling back to `String(category)`. */
  function CategoryTranslation(category: string): (text: string)
    ensures forall k | 0 <= k < |Categories| :: category == Categories[k] ==> text == CategoryLabelTable[k]
    ensures category !in Categories ==> text == category
  {
    if category == Infrastructure then "Infraestrutura"
    else if category == Environment then "Meio Ambiente"
    else if category == Safety then "Segurança"
    else if category == Other then "Outros"
    else category
  }

  /** The page's `getStatusTranslation`, falling back to `String(status)`. */
  function StatusTranslation(status: string): (text: string)
    ensures forall k | 0 <= k < |Statuses| :: status == Statuses[k] ==> text == StatusLabelTable[k]
    ensures status !in Statuses ==> text == status
  {
    if status == Pending then "Pendente"
    else if status == InProgress then "Em Andamento"
    else if status == Resolved then "Resolvido"
    else if status == Rejected then "Rejeitado"
    else status
  }

  const VideoExtensions: seq<string> := ["mp4", "mov", "avi", "wmv", "flv", "webm"]

  /** `/\.(mp4|mov|avi|wmv|flv|webm)$/i.test(url)`: a dot and one of the extensions end the URL, in any letter case. */
  predicate IsVideo(url: string) {
    exists k | 0 <= k < |VideoExtensions| :: Js.EndsWith(Js.ToLowerAscii(url), "." + VideoExtensions[k])
  }

  /** The first two arguments of `reportsApi.updateReportStatus` plus the comment. */
  datatype StatusRequest = StatusRequest(id: string, status: string, comment: string)

  const LoadFailedMessage: string := "Falha ao carregar os detalhes do relato"
  const UpdateFailedMessage: string := "Falha ao atualizar o status do relato"

  /** The update button is disabled while an update runs or when the selection is the current status. */
  predicate ButtonDisabled(updating: bool, selected: string, current: string) {
    updating || selected == current
  }

  class DetailsPage {
    const id: string
    var report: Option<ClientReport>
    var loading: bool
    var error: Option<string>
    /** The selected status; "" when none is selected. */
    var status: string
    var updating: bool
    var comment: string

    constructor(id: string)
      ensures this.id == id && report == None && loading && error == None
      ensures status == "" && !updating && comment == ""
    {
      this.id := id;
      report := None;
      loading := true;
      error := None;
      status := "";
      updating := false;
      comment := "";
    }

    /** The effect that loads the report; the selection starts at its current status. */
    method FetchReport(response: Option<ClientReport>)
      modifies this
      ensures !loading && updating == old(updating) && comment == old(comment)
      ensures response.Some? ==> report == response && status == response.value.status && error == old(error)
      ensures response.Some? ==> ButtonDisabled(updating, status, report.value.status)
      ensures response.None? ==>
        report == old(report) && status == old(status) && error == Some(LoadFailedMessage)
    {
      loading := true;
      match response {
        case Some(r) =>
          report := Some(r);
          status := r.status;
        case None =>
          error := Some(LoadFailedMessage);
      }
      loading := false;
    }

    /** `handleStatusChange`. */
    method HandleStatusChange(newStatus: string)
      modifies this
      ensures status == newStatus
      ensures report == old(report) && comment == old(comment) && updating == old(updating) && error == old(error)
    {
      status := newStatus;
    }

    /**
     * `updateStatus`: with no selection nothing happens and no request is
     * sent.  Otherwise the request carries the selection and the comment;
     * `ok` is whether it succeeded.  Success changes only the local status
     * and clears the comment; failure keeps both and sets the error.
     */
    method UpdateStatus(ok: bool) returns (sent: Option<StatusRequest>)
      modifies this
      ensures old(status) == "" ==>
        sent == None && report == old(report) && comment == old(comment) && error == old(error)
        && updating == old(updating)
      ensures old(status) != "" ==> sent == Some(StatusRequest(id, old(status), old(comment))) && !updating
      ensures old(status) != "" && ok ==>
        && report == (if old(report).Some? then Some(old(report).value.(status := old(status))) else None)
        && comment == "" && error == old(error)
      ensures old(status) != "" && !ok ==>
        report == old(report) && comment == old(comment) && error == Some(UpdateFailedMessage)
      ensures status == old(status)
      ensures old(status) != "" && ok && report.Some? ==> ButtonDisabled(updating, status, report.value.status)
    {
      if status == "" {
        return None;
      }
      updating := true;
      sent := Some(StatusRequest(id, status, comment));
      if ok {
        if report.Some? {
          report := Some(report.value.(status := status));
        }
        comment := "";
      } else {
        error := Some(UpdateFailedMessage);
      }
      updating := false;
    }
  }
}
