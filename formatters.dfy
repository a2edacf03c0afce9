/** The admin dashboard's `getStatusDetails` and `getCategoryLabel`. */
module Formatters {
  import opened Wrappers
  import opened ClientReports

  /** The icons shown beside a status. */
  datatype StatusIcon = PendingIcon | ProgressIcon | ResolvedIcon | RejectedIcon

  /** A status's label, Material UI colour name and icon; `text` is the source's `label`, a reserved word here. */
  datatype StatusDetails = StatusDetails(text: string, color: string, icon: Option<StatusIcon>)

  const DetailLabels: seq<string> := ["Pendente", "Em Andamento", "Resolvido", "Rejeitado"]
  const DetailColors: seq<string> := ["warning", "info", "success", "error"]
  const DetailIcons: seq<StatusIcon> := [PendingIcon, ProgressIcon, ResolvedIcon, RejectedIcon]

  /** `getStatusDetails`: a table over the enum; any other value keeps its text, colour "default" and no icon. */
  function GetStatusDetails(status: string): (d: StatusDetails)
    ensures forall k | 0 <= k < |Statuses| :: status == Statuses[k] ==>
      d == StatusDetails(DetailLabels[k], DetailColors[k], Some(DetailIcons[k]))
    ensures status !in Statuses ==> d == StatusDetails(status, "default", None)
  {
    if status == Pending then StatusDetails("Pendente", "warning", Some(PendingIcon))
    else if status == InProgress then StatusDetails("Em Andamento", "info", Some(ProgressIcon))
    else if status == Resolved then StatusDetails("Resolvido", "success", Some(ResolvedIcon))
    else if status == Rejected then StatusDetails("Rejeitado", "error", Some(RejectedIcon))
    else StatusDetails(status, "default", None)
  }

  const CategoryLabelTable: seq<string> := ["Infraestrutura", "Meio Ambiente", "Segurança", "Outros"]

  /** `getCategoryLabel`: a table over the enum; any other value keeps its text. */
  function GetCategoryLabel(category: string): (text: string)
    ensures forall k | 0 <= k < |Categories| :: category == Categories[k] ==> text == CategoryLabelTable[k]
    ensures category !in Categories ==> text == category
  {
    if category == Infrastructure then "Infraestrutura"
    else if category == Environment then "Meio Ambiente"
    else if category == Safety then "Segurança"
    else if category == Other then "Outros"
    else category
  }

  /** The status labels of the enum are pairwise distinct, and so are the colours. */
  lemma StatusDetailsInjective(a: string, b: string)
    requires a in Statuses && b in Statuses && a != b
    ensures GetStatusDetails(a).text != GetStatusDetails(b).text
    ensures GetStatusDetails(a).color != GetStatusDetails(b).color
  {
  }

  /** The category labels of the enum are pairwise distinct. */
  lemma CategoryLabelInjective(a: string, b: string)
    requires a in Categories && b in Categories && a != b
    ensures GetCategoryLabel(a) != GetCategoryLabel(b)
  {
  }
}
