/** The mobile app's `getStatusTranslations`: the Portuguese label of a report status. */
module StatusTranslations {
  import opened ClientReports

  /** The labels of `Statuses`, position by position. */
  const StatusLabels: seq<string> := ["Pendente", "Em Andamento", "Resolvido", "Rejeitado"]

  /** Each enum value gets its label; any other value is returned unchanged. */
  function StatusTranslation(status: string): (text: string)
    ensures forall k | 0 <= k < |Statuses| :: status == Statuses[k] ==> text == StatusLabels[k]
    ensures status !in Statuses ==> text == status
  {
    if status == Pending then "Pendente"
    else if status == InProgress then "Em Andamento"
    else if status == Resolved then "Resolvido"
    else if status == Rejected then "Rejeitado"
    else status
  }

  /** Distinct statuses get distinct labels. */
  lemma StatusTranslationInjective(a: string, b: string)
    requires a in Statuses && b in Statuses && a != b
    ensures StatusTranslation(a) != StatusTranslation(b)
  {
  }
}
