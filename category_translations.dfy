/** The mobile app's `getCategoryTranslation`: the Portuguese label of a report category. */
module CategoryTranslations {
  import opened ClientReports

  /** The labels of `Categories`, position by position. */
  const CategoryLabels: seq<string> := ["Infraestrutura", "Meio Ambiente", "Segurança", "Outros"]

  /** Each enum value gets its label; any other value is returned unchanged. */
  function CategoryTranslation(category: string): (text: string)
    ensures forall k | 0 <= k < |Categories| :: category == Categories[k] ==> text == CategoryLabels[k]
    ensures category !in Categories ==> text == category
  {
    if category == Infrastructure then "Infraestrutura"
    else if category == Environment then "Meio Ambiente"
    else if category == Safety then "Segurança"
    else if category == Other then "Outros"
    else category
  }

  /** Distinct categories get distinct labels. */
  lemma CategoryTranslationInjective(a: string, b: string)
    requires a in Categories && b in Categories && a != b
    ensures CategoryTranslation(a) != CategoryTranslation(b)
  {
  }
}
