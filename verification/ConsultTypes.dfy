/** The records of internal/consult/types.go that both the manifest and the durable consult
    event carry. A nil and an empty list marshal and read alike, so both are `[]`. */
module ConsultTypes {

  const SERIALIZER_VERSION_V1 := "consult.v1"

  datatype SelectedItem = SelectedItem(
    id: string,
    kind: string,
    refId: string,
    summaryRef: string,
    bytes: int,
    reason: string)

  datatype SelectionItem = SelectionItem(id: string, kind: string, reason: string, itemClass: string)

  datatype ReasonCount = ReasonCount(reason: string, count: int)

  datatype SelectionExplanation = SelectionExplanation(
    included: seq<SelectionItem>,
    excluded: seq<SelectionItem>,
    dominantInclusionReasons: seq<ReasonCount>,
    dominantExclusionReasons: seq<ReasonCount>,
    budgetPressure: bool)
}
