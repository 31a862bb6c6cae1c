/**
 * How the dashboard presents a record and the page: the status badge of
 * `getStatusStyle` and the choice between spinner, empty state and table.
 */
module Status {
  import opened Text

  /** The badge class and the progress-bar colour of a status. */
  datatype Style = Style(badge: string, bar: string)

  const HighStyle: Style := Style("status-high", "#ef4444")
  const MidStyle: Style := Style("status-mid", "#f59e0b")
  const LowStyle: Style := Style("status-low", "#10b981")

  predicate MentionsHigh(status: string) { Contains(Lower(status), "alto") }

  predicate MentionsMid(status: string) {
    Contains(Lower(status), "médio") || Contains(Lower(status), "medio")
  }

  /** `getStatusStyle(status)`: "alto" wins, then "médio"/"medio", else low. */
  function StatusStyle(status: string): (st: Style)
    ensures st == HighStyle <==> MentionsHigh(status)
    ensures st == MidStyle <==> !MentionsHigh(status) && MentionsMid(status)
    ensures st == LowStyle <==> !MentionsHigh(status) && !MentionsMid(status)
  {
    if MentionsHigh(status) then HighStyle
    else if MentionsMid(status) then MidStyle
    else LowStyle
  }

  /** What the table area shows. */
  datatype View = Spinner | EmptyState | Table

  /** The table area: spinner while loading, whatever the data; the empty
      state only when loaded with no records; the table otherwise. */
  function SelectView(loading: bool, recordCount: nat): (v: View)
    ensures v == Spinner <==> loading
    ensures v == EmptyState <==> !loading && recordCount == 0
    ensures v == Table <==> !loading && recordCount > 0
  {
    if loading then Spinner
    else if recordCount == 0 then EmptyState
    else Table
  }

  /** Upper-case and accented spellings classify like their lower-case forms:
      the classifier sees a status only through `toLowerCase`. */
  lemma StyleIgnoresCase(status: string)
    ensures StatusStyle(Lower(status)) == StatusStyle(status)
  {
    LowerIdempotent(status);
  }
}
