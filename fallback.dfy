/**
 * The built-in sample records shown whenever the spreadsheet cannot be loaded.
 */
module Fallback {
  import opened Text
  import opened Normalize
  import opened Status
  import opened Metrics

  const FallbackData: seq<Record> := [
    Record(1, "Muro divisa", "Finalizar alvenaria", 70.25, "2026-02-20", "2026-03-06", "Sérgio", "Alto risco"),
    Record(2, "Muro divisa", "Reboco Alvenaria", 16.25, "2026-03-09", "2026-03-20", "Sérgio", "médio risco"),
    Record(3, "Muro divisa", "Requadros de vigas", 72.25, "2026-02-26", "2026-03-16", "Sérgio", "baixo risco"),
    Record(4, "Piscina", "Hidráulica", 0.0, "2026-03-08", "2026-03-26", "Sérgio", "baixo risco"),
    Record(5, "Pisos internos", "Revestimentos", 0.0, "2026-03-22", "2026-04-09", "Sérgio", "médio risco"),
    Record(6, "Móveis", "Mobilias planejadas", 0.0, "2026-06-20", "2026-07-08", "Definir", "Alto risco")
  ]

  /** The sample list has the shape of a normalised batch: six records with
      ids 1..6 in order and a non-empty status each. */
  lemma FallbackShape()
    ensures |FallbackData| == 6
    ensures forall i :: 0 <= i < |FallbackData| ==> FallbackData[i].id == i + 1
    ensures forall i :: 0 <= i < |FallbackData| ==> FallbackData[i].status != ""
  {
  }

  /** "Alto risco" mentions "alto"; "médio risco" and "baixo risco" do not. */
  lemma FallbackStatuses()
    ensures MentionsHigh("Alto risco")
    ensures !MentionsHigh("médio risco") && MentionsMid("médio risco")
    ensures !MentionsHigh("baixo risco") && !MentionsMid("baixo risco")
  {
    assert Lower("Alto risco")[..4] == "alto";
    ContainsPrefix(Lower("Alto risco"), "alto");
    LowerOfLowercase("médio risco");
    LowerOfLowercase("baixo risco");
    NotContainsAbsentChar("médio risco", "alto", 1);
    ContainsPrefix("médio risco", "médio");
    NotContainsAbsentChar("baixo risco", "alto", 1);
    NotContainsAbsentChar("baixo risco", "médio", 1);
    NotContainsAbsentChar("baixo risco", "medio", 1);
  }

  /** The cards on the sample list: six records, two high-risk, none complete,
      progress summing to 158.75, so the mean 158.75/6 = 26.458..., which the
      one-decimal display shows as 26.5. */
  lemma FallbackMetrics()
    ensures HighRiskCount(FallbackData) == 2
    ensures CompletedCount(FallbackData) == 0
    ensures Sum(FallbackData) == 158.75
    ensures Average(FallbackData) == 158.75 / 6.0
    ensures 26.45 <= Average(FallbackData) < 26.55
  {
    FallbackStatuses();
    var d := FallbackData;
    var p0: seq<Record> := [];
    var p1 := p0 + [d[0]];
    var p2 := p1 + [d[1]];
    var p3 := p2 + [d[2]];
    var p4 := p3 + [d[3]];
    var p5 := p4 + [d[4]];
    var p6 := p5 + [d[5]];
    assert p6 == d;
    CountSnoc(p0, d[0], IsHighRisk); CountSnoc(p0, d[0], IsCompleted); SumSnoc(p0, d[0]);
    CountSnoc(p1, d[1], IsHighRisk); CountSnoc(p1, d[1], IsCompleted); SumSnoc(p1, d[1]);
    CountSnoc(p2, d[2], IsHighRisk); CountSnoc(p2, d[2], IsCompleted); SumSnoc(p2, d[2]);
    CountSnoc(p3, d[3], IsHighRisk); CountSnoc(p3, d[3], IsCompleted); SumSnoc(p3, d[3]);
    CountSnoc(p4, d[4], IsHighRisk); CountSnoc(p4, d[4], IsCompleted); SumSnoc(p4, d[4]);
    CountSnoc(p5, d[5], IsHighRisk); CountSnoc(p5, d[5], IsCompleted); SumSnoc(p5, d[5]);
  }

  /** The sample list exercises the renderer's edge cases: a zero-progress
      record, a supplier still "Definir" and a high-risk status. */
  lemma FallbackEdgeCases()
    ensures exists r :: r in FallbackData && r.progresso == 0.0
    ensures exists r :: r in FallbackData && r.fornecedor == "Definir"
    ensures exists r :: r in FallbackData && StatusStyle(r.status) == HighStyle
  {
    FallbackStatuses();
    assert FallbackData[5] in FallbackData;
  }
}
