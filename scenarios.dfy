/**
 * Concrete rows and statuses, worked through the normaliser and the
 * classifier: the cases the dashboard's spreadsheet is expected to contain.
 */
module Scenarios {
  import opened Text
  import opened Numbers
  import opened Normalize
  import opened Status

  /** "45,5" and "45.5" both give 45.5. */
  lemma DecimalCommaExample()
    ensures Progress("45,5") == 45.5
    ensures Progress("45.5") == 45.5
  {
    var comma, point := "45" + "," + "5", "45" + "." + "5";
    assert comma == "45,5" && point == "45.5";
    FortyFive();
    ProgressDecimalComma("45", "5");
  }

  lemma FortyFive()
    ensures AllDigits("45") && AllDigits("5")
    ensures WholeValue("45") as real + FractionValue("5") == 45.5
  {
    assert "45"[..1] == "4";
    assert "4"[..0] == "";
    assert "5"[1..] == "";
  }

  /** "abc" and the empty cell give 0. */
  lemma NonNumericExample()
    ensures Progress("abc") == 0.0
    ensures Progress("") == 0.0
  {
    ProgressNonNumeric("abc");
    ProgressNonNumeric("");
  }

  /** A "Data Início" column feeds the start date, whatever comes after it,
      provided no earlier column matches a start-date alias. */
  lemma DataInicioColumn(pre: Row, v: string, post: Row, index: nat)
    requires NoMatch(pre, InicioAliases)
    ensures ParseRow(pre + [("Data Início", v)] + post, index).inicio == v
  {
    var row := pre + [("Data Início", v)] + post;
    assert row[|pre|] == ("Data Início", v);
    assert "Data Início" == "Data " + "Início" + "";
    assert Lower("Início") == "início" == Lower("início");
    LowerContainsInfix("Data ", "Início", "");
    assert KeyMatches(row[|pre|].0, InicioAliases) by {
      assert InicioAliases[0] == "início";
    }
    assert forall j :: 0 <= j < |pre| ==> row[j] == pre[j];
    assert FirstMatch(row, InicioAliases, |pre|);
    ParseRowText(row, index, |pre|);
  }

  /** The alias rank does not decide: "Fase" (the second etapa alias) wins
      over a later "Etapa" (the first one), because key order decides. */
  lemma KeyOrderBeatsAliasRank()
    ensures ParseRow([("Fase", "A"), ("Etapa", "B")], 0).etapa == "A"
  {
    var row: Row := [("Fase", "A"), ("Etapa", "B")];
    assert Lower("Fase") == "fase";
    assert Lower("fase") == "fase";
    ContainsPrefix("fase", "fase");
    assert KeyMatches(row[0].0, EtapaAliases) by {
      assert EtapaAliases[1] == "fase";
    }
    assert FirstMatch(row, EtapaAliases, 0);
    ParseRowText(row, 0, 0);
  }

  /** One column may feed two fields: "Fase do serviço" matches both the
      etapa alias "fase" and the servico alias "serviço". */
  lemma SharedColumn()
    ensures ParseRow([("Fase do serviço", "Muro")], 0).etapa == "Muro"
    ensures ParseRow([("Fase do serviço", "Muro")], 0).servico == "Muro"
  {
    var row: Row := [("Fase do serviço", "Muro")];
    assert "Fase do serviço" == "" + "Fase" + " do serviço";
    assert "Fase do serviço" == "Fase do " + "serviço" + "";
    assert Lower("Fase") == "fase" == Lower("fase");
    assert Lower("serviço") == "serviço";
    LowerContainsInfix("", "Fase", " do serviço");
    LowerContainsInfix("Fase do ", "serviço", "");
    assert KeyMatches(row[0].0, EtapaAliases) by {
      assert EtapaAliases[1] == "fase";
    }
    assert KeyMatches(row[0].0, ServicoAliases) by {
      assert ServicoAliases[0] == "serviço";
    }
    assert FirstMatch(row, EtapaAliases, 0);
    assert FirstMatch(row, ServicoAliases, 0);
    ParseRowText(row, 0, 0);
  }

  /** A "RISK LEVEL" column holding "Alto" gives a status that is drawn and
      counted as high risk. */
  lemma RiskLevelColumn()
    ensures ParseRow([("RISK LEVEL", "Alto")], 0).status == "Alto"
    ensures StatusStyle(ParseRow([("RISK LEVEL", "Alto")], 0).status) == HighStyle
  {
    var row: Row := [("RISK LEVEL", "Alto")];
    RiskLevelMatches();
    assert FirstMatch(row, StatusAliases, 0);
    ParseRowCoerced(row, 0, 0);
    AltoIsHigh();
  }

  lemma RiskLevelMatches()
    ensures KeyMatches("RISK LEVEL", StatusAliases)
  {
    assert "RISK LEVEL" == "" + "RISK" + " LEVEL";
    assert Lower("RISK") == "risk" == Lower("risk");
    LowerContainsInfix("", "RISK", " LEVEL");
    assert StatusAliases[2] == "risk";
  }

  lemma AltoIsHigh()
    ensures StatusStyle("Alto") == HighStyle
  {
    assert Lower("Alto") == "alto";
    ContainsPrefix("alto", "alto");
  }

  /** "alto" wins over "médio" in one status; "MÉDIO" is mid through lower-casing. */
  lemma StatusPriority()
    ensures StatusStyle("alto/médio") == HighStyle
    ensures StatusStyle("MÉDIO") == MidStyle
    ensures StatusStyle("Medio") == MidStyle
    ensures StatusStyle("ok") == LowStyle
  {
    assert Lower("alto/médio") == "alto/médio";
    ContainsPrefix("alto/médio", "alto");
    assert Lower("MÉDIO") == "médio";
    NotContainsAbsentChar("médio", "alto", 0);
    ContainsPrefix("médio", "médio");
    assert Lower("Medio") == "medio";
    NotContainsAbsentChar("medio", "alto", 0);
    ContainsPrefix("medio", "medio");
    assert Lower("ok") == "ok";
    NotContainsAbsentChar("ok", "alto", 0);
    NotContainsAbsentChar("ok", "médio", 0);
    NotContainsAbsentChar("ok", "medio", 0);
  }
}
