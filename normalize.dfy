/**
 * The row normaliser: one CSV row, as the header->cell pairs in the row
 * object's key order, becomes one canonical record. Each field looks for the
 * first key whose lower-cased text contains any of that field's aliases.
 */
module Normalize {
  import opened Wrappers
  import opened Text
  import opened Numbers

  /** A parsed CSV row: header name and cell text, in the row's key order. */
  type Row = seq<(string, string)>

  /** The canonical record every row is normalised into. */
  datatype Record = Record(
    id: int,
    etapa: string,
    servico: string,
    progresso: real,
    inicio: string,
    termino: string,
    fornecedor: string,
    status: string)

  const EtapaAliases: seq<string> := ["etapa", "fase", "stage"]
  const ServicoAliases: seq<string> := ["serviço", "servico", "service", "atividade", "tarefa"]
  const ProgressoAliases: seq<string> := ["progresso", "progress", "%"]
  const InicioAliases: seq<string> := ["início", "inicio", "start", "data inicio"]
  const TerminoAliases: seq<string> := ["término", "termino", "end", "fim", "data fim"]
  const FornecedorAliases: seq<string> := ["fornecedor", "supplier", "responsável", "responsavel"]
  const StatusAliases: seq<string> := ["status", "risco", "risk"]

  /** The status given to a row with no usable status cell. */
  const DefaultStatus: string := "baixo risco"

  /** `candidates.some(c => key.toLowerCase().includes(c.toLowerCase()))` */
  predicate KeyMatches(key: string, aliases: seq<string>) {
    exists a :: a in aliases && Contains(Lower(key), Lower(a))
  }

  /** Position `i` holds the first key of the row that matches an alias. */
  predicate FirstMatch(row: Row, aliases: seq<string>, i: int) {
    0 <= i < |row| && KeyMatches(row[i].0, aliases) &&
    forall j :: 0 <= j < i ==> !KeyMatches(row[j].0, aliases)
  }

  /** No key of the row matches an alias. */
  predicate NoMatch(row: Row, aliases: seq<string>) {
    forall j :: 0 <= j < |row| ==> !KeyMatches(row[j].0, aliases)
  }

  /** `keys.find(...)` from position `from` on: the index of the first
      matching key, or None. */
  function FindFrom(row: Row, aliases: seq<string>, from: nat): (r: Option<nat>)
    requires from <= |row|
    ensures r.Some? ==> from <= r.value < |row| && KeyMatches(row[r.value].0, aliases)
    ensures r.Some? ==> forall j :: from <= j < r.value ==> !KeyMatches(row[j].0, aliases)
    ensures r.None? ==> forall j :: from <= j < |row| ==> !KeyMatches(row[j].0, aliases)
    decreases |row| - from
  {
    if from == |row| then None
    else if KeyMatches(row[from].0, aliases) then Some(from)
    else FindFrom(row, aliases, from + 1)
  }

  /** The key search of `get`: the first matching key, or None when no key matches. */
  function FindKey(row: Row, aliases: seq<string>): (r: Option<nat>)
    ensures r.Some? ==> FirstMatch(row, aliases, r.value)
    ensures r.None? <==> NoMatch(row, aliases)
  {
    FindFrom(row, aliases, 0)
  }

  /** `get(...aliases)`: the cell under the first matching key; `''` when no
      key matches (or when the matching key is the empty string, which is
      falsy in JavaScript). */
  function Get(row: Row, aliases: seq<string>): (v: string)
    ensures NoMatch(row, aliases) ==> v == ""
    ensures forall i :: FirstMatch(row, aliases, i) ==> v == (if row[i].0 == "" then "" else row[i].1)
  {
    match FindKey(row, aliases)
    case None => ""
    case Some(i) =>
      assert forall k :: FirstMatch(row, aliases, k) ==> k == i by {
        forall k | FirstMatch(row, aliases, k) ensures k == i {
          FirstMatchUnique(row, aliases, k, i);
        }
      }
      if row[i].0 == "" then "" else row[i].1
  }

  /** At most one position is the first match. */
  lemma FirstMatchUnique(row: Row, aliases: seq<string>, i: int, k: int)
    requires FirstMatch(row, aliases, i) && FirstMatch(row, aliases, k)
    ensures i == k
  {
  }

  /** Every row has either no matching key or a first one. */
  lemma MatchOrNot(row: Row, aliases: seq<string>)
    ensures NoMatch(row, aliases) || exists i :: FirstMatch(row, aliases, i)
  {
    var r := FindKey(row, aliases);
    if r.Some? {
      assert FirstMatch(row, aliases, r.value);
    }
  }

  /** `parseFloat(String(raw).replace(',', '.')) || 0`: the first comma becomes
      a point; NaN and zero both give 0. */
  function Progress(raw: string): real {
    match ParseFloat(ReplaceFirst(raw, ',', '.'))
    case None => 0.0
    case Some(v) => if v == 0.0 then 0.0 else v
  }

  /** Decimal-comma tolerance: `w,f` and `w.f` coerce to the same progress,
      the value of the decimal `w.f`. */
  lemma ProgressDecimalComma(w: string, f: string)
    requires AllDigits(w) && AllDigits(f) && w != [] && f != []
    ensures Progress(w + "," + f) == Progress(w + "." + f) == WholeValue(w) as real + FractionValue(f)
  {
    CommaReplaced(w, f);
    ParseDecimal(w + "." + f, w, f);
    assert NumeralValue(Numeral(false, w, f)) == WholeValue(w) as real + FractionValue(f);
    assert ParseFloat(ReplaceFirst(w + "," + f, ',', '.')) == ParseFloat(w + "." + f);
  }

  /** Replacing the first comma of `w,f` gives `w.f`, which has no comma left. */
  lemma CommaReplaced(w: string, f: string)
    requires AllDigits(w) && AllDigits(f)
    ensures ReplaceFirst(w + "," + f, ',', '.') == w + "." + f
    ensures ReplaceFirst(w + "." + f, ',', '.') == w + "." + f
  {
    assert ',' !in w by {
      forall k | 0 <= k < |w| ensures w[k] != ',' { assert IsDigit(w[k]); }
    }
    assert ',' !in f by {
      forall k | 0 <= k < |f| ensures f[k] != ',' { assert IsDigit(f[k]); }
    }
    ReplaceFirstAt(w, ',', '.', f);
    assert w + "," + f == w + [','] + f;
    assert w + "." + f == w + ['.'] + f;
    assert ',' !in w + "." + f;
  }

  /** A cell whose first character cannot start a number (a letter, say)
      coerces to progress 0; so does the empty cell. */
  lemma ProgressNonNumeric(raw: string)
    requires raw == [] || (!IsWhitespace(raw[0]) && !IsDigit(raw[0]) && raw[0] !in "+-.,")
    ensures Progress(raw) == 0.0
  {
    var t := ReplaceFirst(raw, ',', '.');
    assert t == [] || t[0] == raw[0];
    NoNumberAhead(t);
  }

  /** `parseFloat` finds no number in text whose first character is neither
      white space, a digit, a sign nor a point. */
  lemma NoNumberAhead(t: string)
    requires t == [] || (!IsWhitespace(t[0]) && !IsDigit(t[0]) && t[0] !in "+-.")
    ensures ParseFloat(t) == None
  {
    assert LeadingWhitespace(t) == 0;
    assert SkipWhitespace(t) == t;
    assert ScanUnsigned(t) == None;
  }

  /** `s.replace(c, d)` with a one-character pattern: only the first `c` is replaced. */
  function ReplaceFirst(s: string, c: char, d: char): (r: string)
    ensures |r| == |s|
    ensures |s| > 0 && s[0] != c ==> r[0] == s[0]
    ensures c !in s ==> r == s
  {
    if s == [] then []
    else if s[0] == c then [d] + s[1..]
    else [s[0]] + ReplaceFirst(s[1..], c, d)
  }

  /** The first `c` is the one replaced: whatever follows it is left alone,
      later occurrences of `c` included. */
  lemma {:induction false} ReplaceFirstAt(a: string, c: char, d: char, b: string)
    requires c !in a
    ensures ReplaceFirst(a + [c] + b, c, d) == a + [d] + b
  {
    if a != [] {
      assert (a + [c] + b)[1..] == a[1..] + [c] + b;
      ReplaceFirstAt(a[1..], c, d, b);
    } else {
      assert a + [c] + b == [c] + b;
    }
  }

  /** `parseRow(row, index)`. */
  function ParseRow(row: Row, index: nat): (r: Record)
    ensures r.id == index + 1
    ensures r.status != ""
  {
    var status := Get(row, StatusAliases);
    Record(
      index + 1,
      Get(row, EtapaAliases),
      Get(row, ServicoAliases),
      Progress(Get(row, ProgressoAliases)),
      Get(row, InicioAliases),
      Get(row, TerminoAliases),
      Get(row, FornecedorAliases),
      if status == "" then DefaultStatus else status)
  }

  /** `results.data.map(parseRow)`. */
  function NormalizeRows(rows: seq<Row>): (rs: seq<Record>)
    ensures |rs| == |rows|
    ensures forall i :: 0 <= i < |rows| ==> rs[i] == ParseRow(rows[i], i)
  {
    seq(|rows|, i requires 0 <= i < |rows| => ParseRow(rows[i], i))
  }

  /** Ids: normalising N rows gives N records in row order whose ids are
      exactly 1..N, strictly increasing and so pairwise distinct. */
  lemma NormalizedIds(rows: seq<Row>)
    ensures var rs := NormalizeRows(rows);
      && (forall i :: 0 <= i < |rs| ==> rs[i].id == i + 1)
      && (forall r :: r in rs ==> 1 <= r.id <= |rows|)
      && (forall i, j :: 0 <= i < j < |rs| ==> rs[i].id < rs[j].id)
  {
  }

  /** An alias search with only non-empty aliases never selects an empty key. */
  lemma MatchedKeyNonEmpty(key: string, aliases: seq<string>)
    requires forall a :: a in aliases ==> a != ""
    requires KeyMatches(key, aliases)
    ensures key != ""
  {
    var a :| a in aliases && Contains(Lower(key), Lower(a));
    ContainsLength(Lower(key), Lower(a));
  }

  /** `get` for a list of non-empty aliases: the cell of the first matching key. */
  lemma GetFirstMatch(row: Row, aliases: seq<string>, i: int)
    requires forall a :: a in aliases ==> a != ""
    requires FirstMatch(row, aliases, i)
    ensures Get(row, aliases) == row[i].1
  {
    MatchedKeyNonEmpty(row[i].0, aliases);
  }

  /** Every alias list of `parseRow` is made of non-empty aliases. */
  lemma AliasesNonEmpty()
    ensures forall a :: a in EtapaAliases ==> a != ""
    ensures forall a :: a in ServicoAliases ==> a != ""
    ensures forall a :: a in ProgressoAliases ==> a != ""
    ensures forall a :: a in InicioAliases ==> a != ""
    ensures forall a :: a in TerminoAliases ==> a != ""
    ensures forall a :: a in FornecedorAliases ==> a != ""
    ensures forall a :: a in StatusAliases ==> a != ""
  {
  }

  /** Key search: every text field of `parseRow` takes the cell of the first
      key, in the row's key order, matching one of its aliases. */
  lemma ParseRowText(row: Row, index: nat, i: int)
    requires 0 <= i < |row|
    ensures var r := ParseRow(row, index);
      && (FirstMatch(row, EtapaAliases, i) ==> r.etapa == row[i].1)
      && (FirstMatch(row, ServicoAliases, i) ==> r.servico == row[i].1)
      && (FirstMatch(row, InicioAliases, i) ==> r.inicio == row[i].1)
      && (FirstMatch(row, TerminoAliases, i) ==> r.termino == row[i].1)
      && (FirstMatch(row, FornecedorAliases, i) ==> r.fornecedor == row[i].1)
  {
    AliasesNonEmpty();
    if FirstMatch(row, EtapaAliases, i) { GetFirstMatch(row, EtapaAliases, i); }
    if FirstMatch(row, ServicoAliases, i) { GetFirstMatch(row, ServicoAliases, i); }
    if FirstMatch(row, InicioAliases, i) { GetFirstMatch(row, InicioAliases, i); }
    if FirstMatch(row, TerminoAliases, i) { GetFirstMatch(row, TerminoAliases, i); }
    if FirstMatch(row, FornecedorAliases, i) { GetFirstMatch(row, FornecedorAliases, i); }
  }

  /** Key search for the two coerced fields: progress is the coerced cell of
      the first progress key; the status is the cell of the first status key,
      or "baixo risco" when that cell is empty. */
  lemma ParseRowCoerced(row: Row, index: nat, i: int)
    requires 0 <= i < |row|
    ensures var r := ParseRow(row, index);
      && (FirstMatch(row, ProgressoAliases, i) ==> r.progresso == Progress(row[i].1))
      && (FirstMatch(row, StatusAliases, i) ==>
            r.status == if row[i].1 == "" then DefaultStatus else row[i].1)
  {
    AliasesNonEmpty();
    if FirstMatch(row, ProgressoAliases, i) { GetFirstMatch(row, ProgressoAliases, i); }
    if FirstMatch(row, StatusAliases, i) { GetFirstMatch(row, StatusAliases, i); }
  }

  /** Totality and defaults: a field no key matches is `''`, progress is 0 and
      the status is "baixo risco". */
  lemma ParseRowDefaults(row: Row, index: nat)
    ensures var r := ParseRow(row, index);
      && (NoMatch(row, EtapaAliases) ==> r.etapa == "")
      && (NoMatch(row, ServicoAliases) ==> r.servico == "")
      && (NoMatch(row, ProgressoAliases) ==> r.progresso == 0.0)
      && (NoMatch(row, InicioAliases) ==> r.inicio == "")
      && (NoMatch(row, TerminoAliases) ==> r.termino == "")
      && (NoMatch(row, FornecedorAliases) ==> r.fornecedor == "")
      && (NoMatch(row, StatusAliases) ==> r.status == DefaultStatus)
  {
    assert ScanNumeral(SkipWhitespace("")) == None;
  }

  /** The rank of an alias within its list plays no part: two alias lists with
      the same members pick the same key. */
  lemma {:induction false} AliasOrderIrrelevant(row: Row, a1: seq<string>, a2: seq<string>, from: nat)
    requires from <= |row|
    requires forall a :: a in a1 <==> a in a2
    ensures FindFrom(row, a1, from) == FindFrom(row, a2, from)
    decreases |row| - from
  {
    if from < |row| {
      assert KeyMatches(row[from].0, a1) == KeyMatches(row[from].0, a2);
      AliasOrderIrrelevant(row, a1, a2, from + 1);
    }
  }

  /** Consequently `get` returns the same cell for any reordering of its aliases. */
  lemma GetAliasOrderIrrelevant(row: Row, a1: seq<string>, a2: seq<string>)
    requires forall a :: a in a1 <==> a in a2
    ensures Get(row, a1) == Get(row, a2)
  {
    AliasOrderIrrelevant(row, a1, a2, 0);
  }
}
