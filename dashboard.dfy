/**
 * The dashboard's refresh cycle (`fetchData`): the five state cells, what a
 * refresh does to them when it starts, and what it leaves behind when the
 * spreadsheet download resolves with rows, with no rows, or with an error.
 * The download itself is outside the model: its outcome is an input.
 */
module Dashboard {
  import opened Wrappers
  import opened Normalize
  import opened Status
  import opened Fallback
  import opened Metrics

  /** The wall-clock instant stored as the last update (`new Date()`). */
  type Timestamp = nat

  /** What the CSV download delivered: the parsed rows (malformed lines
      included), or a failure (the parser script did not load, or the
      download reported an error). */
  datatype ParseOutcome = Rows(rows: seq<Row>) | Failed

  const LoadErrorMessage: string :=
    "Não foi possível carregar os dados da planilha. Exibindo dados de exemplo."

  /** The state cells `data`, `loading`, `error`, `usingFallback`, `lastUpdate`. */
  datatype DashState = DashState(
    data: seq<Record>,
    loading: bool,
    error: Option<string>,
    usingFallback: bool,
    lastUpdate: Option<Timestamp>)

  /** The initial `useState` values. */
  const Initial: DashState := DashState([], true, None, false, None)

  /** An outcome that is stored as live data: at least one parsed row. */
  predicate Accepted(outcome: ParseOutcome) {
    outcome.Rows? && |outcome.rows| > 0
  }

  /** The synchronous start of `fetchData`: loading on, error and fallback flag
      cleared, the records and the timestamp left as they were. */
  function Begin(s: DashState): (t: DashState)
    ensures t.loading && t.error == None && !t.usingFallback
    ensures t.data == s.data && t.lastUpdate == s.lastUpdate
  {
    s.(loading := true, error := None, usingFallback := false)
  }

  /** The end of `fetchData`: rows are normalised and stored; no rows or a
      failure store the sample list, the message and the fallback flag;
      either way the time is stamped and loading is switched off. */
  function Settle(s: DashState, outcome: ParseOutcome, now: Timestamp): (t: DashState)
    ensures !t.loading && t.lastUpdate == Some(now) && |t.data| > 0
    ensures Accepted(outcome) ==>
      t.data == NormalizeRows(outcome.rows) && t.error == s.error && t.usingFallback == s.usingFallback
    ensures !Accepted(outcome) ==>
      t.data == FallbackData && t.error == Some(LoadErrorMessage) && t.usingFallback
  {
    FallbackShape();
    if Accepted(outcome) then
      s.(data := NormalizeRows(outcome.rows), lastUpdate := Some(now), loading := false)
    else
      s.(error := Some(LoadErrorMessage), data := FallbackData, usingFallback := true,
         lastUpdate := Some(now), loading := false)
  }

  /** A whole refresh: start, then settle with the download's outcome. */
  function Refresh(s: DashState, outcome: ParseOutcome, now: Timestamp): DashState {
    Settle(Begin(s), outcome, now)
  }

  /** After a refresh the error message is present exactly when the sample
      list is shown, and the sample list is shown exactly when the download
      did not deliver at least one row. */
  lemma RefreshFlags(s: DashState, outcome: ParseOutcome, now: Timestamp)
    ensures var t := Refresh(s, outcome, now);
      && !t.loading
      && (t.usingFallback <==> !Accepted(outcome))
      && (t.error.Some? <==> t.usingFallback)
      && (t.usingFallback ==> t.data == FallbackData)
      && (!t.usingFallback ==> t.data == NormalizeRows(outcome.rows))
  {
  }

  /** A refresh replaces the state wholesale: its result does not depend on
      the state it started from, so nothing accumulates across refreshes. */
  lemma RefreshForgetsPast(s1: DashState, s2: DashState, outcome: ParseOutcome, now: Timestamp)
    ensures Refresh(s1, outcome, now) == Refresh(s2, outcome, now)
  {
  }

  /** Repeated failures always show the same sample list and message. */
  lemma RepeatedFailure(s: DashState, t1: Timestamp, t2: Timestamp)
    ensures Refresh(Refresh(s, Failed, t1), Failed, t2) == Refresh(s, Failed, t2)
    ensures Refresh(s, Failed, t1).data == Refresh(s, Failed, t2).data == FallbackData
  {
  }

  /** After a failed refresh the cards show the sample list's figures: six
      records, two high-risk, none complete, mean 158.75/6. */
  lemma FailedRefreshCards(s: DashState, outcome: ParseOutcome, now: Timestamp)
    requires !Accepted(outcome)
    ensures Summarize(Refresh(s, outcome, now).data) == Summary(158.75 / 6.0, 2, 0, 6)
  {
    FallbackShape();
    FallbackMetrics();
  }

  /** A sheet with only a header row (zero data rows) is treated as a failure. */
  lemma EmptySheetFallsBack(s: DashState, now: Timestamp)
    ensures Refresh(s, Rows([]), now) == Refresh(s, Failed, now)
  {
  }

  /** The state invariant: whenever the page is not loading there is at least
      one record to show. */
  predicate Shown(s: DashState) {
    s.loading || |s.data| > 0
  }

  /** The invariant holds initially and every step keeps it, so the empty
      state of the table area is never displayed. */
  lemma ShownPreserved(s: DashState, outcome: ParseOutcome, now: Timestamp)
    ensures Shown(Initial)
    ensures Shown(s) ==> Shown(Begin(s))
    ensures Shown(Settle(s, outcome, now))
    ensures Shown(s) ==> SelectView(s.loading, |s.data|) != EmptyState
  {
  }

  /** The dashboard component's state, updated in place by its refresh cycle. */
  class Dashboard {
    var data: seq<Record>
    var loading: bool
    var error: Option<string>
    var usingFallback: bool
    var lastUpdate: Option<Timestamp>

    function State(): DashState
      reads this
    {
      DashState(data, loading, error, usingFallback, lastUpdate)
    }

    ghost predicate Valid()
      reads this
    {
      Shown(State())
    }

    /** Mounting: the initial state; the mount effect's `fetchData` then starts
        a refresh, which leaves that state unchanged. */
    constructor ()
      ensures Valid() && State() == Initial && Begin(State()) == State()
    {
      data, loading, error, usingFallback, lastUpdate := [], true, None, false, None;
    }

    /** The table area currently shown. */
    function View(): (v: View)
      reads this
      requires Valid()
      ensures v != EmptyState
      ensures v == Spinner <==> loading
    {
      SelectView(loading, |data|)
    }

    /** `setLoading(true); setError(null); setUsingFallback(false)` */
    method Start()
      requires Valid()
      modifies this
      ensures Valid() && State() == Begin(old(State()))
    {
      loading := true;
      error := None;
      usingFallback := false;
    }

    /** The `complete`/`error` callbacks, the `catch` and the `finally` of
        `fetchData`; only a refresh in flight (loading) can settle. */
    method Finish(outcome: ParseOutcome, now: Timestamp)
      requires Valid() && loading
      modifies this
      ensures Valid() && State() == Settle(old(State()), outcome, now)
    {
      if outcome.Rows? && |outcome.rows| > 0 {
        data := NormalizeRows(outcome.rows);
        lastUpdate := Some(now);
      } else {
        error := Some(LoadErrorMessage);
        FallbackShape();
        data := FallbackData;
        usingFallback := true;
        lastUpdate := Some(now);
      }
      loading := false;
    }

    /** `fetchData` run to completion with the download's outcome. */
    method FetchData(outcome: ParseOutcome, now: Timestamp)
      requires Valid()
      modifies this
      ensures Valid() && State() == Refresh(old(State()), outcome, now)
      ensures !loading && |data| > 0
    {
      Start();
      Finish(outcome, now);
    }

    /** The refresh button (`disabled={loading}`): a click while loading is
        ignored, otherwise it starts a refresh. */
    method Click() returns (started: bool)
      requires Valid()
      modifies this
      ensures Valid()
      ensures started <==> !old(loading)
      ensures State() == if started then Begin(old(State())) else old(State())
    {
      started := !loading;
      if started {
        Start();
      }
    }
  }
}
