/**
 * `preprocess_data` of task2/data_loader.py: copies the frame, then adds
 * the derived columns `days_since_install`, `avg_session_duration`,
 * `win_rate` and `total_revenue`, each only when its source columns are
 * present. A frame is modelled as a map from column name to a column of
 * numbers; dates are day stamps (days since an epoch, possibly fractional).
 */
module DataLoader {
  import opened Ratios

  /** Each column of the map has `rows` entries. */
  ghost predicate Rectangular(columns: map<string, seq<real>>, rows: nat)
  {
    forall c :: c in columns ==> |columns[c]| == rows
  }

  /** A data frame: named numeric columns of one length. */
  class Frame {
    var columns: map<string, seq<real>>
    const rows: nat

    ghost predicate Valid()
      reads this
    {
      Rectangular(columns, rows)
    }

    constructor (columns: map<string, seq<real>>, rows: nat)
      requires Rectangular(columns, rows)
      ensures Valid() && this.columns == columns && this.rows == rows
    {
      this.columns := columns;
      this.rows := rows;
    }

    /** `df.copy()`: a new frame with the same columns. */
    method Copy() returns (c: Frame)
      requires Valid()
      ensures fresh(c) && c.Valid() && c.columns == columns && c.rows == rows
    {
      c := new Frame(columns, rows);
    }

    /** `df[name] = values`: adds the column, or replaces it when it exists. */
    method SetColumn(name: string, values: seq<real>)
      requires Valid() && |values| == rows
      modifies this
      ensures Valid() && columns == old(columns)[name := values]
    {
      columns := columns[name := values];
    }
  }

  // ---------------------------------------------------------------------------
  // Row formulas

  /** `(event_date - install_date).dt.days`: the whole days elapsed, rounded down. */
  function DayDifference(eventDate: real, installDate: real): (days: int)
    ensures days as real <= eventDate - installDate < days as real + 1.0
    ensures eventDate >= installDate ==> days >= 0
    ensures eventDate < installDate ==> days < 0
  {
    (eventDate - installDate).Floor
  }

  /** `total_session_duration / total_session_count.replace(0, 1)`. */
  function AvgSessionDuration(duration: real, count: real): (r: real)
    ensures count != 0.0 ==> r * count == duration
    ensures count == 0.0 ==> r == duration
  {
    SafeRatio(duration, count)
  }

  // ---------------------------------------------------------------------------
  // Column formulas

  function DaysSinceInstallColumn(eventDates: seq<real>, installDates: seq<real>): (r: seq<real>)
    requires |eventDates| == |installDates|
    ensures |r| == |eventDates|
    ensures forall i :: 0 <= i < |r| ==> r[i] == DayDifference(eventDates[i], installDates[i]) as real
  {
    seq(|eventDates|, i requires 0 <= i < |eventDates| => DayDifference(eventDates[i], installDates[i]) as real)
  }

  function AvgSessionDurationColumn(durations: seq<real>, counts: seq<real>): (r: seq<real>)
    requires |durations| == |counts|
    ensures |r| == |durations|
    ensures forall i :: 0 <= i < |r| ==> r[i] == AvgSessionDuration(durations[i], counts[i])
  {
    seq(|durations|, i requires 0 <= i < |durations| => AvgSessionDuration(durations[i], counts[i]))
  }

  function TotalRevenueColumn(iap: seq<real>, ad: seq<real>): (r: seq<real>)
    requires |iap| == |ad|
    ensures |r| == |iap|
    ensures forall i :: 0 <= i < |r| ==> r[i] == iap[i] + ad[i]
  {
    seq(|iap|, i requires 0 <= i < |iap| => iap[i] + ad[i])
  }

  // ---------------------------------------------------------------------------
  // The preprocessing steps, on column maps

  const EventDate := "event_date"
  const InstallDate := "install_date"
  const DaysSinceInstall := "days_since_install"
  const SessionCount := "total_session_count"
  const SessionDuration := "total_session_duration"
  const AvgSessionDurationName := "avg_session_duration"
  const VictoryCount := "victory_count"
  const DefeatCount := "defeat_count"
  const WinRateName := "win_rate"
  const IapRevenue := "iap_revenue"
  const AdRevenue := "ad_revenue"
  const TotalRevenue := "total_revenue"

  /** The four derived column names. */
  const Derived: set<string> := {DaysSinceInstall, AvgSessionDurationName, WinRateName, TotalRevenue}

  function WithDaysSinceInstall(cols: map<string, seq<real>>, rows: nat): (r: map<string, seq<real>>)
    requires Rectangular(cols, rows)
    ensures Rectangular(r, rows)
  {
    if EventDate in cols && InstallDate in cols
    then cols[DaysSinceInstall := DaysSinceInstallColumn(cols[EventDate], cols[InstallDate])]
    else cols
  }

  function WithAvgSessionDuration(cols: map<string, seq<real>>, rows: nat): (r: map<string, seq<real>>)
    requires Rectangular(cols, rows)
    ensures Rectangular(r, rows)
  {
    if SessionCount in cols && SessionDuration in cols
    then cols[AvgSessionDurationName := AvgSessionDurationColumn(cols[SessionDuration], cols[SessionCount])]
    else cols
  }

  function WithWinRate(cols: map<string, seq<real>>, rows: nat): (r: map<string, seq<real>>)
    requires Rectangular(cols, rows)
    ensures Rectangular(r, rows)
  {
    if VictoryCount in cols && DefeatCount in cols
    then cols[WinRateName := WinRates(cols[VictoryCount], cols[DefeatCount])]
    else cols
  }

  function WithTotalRevenue(cols: map<string, seq<real>>, rows: nat): (r: map<string, seq<real>>)
    requires Rectangular(cols, rows)
    ensures Rectangular(r, rows)
  {
    if IapRevenue in cols && AdRevenue in cols
    then cols[TotalRevenue := TotalRevenueColumn(cols[IapRevenue], cols[AdRevenue])]
    else cols
  }

  /** The columns `preprocess_data` returns for input columns `cols`. */
  function Preprocessed(cols: map<string, seq<real>>, rows: nat): (r: map<string, seq<real>>)
    requires Rectangular(cols, rows)
    ensures Rectangular(r, rows)
  {
    WithTotalRevenue(WithWinRate(WithAvgSessionDuration(WithDaysSinceInstall(cols, rows), rows), rows), rows)
  }

  /** `preprocess_data`: works on a copy (the input frame is not modified) and adds the derived columns. */
  method PreprocessData(df: Frame) returns (out: Frame)
    requires df.Valid()
    ensures fresh(out) && out.Valid() && out.rows == df.rows
    ensures out.columns == Preprocessed(df.columns, df.rows)
  {
    out := df.Copy();
    // Dates arrive as day stamps already, so the conversion to datetimes keeps them as they are.
    if EventDate in out.columns && InstallDate in out.columns {
      out.SetColumn(DaysSinceInstall, DaysSinceInstallColumn(out.columns[EventDate], out.columns[InstallDate]));
    }
    if SessionCount in out.columns && SessionDuration in out.columns {
      out.SetColumn(AvgSessionDurationName, AvgSessionDurationColumn(out.columns[SessionDuration], out.columns[SessionCount]));
    }
    if VictoryCount in out.columns && DefeatCount in out.columns {
      out.SetColumn(WinRateName, WinRates(out.columns[VictoryCount], out.columns[DefeatCount]));
    }
    if IapRevenue in out.columns && AdRevenue in out.columns {
      out.SetColumn(TotalRevenue, TotalRevenueColumn(out.columns[IapRevenue], out.columns[AdRevenue]));
    }
  }

  // ---------------------------------------------------------------------------
  // Properties of the preprocessed columns

  /**
   * The preprocessed frame has the input's columns plus exactly those
   * derived columns whose sources are present.
   */
  lemma PreprocessedColumns(cols: map<string, seq<real>>, rows: nat)
    requires Rectangular(cols, rows)
    ensures Preprocessed(cols, rows).Keys
         == cols.Keys
            + (if EventDate in cols && InstallDate in cols then {DaysSinceInstall} else {})
            + (if SessionCount in cols && SessionDuration in cols then {AvgSessionDurationName} else {})
            + (if VictoryCount in cols && DefeatCount in cols then {WinRateName} else {})
            + (if IapRevenue in cols && AdRevenue in cols then {TotalRevenue} else {})
  {
  }

  /** Every column that is not one of the derived ones comes out unchanged. */
  lemma PreprocessedKeepsOtherColumns(cols: map<string, seq<real>>, rows: nat, c: string)
    requires Rectangular(cols, rows)
    requires c in cols && c !in Derived
    ensures c in Preprocessed(cols, rows) && Preprocessed(cols, rows)[c] == cols[c]
  {
  }

  /** A derived column whose sources are missing is left as the input had it (absent, or unchanged). */
  lemma PreprocessedSkipsMissingSources(cols: map<string, seq<real>>, rows: nat)
    requires Rectangular(cols, rows)
    ensures !(EventDate in cols && InstallDate in cols) ==>
      (DaysSinceInstall in Preprocessed(cols, rows) <==> DaysSinceInstall in cols)
      && (DaysSinceInstall in cols ==> Preprocessed(cols, rows)[DaysSinceInstall] == cols[DaysSinceInstall])
    ensures !(SessionCount in cols && SessionDuration in cols) ==>
      (AvgSessionDurationName in Preprocessed(cols, rows) <==> AvgSessionDurationName in cols)
      && (AvgSessionDurationName in cols ==> Preprocessed(cols, rows)[AvgSessionDurationName] == cols[AvgSessionDurationName])
    ensures !(VictoryCount in cols && DefeatCount in cols) ==>
      (WinRateName in Preprocessed(cols, rows) <==> WinRateName in cols)
      && (WinRateName in cols ==> Preprocessed(cols, rows)[WinRateName] == cols[WinRateName])
    ensures !(IapRevenue in cols && AdRevenue in cols) ==>
      (TotalRevenue in Preprocessed(cols, rows) <==> TotalRevenue in cols)
      && (TotalRevenue in cols ==> Preprocessed(cols, rows)[TotalRevenue] == cols[TotalRevenue])
  {
  }

  /**
   * Row by row, the derived columns are computed from the input's own
   * source columns: total revenue is IAP plus ad revenue; the win rate is
   * in [0, 1] for non-negative counts and 0 without matches; the average
   * session duration is the duration itself when there were no sessions;
   * days since install are the whole days between the two dates.
   */
  lemma PreprocessedRows(cols: map<string, seq<real>>, rows: nat, i: int)
    requires Rectangular(cols, rows) && 0 <= i < rows
    ensures IapRevenue in cols && AdRevenue in cols ==>
      Preprocessed(cols, rows)[TotalRevenue][i] == cols[IapRevenue][i] + cols[AdRevenue][i]
    ensures VictoryCount in cols && DefeatCount in cols && cols[VictoryCount][i] >= 0.0 && cols[DefeatCount][i] >= 0.0 ==>
      0.0 <= Preprocessed(cols, rows)[WinRateName][i] <= 1.0
    ensures VictoryCount in cols && DefeatCount in cols && cols[VictoryCount][i] == 0.0 && cols[DefeatCount][i] == 0.0 ==>
      Preprocessed(cols, rows)[WinRateName][i] == 0.0
    ensures SessionCount in cols && SessionDuration in cols && cols[SessionCount][i] == 0.0 ==>
      Preprocessed(cols, rows)[AvgSessionDurationName][i] == cols[SessionDuration][i]
    ensures SessionCount in cols && SessionDuration in cols && cols[SessionCount][i] != 0.0 ==>
      Preprocessed(cols, rows)[AvgSessionDurationName][i] * cols[SessionCount][i] == cols[SessionDuration][i]
    ensures EventDate in cols && InstallDate in cols ==>
      var days := Preprocessed(cols, rows)[DaysSinceInstall][i];
      days.Floor as real == days && days <= cols[EventDate][i] - cols[InstallDate][i] < days + 1.0
  {
  }
}
