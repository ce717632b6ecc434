/**
 * The spend chart: each category's share of all withdrawals, rounded down
 * to tens of percent, drawn as an 11-row bar grid (100 down to 0) with the
 * category names written vertically underneath.
 */
module SpendChart {
  import opened Text
  import opened Budget

  /** What the chart reads of a category: its name and its ledger. */
  datatype Snapshot = Snapshot(name: string, ledger: seq<Entry>)

  /** A category's withdrawals (a sum of negative amounts), before percentages. */
  datatype Spent = Spent(name: string, withdrawals: int)

  /** A category's share of all withdrawals, in tens of percent (0 to 10). */
  datatype Share = Share(name: string, percentage: int)

  /**
   * NoWithdrawals: no category has a negative entry, so the share divides by
   * zero. NoCategories: the chart was asked for no categories, so there is
   * no longest name.
   */
  datatype ChartError = NoWithdrawals | NoCategories

  datatype Outcome<T> = Ok(value: T) | Fail(error: ChartError)

  function Snap(cats: seq<Category>): (s: seq<Snapshot>)
    reads cats
    ensures |s| == |cats|
    ensures forall i :: 0 <= i < |cats| ==> s[i] == Snapshot(cats[i].name, cats[i].ledger)
  {
    if cats == [] then [] else [Snapshot(cats[0].name, cats[0].ledger)] + Snap(cats[1..])
  }

  // ---------------------------------------------------------------------
  // Percentages

  /** The withdrawals of all categories together. */
  function TotalWithdrawals(snaps: seq<Snapshot>): int
  {
    if snaps == [] then 0
    else TotalWithdrawals(snaps[..|snaps| - 1]) + Withdrawals(snaps[|snaps| - 1].ledger)
  }

  /** The total is never positive and is at most any one category's withdrawals. */
  lemma {:induction false} TotalBelowEach(snaps: seq<Snapshot>)
    ensures TotalWithdrawals(snaps) <= 0
    ensures forall i :: 0 <= i < |snaps| ==> TotalWithdrawals(snaps) <= Withdrawals(snaps[i].ledger)
  {
    if snaps != [] {
      var init := snaps[..|snaps| - 1];
      TotalBelowEach(init);
      assert forall i :: 0 <= i < |init| ==> init[i] == snaps[i];
    }
  }

  /** The total is zero exactly when no category has withdrawn anything. */
  lemma {:induction false} TotalZero(snaps: seq<Snapshot>)
    ensures TotalWithdrawals(snaps) == 0 <==> forall i :: 0 <= i < |snaps| ==> Withdrawals(snaps[i].ledger) == 0
  {
    if snaps != [] {
      var init := snaps[..|snaps| - 1];
      TotalZero(init);
      TotalBelowEach(init);
      assert forall i :: 0 <= i < |init| ==> init[i] == snaps[i];
    }
  }

  lemma WithdrawalsAppend(ledger: seq<Entry>, e: Entry)
    ensures Withdrawals(ledger + [e]) == Withdrawals(ledger) + (if e.amount < 0 then e.amount else 0)
  {
    if ledger != [] {
      assert (ledger + [e])[1..] == ledger[1..] + [e];
      WithdrawalsAppend(ledger[1..], e);
    }
  }

  lemma MulLeft(a: int, b: int, c: int)
    requires a <= b && c >= 0
    ensures a * c <= b * c
  {
  }

  /** Euclidean division of `a` by a positive `t`, for `0 <= a <= 100 * t`. */
  lemma QuotientRange(a: int, t: int)
    requires t > 0 && 0 <= a <= 100 * t
    ensures 0 <= a / t <= 100
    ensures (a / t) * t <= a < (a / t) * t + t
  {
    var q := a / t;
    assert q * t <= a < q * t + t;
    if q < 0 {
      MulLeft(q, -1, t);
    }
    if q > 100 {
      MulLeft(101, q, t);
    }
  }

  /** Scaling `q * t <= 100 * w < (q + 1) * t` down by ten, rounding `q` down. */
  lemma TenthOfQuotient(q: int, w: int, t: int)
    requires t > 0 && 0 <= q
    requires q * t <= 100 * w < (q + 1) * t
    ensures (q / 10) * t <= 10 * w < (q / 10 + 1) * t
  {
    var p := q / 10;
    assert 10 * p <= q < 10 * p + 10;
    MulLeft(10 * p, q, t);
    assert (10 * p) * t == 10 * (p * t);
    MulLeft(q + 1, 10 * p + 10, t);
    assert (10 * p + 10) * t == 10 * ((p + 1) * t);
  }

  /** Python's `(w / t * 100) // 10` on exact numbers, for a share `w` of `t`. */
  lemma FloorShare(w: int, t: int)
    requires 0 <= w <= t && t > 0
    ensures var p := (w * 100 / t) / 10;
      && 0 <= p <= 10
      && p * t <= 10 * w < (p + 1) * t
  {
    MulLeft(w, t, 100);
    QuotientRange(w * 100, t);
    TenthOfQuotient(w * 100 / t, w, t);
  }

  /**
   * `int((spent / total) * 100 // 10)` on the magnitudes: the largest `p`
   * with `p * total <= 10 * spent`, which is at most 10.
   */
  function Percentage(spent: int, total: int): (p: int)
    requires total < 0 && total <= spent <= 0
    ensures 0 <= p <= 10
    ensures p * -total <= 10 * -spent < (p + 1) * -total
  {
    FloorShare(-spent, -total);
    (-spent * 100 / -total) / 10
  }

  function SharesOf(snaps: seq<Snapshot>, total: int): (shares: seq<Share>)
    requires total < 0 && forall i :: 0 <= i < |snaps| ==> total <= Withdrawals(snaps[i].ledger)
    ensures |shares| == |snaps|
  {
    seq(|snaps|, i requires 0 <= i < |snaps| =>
      Share(snaps[i].name, Percentage(Withdrawals(snaps[i].ledger), total)))
  }

  /** `process_category_data` as a function of the categories it reads. */
  function ShareData(snaps: seq<Snapshot>): Outcome<seq<Share>>
  {
    if snaps == [] then Ok([])
    else
      var total := TotalWithdrawals(snaps);
      if total == 0 then Fail(NoWithdrawals)
      else TotalBelowEach(snaps); Ok(SharesOf(snaps, total))
  }

  function SumPercentages(shares: seq<Share>): int
  {
    if shares == [] then 0
    else SumPercentages(shares[..|shares| - 1]) + shares[|shares| - 1].percentage
  }

  /**
   * The shares come out in category order with the categories' names, each
   * between 0 and 10 and rounded down from the exact proportion; it fails
   * exactly when there are categories but none has a negative entry.
   */
  lemma ShareDataMeaning(snaps: seq<Snapshot>)
    ensures ShareData(snaps).Fail? <==>
      |snaps| > 0 && forall i, j :: 0 <= i < |snaps| && 0 <= j < |snaps[i].ledger| ==> snaps[i].ledger[j].amount >= 0
    ensures ShareData(snaps).Fail? ==> ShareData(snaps).error == NoWithdrawals
    ensures ShareData(snaps).Ok? ==>
      var shares := ShareData(snaps).value;
      var total := -TotalWithdrawals(snaps);
      && |shares| == |snaps|
      && forall i :: 0 <= i < |snaps| ==>
           && shares[i].name == snaps[i].name
           && 0 <= shares[i].percentage <= 10
           && shares[i].percentage * total <= 10 * -Withdrawals(snaps[i].ledger) < (shares[i].percentage + 1) * total
  {
    ShareDataFailure(snaps);
    if ShareData(snaps).Ok? {
      ShareDataShares(snaps);
    }
  }

  /** The success half of `ShareDataMeaning`, one category at a time. */
  lemma ShareDataShares(snaps: seq<Snapshot>)
    requires ShareData(snaps).Ok?
    ensures var shares := ShareData(snaps).value;
      var total := -TotalWithdrawals(snaps);
      && |shares| == |snaps|
      && forall i :: 0 <= i < |snaps| ==>
           && shares[i].name == snaps[i].name
           && 0 <= shares[i].percentage <= 10
           && shares[i].percentage * total <= 10 * -Withdrawals(snaps[i].ledger) < (shares[i].percentage + 1) * total
  {
    if snaps != [] {
      var total := TotalWithdrawals(snaps);
      var shares := ShareData(snaps).value;
      TotalBelowEach(snaps);
      assert shares == SharesOf(snaps, total);
      forall i | 0 <= i < |snaps|
        ensures && shares[i].name == snaps[i].name
          && 0 <= shares[i].percentage <= 10
          && shares[i].percentage * -total <= 10 * -Withdrawals(snaps[i].ledger) < (shares[i].percentage + 1) * -total
      {
        var w := Withdrawals(snaps[i].ledger);
        SharesOfAt(snaps, total, i);
        assert shares[i] == Share(snaps[i].name, Percentage(w, total));
      }
    }
  }

  /** The failure half of `ShareDataMeaning`. */
  lemma ShareDataFailure(snaps: seq<Snapshot>)
    ensures ShareData(snaps).Fail? <==>
      |snaps| > 0 && forall i, j :: 0 <= i < |snaps| && 0 <= j < |snaps[i].ledger| ==> snaps[i].ledger[j].amount >= 0
    ensures ShareData(snaps).Fail? ==> ShareData(snaps).error == NoWithdrawals
  {
    TotalZero(snaps);
    forall i | 0 <= i < |snaps| {
      WithdrawalsZero(snaps[i].ledger);
    }
  }

  lemma SharesOfAt(snaps: seq<Snapshot>, total: int, i: nat)
    requires total < 0 && forall k :: 0 <= k < |snaps| ==> total <= Withdrawals(snaps[k].ledger)
    requires i < |snaps|
    ensures SharesOf(snaps, total)[i] == Share(snaps[i].name, Percentage(Withdrawals(snaps[i].ledger), total))
  {
  }

  lemma AddShare(t: int, s: int, p: int, sum: int, w: int)
    requires t * s <= 10 * sum && p * t <= 10 * w
    ensures t * (s + p) <= 10 * (sum + w)
  {
    assert t * (s + p) == t * s + p * t;
  }

  lemma {:induction false} PercentagesBoundedPrefix(snaps: seq<Snapshot>, total: int, m: nat)
    requires total < 0 && forall i :: 0 <= i < |snaps| ==> total <= Withdrawals(snaps[i].ledger)
    requires m <= |snaps|
    ensures -total * SumPercentages(SharesOf(snaps, total)[..m]) <= 10 * -TotalWithdrawals(snaps[..m])
  {
    if m > 0 {
      var shares := SharesOf(snaps, total);
      PercentagesBoundedPrefix(snaps, total, m - 1);
      assert shares[..m][..m - 1] == shares[..m - 1];
      var before := SumPercentages(shares[..m - 1]);
      var p := shares[m - 1].percentage;
      assert SumPercentages(shares[..m]) == before + p;
      TotalStep(snaps, m - 1);
      var w := Withdrawals(snaps[m - 1].ledger);
      SharesOfAt(snaps, total, m - 1);
      assert p * -total <= 10 * -w;
      AddShare(-total, before, p, -TotalWithdrawals(snaps[..m - 1]), -w);
    }
  }

  lemma AtMostTen(t: int, s: int)
    requires t > 0 && t * s <= 10 * t
    ensures s <= 10
  {
    if s > 10 {
      MulLeft(11, s, t);
    }
  }

  /** The rounded-down shares never add up to more than 100 percent. */
  lemma PercentagesAtMostTen(snaps: seq<Snapshot>)
    requires ShareData(snaps).Ok?
    ensures SumPercentages(ShareData(snaps).value) <= 10
  {
    if snaps != [] {
      var total := TotalWithdrawals(snaps);
      TotalBelowEach(snaps);
      var shares := SharesOf(snaps, total);
      PercentagesBoundedPrefix(snaps, total, |snaps|);
      assert shares[..|snaps|] == shares;
      assert snaps[..|snaps|] == snaps;
      AtMostTen(-total, SumPercentages(shares));
    }
  }

  lemma TotalStep(snaps: seq<Snapshot>, i: nat)
    requires i < |snaps|
    ensures TotalWithdrawals(snaps[..i + 1]) == TotalWithdrawals(snaps[..i]) + Withdrawals(snaps[i].ledger)
  {
    assert snaps[..i + 1][..i] == snaps[..i];
  }

  lemma SharesStep(snaps: seq<Snapshot>, total: int, i: nat)
    requires total < 0 && forall k :: 0 <= k < |snaps| ==> total <= Withdrawals(snaps[k].ledger)
    requires i < |snaps|
    ensures SharesOf(snaps, total)[..i + 1]
         == SharesOf(snaps, total)[..i] + [Share(snaps[i].name, Percentage(Withdrawals(snaps[i].ledger), total))]
  {
    SharesOfAt(snaps, total, i);
  }

  /** The inner loop of `process_category_data`: adds up the negative amounts of one ledger. */
  method CategoryWithdrawals(ledger: seq<Entry>) returns (categoryTotal: int)
    ensures categoryTotal == Withdrawals(ledger)
  {
    categoryTotal := 0;
    for j := 0 to |ledger|
      invariant categoryTotal == Withdrawals(ledger[..j])
    {
      PrefixStep(ledger, j);
      WithdrawalsAppend(ledger[..j], ledger[j]);
      if ledger[j].amount < 0 {
        categoryTotal := categoryTotal + ledger[j].amount;
      }
    }
    assert ledger[..|ledger|] == ledger;
  }

  /** One `(name, withdrawals)` record per category, in order. */
  function SpentRecords(snaps: seq<Snapshot>): (records: seq<Spent>)
    ensures |records| == |snaps|
    ensures forall k :: 0 <= k < |snaps| ==> records[k] == Spent(snaps[k].name, Withdrawals(snaps[k].ledger))
  {
    seq(|snaps|, k requires 0 <= k < |snaps| => Spent(snaps[k].name, Withdrawals(snaps[k].ledger)))
  }

  /**
   * The first pass of `process_category_data`: each category's withdrawals
   * in order, and their sum.
   */
  method WithdrawalsByCategory(cats: seq<Category>) returns (spent: seq<Spent>, total: int)
    ensures spent == SpentRecords(Snap(cats))
    ensures total == TotalWithdrawals(Snap(cats))
  {
    ghost var snaps := Snap(cats);
    ghost var records := SpentRecords(snaps);
    total := 0;
    spent := [];
    for i := 0 to |cats|
      invariant spent == records[..i]
      invariant total == TotalWithdrawals(snaps[..i])
    {
      var categoryTotal := CategoryWithdrawals(cats[i].ledger);
      assert snaps[i] == Snapshot(cats[i].name, cats[i].ledger);
      assert records[i] == Spent(cats[i].name, categoryTotal);
      PrefixStep(records, i);
      TotalStep(snaps, i);
      total := total + categoryTotal;
      spent := spent + [Spent(cats[i].name, categoryTotal)];
    }
    assert records[..|cats|] == records;
    assert snaps[..|cats|] == snaps;
  }

  /**
   * The second pass of `process_category_data`: each category's share of the
   * total, failing at the first division when the total is zero.
   */
  method SharesByCategory(spent: seq<Spent>, total: int, ghost snaps: seq<Snapshot>) returns (r: Outcome<seq<Share>>)
    requires spent == SpentRecords(snaps) && total == TotalWithdrawals(snaps)
    ensures r == ShareData(snaps)
  {
    TotalBelowEach(snaps);
    var shares: seq<Share> := [];
    for i := 0 to |spent|
      invariant total != 0 ==> shares == SharesOf(snaps, total)[..i]
      invariant total == 0 ==> i == 0 && shares == []
    {
      if total == 0 {
        return Fail(NoWithdrawals);
      }
      SharesStep(snaps, total, i);
      shares := shares + [Share(spent[i].name, Percentage(spent[i].withdrawals, total))];
    }
    if total != 0 {
      assert shares == SharesOf(snaps, total)[..|spent|] == SharesOf(snaps, total);
    }
    return Ok(shares);
  }

  /** `process_category_data`: withdrawal totals per category, then each one's share. */
  method ProcessCategoryData(cats: seq<Category>) returns (r: Outcome<seq<Share>>)
    ensures r == ShareData(Snap(cats))
  {
    var spent, total := WithdrawalsByCategory(cats);
    r := SharesByCategory(spent, total, Snap(cats));
  }

  // ---------------------------------------------------------------------
  // The bar grid

  const GridRows := 11

  /** Cells in a grid row: a blank first column, then three per category. */
  function ColumnCount(n: nat): nat
  {
    1 + n + n * 2
  }

  /** `str(value)` padded on the left to three characters, as the template does it. */
  function RowLabel(value: nat): (r: string)
    ensures |r| >= |NatToString(value)|
    ensures r[|r| - |NatToString(value)|..] == NatToString(value)
    ensures value <= 100 ==> r == RightField(NatToString(value), 3)
  {
    NatToStringLength(value);
    var digits := NatToString(value);
    assert Fill(' ', 1) == " " && Fill(' ', 2) == "  " && Fill(' ', 0) == "";
    (if |digits| == 2 then " " else if |digits| == 1 then "  " else "") + digits
  }

  /** Every label from 0 to 100 is three columns wide, and its digits read back as the value. */
  lemma RowLabelAligned(value: nat)
    requires value <= 100
    ensures |RowLabel(value)| == 3
    ensures ParseNat(RowLabel(value)[3 - |NatToString(value)|..]) == value
  {
    NatToStringLength(value);
    ParseNatToString(value);
  }

  /** The value row `k` of the grid stands for, counting down from 100. */
  function RowValue(k: nat): nat
    requires k < GridRows
  {
    100 - 10 * k
  }

  function TemplateRow(k: nat, n: nat): string
    requires k < GridRows
  {
    RowLabel(RowValue(k)) + "|" + Placeholders(ColumnCount(n))
  }

  /** `create_chart_template(n)`: one template row per value 100, 90, ..., 0. */
  function Template(n: nat): (rows: seq<string>)
    ensures |rows| == GridRows
  {
    seq(GridRows, k requires 0 <= k < GridRows => TemplateRow(k, n))
  }

  /**
   * Every template row is its value right-aligned in three columns, a bar,
   * and one replacement field per grid cell.
   */
  lemma TemplateLayout(n: nat)
    ensures |Template(n)| == GridRows
    ensures forall k :: 0 <= k < GridRows ==>
      && Template(n)[k] == RightField(NatToString(100 - 10 * k), 3) + "|" + Placeholders(ColumnCount(n))
      && |Template(n)[k]| == 4 + 2 * ColumnCount(n)
  {
    forall k | 0 <= k < GridRows
      ensures Template(n)[k] == RightField(NatToString(100 - 10 * k), 3) + "|" + Placeholders(ColumnCount(n))
    {
      RowLabelAligned(RowValue(k));
    }
  }

  /** The padded label of one template row: two, one or no blanks by the number of digits. */
  method PadRowLabel(value: nat) returns (padded: string)
    ensures padded == RowLabel(value)
  {
    var digits := NatToString(value);
    var padding;
    if |digits| == 2 {
      padding := " ";
    } else if |digits| == 1 {
      padding := "  ";
    } else {
      padding := "";
    }
    padded := padding + digits;
  }

  method CreateChartTemplate(n: nat) returns (rows: seq<string>)
    ensures rows == Template(n)
  {
    rows := [];
    var value := 100;
    var columns := ColumnCount(n);
    ghost var template := Template(n);
    while value != -10
      invariant -10 <= value <= 100 && value == 100 - 10 * |rows|
      invariant rows == template[..|rows|]
      decreases value
    {
      var padded := PadRowLabel(value);
      assert RowValue(|rows|) == value;
      PrefixStep(template, |rows|);
      rows := rows + [padded + "|" + Placeholders(columns)];
      value := value - 10;
    }
    assert template[..GridRows] == template;
  }

  /** The cell of a category with `percentage` on the row for `level` (0 to 10). */
  function Marker(percentage: int, level: int): string
  {
    if percentage >= level then "o" else " "
  }

  /** Three cells per category, in category order: its marker and two blanks. */
  function Cells(shares: seq<Share>, level: int): (cells: seq<string>)
    ensures |cells| == 3 * |shares|
  {
    if shares == [] then []
    else Cells(shares[..|shares| - 1], level) + [Marker(shares[|shares| - 1].percentage, level), " ", " "]
  }

  function ContentRow(shares: seq<Share>, level: int): seq<string>
  {
    [" "] + Cells(shares, level)
  }

  /** `create_chart_content`: the cells of the rows for levels 10 down to 0. */
  function Content(shares: seq<Share>): (rows: seq<seq<string>>)
    ensures |rows| == GridRows
    ensures forall k :: 0 <= k < GridRows ==> |rows[k]| == ColumnCount(|shares|)
  {
    seq(GridRows, k requires 0 <= k < GridRows => ContentRow(shares, 10 - k))
  }

  lemma {:induction false} CellsLayout(shares: seq<Share>, level: int)
    ensures forall j :: 0 <= j < |shares| ==>
      && Cells(shares, level)[3 * j] == Marker(shares[j].percentage, level)
      && Cells(shares, level)[3 * j + 1] == " "
      && Cells(shares, level)[3 * j + 2] == " "
  {
    if shares != [] {
      var init := shares[..|shares| - 1];
      CellsLayout(init, level);
      forall j | 0 <= j < |init| ensures init[j] == shares[j] { }
    }
  }

  lemma {:induction false} CellsAreMarks(shares: seq<Share>, level: int)
    ensures forall i :: 0 <= i < |Cells(shares, level)| ==> Cells(shares, level)[i] in {"o", " "}
  {
    if shares != [] {
      CellsAreMarks(shares[..|shares| - 1], level);
    }
  }

  /**
   * A content row of `1 + 3n` cells: a blank, then per category its marker
   * for `level` and two blanks.
   */
  lemma ContentRowLayout(shares: seq<Share>, level: int)
    ensures var row := ContentRow(shares, level);
      && |row| == ColumnCount(|shares|)
      && row[0] == " "
      && forall j :: 0 <= j < |shares| ==>
           row[1 + 3 * j] == Marker(shares[j].percentage, level) && row[2 + 3 * j] == " " && row[3 + 3 * j] == " "
  {
    CellsLayout(shares, level);
  }

  /**
   * Each content row has `1 + 3n` cells: a blank, then per category a marker
   * that is "o" exactly when its percentage reaches the row's level, then
   * two blanks.
   */
  lemma ContentLayout(shares: seq<Share>)
    ensures |Content(shares)| == GridRows
    ensures forall k, j :: 0 <= k < GridRows && 0 <= j < |shares| ==>
      && Content(shares)[k][0] == " "
      && (Content(shares)[k][1 + 3 * j] == "o" <==> shares[j].percentage >= 10 - k)
      && (Content(shares)[k][1 + 3 * j] == " " <==> shares[j].percentage < 10 - k)
      && Content(shares)[k][2 + 3 * j] == " " && Content(shares)[k][3 + 3 * j] == " "
  {
    forall k, j | 0 <= k < GridRows && 0 <= j < |shares|
      ensures Content(shares)[k][0] == " "
      ensures Content(shares)[k][1 + 3 * j] == "o" <==> shares[j].percentage >= 10 - k
      ensures Content(shares)[k][1 + 3 * j] == " " <==> shares[j].percentage < 10 - k
      ensures Content(shares)[k][2 + 3 * j] == " " && Content(shares)[k][3 + 3 * j] == " "
    {
      ContentRowLayout(shares, 10 - k);
    }
  }

  /** A bar has no gaps: below an "o" in a column there is an "o" on every lower row. */
  lemma MarkersMonotone(shares: seq<Share>, j: nat, k: nat, k': nat)
    requires j < |shares| && k <= k' < GridRows
    requires Content(shares)[k][1 + 3 * j] == "o"
    ensures Content(shares)[k'][1 + 3 * j] == "o"
  {
    MarkerAt(shares, 10 - k, j);
    MarkerAt(shares, 10 - k', j);
    assert Content(shares)[k] == ContentRow(shares, 10 - k);
    assert Content(shares)[k'] == ContentRow(shares, 10 - k');
  }

  lemma MarkerAt(shares: seq<Share>, level: int, j: nat)
    requires j < |shares|
    ensures 1 + 3 * j < |ContentRow(shares, level)|
    ensures ContentRow(shares, level)[1 + 3 * j] == Marker(shares[j].percentage, level)
  {
    ContentRowLayout(shares, level);
  }

  method CreateChartContent(shares: seq<Share>) returns (rows: seq<seq<string>>)
    ensures rows == Content(shares)
  {
    rows := [];
    var rowCount := 10;
    while rowCount > -1
      invariant -1 <= rowCount <= 10
      invariant |rows| == 10 - rowCount
      invariant forall k :: 0 <= k < |rows| ==> rows[k] == ContentRow(shares, 10 - k)
    {
      var row := [" "];
      var categoryCount := |shares|;
      var current := 0;
      while categoryCount > 0
        invariant 0 <= current <= |shares| && categoryCount == |shares| - current
        invariant row == ContentRow(shares[..current], rowCount)
      {
        assert shares[..current + 1][..current] == shares[..current];
        if shares[current].percentage >= rowCount {
          row := row + ["o"];
        } else {
          row := row + [" "];
        }
        row := row + [" "];
        row := row + [" "];
        current := current + 1;
        categoryCount := categoryCount - 1;
      }
      assert shares[..current] == shares;
      rows := rows + [row];
      rowCount := rowCount - 1;
    }
  }

  // ---------------------------------------------------------------------
  // The labels

  const LeftPadding := "    "

  function Names(shares: seq<Share>): (names: seq<string>)
    ensures |names| == |shares|
    ensures forall i :: 0 <= i < |shares| ==> names[i] == shares[i].name
  {
    seq(|shares|, i requires 0 <= i < |shares| => shares[i].name)
  }

  /** The length of the longest name (`len(max(names, key=len))`). */
  function MaxLength(names: seq<string>): (m: nat)
    requires |names| > 0
    ensures forall i :: 0 <= i < |names| ==> |names[i]| <= m
    ensures exists i :: 0 <= i < |names| && |names[i]| == m
  {
    if |names| == 1 then |names[0]|
    else
      var rest := MaxLength(names[1..]);
      assert forall i :: 1 <= i < |names| ==> names[i] == names[1..][i - 1];
      if |names[0]| >= rest then |names[0]| else rest
  }

  /** Row `row` of a name written downwards: its character there, or a blank. */
  function Letter(name: string, row: nat): (r: string)
    ensures |r| == 1
    ensures r[0] == if row < |name| then name[row] else ' '
  {
    if row < |name| then [name[row]] else " "
  }

  function LabelCells(names: seq<string>, row: nat): string
  {
    if names == [] then ""
    else LabelCells(names[..|names| - 1], row) + Letter(names[|names| - 1], row) + "  "
  }

  function LabelRow(names: seq<string>, row: nat): string
  {
    LeftPadding + " " + LabelCells(names, row)
  }

  function DashRow(n: nat): string
  {
    LeftPadding + Fill('-', ColumnCount(n))
  }

  /** `create_chart_labels`: the dashed rule, then one row per letter of the longest name. */
  function Labels(shares: seq<Share>): Outcome<seq<string>>
  {
    if shares == [] then Fail(NoCategories)
    else
      var names := Names(shares);
      Ok([DashRow(|shares|)] + LabelRows(names, MaxLength(names)))
  }

  function LabelRows(names: seq<string>, count: nat): (rows: seq<string>)
    ensures |rows| == count
    ensures forall row :: 0 <= row < count ==> rows[row] == LabelRow(names, row)
  {
    seq(count, row requires 0 <= row => LabelRow(names, row))
  }

  lemma {:induction false} LabelCellsLayout(names: seq<string>, row: nat)
    ensures |LabelCells(names, row)| == 3 * |names|
    ensures forall j :: 0 <= j < |names| ==>
      && LabelCells(names, row)[3 * j] == (if row < |names[j]| then names[j][row] else ' ')
      && LabelCells(names, row)[3 * j + 1] == ' '
      && LabelCells(names, row)[3 * j + 2] == ' '
  {
    if names != [] {
      var init := names[..|names| - 1];
      LabelCellsLayout(init, row);
      forall j | 0 <= j < |init| ensures init[j] == names[j] { }
    }
  }

  /**
   * A label row `5 + 3n` wide: five blanks, then per name its letter at
   * `row` (a blank once the name has ended) and two blanks.
   */
  predicate LabelRowShape(r: string, names: seq<string>, row: nat)
  {
    && |r| == 5 + 3 * |names|
    && r[..5] == "     "
    && forall j :: 0 <= j < |names| ==>
         && r[5 + 3 * j] == (if row < |names[j]| then names[j][row] else ' ')
         && r[6 + 3 * j] == ' ' && r[7 + 3 * j] == ' '
  }

  lemma LabelRowLayout(names: seq<string>, row: nat)
    ensures LabelRowShape(LabelRow(names, row), names, row)
  {
    var cells := LabelCells(names, row);
    LabelCellsLayout(names, row);
    assert LabelRow(names, row) == "     " + cells;
  }

  /**
   * The labels of a non-empty list of categories: a rule of `1 + 3n` dashes
   * under the grid, then exactly as many rows as the longest name has
   * letters, each `5 + 3n` wide. Reading column `j` downwards spells name `j`
   * and then blanks; an empty list has no labels.
   */
  lemma LabelsLayout(shares: seq<Share>)
    ensures Labels(shares).Fail? <==> shares == []
    ensures Labels(shares).Fail? ==> Labels(shares).error == NoCategories
    ensures Labels(shares).Ok? ==>
      var rows := Labels(shares).value;
      && |rows| == 1 + MaxLength(Names(shares))
      && rows[0] == LeftPadding + Fill('-', ColumnCount(|shares|))
      && forall row :: 1 <= row < |rows| ==> LabelRowShape(rows[row], Names(shares), row - 1)
  {
    if shares != [] {
      LabelRowsLayout(Names(shares), MaxLength(Names(shares)));
    }
  }

  lemma LabelRowsLayout(names: seq<string>, count: nat)
    ensures forall row :: 0 <= row < count ==> LabelRowShape(LabelRows(names, count)[row], names, row)
  {
    forall row | 0 <= row < count
      ensures LabelRowShape(LabelRows(names, count)[row], names, row)
    {
      LabelRowLayout(names, row);
    }
  }

  /** One row of `create_chart_labels`: each name's letter at `row`, or a blank, then two blanks. */
  method BuildLabelRow(names: seq<string>, row: nat) returns (rowString: string)
    ensures rowString == LabelRow(names, row)
  {
    rowString := LeftPadding + " ";
    for j := 0 to |names|
      invariant rowString == LeftPadding + " " + LabelCells(names[..j], row)
    {
      assert names[..j + 1][..j] == names[..j];
      if row < |names[j]| {
        rowString := rowString + [names[j][row]];
      } else {
        rowString := rowString + " ";
      }
      rowString := rowString + "  ";
    }
    assert names[..|names|] == names;
  }

  method CreateChartLabels(shares: seq<Share>) returns (r: Outcome<seq<string>>)
    ensures r == Labels(shares)
  {
    var categoryCount := |shares|;
    var names := Names(shares);
    if names == [] {
      return Fail(NoCategories);
    }
    var rowCount := MaxLength(names);
    var rows := [LeftPadding + Fill('-', 1 + categoryCount + categoryCount * 2)];
    for row := 0 to rowCount
      invariant rows == [DashRow(|shares|)] + LabelRows(names, row)
    {
      var rowString := BuildLabelRow(names, row);
      assert LabelRows(names, row + 1) == LabelRows(names, row) + [LabelRow(names, row)];
      rows := rows + [rowString];
    }
    return Ok(rows);
  }

  // ---------------------------------------------------------------------
  // The whole chart

  const Header := "Percentage spent by category"

  /** Grid row `k`: its label, a bar, and the content cells of its level in order. */
  function GridRow(shares: seq<Share>, k: nat): string
    requires k < GridRows
  {
    RowLabel(RowValue(k)) + "|" + Concat(ContentRow(shares, 10 - k))
  }

  function Grid(shares: seq<Share>): (rows: seq<string>)
    ensures |rows| == GridRows
  {
    seq(GridRows, k requires 0 <= k < GridRows => GridRow(shares, k))
  }

  /** `create_spend_chart` as a function of the categories it reads. */
  function Chart(snaps: seq<Snapshot>): Outcome<string>
  {
    match ShareData(snaps)
    case Fail(e) => Fail(e)
    case Ok(shares) => ChartText(shares)
  }

  /** The chart drawn from the shares: header, grid rows and labels, one per line. */
  function ChartText(shares: seq<Share>): Outcome<string>
  {
    match Labels(shares)
    case Fail(e) => Fail(e)
    case Ok(labels) => Ok(Header + "\n" + JoinLines(Grid(shares) + labels))
  }

  lemma RowLabelDigits(value: nat)
    requires value <= 100
    ensures NoBrace(RowLabel(value) + "|") && NoNewline(RowLabel(value) + "|")
  {
    var digits := NatToString(value);
    assert IsDigits(digits);
    NatToStringLength(value);
    assert RowLabel(value)[..3 - |digits|] == Fill(' ', 3 - |digits|);
  }

  /** Filling template row `k` with content row `k` gives grid row `k`. */
  lemma FilledTemplateRow(shares: seq<Share>, k: nat)
    requires k < GridRows
    ensures Format(Template(|shares|)[k], Content(shares)[k]) == Some(GridRow(shares, k))
  {
    var prefix := RowLabel(RowValue(k)) + "|";
    var row := Content(shares)[k];
    assert row == ContentRow(shares, 10 - k);
    assert Template(|shares|)[k] == prefix + Placeholders(|row|);
    RowLabelDigits(RowValue(k));
    FormatFilledTemplate(prefix, row);
  }

  lemma ShareDataLength(snaps: seq<Snapshot>)
    requires ShareData(snaps).Ok?
    ensures |ShareData(snaps).value| == |snaps|
  {
  }

  lemma ChartFromParts(snaps: seq<Snapshot>, shares: seq<Share>, labels: seq<string>)
    requires ShareData(snaps) == Ok(shares) && Labels(shares) == Ok(labels)
    ensures Chart(snaps) == Ok(Header + "\n" + JoinLines(Grid(shares) + labels))
  {
  }

  lemma FilledTemplate(shares: seq<Share>)
    ensures forall k :: 0 <= k < GridRows ==> Format(Template(|shares|)[k], Content(shares)[k]) == Some(Grid(shares)[k])
  {
    forall k | 0 <= k < GridRows
      ensures Format(Template(|shares|)[k], Content(shares)[k]) == Some(Grid(shares)[k])
    {
      FilledTemplateRow(shares, k);
    }
  }

  /** The merging loop of `create_spend_chart`: each template row filled with its content row. */
  method FillRows(template: seq<string>, content: seq<seq<string>>, ghost shares: seq<Share>) returns (body: seq<string>)
    requires template == Template(|shares|) && content == Content(shares)
    ensures body == Grid(shares)
  {
    ghost var grid := Grid(shares);
    body := [];
    for k := 0 to GridRows
      invariant body == grid[..k]
    {
      FilledTemplateRow(shares, k);
      var filled := Format(template[k], content[k]);
      assert filled.value == grid[k];
      PrefixStep(grid, k);
      body := body + [filled.value];
    }
    assert grid[..GridRows] == grid;
  }

  /**
   * The second half of `create_spend_chart`: template, content and labels
   * for the shares of `columnCount` categories, then the filled rows.
   */
  method AssembleChart(columnCount: nat, shares: seq<Share>) returns (r: Outcome<string>)
    requires columnCount == |shares|
    ensures r == ChartText(shares)
  {
    var template := CreateChartTemplate(columnCount);
    var content := CreateChartContent(shares);
    var labels := CreateChartLabels(shares);
    if labels.Fail? {
      return Fail(labels.error);
    }
    var body := FillRows(template, content, shares);
    return Ok(Header + "\n" + JoinLines(body + labels.value));
  }

  /** `create_spend_chart`: the shares of the categories, then the chart drawn from them. */
  method CreateSpendChart(cats: seq<Category>) returns (r: Outcome<string>)
    ensures r == Chart(Snap(cats))
  {
    ghost var snaps := Snap(cats);
    var categoryData := ProcessCategoryData(cats);
    if categoryData.Fail? {
      return Fail(categoryData.error);
    }
    ShareDataLength(snaps);
    r := AssembleChart(|cats|, categoryData.value);
  }

  lemma {:induction false} ConcatOfMarks(parts: seq<string>)
    requires forall i :: 0 <= i < |parts| ==> parts[i] in {"o", " "}
    ensures |Concat(parts)| == |parts| && NoNewline(Concat(parts))
  {
    if parts != [] {
      ConcatOfMarks(parts[1..]);
      assert parts[0] == [parts[0][0]];
    }
  }

  lemma ContentRowMarks(shares: seq<Share>, level: int)
    ensures |ContentRow(shares, level)| == ColumnCount(|shares|)
    ensures forall i :: 0 <= i < |ContentRow(shares, level)| ==> ContentRow(shares, level)[i] in {"o", " "}
  {
    var row := ContentRow(shares, level);
    CellsAreMarks(shares, level);
    forall i | 1 <= i < |row| ensures row[i] in {"o", " "} {
      assert row[i] == Cells(shares, level)[i - 1];
    }
  }

  lemma NoNewlineAppend(a: string, b: string)
    requires NoNewline(a) && NoNewline(b)
    ensures NoNewline(a + b)
  {
    forall i | |a| <= i < |a + b| ensures (a + b)[i] != '\n' {
      assert (a + b)[i] == b[i - |a|];
    }
  }

  lemma GridRowNoNewline(shares: seq<Share>, k: nat)
    requires k < GridRows
    ensures NoNewline(GridRow(shares, k))
    ensures |GridRow(shares, k)| == 4 + ColumnCount(|shares|)
  {
    var prefix := RowLabel(RowValue(k)) + "|";
    var row := ContentRow(shares, 10 - k);
    ContentRowMarks(shares, 10 - k);
    ConcatOfMarks(row);
    RowLabelDigits(RowValue(k));
    RowLabelAligned(RowValue(k));
    assert GridRow(shares, k) == prefix + Concat(row);
    NoNewlineAppend(prefix, Concat(row));
  }

  lemma {:induction false} LabelCellsNoNewline(names: seq<string>, row: nat)
    requires AllNoNewline(names)
    ensures NoNewline(LabelCells(names, row))
  {
    if names != [] {
      LabelCellsNoNewline(names[..|names| - 1], row);
      assert NoNewline(names[|names| - 1]);
    }
  }

  lemma LabelRowsNoNewline(shares: seq<Share>)
    requires shares != []
    requires forall i :: 0 <= i < |shares| ==> NoNewline(shares[i].name)
    ensures AllNoNewline(Labels(shares).value)
  {
    var rows := Labels(shares).value;
    var names := Names(shares);
    forall row | 0 <= row < |rows| ensures NoNewline(rows[row]) {
      if row > 0 {
        LabelCellsNoNewline(names, row - 1);
        assert rows[row] == LabelRow(names, row - 1);
      }
    }
  }

  /**
   * When no name holds a newline, a chart splits into the header, the 11
   * grid rows (each `4 + 1 + 3n` wide), the dashed rule and one row per
   * letter of the longest name.
   */
  lemma ChartLines(snaps: seq<Snapshot>)
    requires Chart(snaps).Ok?
    requires forall i :: 0 <= i < |snaps| ==> NoNewline(snaps[i].name)
    ensures var shares := ShareData(snaps).value;
      && SplitLines(Chart(snaps).value) == [Header] + Grid(shares) + Labels(shares).value
      && |SplitLines(Chart(snaps).value)| == 1 + GridRows + 1 + MaxLength(Names(shares))
      && forall k :: 0 <= k < GridRows ==> |Grid(shares)[k]| == 4 + ColumnCount(|snaps|)
  {
    ShareDataMeaning(snaps);
    var shares := ShareData(snaps).value;
    var labels := Labels(shares).value;
    LabelRowsNoNewline(shares);
    LabelsLayout(shares);
    GridLayout(shares);
    var rest := Grid(shares) + labels;
    AllNoNewlineAppend(Grid(shares), labels);
    HeaderNoNewline();
    AllNoNewlineAppend([Header], rest);
    JoinAfterHeader(Header, rest);
    assert [Header] + rest == [Header] + Grid(shares) + labels;
    ChartFromParts(snaps, shares, labels);
    SplitJoinLines([Header] + rest);
  }

  lemma GridLayout(shares: seq<Share>)
    ensures AllNoNewline(Grid(shares))
    ensures forall k :: 0 <= k < GridRows ==> |Grid(shares)[k]| == 4 + ColumnCount(|shares|)
  {
    forall k | 0 <= k < GridRows
      ensures NoNewline(Grid(shares)[k]) && |Grid(shares)[k]| == 4 + ColumnCount(|shares|)
    {
      GridRowNoNewline(shares, k);
    }
  }

  lemma JoinAfterHeader(header: string, rest: seq<string>)
    requires rest != []
    ensures JoinLines([header] + rest) == header + "\n" + JoinLines(rest)
  {
    assert ([header] + rest)[1..] == rest;
  }

  lemma AllNoNewlineAppend(a: seq<string>, b: seq<string>)
    requires AllNoNewline(a) && AllNoNewline(b)
    ensures AllNoNewline(a + b)
  {
    forall k | 0 <= k < |a + b| ensures NoNewline((a + b)[k]) {
      if k >= |a| {
        assert (a + b)[k] == b[k - |a|];
      }
    }
  }

  lemma HeaderNoNewline()
    ensures AllNoNewline([Header])
  {
  }

  /**
   * A chart fails exactly when there are no categories (no longest name) or
   * when no category has a negative entry (division by zero).
   */
  lemma ChartFailures(snaps: seq<Snapshot>)
    ensures snaps == [] ==> Chart(snaps) == Fail(NoCategories)
    ensures snaps != [] ==>
      (Chart(snaps) == Fail(NoWithdrawals) <==>
        forall i, j :: 0 <= i < |snaps| && 0 <= j < |snaps[i].ledger| ==> snaps[i].ledger[j].amount >= 0)
    ensures snaps != [] ==> (Chart(snaps).Ok? <==> ShareData(snaps).Ok?)
  {
    ShareDataMeaning(snaps);
    if ShareData(snaps).Ok? {
      LabelsLayout(ShareData(snaps).value);
    }
  }
}
