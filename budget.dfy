/**
 * A spending category: a name and an append-only ledger of entries whose
 * sum is the balance. Amounts are whole cents.
 */
module Budget {
  import opened Text

  /** One ledger line: a signed amount in cents and its description. */
  datatype Entry = Entry(amount: int, description: string)

  /** The balance a ledger stands for: the sum of all its amounts. */
  function Sum(ledger: seq<Entry>): int
  {
    if ledger == [] then 0 else ledger[0].amount + Sum(ledger[1..])
  }

  /** Appending one entry moves the balance by exactly its amount. */
  lemma {:induction false} SumAppend(ledger: seq<Entry>, e: Entry)
    ensures Sum(ledger + [e]) == Sum(ledger) + e.amount
  {
    if ledger != [] {
      assert (ledger + [e])[1..] == ledger[1..] + [e];
      SumAppend(ledger[1..], e);
    }
  }

  /** The sum of the negative amounts (withdrawals and outgoing transfers); never positive. */
  function Withdrawals(ledger: seq<Entry>): (w: int)
    ensures w <= 0
  {
    if ledger == [] then 0
    else (if ledger[0].amount < 0 then ledger[0].amount else 0) + Withdrawals(ledger[1..])
  }

  /** The sum of the non-negative amounts (deposits and incoming transfers). */
  function Credits(ledger: seq<Entry>): (d: int)
    ensures d >= 0
  {
    if ledger == [] then 0
    else (if ledger[0].amount >= 0 then ledger[0].amount else 0) + Credits(ledger[1..])
  }

  /** The balance is what came in minus what went out. */
  lemma {:induction false} BalanceSplit(ledger: seq<Entry>)
    ensures Sum(ledger) == Credits(ledger) + Withdrawals(ledger)
  {
    if ledger != [] {
      BalanceSplit(ledger[1..]);
    }
  }

  /** A ledger has no withdrawals exactly when none of its amounts is negative. */
  lemma {:induction false} WithdrawalsZero(ledger: seq<Entry>)
    ensures Withdrawals(ledger) == 0 <==> forall j :: 0 <= j < |ledger| ==> ledger[j].amount >= 0
  {
    if ledger != [] {
      WithdrawalsZero(ledger[1..]);
      assert forall j :: 1 <= j < |ledger| ==> ledger[j] == ledger[1..][j - 1];
    }
  }

  // The fixed-width report printed for a category.

  const ReportWidth := 30
  const DescriptionWidth := 23
  const AmountWidth := 7

  /** The name centred among `*` in the report's width. */
  function TitleLine(name: string): string
  {
    Center(name, ReportWidth, '*')
  }

  /** The description in 23 columns, then the two-decimal amount right-aligned in 7. */
  function EntryLine(e: Entry): string
  {
    LeftField(e.description, DescriptionWidth) + RightField(FormatCents(e.amount), AmountWidth)
  }

  function EntryLines(ledger: seq<Entry>): (rows: seq<string>)
    ensures |rows| == |ledger|
    ensures forall j :: 0 <= j < |ledger| ==> rows[j] == EntryLine(ledger[j])
  {
    seq(|ledger|, j requires 0 <= j < |ledger| => EntryLine(ledger[j]))
  }

  function TotalLine(balance: int): string
  {
    "Total: " + BalanceText(balance)
  }

  /** The rows of the report: title, one row per entry in ledger order, total. */
  function ReportRows(name: string, ledger: seq<Entry>): seq<string>
  {
    [TitleLine(name)] + EntryLines(ledger) + [TotalLine(Sum(ledger))]
  }

  function Report(name: string, ledger: seq<Entry>): string
  {
    JoinLines(ReportRows(name, ledger))
  }

  lemma EntryLineFields(e: Entry)
    ensures |EntryLine(e)| == ReportWidth
    ensures EntryLine(e)[..DescriptionWidth] == LeftField(e.description, DescriptionWidth)
    ensures EntryLine(e)[DescriptionWidth..] == RightField(FormatCents(e.amount), AmountWidth)
  {
  }

  /**
   * The layout of the report: one title row, one 30-column row per entry
   * showing its description and amount, and a last row starting "Total: "
   * that reads back as the balance.
   */
  lemma ReportLayout(name: string, ledger: seq<Entry>)
    ensures var rows := ReportRows(name, ledger);
      && |rows| == |ledger| + 2
      && (|name| <= ReportWidth ==> |rows[0]| == ReportWidth)
      && (forall j :: 1 <= j <= |ledger| ==>
            && |rows[j]| == ReportWidth
            && rows[j][..DescriptionWidth] == LeftField(ledger[j - 1].description, DescriptionWidth)
            && rows[j][DescriptionWidth..] == RightField(FormatCents(ledger[j - 1].amount), AmountWidth))
      && rows[|rows| - 1][..7] == "Total: "
      && ParseCents(rows[|rows| - 1][7..]) == Sum(ledger)
  {
    var rows := ReportRows(name, ledger);
    forall j | 1 <= j <= |ledger|
      ensures |rows[j]| == ReportWidth
      ensures rows[j][..DescriptionWidth] == LeftField(ledger[j - 1].description, DescriptionWidth)
      ensures rows[j][DescriptionWidth..] == RightField(FormatCents(ledger[j - 1].amount), AmountWidth)
    {
      assert rows[j] == EntryLine(ledger[j - 1]);
      EntryLineFields(ledger[j - 1]);
    }
    assert rows[|rows| - 1][7..] == BalanceText(Sum(ledger));
    BalanceTextRoundTrip(Sum(ledger));
  }

  lemma TitleNoNewline(name: string)
    requires NoNewline(name)
    ensures NoNewline(TitleLine(name))
  {
    var title := TitleLine(name);
    var left := if |name| >= ReportWidth then 0 else (ReportWidth - |name|) / 2;
    forall i | 0 <= i < |title| ensures title[i] != '\n' {
      if left <= i < left + |name| {
        assert title[i] == title[left..left + |name|][i - left];
      }
    }
  }

  lemma FieldsNoNewline(e: Entry)
    requires NoNewline(e.description)
    ensures NoNewline(EntryLine(e))
  {
    var amount := FormatCents(e.amount);
    assert forall i :: 0 <= i < |amount| ==> amount[i] != '\n' by {
      var m := Abs(e.amount);
      var whole := NatToString(m / 100);
      assert IsDigits(whole);
    }
  }

  lemma TotalNoNewline(balance: int)
    ensures NoNewline(TotalLine(balance))
  {
    assert IsDigits(NatToString(Abs(balance) / 100));
  }

  /**
   * When the name and descriptions hold no newline, the report splits into
   * exactly its rows: one title, one per entry, one total.
   */
  lemma ReportSplits(name: string, ledger: seq<Entry>)
    requires NoNewline(name)
    requires forall j :: 0 <= j < |ledger| ==> NoNewline(ledger[j].description)
    ensures SplitLines(Report(name, ledger)) == ReportRows(name, ledger)
    ensures |SplitLines(Report(name, ledger))| == |ledger| + 2
  {
    var rows := ReportRows(name, ledger);
    var entries := EntryLines(ledger);
    assert rows == [TitleLine(name)] + entries + [TotalLine(Sum(ledger))];
    forall k | 0 <= k < |rows| ensures NoNewline(rows[k]) {
      if k == 0 {
        TitleNoNewline(name);
      } else if k <= |ledger| {
        assert rows[k] == entries[k - 1] == EntryLine(ledger[k - 1]);
        FieldsNoNewline(ledger[k - 1]);
      } else {
        assert rows[k] == TotalLine(Sum(ledger));
        TotalNoNewline(Sum(ledger));
      }
    }
    SplitJoinLines(rows);
  }

  class Category {
    const name: string
    var ledger: seq<Entry>

    /** The current balance: the sum of the ledger. */
    function Balance(): int
      reads this
    {
      Sum(ledger)
    }

    constructor (name: string)
      ensures this.name == name && ledger == []
    {
      this.name := name;
      ledger := [];
    }

    /** Records any amount, negative or zero included, with its description. */
    method Deposit(amount: int, description: string)
      modifies this
      ensures ledger == old(ledger) + [Entry(amount, description)]
      ensures Balance() == old(Balance()) + amount
    {
      SumAppend(ledger, Entry(amount, description));
      ledger := ledger + [Entry(amount, description)];
    }

    /** Adds up the ledger entry by entry. */
    method GetBalance() returns (balance: int)
      ensures balance == Sum(ledger)
    {
      balance := 0;
      for i := 0 to |ledger|
        invariant balance == Sum(ledger[..i])
      {
        PrefixStep(ledger, i);
        SumAppend(ledger[..i], ledger[i]);
        balance := balance + ledger[i].amount;
      }
      assert ledger[..|ledger|] == ledger;
    }

    /** Whether `amount` is covered by the balance. */
    method CheckFunds(amount: int) returns (ok: bool)
      ensures ok <==> amount <= Sum(ledger)
    {
      var current := GetBalance();
      if amount > current {
        return false;
      }
      return true;
    }

    /** Records `-amount` when the balance covers it; otherwise changes nothing. */
    method Withdraw(amount: int, description: string) returns (ok: bool)
      modifies this
      ensures ok <==> amount <= old(Balance())
      ensures ok ==> ledger == old(ledger) + [Entry(-amount, description)]
      ensures ok ==> Balance() == old(Balance()) - amount
      ensures !ok ==> ledger == old(ledger)
    {
      var funded := CheckFunds(amount);
      if !funded {
        return false;
      }
      SumAppend(ledger, Entry(-amount, description));
      ledger := ledger + [Entry(-amount, description)];
      return true;
    }

    /**
     * Moves `amount` to `dest` when the balance covers it: one outgoing entry
     * here, one incoming entry there, each naming the other category; on
     * failure neither ledger changes. Transferring to the category itself
     * appends both entries to the one ledger and leaves its balance as it was.
     */
    method Transfer(amount: int, dest: Category) returns (ok: bool)
      modifies this, dest
      ensures ok <==> amount <= old(Balance())
      ensures !ok ==> ledger == old(ledger) && dest.ledger == old(dest.ledger)
      ensures ok && dest != this ==>
        && ledger == old(ledger) + [Entry(-amount, "Transfer to " + dest.name)]
        && dest.ledger == old(dest.ledger) + [Entry(amount, "Transfer from " + name)]
        && Balance() == old(Balance()) - amount
        && dest.Balance() == old(dest.Balance()) + amount
        && Balance() + dest.Balance() == old(Balance()) + old(dest.Balance())
      ensures ok && dest == this ==>
        && ledger == old(ledger) + [Entry(-amount, "Transfer to " + name), Entry(amount, "Transfer from " + name)]
        && Balance() == old(Balance())
    {
      var funded := CheckFunds(amount);
      if !funded {
        return false;
      }
      var withdrawalDescription := "Transfer to " + dest.name;
      var withdrawn := Withdraw(amount, withdrawalDescription);
      assert withdrawn;
      var depositDescription := "Transfer from " + name;
      dest.Deposit(amount, depositDescription);
      return true;
    }

    /** The printed report of this category (`__str__`). */
    method Render() returns (text: string)
      ensures text == Report(name, ledger)
    {
      var title := TitleLine(name);
      var balance := GetBalance();
      var total := TotalLine(balance);
      var rows := [title];
      for i := 0 to |ledger|
        invariant rows == [title] + EntryLines(ledger[..i])
      {
        assert EntryLines(ledger[..i + 1]) == EntryLines(ledger[..i]) + [EntryLine(ledger[i])];
        rows := rows + [EntryLine(ledger[i])];
      }
      assert ledger[..|ledger|] == ledger;
      rows := rows + [total];
      text := JoinLines(rows);
    }
  }
}
