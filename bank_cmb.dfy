/**
 * The China Merchants Bank debit-card importer: its account table, the
 * direction of a row read off its income and expense columns, the rows it
 * drops, and `CMBDebitCardParser.parse`, which walks the rows from the
 * last to the first and appends one entry per transaction. The own
 * account is always the one the keyword `'CMB'` classifies to.
 */
module BankCmb {
  import opened Wrappers
  import opened Text
  import opened Calendar
  import opened Classifier
  import opened Ledger

  /** `account_map`: keyword patterns to accounts, in the order they are tried. */
  const AccountMap: Classifier.AccountMap := [
    ("DEFAULT", "Assets:Unknown"),
    ("房租|租金", "Expenses:Rent"),
    ("Octopus", "Expenses:Transport"),
    ("CMB", "Assets:Cash:CMBC-5189:Cash"),
    ("雪球基金", "Assets:Investment:SnowballFund:Cash"),
    ("天天基金", "Assets:Investment:TiantianFund:Cash"),
    ("提取托付", "Assets:Government:HousingFund:SZ"),
    ("约定批量提取", "Assets:Government:HousingFund:SH"),
    ("工资", "Income:ARMC:GrossPay:BasicSalary"),
    ("报销", "Income:ARMC:Reimbursement"),
    ("平安养老保险", "Income:Insurance"),
    ("支付宝-余额充值|支付宝-蚂蚁（杭州）基金销售有限公司", "Assets:Cash:Alipay"),
    ("零钱通", "Assets:Cash:WeChat"),
    ("中信银行信用卡|银联代收，信用卡还款", "Liabilities:CreditCard:CIBK-4691"),
    ("招商银行信用卡|信用卡自扣", "Liabilities:CreditCard:CMBC-0035"),
    ("中国银行信用卡|中银信用卡还款", "Liabilities:CreditCard:BKCH-8693"),
    ("银期转账:徽商期货", "Assets:Investment:HuishangFuture:Positions")
  ]

  /** The keyword the card's own leg is classified with. */
  const OwnKeyword: string := "CMB"
  /** The first cell of a comment line of the export. */
  const CommentMarker: string := "#"
  /** The first cell of the column-title row. */
  const HeaderMarker: string := "交易日期"
  /** Transaction types starting with this (the Zhaozhaobao sweep account) are dropped. */
  const SweepType: string := "朝朝宝"
  /** The number of columns a transaction row has. */
  const Columns: nat := 7

  /** The dict `c`: the row's columns with surrounding whitespace stripped. */
  datatype Record = Record(
    date: string,      // 交易日期, `YYYYMMDD`
    time: string,      // 交易时间, `HH:MM:SS`
    income: string,    // 收入
    outcome: string,   // 支出
    balance: string,   // 余额
    category: string,  // 交易类型, the source's `type`
    comment: string)   // 交易备注

  /** Reads the first seven columns of a row into a `Record`. */
  function Normalize(row: seq<string>): (c: Record)
    requires |row| >= Columns
    ensures c.date == Strip(row[0]) && c.time == Strip(row[1]) && c.income == Strip(row[2])
    ensures c.outcome == Strip(row[3]) && c.balance == Strip(row[4])
    ensures c.category == Strip(row[5]) && c.comment == Strip(row[6])
  {
    Record(Strip(row[0]), Strip(row[1]), Strip(row[2]), Strip(row[3]), Strip(row[4]), Strip(row[5]), Strip(row[6]))
  }

  /**
   * `get_DRCR_status(income, outcome)`: a non-empty expense column makes the
   * card the credited side with that amount; otherwise the card is debited
   * with the income column, empty or not.
   */
  function GetDrcrStatus(income: string, outcome: string): (r: (Direction, string))
    ensures r.0 == Outbound <==> outcome != ""
    ensures r.1 == if outcome != "" then outcome else income
  {
    if outcome != "" then (Outbound, outcome) else (Inbound, income)
  }

  /**
   * `_get_amounts(amount)` (never called): the amount without surrounding
   * `'-'`, signed `-`/`+` when the amount is negative and `+`/`-`
   * otherwise.
   */
  function GetAmounts(amount: string): (r: (string, string))
    ensures var magnitude := StripChars(amount, {'-'});
      |r.0| == |r.1| == |magnitude| + 1 && r.0[1..] == magnitude && r.1[1..] == magnitude
    ensures r.0[0] == '-' <==> "-" <= amount
    ensures r.1[0] == '-' <==> !("-" <= amount)
    ensures r.0[0] != r.1[0] && r.0[0] in "+-" && r.1[0] in "+-"
  {
    var magnitude := StripChars(amount, {'-'});
    if "-" <= amount then ("-" + magnitude, "+" + magnitude) else ("+" + magnitude, "-" + magnitude)
  }

  /**
   * The two amounts of `_get_amounts` carry the same magnitude: the amount
   * cut of every `'-'` at both ends, with none left at either end.
   */
  lemma GetAmountsMagnitude(amount: string)
    ensures IsStripOf(GetAmounts(amount).0[1..], amount, {'-'})
    ensures GetAmounts(amount).0[1..] == GetAmounts(amount).1[1..]
  {
    StripCharsIsStrip(amount, {'-'});
  }

  /** The narration: the time as written in the export, the type and the comment, separated by spaces. */
  function Narration(c: Record): string
  {
    c.time + " " + c.category + " " + c.comment
  }

  /** What `parse` does with one row: skip it, fail, or build its entry; it never stops early. */
  function RowStep(table: Classifier.AccountMap, row: seq<string>): Step
  {
    if row == [] then Skip
    else if CommentMarker <= row[0] || HeaderMarker <= row[0] then Skip
    else if |row| < Columns then Fail(MissingColumns(row))
    else
      var c := Normalize(row);
      if SweepType <= c.category then Skip
      else EntryStep(table, c, row)
  }

  /**
   * Building the dict `d` from a kept record: the date, then the time, the
   * narration, the direction, then the two legs (`'CMB'` on the credit
   * side of an expense, on the debit side of an income, the comment on the
   * other side).
   */
  function EntryStep(table: Classifier.AccountMap, c: Record, row: seq<string>): Step
  {
    match ExpandDate(c.date)
    case None => Fail(BadTimestamp(c.date))
    case Some(date) =>
      match ExpandTime(c.time)
      case None => Fail(BadTimestamp(c.time))
      case Some(time) =>
        var (dir, amount) := GetDrcrStatus(c.income, c.outcome);
        var creditKeyword := if dir == Outbound then OwnKeyword else c.comment;
        var debitKeyword := if dir == Outbound then c.comment else OwnKeyword;
        match Assemble(table, date, time, None, Narration(c), creditKeyword, debitKeyword, amount)
        case Failure(e) => Fail(e)
        case Success(e) => Emit(e)
  }

  function StepOf(table: Classifier.AccountMap): seq<string> -> Step
  {
    row => RowStep(table, row)
  }

  /** What one `parse` call appends and how it ends, for the rows the reader yields. */
  function ParseRows(table: Classifier.AccountMap, rows: seq<seq<string>>): Outcome
  {
    Walk(rows, StepOf(table))
  }

  /**
   * An entry built from a kept record: an ISO date and time, no payee, the
   * narration, and the legs classified by direction: `'CMB'` credited and
   * the comment debited with the expense amount, or the other way round
   * with the income amount.
   */
  lemma EntryOfRecord(table: Classifier.AccountMap, c: Record, row: seq<string>, e: Entry)
    requires EntryStep(table, c, row) == Emit(e)
    ensures ExpandDate(c.date) == Some(e.date) && IsIsoDate(e.date)
    ensures ExpandTime(c.time) == Some(e.time) && IsIsoTime(e.time)
    ensures e.payee == None && e.narration == Narration(c)
    ensures c.outcome != "" ==>
      Classify(table, OwnKeyword) == Success(e.credit) && Classify(table, c.comment) == Success(e.debit)
      && e.debitAmount == c.outcome
    ensures c.outcome == "" ==>
      Classify(table, c.comment) == Success(e.credit) && Classify(table, OwnKeyword) == Success(e.debit)
      && e.debitAmount == c.income
    ensures e.creditAmount == "-" + e.debitAmount
    ensures WellFormedEntry(table, e)
  {
  }

  /** A row that gives an entry is a full data row that is neither a comment, a header nor a sweep. */
  lemma RowEntry(table: Classifier.AccountMap, row: seq<string>, e: Entry)
    requires RowStep(table, row) == Emit(e)
    ensures |row| >= Columns && !(CommentMarker <= row[0]) && !(HeaderMarker <= row[0])
    ensures !(SweepType <= Normalize(row).category)
    ensures EntryStep(table, Normalize(row), row) == Emit(e)
  {
  }

  /** Comment lines, the column-title row and sweep-account rows change nothing, wherever they stand. */
  lemma SkipsMarkedRows(table: Classifier.AccountMap, a: seq<seq<string>>, row: seq<string>, b: seq<seq<string>>)
    requires row == [] || CommentMarker <= row[0] || HeaderMarker <= row[0]
      || (|row| >= Columns && SweepType <= Normalize(row).category)
    ensures ParseRows(table, a + [row] + b) == ParseRows(table, a + b)
  {
    WalkSkipsRow(a, row, b, StepOf(table));
  }

  /** Unlike the other two importers, the bank importer reads to the first row of the file. */
  lemma NeverStops(table: Classifier.AccountMap, rows: seq<seq<string>>)
    ensures ParseRows(table, rows).halt != Stopped
  {
    forall k | 0 <= k < |rows|
      ensures !StepOf(table)(rows[k]).Stop?
    {
      RowNeverStops(table, rows[k]);
    }
    hide RowStep;
    WalkWithoutStop(rows, StepOf(table));
  }

  lemma RowNeverStops(table: Classifier.AccountMap, row: seq<string>)
    ensures !RowStep(table, row).Stop?
  {
    if row != [] && !(CommentMarker <= row[0] || HeaderMarker <= row[0]) && |row| >= Columns {
      EntryNeverStops(table, Normalize(row), row);
    }
  }

  lemma EntryNeverStops(table: Classifier.AccountMap, c: Record, row: seq<string>)
    ensures !EntryStep(table, c, row).Stop?
  {
  }

  /** When every row gives an entry, the entries come in reverse file order: the last row's first. */
  lemma ReverseFileOrder(table: Classifier.AccountMap, rows: seq<seq<string>>)
    requires forall k :: 0 <= k < |rows| ==> RowStep(table, rows[k]).Emit?
    ensures ParseRows(table, rows).halt == Exhausted
    ensures |ParseRows(table, rows).entries| == |rows|
    ensures forall k :: 0 <= k < |rows| ==> ParseRows(table, rows).entries[k] == RowStep(table, rows[|rows| - 1 - k]).entry
  {
    WalkReversesRows(rows, StepOf(table));
  }

  /** Every entry of a parse has an ISO date and time, no payee, and legs and flag that fit together. */
  lemma EntriesWellFormed(table: Classifier.AccountMap, rows: seq<seq<string>>)
    ensures forall e :: e in ParseRows(table, rows).entries ==>
      WellFormedEntry(table, e) && IsIsoDate(e.date) && IsIsoTime(e.time) && e.payee.None?
  {
    forall e | e in ParseRows(table, rows).entries
      ensures WellFormedEntry(table, e) && IsIsoDate(e.date) && IsIsoTime(e.time) && e.payee.None?
    {
      WalkEntriesAreEmitted(rows, StepOf(table), e);
      var k :| 0 <= k < |rows| && StepOf(table)(rows[k]) == Emit(e);
      RowEntry(table, rows[k], e);
      EntryOfRecord(table, Normalize(rows[k]), rows[k], e);
    }
  }

  /** The loop invariant of `CmbDebitCardParser.Parse`, carried one row up the file. */
  lemma ParseAdvance(table: Classifier.AccountMap, rows: seq<seq<string>>, i: nat, done: seq<Entry>, step: Step)
    requires 0 < i <= |rows| && step == RowStep(table, rows[i - 1])
    requires ParseRows(table, rows) ==
      Outcome(done + ParseRows(table, rows[..i]).entries, ParseRows(table, rows[..i]).halt)
    ensures step.Skip? ==>
      ParseRows(table, rows) == Outcome(done + ParseRows(table, rows[..i - 1]).entries, ParseRows(table, rows[..i - 1]).halt)
    ensures step.Emit? ==>
      ParseRows(table, rows) == Outcome(done + [step.entry] + ParseRows(table, rows[..i - 1]).entries, ParseRows(table, rows[..i - 1]).halt)
    ensures step.Stop? ==> ParseRows(table, rows) == Outcome(done, Stopped)
    ensures step.Fail? ==> ParseRows(table, rows) == Outcome(done, Failed(step.error))
  {
    hide RowStep;
    WalkAdvance(rows, i - 1, done, StepOf(table), step);
  }

  // The own-account keyword against the shipped table: the two entries
  // before `'CMB'` miss it and `'CMB'` itself is an exact match.

  const RentAlternatives: seq<string> := ["房租", "租金"]

  lemma RentPattern()
    ensures AccountMap[1].0 == Join(RentAlternatives, '|')
  {
    hide Join;
    Join2(RentAlternatives, '|');
  }

  lemma OwnKeywordSkipsRent()
    ensures !Hit(AccountMap, OwnKeyword, 1)
  {
    RentPattern();
    PlainPatternMisses(RentAlternatives, OwnKeyword);
  }

  lemma OwnKeywordSkipsOctopus()
    ensures !Hit(AccountMap, OwnKeyword, 2)
  {
    var key := AccountMap[2].0;
    assert key == "Octopus";
    ScanPlainLast(key);
    assert Alternatives(key) == [key];
    NoAlternativeOccurs(key, OwnKeyword);
  }

  lemma OwnKeywordHitsCmb()
    ensures Hit(AccountMap, OwnKeyword, 3)
  {
    assert AccountMap[3].0 == OwnKeyword;
    assert AccountMap[3].0[0] != DefaultKey[0];
  }

  /**
   * The card's own leg is always the CMB cash account: the entry `'CMB'`
   * is the first one the keyword matches.
   */
  lemma OwnKeywordIsCardAccount()
    ensures Classify(AccountMap, OwnKeyword) == Success("Assets:Cash:CMBC-5189:Cash")
  {
    OwnKeywordHitsCmb();
    assert AccountMap[0].0 == DefaultKey;
    forall j | 0 <= j < 3
      ensures !Hit(AccountMap, OwnKeyword, j)
    {
      if j == 1 {
        OwnKeywordSkipsRent();
      } else if j == 2 {
        OwnKeywordSkipsOctopus();
      }
    }
    ClassifyFirstHitWins(AccountMap, OwnKeyword, 3);
  }

  /**
   * With the shipped table, an entry needs review exactly when its comment
   * matches no entry: the card's leg is never the unknown account.
   */
  lemma ShippedEntryFlag(c: Record, row: seq<string>, e: Entry)
    requires EntryStep(AccountMap, c, row) == Emit(e)
    ensures (if c.outcome != "" then e.credit else e.debit) == "Assets:Cash:CMBC-5189:Cash"
    ensures e.flag == NeedsReview <==> Classify(AccountMap, c.comment) == Success(UnknownAccount)
  {
    EntryOfRecord(AccountMap, c, row, e);
    OwnKeywordIsCardAccount();
  }

  /** `CMBDebitCardParser`: a CSV reader over an export and the entries parsed so far. */
  class CmbDebitCardParser {
    /** The rows the CSV reader has yet to yield. */
    var rows: seq<seq<string>>
    /** `self.parsed`. */
    var parsed: seq<Entry>
    /** The table legs are classified with: the module-level `account_map`. */
    const accountMap: Classifier.AccountMap

    constructor (csvRows: seq<seq<string>>, table: Classifier.AccountMap)
      ensures rows == csvRows && parsed == [] && accountMap == table
    {
      rows := csvRows;
      parsed := [];
      accountMap := table;
    }

    /**
     * `parse`: reads every row, then handles them from the last to the
     * first; entries appended before an exception stay in `parsed`.
     */
    method Parse() returns (r: Result<seq<Entry>, ParseError>)
      modifies this
      ensures rows == []
      ensures parsed == old(parsed) + ParseRows(accountMap, old(rows)).entries
      ensures r == if ParseRows(accountMap, old(rows)).halt.Failed?
                   then Failure(ParseRows(accountMap, old(rows)).halt.error)
                   else Success(parsed)
    {
      hide RowStep;
      var all := rows;
      rows := [];
      var i := |all|;
      ghost var done: seq<Entry> := [];
      assert all[..i] == all;
      while i > 0
        invariant 0 <= i <= |all|
        invariant rows == [] && parsed == old(parsed) + done
        invariant ParseRows(accountMap, all) ==
          Outcome(done + ParseRows(accountMap, all[..i]).entries, ParseRows(accountMap, all[..i]).halt)
      {
        var step := HandleRow(all[i - 1]);
        ParseAdvance(accountMap, all, i, done, step);
        i := i - 1;
        match step
        case Skip =>
        case Stop =>
          break;
        case Fail(e) =>
          return Failure(e);
        case Emit(entry) =>
          assert parsed + [entry] == old(parsed) + (done + [entry]);
          parsed := parsed + [entry];
          done := done + [entry];
      }
      if i == 0 {
        assert all[..i] == [];
      }
      return Success(parsed);
    }

    /**
     * The body of `parse`'s loop for one row: `Skip` is `continue`, `Fail`
     * an exception, `Emit` the dict `d` to append.
     */
    method HandleRow(row: seq<string>) returns (step: Step)
      ensures step == RowStep(accountMap, row)
    {
      if row == [] {
        return Skip;
      }
      if CommentMarker <= row[0] || HeaderMarker <= row[0] {
        return Skip;
      }
      if |row| < Columns {
        return Fail(MissingColumns(row));
      }
      var c := Normalize(row);
      if SweepType <= c.category {
        return Skip;
      }
      step := BuildEntry(c, row);
    }

    /** The rest of the loop body for a kept row: the dict `d`, or the exception raised while building it. */
    method BuildEntry(c: Record, row: seq<string>) returns (step: Step)
      ensures step == EntryStep(accountMap, c, row)
    {
      var date := ExpandDate(c.date);
      if date.None? {
        return Fail(BadTimestamp(c.date));
      }
      var time := ExpandTime(c.time);
      if time.None? {
        return Fail(BadTimestamp(c.time));
      }
      var narration := c.time + " " + c.category + " " + c.comment;
      var (drcr, amount) := GetDrcrStatus(c.income, c.outcome);
      var creditKeyword, debitKeyword := OwnKeyword, c.comment;
      if drcr == Inbound {
        creditKeyword, debitKeyword := debitKeyword, creditKeyword;
      }
      var credit := MappingAccount(accountMap, creditKeyword);
      ClassifyFailsIffNoDefault(accountMap, creditKeyword);
      if credit.Failure? {
        return Fail(NoDefaultAccount);
      }
      var debit := MappingAccount(accountMap, debitKeyword);
      ClassifyFailsIffNoDefault(accountMap, debitKeyword);
      var flag := Confirmed;
      if credit.value == UnknownAccount || debit.value == UnknownAccount {
        flag := NeedsReview;
      }
      return Emit(Entry(date.value, time.value, flag, None, narration, credit.value, debit.value, "-" + amount, amount));
    }
  }
}
