/**
 * The Alipay importer: its account table, the normalisation of a
 * twelve-column export row, the rows it drops, and `AlipayParser.parse`,
 * which walks the rows from the last to the first and appends one entry
 * per transaction.
 */
module Alipay {
  import opened Wrappers
  import opened Text
  import opened Calendar
  import opened Classifier
  import opened Ledger

  /** `account_map`: keyword patterns to accounts, in the order they are tried. */
  const AccountMap: Classifier.AccountMap := [
    ("DEFAULT", "Assets:Unknown"),
    ("中国移动|上海联通|科学上网", "Expenses:Telecom"),
    ("酒店|宾馆|汉庭|华住", "Expenses:Hotel"),
    ("爱车养车|小兔充充|出入境管理局", "Expenses:Transport"),
    ("餐饮美食", "Expenses:EatAndDrink"),
    ("服饰装扮", "Expenses:Clothing"),
    ("日用百货", "Expenses:DailyUtilities"),
    ("家居家装", "Expenses:HomeDecoration"),
    ("数码电器", "Expenses:Digital"),
    ("美容美发", "Expenses:BeautyHair"),
    ("交通出行", "Expenses:Transport"),
    ("住房物业", "Expenses:Rent"),
    ("文化休闲", "Expenses:Entertainment"),
    ("教育培训", "Expenses:Education"),
    ("医疗健康", "Expenses:Health"),
    ("公益捐赠", "Expenses:Donation"),
    ("余额宝|账户余额", "Assets:Cash:Alipay"),
    ("平安养老保险", "Income:Insurance"),
    ("招商银行储蓄卡", "Assets:Cash:CMBC-5189:Cash"),
    ("中信银行信用卡|银联代收，信用卡还款", "Liabilities:CreditCard:CIBK-4691"),
    ("招商银行信用卡|信用卡自扣", "Liabilities:CreditCard:CMBC-0035"),
    ("中国银行信用卡|中银信用卡还款", "Liabilities:CreditCard:BKCH-8693")
  ]

  /** The first cell of the column-title row; it and every row above it are not transactions. */
  const HeaderMarker: string := "交易时间"
  /** The number of columns a transaction row has. */
  const Columns: nat := 12
  /** `'不计收支'`: neither income nor expense. */
  const NotCounted: string := "不计收支"
  /** `'退款成功'`: a refund that went through. */
  const RefundSucceeded: string := "退款成功"

  /** The dict `c`: the row's columns with surrounding whitespace stripped. */
  datatype Record = Record(
    datetime: string,   // 交易时间
    category: string,   // 交易分类, the source's `type`
    payee: string,      // 交易对方
    payeeId: string,    // 对方账号
    item: string,       // 商品说明, with `"` replaced by `'`
    ioType: string,     // 收/支
    amount: string,     // 金额
    payer: string,      // 收/付款方
    status: string,     // 交易状态
    tradeId: string,    // 交易订单号
    merchantId: string, // 商户订单号
    comment: string)    // 备注

  /** Reads a row into a `Record`; the item can no longer break the quoted narration. */
  function Normalize(row: seq<string>): (c: Record)
    requires |row| >= Columns
    ensures '"' !in c.item
  {
    Record(Strip(row[0]), Strip(row[1]), Strip(row[2]), Strip(row[3]),
           ReplaceChar(Strip(row[4]), '"', '\''), Strip(row[5]), Strip(row[6]), Strip(row[7]),
           Strip(row[8]), Strip(row[9]), Strip(row[10]), Strip(row[11]))
  }

  /**
   * The `'不计收支'` rows that are skipped: Yu'e Bao earnings and transfers,
   * Huabei auto-repayments, top-ups, closed trades, deposit freezes and
   * thaws, and payments from the Xiao Hebao pocket.
   */
  predicate IsDropped(c: Record)
  {
    || "余额宝" <= c.item
    || "花呗自动还款" <= c.item
    || c.item == "转账收款到余额宝" || c.item == "充值-普通充值"
    || c.status == "交易关闭" || c.status == "已关闭"
    || c.status == "芝麻免押下单成功" || c.status == "解冻成功"
    || c.status == "冻结成功"
    || "支付宝小荷包" <= c.payer
  }

  /** A `'不计收支'` row whose status is a successful refund is read as income. */
  function Reclassify(c: Record): (r: Record)
    ensures r.ioType == (if c.ioType == NotCounted && c.status == RefundSucceeded then Income else c.ioType)
    ensures r.(ioType := c.ioType) == c
  {
    if c.ioType == NotCounted && c.status == RefundSucceeded then c.(ioType := Income) else c
  }

  /** The keyword of the other party: category, payee and comment run together. */
  function Counterparty(c: Record): string
  {
    c.category + c.payee + c.comment
  }

  /** The narration: category, item, comment and the time, separated by spaces. */
  function Narration(c: Record, time: string): string
  {
    c.category + " " + c.item + " " + c.comment + " " + time
  }

  /** What `parse` does with one row: skip it, stop, fail, or build its entry. */
  function RowStep(table: Classifier.AccountMap, row: seq<string>): Step
  {
    if row == [] then Skip
    else if HeaderMarker <= row[0] then Stop
    else if |row| < Columns then Fail(MissingColumns(row))
    else
      var read := Normalize(row);
      if read.ioType == NotCounted && IsDropped(read) then Skip
      else EntryStep(table, Reclassify(read), row)
  }

  /**
   * Building the dict `d` from a kept record: the timestamp, the narration,
   * the direction, then the two legs (the payer on the credit side for an
   * expense, on the debit side for an income).
   */
  function EntryStep(table: Classifier.AccountMap, c: Record, row: seq<string>): Step
  {
    match ExpandDatetime(c.datetime)
    case None => Fail(BadTimestamp(c.datetime))
    case Some(stamp) =>
      match IoDirection(c.ioType, row)
      case Failure(e) => Fail(e)
      case Success(dir) =>
        var creditKeyword := if dir == Outbound then c.payer else Counterparty(c);
        var debitKeyword := if dir == Outbound then Counterparty(c) else c.payer;
        match Assemble(table, stamp.0, stamp.1, Some(c.payee), Narration(c, stamp.1), creditKeyword, debitKeyword, c.amount)
        case Failure(e) => Fail(e)
        case Success(e) => Emit(e)
  }

  function StepOf(table: Classifier.AccountMap): seq<string> -> Step
  {
    row => RowStep(table, row)
  }

  /** What one `parse` call appends and how it ends, for the rows the reader yields. */
  function ParseRows(table: Classifier.AccountMap, rows: seq<seq<string>>): Outcome
  {
    Walk(rows, StepOf(table))
  }

  /**
   * An entry built from a kept record: an ISO date and time from its
   * timestamp, the payee, the narration, and the legs classified by
   * direction: the payer on the credit side of an expense and on the debit
   * side of an income, the counterparty on the other side.
   */
  lemma EntryOfRecord(table: Classifier.AccountMap, c: Record, row: seq<string>, e: Entry)
    requires EntryStep(table, c, row) == Emit(e)
    ensures ExpandDatetime(c.datetime) == Some((e.date, e.time)) && IsIsoDate(e.date) && IsIsoTime(e.time)
    ensures e.payee == Some(c.payee) && e.narration == Narration(c, e.time)
    ensures c.ioType == Expense || c.ioType == Income
    ensures c.ioType == Expense ==>
      Classify(table, c.payer) == Success(e.credit) && Classify(table, Counterparty(c)) == Success(e.debit)
    ensures c.ioType == Income ==>
      Classify(table, Counterparty(c)) == Success(e.credit) && Classify(table, c.payer) == Success(e.debit)
    ensures e.debitAmount == c.amount && e.creditAmount == "-" + c.amount
    ensures WellFormedEntry(table, e)
  {
  }

  /** A row that gives an entry is a full data row that is not dropped, and its item holds no `"`. */
  lemma RowEntry(table: Classifier.AccountMap, row: seq<string>, e: Entry)
    requires RowStep(table, row) == Emit(e)
    ensures |row| >= Columns && !(HeaderMarker <= row[0])
    ensures !(Normalize(row).ioType == NotCounted && IsDropped(Normalize(row)))
    ensures EntryStep(table, Reclassify(Normalize(row)), row) == Emit(e)
    ensures '"' !in Reclassify(Normalize(row)).item
  {
  }

  /**
   * What becomes of a `'不计收支'` row: the listed kinds are skipped, a
   * successful refund is handled as income, and any other one with a
   * valid timestamp raises the unknown income/expense error.
   */
  lemma NeutralRow(table: Classifier.AccountMap, row: seq<string>)
    requires |row| >= Columns && !(HeaderMarker <= row[0])
    requires Normalize(row).ioType == NotCounted
    ensures var c := Normalize(row);
      IsDropped(c) ==> RowStep(table, row) == Skip
    ensures var c := Normalize(row);
      !IsDropped(c) && c.status == RefundSucceeded ==> RowStep(table, row) == EntryStep(table, c.(ioType := Income), row)
    ensures var c := Normalize(row);
      !IsDropped(c) && c.status != RefundSucceeded && ExpandDatetime(c.datetime).Some? ==>
        RowStep(table, row) == Fail(UnknownIoType(NotCounted, row))
  {
  }

  /** The column-title row ends the walk: nothing above it is read. */
  lemma StopsAtHeader(table: Classifier.AccountMap, above: seq<seq<string>>, rows: seq<seq<string>>)
    requires rows != [] && rows[0] != [] && HeaderMarker <= rows[0][0]
    ensures ParseRows(table, above + rows) == ParseRows(table, rows)
  {
    WalkIgnoresRowsAboveStop(above, rows, StepOf(table));
  }

  /** Blank lines change nothing, wherever they stand. */
  lemma SkipsBlankRows(table: Classifier.AccountMap, a: seq<seq<string>>, b: seq<seq<string>>)
    ensures ParseRows(table, a + [[]] + b) == ParseRows(table, a + b)
  {
    WalkSkipsRow(a, [], b, StepOf(table));
  }

  /** A dropped `'不计收支'` row changes nothing, wherever it stands. */
  lemma SkipsDroppedRows(table: Classifier.AccountMap, a: seq<seq<string>>, row: seq<string>, b: seq<seq<string>>)
    requires |row| >= Columns && !(HeaderMarker <= row[0])
    requires Normalize(row).ioType == NotCounted && IsDropped(Normalize(row))
    ensures ParseRows(table, a + [row] + b) == ParseRows(table, a + b)
  {
    WalkSkipsRow(a, row, b, StepOf(table));
  }

  /** When every row gives an entry, the entries come in reverse file order: the last row's first. */
  lemma ReverseFileOrder(table: Classifier.AccountMap, rows: seq<seq<string>>)
    requires forall k :: 0 <= k < |rows| ==> RowStep(table, rows[k]).Emit?
    ensures ParseRows(table, rows).halt == Exhausted
    ensures |ParseRows(table, rows).entries| == |rows|
    ensures forall k :: 0 <= k < |rows| ==> ParseRows(table, rows).entries[k] == RowStep(table, rows[|rows| - 1 - k]).entry
  {
    WalkReversesRows(rows, StepOf(table));
  }

  /** Every entry of a parse has an ISO date and time, a payee, and legs and flag that fit together. */
  lemma EntriesWellFormed(table: Classifier.AccountMap, rows: seq<seq<string>>)
    ensures forall e :: e in ParseRows(table, rows).entries ==>
      WellFormedEntry(table, e) && IsIsoDate(e.date) && IsIsoTime(e.time) && e.payee.Some?
  {
    forall e | e in ParseRows(table, rows).entries
      ensures WellFormedEntry(table, e) && IsIsoDate(e.date) && IsIsoTime(e.time) && e.payee.Some?
    {
      WalkEntriesAreEmitted(rows, StepOf(table), e);
      var k :| 0 <= k < |rows| && StepOf(table)(rows[k]) == Emit(e);
      RowEntry(table, rows[k], e);
      EntryOfRecord(table, Reclassify(Normalize(rows[k])), rows[k], e);
    }
  }

  /** The loop invariant of `AlipayParser.Parse`, carried one row up the file. */
  lemma ParseAdvance(table: Classifier.AccountMap, rows: seq<seq<string>>, i: nat, done: seq<Entry>, step: Step)
    requires 0 < i <= |rows| && step == RowStep(table, rows[i - 1])
    requires ParseRows(table, rows) ==
      Outcome(done + ParseRows(table, rows[..i]).entries, ParseRows(table, rows[..i]).halt)
    ensures step.Skip? ==>
      ParseRows(table, rows) == Outcome(done + ParseRows(table, rows[..i - 1]).entries, ParseRows(table, rows[..i - 1]).halt)
    ensures step.Emit? ==>
      ParseRows(table, rows) == Outcome(done + [step.entry] + ParseRows(table, rows[..i - 1]).entries, ParseRows(table, rows[..i - 1]).halt)
    ensures step.Stop? ==> ParseRows(table, rows) == Outcome(done, Stopped)
    ensures step.Fail? ==> ParseRows(table, rows) == Outcome(done, Failed(step.error))
  {
    hide RowStep;
    WalkAdvance(rows, i - 1, done, StepOf(table), step);
  }

  /** `AlipayParser`: a CSV reader over an export and the entries parsed so far. */
  class AlipayParser {
    /** The rows the CSV reader has yet to yield. */
    var rows: seq<seq<string>>
    /** `self.parsed`. */
    var parsed: seq<Entry>
    /** The table legs are classified with: the module-level `account_map`. */
    const accountMap: Classifier.AccountMap

    constructor (csvRows: seq<seq<string>>, table: Classifier.AccountMap)
      ensures rows == csvRows && parsed == [] && accountMap == table
    {
      rows := csvRows;
      parsed := [];
      accountMap := table;
    }

    /**
     * `parse`: reads every row, then handles them from the last to the
     * first; entries appended before an exception stay in `parsed`.
     */
    method Parse() returns (r: Result<seq<Entry>, ParseError>)
      modifies this
      ensures rows == []
      ensures parsed == old(parsed) + ParseRows(accountMap, old(rows)).entries
      ensures r == if ParseRows(accountMap, old(rows)).halt.Failed?
                   then Failure(ParseRows(accountMap, old(rows)).halt.error)
                   else Success(parsed)
    {
      hide RowStep;
      var all := rows;
      rows := [];
      var i := |all|;
      ghost var done: seq<Entry> := [];
      assert all[..i] == all;
      while i > 0
        invariant 0 <= i <= |all|
        invariant rows == [] && parsed == old(parsed) + done
        invariant ParseRows(accountMap, all) ==
          Outcome(done + ParseRows(accountMap, all[..i]).entries, ParseRows(accountMap, all[..i]).halt)
      {
        var step := HandleRow(all[i - 1]);
        ParseAdvance(accountMap, all, i, done, step);
        i := i - 1;
        match step
        case Skip =>
        case Stop =>
          break;
        case Fail(e) =>
          return Failure(e);
        case Emit(entry) =>
          assert parsed + [entry] == old(parsed) + (done + [entry]);
          parsed := parsed + [entry];
          done := done + [entry];
      }
      if i == 0 {
        assert all[..i] == [];
      }
      return Success(parsed);
    }

    /**
     * The body of `parse`'s loop for one row: `Skip` is `continue`, `Stop`
     * is `break`, `Fail` an exception, `Emit` the dict `d` to append.
     */
    method HandleRow(row: seq<string>) returns (step: Step)
      ensures step == RowStep(accountMap, row)
    {
      if row == [] {
        return Skip;
      }
      if HeaderMarker <= row[0] {
        return Stop;
      }
      if |row| < Columns {
        return Fail(MissingColumns(row));
      }
      var c := Normalize(row);
      if c.ioType == NotCounted {
        if IsDropped(c) {
          return Skip;
        }
        if c.status == RefundSucceeded {
          c := c.(ioType := Income);
        }
      }
      step := BuildEntry(c, row);
    }

    /** The rest of the loop body for a kept row: the dict `d`, or the exception raised while building it. */
    method BuildEntry(c: Record, row: seq<string>) returns (step: Step)
      ensures step == EntryStep(accountMap, c, row)
    {
      var stamp := ExpandDatetime(c.datetime);
      if stamp.None? {
        return Fail(BadTimestamp(c.datetime));
      }
      var date, time := stamp.value.0, stamp.value.1;
      var flag := Confirmed;
      var narration := c.category + " " + c.item + " " + c.comment + " " + time;
      var drcr := IoDirection(c.ioType, row);
      if drcr.Failure? {
        return Fail(drcr.error);
      }
      var creditKeyword, debitKeyword := c.payer, c.category + c.payee + c.comment;
      if drcr.value == Inbound {
        creditKeyword, debitKeyword := debitKeyword, creditKeyword;
      }
      var credit := MappingAccount(accountMap, creditKeyword);
      ClassifyFailsIffNoDefault(accountMap, creditKeyword);
      if credit.Failure? {
        return Fail(NoDefaultAccount);
      }
      var debit := MappingAccount(accountMap, debitKeyword);
      ClassifyFailsIffNoDefault(accountMap, debitKeyword);
      if credit.value == UnknownAccount || debit.value == UnknownAccount {
        flag := NeedsReview;
      }
      return Emit(Entry(date, time, flag, Some(c.payee), narration, credit.value, debit.value, "-" + c.amount, c.amount));
    }
  }
}
