/**
 * The WeChat Pay importer: its account table, the normalisation of an
 * eleven-column export row, the change-pocket transfers it skips, and
 * `WechatParser.parse`, which walks the rows from the last to the first
 * and appends one entry per transaction.
 */
module Wechat {
  import opened Wrappers
  import opened Text
  import opened Calendar
  import opened Classifier
  import opened Ledger

  /** `account_map`: keyword patterns to accounts, in the order they are tried. */
  const AccountMap: Classifier.AccountMap := [
    ("DEFAULT", "Assets:Unknown"),
    ("房租|租金", "Expenses:Rent"),
    ("Octopus|途运科技|样样巴士|AA巴士|帅淘|巴士|迅隆船务|ZAKC Limited|大巴|出租车|打车|出行|高铁", "Expenses:Transport"),
    ("中国儿童少年基金会|上海联劝公益基金会|上海仁德基金会|水滴筹", "Expenses:Donation"),
    ("香蕉|水果|松涛园|Olé|兰州拉面|饿了么", "Expenses:EatAndDrink"),
    ("发给|喜欢作者|发出群红包|微信红包-退款", "Expenses:Relationship:GiftMoney"),
    ("顺丰", "Expenses:DailyUtilities"),
    ("上海早木信息科技有限公司", "Expenses:Education"),
    ("零钱|零钱通", "Assets:Cash:WeChat"),
    ("群收款", "Income:TransferIn"),
    ("微信红包", "Income:Relationship:GiftMoney"),
    ("中信银行信用卡|中信银行\\(4691\\)|银联代收，信用卡还款", "Liabilities:CreditCard:CIBK-4691"),
    ("招商银行信用卡|招商银行\\(0035\\)|信用卡自扣", "Liabilities:CreditCard:CMBC-0035"),
    ("中国银行信用卡|中银信用卡还款", "Liabilities:CreditCard:BKCH-8693")
  ]

  /** The first cell of the column-title row; it and every row above it are not transactions. */
  const HeaderMarker: string := "交易时间"
  /** The number of columns a transaction row has. */
  const Columns: nat := 11
  /**
   * The argument of `strip('收款方备注:二维码收款')` on the item, read as
   * Python reads it: a set of characters removed from both ends.
   */
  const ItemNoise: set<char> := {'收', '款', '方', '备', '注', ':', '二', '维', '码'}
  /** `'¥'`, stripped from both ends of the amount. */
  const Yen: set<char> := {'¥'}
  /** Transactions of this type (moving money into the change pocket) are skipped. */
  const PocketTransfer: string := "转入零钱通"

  /** The dict `c`: the row's columns, stripped, with the item and the amount cleaned. */
  datatype Record = Record(
    datetime: string,   // 交易时间
    kind: string,       // 交易类型, the source's `type`
    payee: string,      // 交易对方
    item: string,       // 商品
    ioType: string,     // 收/支
    amount: string,     // 金额(元), without `¥`
    payer: string,      // 支付方式
    status: string,     // 当前状态
    tradeId: string,    // 交易单号
    merchantId: string, // 商户单号
    comment: string)    // 备注

  /** The item with the QR-code note characters cut from both ends and `"` replaced by `'`. */
  function CleanItem(item: string): (r: string)
    ensures '"' !in r
  {
    ReplaceChar(StripChars(item, ItemNoise), '"', '\'')
  }

  /** Reads a row into a `Record`. */
  function Normalize(row: seq<string>): (c: Record)
    requires |row| >= Columns
    ensures '"' !in c.item
  {
    Record(Strip(row[0]), Strip(row[1]), Strip(row[2]), CleanItem(Strip(row[3])), Strip(row[4]),
           StripChars(Strip(row[5]), Yen), Strip(row[6]), Strip(row[7]), Strip(row[8]), Strip(row[9]),
           Strip(row[10]))
  }

  /** The narration: type, item and the time, separated by spaces. */
  function Narration(c: Record, time: string): string
  {
    c.kind + " " + c.item + " " + time
  }

  /** What `parse` does with one row: skip it, stop, fail, or build its entry. */
  function RowStep(table: Classifier.AccountMap, row: seq<string>): Step
  {
    if row == [] then Skip
    else if HeaderMarker <= row[0] then Stop
    else if |row| < Columns then Fail(MissingColumns(row))
    else
      var c := Normalize(row);
      if PocketTransfer <= c.kind then Skip
      else EntryStep(table, c, row)
  }

  /**
   * Building the dict `d` from a kept record: the timestamp, the narration,
   * the direction, then the two legs. An expense is paid from the payment
   * method to the payee and item; an income comes from the type, payee and
   * item into the payment method and status.
   */
  function EntryStep(table: Classifier.AccountMap, c: Record, row: seq<string>): Step
  {
    match ExpandDatetime(c.datetime)
    case None => Fail(BadTimestamp(c.datetime))
    case Some(stamp) =>
      match IoDirection(c.ioType, row)
      case Failure(e) => Fail(e)
      case Success(dir) =>
        var creditKeyword := if dir == Outbound then c.payer else c.kind + c.payee + c.item;
        var debitKeyword := if dir == Outbound then c.payee + c.item else c.payer + c.status;
        match Assemble(table, stamp.0, stamp.1, Some(c.payee), Narration(c, stamp.1), creditKeyword, debitKeyword, c.amount)
        case Failure(e) => Fail(e)
        case Success(e) => Emit(e)
  }

  function StepOf(table: Classifier.AccountMap): seq<string> -> Step
  {
    row => RowStep(table, row)
  }

  /** What one `parse` call appends and how it ends, for the rows the reader yields. */
  function ParseRows(table: Classifier.AccountMap, rows: seq<seq<string>>): Outcome
  {
    Walk(rows, StepOf(table))
  }

  /**
   * The item is cut down to a contiguous piece of itself: what is cut off
   * at either end is made of note characters, and the piece neither starts
   * nor ends with one. Only then are quotes replaced.
   */
  lemma CleanItemCutsNoteCharacters(item: string)
    ensures exists t :: IsStripOf(t, item, ItemNoise) && CleanItem(item) == ReplaceChar(t, '"', '\'')
  {
    StripCharsIsStrip(item, ItemNoise);
  }

  /** The amount is the stripped column without a `¥` at either end. */
  lemma AmountHasNoYenAtEnds(row: seq<string>)
    requires |row| >= Columns
    ensures IsStripOf(Normalize(row).amount, Strip(row[5]), Yen)
  {
    StripCharsIsStrip(Strip(row[5]), Yen);
  }

  /**
   * An entry built from a kept record: an ISO date and time from its
   * timestamp, the payee, the narration, and the legs classified by
   * direction, with the amount unsigned on the debit leg and negated on the
   * credit leg.
   */
  lemma EntryOfRecord(table: Classifier.AccountMap, c: Record, row: seq<string>, e: Entry)
    requires EntryStep(table, c, row) == Emit(e)
    ensures ExpandDatetime(c.datetime) == Some((e.date, e.time)) && IsIsoDate(e.date) && IsIsoTime(e.time)
    ensures e.payee == Some(c.payee) && e.narration == Narration(c, e.time)
    ensures c.ioType == Expense || c.ioType == Income
    ensures c.ioType == Expense ==>
      Classify(table, c.payer) == Success(e.credit) && Classify(table, c.payee + c.item) == Success(e.debit)
    ensures c.ioType == Income ==>
      Classify(table, c.kind + c.payee + c.item) == Success(e.credit) && Classify(table, c.payer + c.status) == Success(e.debit)
    ensures e.debitAmount == c.amount && e.creditAmount == "-" + c.amount
    ensures WellFormedEntry(table, e)
  {
  }

  /** A row that gives an entry is a full data row that is not a change-pocket transfer. */
  lemma RowEntry(table: Classifier.AccountMap, row: seq<string>, e: Entry)
    requires RowStep(table, row) == Emit(e)
    ensures |row| >= Columns && !(HeaderMarker <= row[0])
    ensures !(PocketTransfer <= Normalize(row).kind)
    ensures EntryStep(table, Normalize(row), row) == Emit(e)
  {
  }

  /** The column-title row ends the walk: nothing above it is read. */
  lemma StopsAtHeader(table: Classifier.AccountMap, above: seq<seq<string>>, rows: seq<seq<string>>)
    requires rows != [] && rows[0] != [] && HeaderMarker <= rows[0][0]
    ensures ParseRows(table, above + rows) == ParseRows(table, rows)
  {
    WalkIgnoresRowsAboveStop(above, rows, StepOf(table));
  }

  /** Blank lines change nothing, wherever they stand. */
  lemma SkipsBlankRows(table: Classifier.AccountMap, a: seq<seq<string>>, b: seq<seq<string>>)
    ensures ParseRows(table, a + [[]] + b) == ParseRows(table, a + b)
  {
    WalkSkipsRow(a, [], b, StepOf(table));
  }

  /** A transfer into the change pocket changes nothing, wherever it stands. */
  lemma SkipsPocketTransfers(table: Classifier.AccountMap, a: seq<seq<string>>, row: seq<string>, b: seq<seq<string>>)
    requires |row| >= Columns && !(HeaderMarker <= row[0])
    requires PocketTransfer <= Strip(row[1])
    ensures ParseRows(table, a + [row] + b) == ParseRows(table, a + b)
  {
    WalkSkipsRow(a, row, b, StepOf(table));
  }

  /** When every row gives an entry, the entries come in reverse file order: the last row's first. */
  lemma ReverseFileOrder(table: Classifier.AccountMap, rows: seq<seq<string>>)
    requires forall k :: 0 <= k < |rows| ==> RowStep(table, rows[k]).Emit?
    ensures ParseRows(table, rows).halt == Exhausted
    ensures |ParseRows(table, rows).entries| == |rows|
    ensures forall k :: 0 <= k < |rows| ==> ParseRows(table, rows).entries[k] == RowStep(table, rows[|rows| - 1 - k]).entry
  {
    WalkReversesRows(rows, StepOf(table));
  }

  /** Every entry of a parse has an ISO date and time, a payee, and legs and flag that fit together. */
  lemma EntriesWellFormed(table: Classifier.AccountMap, rows: seq<seq<string>>)
    ensures forall e :: e in ParseRows(table, rows).entries ==>
      WellFormedEntry(table, e) && IsIsoDate(e.date) && IsIsoTime(e.time) && e.payee.Some?
  {
    forall e | e in ParseRows(table, rows).entries
      ensures WellFormedEntry(table, e) && IsIsoDate(e.date) && IsIsoTime(e.time) && e.payee.Some?
    {
      WalkEntriesAreEmitted(rows, StepOf(table), e);
      var k :| 0 <= k < |rows| && StepOf(table)(rows[k]) == Emit(e);
      RowEntry(table, rows[k], e);
      EntryOfRecord(table, Normalize(rows[k]), rows[k], e);
    }
  }

  /** The loop invariant of `WechatParser.Parse`, carried one row up the file. */
  lemma ParseAdvance(table: Classifier.AccountMap, rows: seq<seq<string>>, i: nat, done: seq<Entry>, step: Step)
    requires 0 < i <= |rows| && step == RowStep(table, rows[i - 1])
    requires ParseRows(table, rows) ==
      Outcome(done + ParseRows(table, rows[..i]).entries, ParseRows(table, rows[..i]).halt)
    ensures step.Skip? ==>
      ParseRows(table, rows) == Outcome(done + ParseRows(table, rows[..i - 1]).entries, ParseRows(table, rows[..i - 1]).halt)
    ensures step.Emit? ==>
      ParseRows(table, rows) == Outcome(done + [step.entry] + ParseRows(table, rows[..i - 1]).entries, ParseRows(table, rows[..i - 1]).halt)
    ensures step.Stop? ==> ParseRows(table, rows) == Outcome(done, Stopped)
    ensures step.Fail? ==> ParseRows(table, rows) == Outcome(done, Failed(step.error))
  {
    hide RowStep;
    WalkAdvance(rows, i - 1, done, StepOf(table), step);
  }

  // The refund keyword against the shipped table. Each pattern is first shown
  // to be its `|`-separated literals, then each literal is tested; the proof
  // is spread over small lemmas so that each one stays cheap to check.

  /** The keyword of a returned red packet. */
  const RefundKeyword: string := "微信红包-退款"

  const RentAlternatives: seq<string> := ["房租", "租金"]
  const TransportAlternatives: seq<string> :=
    ["Octopus", "途运科技", "样样巴士", "AA巴士", "帅淘", "巴士", "迅隆船务", "ZAKC Limited", "大巴", "出租车", "打车", "出行", "高铁"]
  const DonationAlternatives: seq<string> := ["中国儿童少年基金会", "上海联劝公益基金会", "上海仁德基金会", "水滴筹"]
  const FoodAlternatives: seq<string> := ["香蕉", "水果", "松涛园", "Olé", "兰州拉面", "饿了么"]
  const GiftAlternatives: seq<string> := ["发给", "喜欢作者", "发出群红包", "微信红包-退款"]

  lemma RentPattern()
    ensures AccountMap[1].0 == Join(RentAlternatives, '|')
  {
    hide Join;
    Join2(RentAlternatives, '|');
  }

  lemma TransportPattern()
    ensures AccountMap[2].0 == Join(TransportAlternatives, '|')
  {
    hide Join;
    var a: seq<string> := ["Octopus", "途运科技", "样样巴士"];
    var b: seq<string> := ["AA巴士", "帅淘", "巴士"];
    var c: seq<string> := ["迅隆船务", "ZAKC Limited", "大巴"];
    var d: seq<string> := ["出租车", "打车"];
    var e: seq<string> := ["出行", "高铁"];
    assert (a + b) + ((c + d) + e) == TransportAlternatives;
    JoinAppend(a, b, '|');
    JoinAppend(c, d, '|');
    JoinAppend(c + d, e, '|');
    JoinAppend(a + b, (c + d) + e, '|');
    TransportChunks();
    TransportEntry();
    TransportCut();
    TransportFrontCut();
    TransportBackCut();
    TransportMiddleCut();
  }

  lemma TransportChunks()
    ensures Join(["Octopus", "途运科技", "样样巴士"], '|') == "Octopus|途运科技|样样巴士"
    ensures Join(["AA巴士", "帅淘", "巴士"], '|') == "AA巴士|帅淘|巴士"
    ensures Join(["迅隆船务", "ZAKC Limited", "大巴"], '|') == "迅隆船务|ZAKC Limited|大巴"
    ensures Join(["出租车", "打车"], '|') == "出租车|打车"
    ensures Join(["出行", "高铁"], '|') == "出行|高铁"
  {
    hide Join;
    Join3(["Octopus", "途运科技", "样样巴士"], '|');
    Join3(["AA巴士", "帅淘", "巴士"], '|');
    Join3(["迅隆船务", "ZAKC Limited", "大巴"], '|');
    Join2(["出租车", "打车"], '|');
    Join2(["出行", "高铁"], '|');
  }

  lemma TransportEntry()
    ensures AccountMap[2].0 == "Octopus|途运科技|样样巴士|AA巴士|帅淘|巴士|迅隆船务|ZAKC Limited|大巴|出租车|打车|出行|高铁"
  {
  }

  lemma TransportCut()
    ensures "Octopus|途运科技|样样巴士|AA巴士|帅淘|巴士|迅隆船务|ZAKC Limited|大巴|出租车|打车|出行|高铁"
      == "Octopus|途运科技|样样巴士|AA巴士|帅淘|巴士" + "|" + "迅隆船务|ZAKC Limited|大巴|出租车|打车|出行|高铁"
  {
  }

  lemma TransportFrontCut()
    ensures "Octopus|途运科技|样样巴士|AA巴士|帅淘|巴士" == "Octopus|途运科技|样样巴士" + "|" + "AA巴士|帅淘|巴士"
  {
  }

  lemma TransportBackCut()
    ensures "迅隆船务|ZAKC Limited|大巴|出租车|打车|出行|高铁" == "迅隆船务|ZAKC Limited|大巴|出租车|打车" + "|" + "出行|高铁"
  {
  }

  lemma TransportMiddleCut()
    ensures "迅隆船务|ZAKC Limited|大巴|出租车|打车" == "迅隆船务|ZAKC Limited|大巴" + "|" + "出租车|打车"
  {
  }

  lemma DonationPattern()
    ensures AccountMap[3].0 == Join(DonationAlternatives, '|')
  {
    hide Join;
    var a: seq<string> := ["中国儿童少年基金会", "上海联劝公益基金会"];
    var b: seq<string> := ["上海仁德基金会", "水滴筹"];
    assert a + b == DonationAlternatives;
    JoinAppend(a, b, '|');
    DonationChunks();
    DonationEntry();
    DonationCut();
  }

  lemma DonationChunks()
    ensures Join(["中国儿童少年基金会", "上海联劝公益基金会"], '|') == "中国儿童少年基金会|上海联劝公益基金会"
    ensures Join(["上海仁德基金会", "水滴筹"], '|') == "上海仁德基金会|水滴筹"
  {
    hide Join;
    Join2(["中国儿童少年基金会", "上海联劝公益基金会"], '|');
    Join2(["上海仁德基金会", "水滴筹"], '|');
  }

  lemma DonationEntry()
    ensures AccountMap[3].0 == "中国儿童少年基金会|上海联劝公益基金会|上海仁德基金会|水滴筹"
  {
  }

  lemma DonationCut()
    ensures "中国儿童少年基金会|上海联劝公益基金会|上海仁德基金会|水滴筹" == "中国儿童少年基金会|上海联劝公益基金会" + "|" + "上海仁德基金会|水滴筹"
  {
  }

  lemma FoodPattern()
    ensures AccountMap[4].0 == Join(FoodAlternatives, '|')
  {
    hide Join;
    var a: seq<string> := ["香蕉", "水果", "松涛园"];
    var b: seq<string> := ["Olé", "兰州拉面", "饿了么"];
    assert a + b == FoodAlternatives;
    JoinAppend(a, b, '|');
    FoodChunks();
    FoodEntry();
    FoodCut();
  }

  lemma FoodChunks()
    ensures Join(["香蕉", "水果", "松涛园"], '|') == "香蕉|水果|松涛园"
    ensures Join(["Olé", "兰州拉面", "饿了么"], '|') == "Olé|兰州拉面|饿了么"
  {
    hide Join;
    Join3(["香蕉", "水果", "松涛园"], '|');
    Join3(["Olé", "兰州拉面", "饿了么"], '|');
  }

  lemma FoodEntry()
    ensures AccountMap[4].0 == "香蕉|水果|松涛园|Olé|兰州拉面|饿了么"
  {
  }

  lemma FoodCut()
    ensures "香蕉|水果|松涛园|Olé|兰州拉面|饿了么" == "香蕉|水果|松涛园" + "|" + "Olé|兰州拉面|饿了么"
  {
  }

  lemma GiftPattern()
    ensures AccountMap[5].0 == Join(GiftAlternatives, '|')
  {
    hide Join;
    var a: seq<string> := ["发给", "喜欢作者"];
    var b: seq<string> := ["发出群红包", "微信红包-退款"];
    assert a + b == GiftAlternatives;
    JoinAppend(a, b, '|');
    GiftChunks();
    GiftEntry();
    GiftCut();
  }

  lemma GiftChunks()
    ensures Join(["发给", "喜欢作者"], '|') == "发给|喜欢作者"
    ensures Join(["发出群红包", "微信红包-退款"], '|') == "发出群红包|微信红包-退款"
  {
    hide Join;
    Join2(["发给", "喜欢作者"], '|');
    Join2(["发出群红包", "微信红包-退款"], '|');
  }

  lemma GiftEntry()
    ensures AccountMap[5].0 == "发给|喜欢作者|发出群红包|微信红包-退款"
  {
  }

  lemma GiftCut()
    ensures "发给|喜欢作者|发出群红包|微信红包-退款" == "发给|喜欢作者" + "|" + "发出群红包|微信红包-退款"
  {
  }

  lemma RefundSkipsRent()
    ensures !Hit(AccountMap, RefundKeyword, 1)
  {
    RentPattern();
    PlainPatternMisses(RentAlternatives, RefundKeyword);
  }

  lemma RefundSkipsTransport()
    ensures !Hit(AccountMap, RefundKeyword, 2)
  {
    TransportPattern();
    RefundMissesTransport();
  }

  lemma RefundMissesTransport()
    ensures !Matches(Join(TransportAlternatives, '|'), RefundKeyword)
  {
    PlainPatternMisses(TransportAlternatives, RefundKeyword);
  }

  lemma RefundSkipsDonation()
    ensures !Hit(AccountMap, RefundKeyword, 3)
  {
    DonationPattern();
    RefundMissesDonation();
  }

  lemma RefundMissesDonation()
    ensures !Matches(Join(DonationAlternatives, '|'), RefundKeyword)
  {
    PlainPatternMisses(DonationAlternatives, RefundKeyword);
  }

  lemma RefundSkipsFood()
    ensures !Hit(AccountMap, RefundKeyword, 4)
  {
    FoodPattern();
    RefundMissesFood();
  }

  lemma RefundMissesFood()
    ensures !Matches(Join(FoodAlternatives, '|'), RefundKeyword)
  {
    PlainPatternMisses(FoodAlternatives, RefundKeyword);
  }

  lemma RefundHitsGift()
    ensures Hit(AccountMap, RefundKeyword, 5)
  {
    GiftPattern();
    RefundMatchesGift();
    assert AccountMap[5].0[0] != DefaultKey[0];
  }

  lemma RefundMatchesGift()
    ensures Matches(Join(GiftAlternatives, '|'), RefundKeyword)
  {
    assert OccursAt(RefundKeyword, RefundKeyword, 0);
    PlainPatternHits(GiftAlternatives, 3, RefundKeyword);
  }

  /** The later `'微信红包'` pattern (red packets received) also matches the refund keyword. */
  lemma RefundMatchesRedPacket()
    ensures AccountMap[10] == ("微信红包", "Income:Relationship:GiftMoney")
    ensures Matches(AccountMap[10].0, RefundKeyword)
  {
    var key := AccountMap[10].0;
    assert key == "微信红包";
    ScanPlainLast(key);
    assert Alternatives(key)[0] == key;
    assert RefundKeyword[0..4] == key;
    assert OccursAt(key, RefundKeyword, 0);
    assert IsSubstring(Alternatives(key)[0], RefundKeyword);
  }

  /**
   * A returned red packet is a gift-money expense: the gift pattern
   * precedes the received-red-packet pattern, which matches too, and the
   * first match wins.
   */
  lemma RefundIsGiftMoney()
    ensures Classify(AccountMap, RefundKeyword) == Success("Expenses:Relationship:GiftMoney")
  {
    RefundHitsGift();
    assert AccountMap[0].0 == DefaultKey;
    forall j | 0 <= j < 5
      ensures !Hit(AccountMap, RefundKeyword, j)
    {
      if j == 1 {
        RefundSkipsRent();
      } else if j == 2 {
        RefundSkipsTransport();
      } else if j == 3 {
        RefundSkipsDonation();
      } else if j == 4 {
        RefundSkipsFood();
      }
    }
    ClassifyFirstHitWins(AccountMap, RefundKeyword, 5);
  }

  /** With the two entries in the other order, the same refund would be booked as income. */
  lemma RefundOrderDecides()
    ensures Classify([(DefaultKey, UnknownAccount), AccountMap[5], AccountMap[10]], RefundKeyword)
      == Success("Expenses:Relationship:GiftMoney")
    ensures Classify([(DefaultKey, UnknownAccount), AccountMap[10], AccountMap[5]], RefundKeyword)
      == Success("Income:Relationship:GiftMoney")
  {
    RefundHitsGift();
    RefundMatchesRedPacket();
    ClassifyOrderDecides(RefundKeyword, AccountMap[5].0, AccountMap[5].1, AccountMap[10].0, AccountMap[10].1, UnknownAccount);
  }

  /** `WechatParser`: a CSV reader over an export and the entries parsed so far. */
  class WechatParser {
    /** The rows the CSV reader has yet to yield. */
    var rows: seq<seq<string>>
    /** `self.parsed`. */
    var parsed: seq<Entry>
    /** The table legs are classified with: the module-level `account_map`. */
    const accountMap: Classifier.AccountMap

    constructor (csvRows: seq<seq<string>>, table: Classifier.AccountMap)
      ensures rows == csvRows && parsed == [] && accountMap == table
    {
      rows := csvRows;
      parsed := [];
      accountMap := table;
    }

    /**
     * `parse`: reads every row, then handles them from the last to the
     * first; entries appended before an exception stay in `parsed`.
     */
    method Parse() returns (r: Result<seq<Entry>, ParseError>)
      modifies this
      ensures rows == []
      ensures parsed == old(parsed) + ParseRows(accountMap, old(rows)).entries
      ensures r == if ParseRows(accountMap, old(rows)).halt.Failed?
                   then Failure(ParseRows(accountMap, old(rows)).halt.error)
                   else Success(parsed)
    {
      hide RowStep;
      var all := rows;
      rows := [];
      var i := |all|;
      ghost var done: seq<Entry> := [];
      assert all[..i] == all;
      while i > 0
        invariant 0 <= i <= |all|
        invariant rows == [] && parsed == old(parsed) + done
        invariant ParseRows(accountMap, all) ==
          Outcome(done + ParseRows(accountMap, all[..i]).entries, ParseRows(accountMap, all[..i]).halt)
      {
        var step := HandleRow(all[i - 1]);
        ParseAdvance(accountMap, all, i, done, step);
        i := i - 1;
        match step
        case Skip =>
        case Stop =>
          break;
        case Fail(e) =>
          return Failure(e);
        case Emit(entry) =>
          assert parsed + [entry] == old(parsed) + (done + [entry]);
          parsed := parsed + [entry];
          done := done + [entry];
      }
      if i == 0 {
        assert all[..i] == [];
      }
      return Success(parsed);
    }

    /**
     * The body of `parse`'s loop for one row: `Skip` is `continue`, `Stop`
     * is `break`, `Fail` an exception, `Emit` the dict `d` to append.
     */
    method HandleRow(row: seq<string>) returns (step: Step)
      ensures step == RowStep(accountMap, row)
    {
      if row == [] {
        return Skip;
      }
      if HeaderMarker <= row[0] {
        return Stop;
      }
      if |row| < Columns {
        return Fail(MissingColumns(row));
      }
      var c := Normalize(row);
      if PocketTransfer <= c.kind {
        return Skip;
      }
      step := BuildEntry(c, row);
    }

    /** The rest of the loop body for a kept row: the dict `d`, or the exception raised while building it. */
    method BuildEntry(c: Record, row: seq<string>) returns (step: Step)
      ensures step == EntryStep(accountMap, c, row)
    {
      var stamp := ExpandDatetime(c.datetime);
      if stamp.None? {
        return Fail(BadTimestamp(c.datetime));
      }
      var date, time := stamp.value.0, stamp.value.1;
      var narration := c.kind + " " + c.item + " " + time;
      var drcr := IoDirection(c.ioType, row);
      if drcr.Failure? {
        return Fail(drcr.error);
      }
      var creditKeyword, debitKeyword;
      if drcr.value == Outbound {
        creditKeyword, debitKeyword := c.payer, c.payee + c.item;
      } else {
        creditKeyword, debitKeyword := c.kind + c.payee + c.item, c.payer + c.status;
      }
      var credit := MappingAccount(accountMap, creditKeyword);
      ClassifyFailsIffNoDefault(accountMap, creditKeyword);
      if credit.Failure? {
        return Fail(NoDefaultAccount);
      }
      var debit := MappingAccount(accountMap, debitKeyword);
      ClassifyFailsIffNoDefault(accountMap, debitKeyword);
      var flag := if credit.value == UnknownAccount || debit.value == UnknownAccount then NeedsReview else Confirmed;
      return Emit(Entry(date, time, flag, Some(c.payee), narration, credit.value, debit.value, "-" + c.amount, c.amount));
    }
  }
}
