/**
 * What the three importers have in common once a row is read: the parsed
 * entry (the dict `d`), its flag and direction, the walk over the rows from
 * the last to the first, the assembly of the two legs, and
 * `compose_beans`, which renders entries as Beancount text.
 */
module Ledger {
  import opened Wrappers
  import opened Text
  import opened Classifier

  /** The account every shipped table gives as `DEFAULT`: a leg nobody has classified. */
  const UnknownAccount: string := "Assets:Unknown"

  /** The two Beancount flags: `*` (confirmed) and `!` (needs review). */
  datatype Flag = Confirmed | NeedsReview
  {
    function Mark(): char
    {
      if Confirmed? then '*' else '!'
    }
  }

  /**
   * The side of the statement the money left from: `Outbound` is the
   * importers' `'credit'` (own account on the credit leg), `Inbound` their
   * `'debit'`.
   */
  datatype Direction = Outbound | Inbound

  /** The exceptions that end a `parse` call. */
  datatype ParseError =
    | MissingColumns(row: seq<string>)               // IndexError: the row is shorter than the layout
    | BadTimestamp(text: string)                     // ValueError from strptime
    | UnknownIoType(ioType: string, row: seq<string>) // KeyError from get_DRCR_status, carrying the row
    | NoDefaultAccount                               // KeyError from mapping_account

  /** One parsed transaction: the dict `d` that `parse` appends to `self.parsed`. */
  datatype Entry = Entry(
    date: string,
    time: string,
    flag: Flag,
    payee: Option<string>,   // the bank importer has no payee
    narration: string,
    credit: string,
    debit: string,
    creditAmount: string,
    debitAmount: string)

  /** `'!'` exactly when a leg is the unknown account, `'*'` otherwise. */
  function FlagFor(credit: string, debit: string): (f: Flag)
    ensures f == NeedsReview <==> credit == UnknownAccount || debit == UnknownAccount
  {
    if credit == UnknownAccount || debit == UnknownAccount then NeedsReview else Confirmed
  }

  /** What the parts of an entry that `parse` builds always satisfy. */
  predicate WellFormedEntry(table: AccountMap, e: Entry)
  {
    && (e.flag == NeedsReview <==> e.credit == UnknownAccount || e.debit == UnknownAccount)
    && e.creditAmount == "-" + e.debitAmount
    && (exists i :: 0 <= i < |table| && table[i].1 == e.credit)
    && (exists j :: 0 <= j < |table| && table[j].1 == e.debit)
  }

  /**
   * The second half of a row's handling, shared by all three importers:
   * classify the credit and the debit keyword, sign the amount (credit
   * `'-' + amount`, debit `amount`) and set the flag.
   */
  function Assemble(table: AccountMap, date: string, time: string, payee: Option<string>, narration: string,
                    creditKeyword: string, debitKeyword: string, amount: string): (r: Result<Entry, ParseError>)
    ensures r.Failure? <==> !HasDefault(table)
    ensures r.Failure? ==> r.error == NoDefaultAccount
    ensures r.Success? ==> WellFormedEntry(table, r.value)
    ensures r.Success? ==> r.value.debitAmount == amount
  {
    match (Classify(table, creditKeyword), Classify(table, debitKeyword))
    case (Success(credit), Success(debit)) =>
      ClassifyGivesTableAccount(table, creditKeyword);
      ClassifyGivesTableAccount(table, debitKeyword);
      Success(Entry(date, time, FlagFor(credit, debit), payee, narration, credit, debit, "-" + amount, amount))
    case _ =>
      ClassifyFailsIffNoDefault(table, creditKeyword);
      Failure(NoDefaultAccount)
  }

  /** `'支出'` (expense) in the income/expense column of the Alipay and WeChat exports. */
  const Expense: string := "支出"
  /** `'收入'` (income) in the income/expense column of the Alipay and WeChat exports. */
  const Income: string := "收入"

  /**
   * `get_DRCR_status(io_type, row)` of the Alipay and WeChat importers:
   * expense is `'credit'`, income is `'debit'`, anything else raises with
   * the row in the message.
   */
  function IoDirection(ioType: string, row: seq<string>): (r: Result<Direction, ParseError>)
    ensures r.Success? <==> ioType == Expense || ioType == Income
    ensures r == Success(Outbound) <==> ioType == Expense
    ensures r == Success(Inbound) <==> ioType == Income
    ensures r.Failure? ==> r.error == UnknownIoType(ioType, row)
  {
    if ioType == Expense then Success(Outbound)
    else if ioType == Income then Success(Inbound)
    else Failure(UnknownIoType(ioType, row))
  }

  /**
   * `_get_amounts(io_type, amount)` of the Alipay and WeChat importers (never
   * called): the amount without surrounding `'¥'`, signed `+`/`-` for
   * income, `-`/`+` for expense and `?`/`?` otherwise.
   */
  function GetAmounts(ioType: string, amount: string): (r: (string, string))
    ensures var magnitude := StripChars(amount, {'¥'});
      |r.0| == |r.1| == |magnitude| + 1 && r.0[1..] == magnitude && r.1[1..] == magnitude
    ensures r.0[0] == '-' <==> ioType == Expense
    ensures r.1[0] == '-' <==> ioType == Income
    ensures r.0[0] == r.1[0] <==> ioType != Expense && ioType != Income
    ensures r.0[0] in "+-?" && r.1[0] in "+-?"
    ensures r.0[0] == '+' <==> ioType == Income
    ensures r.1[0] == '+' <==> ioType == Expense
    ensures r.0[0] == '?' <==> ioType != Expense && ioType != Income
  {
    var magnitude := StripChars(amount, {'¥'});
    if ioType == Income then ("+" + magnitude, "-" + magnitude)
    else if ioType == Expense then ("-" + magnitude, "+" + magnitude)
    else ("?" + magnitude, "?" + magnitude)
  }

  /** What one row contributes: nothing (`continue`), the end of the loop (`break`), an entry, or an exception. */
  datatype Step = Skip | Stop | Emit(entry: Entry) | Fail(error: ParseError)

  /** How the loop over the rows ended. */
  datatype Halt = Exhausted | Stopped | Failed(error: ParseError)

  /** The entries appended to `self.parsed`, in order, and how the loop ended. */
  datatype Outcome = Outcome(entries: seq<Entry>, halt: Halt)

  /**
   * `for row in reversed(list(self.reader))`: the rows from the last to the
   * first, each handled by `step`; entries appended before an exception stay
   * appended.
   */
  function Walk(rows: seq<seq<string>>, step: seq<string> -> Step): Outcome
    decreases |rows|
  {
    if rows == [] then Outcome([], Exhausted)
    else
      match step(rows[|rows| - 1])
      case Skip => Walk(rows[..|rows| - 1], step)
      case Stop => Outcome([], Stopped)
      case Fail(e) => Outcome([], Failed(e))
      case Emit(e) =>
        var rest := Walk(rows[..|rows| - 1], step);
        Outcome([e] + rest.entries, rest.halt)
  }

  /**
   * One step of `Walk` read from a prefix: the walk over `rows[..i + 1]` is
   * what row `i` does in front of the walk over `rows[..i]`.
   */
  lemma WalkStepBack(rows: seq<seq<string>>, i: nat, step: seq<string> -> Step)
    requires i < |rows|
    ensures Walk(rows[..i + 1], step) ==
      match step(rows[i])
      case Skip => Walk(rows[..i], step)
      case Stop => Outcome([], Stopped)
      case Fail(e) => Outcome([], Failed(e))
      case Emit(e) => Outcome([e] + Walk(rows[..i], step).entries, Walk(rows[..i], step).halt)
  {
    var p := rows[..i + 1];
    assert p[|p| - 1] == rows[i];
    assert p[..|p| - 1] == rows[..i];
  }

  /**
   * How the outcome of a walk over `rows` splits once row `i` is handled,
   * given the entries `done` already taken from the rows below it: the
   * invariant of the importers' loops, carried one row up the file.
   */
  lemma WalkAdvance(rows: seq<seq<string>>, i: nat, done: seq<Entry>, step: seq<string> -> Step, s: Step)
    requires i < |rows| && s == step(rows[i])
    requires Walk(rows, step) == Outcome(done + Walk(rows[..i + 1], step).entries, Walk(rows[..i + 1], step).halt)
    ensures s.Skip? ==>
      Walk(rows, step) == Outcome(done + Walk(rows[..i], step).entries, Walk(rows[..i], step).halt)
    ensures s.Emit? ==>
      Walk(rows, step) == Outcome(done + [s.entry] + Walk(rows[..i], step).entries, Walk(rows[..i], step).halt)
    ensures s.Stop? ==> Walk(rows, step) == Outcome(done, Stopped)
    ensures s.Fail? ==> Walk(rows, step) == Outcome(done, Failed(s.error))
  {
    WalkStepBack(rows, i, step);
    hide Walk;
    var rest := Walk(rows[..i], step);
    match s
    case Skip =>
    case Stop =>
    case Fail(_) =>
    case Emit(e) =>
      assert done + ([e] + rest.entries) == done + [e] + rest.entries;
  }

  /**
   * Rows are processed from the last one up: the walk over `a + b` is the walk over
   * `b`, then, unless that one stopped or failed, the walk over `a`.
   */
  lemma {:induction false} WalkConcat(a: seq<seq<string>>, b: seq<seq<string>>, step: seq<string> -> Step)
    ensures Walk(a + b, step) ==
      (var wb := Walk(b, step);
       if wb.halt == Exhausted then Outcome(wb.entries + Walk(a, step).entries, Walk(a, step).halt) else wb)
    decreases |b|
  {
    if b == [] {
      assert a + b == a;
    } else {
      var ab := a + b;
      assert ab[|ab| - 1] == b[|b| - 1];
      assert ab[..|ab| - 1] == a + b[..|b| - 1];
      WalkConcat(a, b[..|b| - 1], step);
    }
  }

  /** A row whose step is `Stop` hides every row above it. */
  lemma {:induction false} WalkIgnoresRowsAboveStop(above: seq<seq<string>>, rows: seq<seq<string>>, step: seq<string> -> Step)
    requires rows != [] && step(rows[0]) == Stop
    ensures Walk(above + rows, step) == Walk(rows, step)
  {
    WalkConcat(above, rows, step);
    assert Walk(rows, step).halt != Exhausted by {
      WalkEndsAtStop(rows, step);
    }
  }

  /** A walk over rows whose first row stops never runs out of rows. */
  lemma {:induction false} WalkEndsAtStop(rows: seq<seq<string>>, step: seq<string> -> Step)
    requires rows != [] && step(rows[0]) == Stop
    ensures Walk(rows, step).halt != Exhausted
    decreases |rows|
  {
    if |rows| > 1 {
      var init := rows[..|rows| - 1];
      assert init[0] == rows[0];
      WalkEndsAtStop(init, step);
    }
  }

  /** A walk over rows none of which stops never ends in `Stopped`. */
  lemma {:induction false} WalkWithoutStop(rows: seq<seq<string>>, step: seq<string> -> Step)
    requires forall k :: 0 <= k < |rows| ==> !step(rows[k]).Stop?
    ensures Walk(rows, step).halt != Stopped
    decreases |rows|
  {
    if rows != [] {
      var init := rows[..|rows| - 1];
      assert forall k :: 0 <= k < |init| ==> init[k] == rows[k];
      WalkWithoutStop(init, step);
    }
  }

  /** A row whose step is `Skip` can be taken out wherever it stands. */
  lemma {:induction false} WalkSkipsRow(a: seq<seq<string>>, row: seq<string>, b: seq<seq<string>>, step: seq<string> -> Step)
    requires step(row) == Skip
    ensures Walk(a + [row] + b, step) == Walk(a + b, step)
  {
    WalkConcat(a + [row], b, step);
    WalkConcat(a, b, step);
    var ar := a + [row];
    assert ar[..|ar| - 1] == a;
  }

  /**
   * When every row gives an entry, the output is the rows' entries in the
   * reverse of file order.
   */
  lemma {:induction false} WalkReversesRows(rows: seq<seq<string>>, step: seq<string> -> Step)
    requires forall k :: 0 <= k < |rows| ==> step(rows[k]).Emit?
    ensures Walk(rows, step).halt == Exhausted
    ensures |Walk(rows, step).entries| == |rows|
    ensures forall k :: 0 <= k < |rows| ==> Walk(rows, step).entries[k] == step(rows[|rows| - 1 - k]).entry
    decreases |rows|
  {
    if rows != [] {
      var init := rows[..|rows| - 1];
      WalkReversesRows(init, step);
      var w := Walk(rows, step);
      assert w.entries == [step(rows[|rows| - 1]).entry] + Walk(init, step).entries;
      forall k | 0 <= k < |rows| ensures w.entries[k] == step(rows[|rows| - 1 - k]).entry {
        if k > 0 {
          assert w.entries[k] == Walk(init, step).entries[k - 1];
          assert init[|init| - 1 - (k - 1)] == rows[|rows| - 1 - k];
        }
      }
    }
  }

  /** Every entry of a walk is an entry some row's step emitted. */
  lemma {:induction false} WalkEntriesAreEmitted(rows: seq<seq<string>>, step: seq<string> -> Step, e: Entry)
    requires e in Walk(rows, step).entries
    ensures exists k :: 0 <= k < |rows| && step(rows[k]) == Emit(e)
    decreases |rows|
  {
    var init := rows[..|rows| - 1];
    match step(rows[|rows| - 1])
    case Skip =>
      WalkEntriesAreEmitted(init, step, e);
      var k :| 0 <= k < |init| && step(init[k]) == Emit(e);
      assert rows[k] == init[k];
    case Emit(x) =>
      if e != x {
        WalkEntriesAreEmitted(init, step, e);
        var k :| 0 <= k < |init| && step(init[k]) == Emit(e);
        assert rows[k] == init[k];
      }
  }

  /** A block's header line: date, flag, the payee in quotes when there is one, the narration in quotes. */
  function HeaderLine(e: Entry): string
  {
    e.date + " " + [e.flag.Mark()] + " "
      + (match e.payee case Some(p) => "\"" + p + "\" " case None => "")
      + "\"" + e.narration + "\""
  }

  /** A posting line: four spaces, account, four spaces, signed amount, ` CNY`. */
  function PostingLine(account: string, amount: string): string
  {
    "    " + account + "    " + amount + " CNY"
  }

  /** The `template.format_map(p)` of `compose_beans`: three lines. */
  function Bean(e: Entry): string
  {
    HeaderLine(e) + "\n" + PostingLine(e.credit, e.creditAmount) + "\n" + PostingLine(e.debit, e.debitAmount)
  }

  /** `compose_beans`: one block per entry, in the entries' order. */
  function ComposeBeans(entries: seq<Entry>): (beans: seq<string>)
    ensures |beans| == |entries|
    ensures forall i :: 0 <= i < |entries| ==> beans[i] == Bean(entries[i])
  {
    seq(|entries|, i requires 0 <= i < |entries| => Bean(entries[i]))
  }

  /** No field of the entry spans a line break. */
  predicate SingleLineFields(e: Entry)
  {
    && '\n' !in e.date && '\n' !in e.narration && '\n' !in e.credit && '\n' !in e.debit
    && '\n' !in e.creditAmount && '\n' !in e.debitAmount
    && (e.payee.Some? ==> '\n' !in e.payee.value)
  }

  /**
   * A composed block reads back as exactly three lines: the header, then
   * the credit posting, then the debit posting.
   */
  lemma {:induction false} BeanLines(e: Entry)
    requires SingleLineFields(e)
    ensures Split(Bean(e), '\n') == [HeaderLine(e), PostingLine(e.credit, e.creditAmount), PostingLine(e.debit, e.debitAmount)]
  {
    var h, c, d := HeaderLine(e), PostingLine(e.credit, e.creditAmount), PostingLine(e.debit, e.debitAmount);
    var payeePart := match e.payee case Some(p) => "\"" + p + "\" " case None => "";
    assert '\n' !in payeePart;
    var front := e.date + " " + [e.flag.Mark()] + " ";
    assert '\n' !in front;
    NotInConcat('\n', front, payeePart);
    NotInConcat('\n', front + payeePart, "\"" + e.narration + "\"");
    assert h == front + payeePart + ("\"" + e.narration + "\"");
    assert '\n' !in c;
    assert '\n' !in d;
    var parts := [h, c, d];
    SplitJoin(parts, '\n');
    Join3(parts, '\n');
  }

  lemma NotInConcat(c: char, a: string, b: string)
    requires c !in a && c !in b
    ensures c !in a + b
  {
  }

  /** Composing keeps the order of the entries: blocks of a concatenation are the concatenated blocks. */
  lemma ComposeBeansConcat(xs: seq<Entry>, ys: seq<Entry>)
    ensures ComposeBeans(xs + ys) == ComposeBeans(xs) + ComposeBeans(ys)
  {
  }
}
