# LedgerTemplate importers in Dafny

A model of the three Beancount importers of LedgerTemplate:
`importer/alipay.py` (Alipay exports), `importer/wechat.py` (WeChat Pay exports)
and `importer/bank_cmb.py` (China Merchants Bank debit-card exports). Each one
turns the rows of a CSV export into double-entry transactions:

- it walks the rows from the last to the first;
- it skips or stops on header rows, each provider in its own way;
- it drops some rows and reclassifies others;
- it strips and cleans the fields and expands the timestamp to ISO 8601 form;
- it decides the direction of the money;
- it classifies the two legs with `mapping_account`, an ordered first-match
  table with a required `DEFAULT` entry;
- it signs the amounts and flags the entry `!` when a leg is `Assets:Unknown`;
- `compose_beans` then renders each entry as a three-line Beancount block.

Modules:

| module | file | contents |
|---|---|---|
| `Wrappers` | `wrappers.dfy` | `Option` and `Result` |
| `Text` | `text.dfy` | Python's `str.strip`, `replace` and `startswith`, substring search, and the splitting and joining used to read the fixed timestamp layouts |
| `Calendar` | `calendar.dfy` | the `strptime`/`strftime` formats the importers use |
| `Classifier` | `classifier.dfy` | `mapping_account` and the pattern subset the tables use |
| `Ledger` | `ledger.dfy` | the parsed entry, flag, direction, shared helpers, the walk from the last row to the first, `compose_beans` |
| `Alipay`, `Wechat`, `BankCmb` | `alipay.dfy`, `wechat.dfy`, `bank_cmb.dfy` | each importer's table, row handling and parser class |

Each `parse` is a method of a parser class whose fields are the reader's
remaining rows and `parsed`. The loop runs over the rows from the end and
appends to `parsed`. It is proved against `ParseRows`, a function over the
rows built from a per-row `RowStep`. `RowStep` says whether a row is skipped
(`continue`), ends the loop (`break`), raises, or yields an entry. Exceptions
are a `Failure` result. Entries appended before the exception stay in
`parsed`, as they do in Python.

Classifier patterns are read in the subset of Python regular expressions
that every shipped table stays within:

- `|` separates literal alternatives;
- a backslash makes the next character literal (`\(` in
  `importer/wechat.py:29-30`).

A pattern is found in a keyword when one of its alternatives is a substring
of it. As in `importer/alipay.py:60`, a key equal to the keyword also matches.

## Model

| member | source | states |
|---|---|---|
| Classifier.MappingAccount | importer/alipay.py:43-63 | the loop over the table, skipping `DEFAULT` and breaking at the first match, returns what `Classify` specifies: `MissingDefault` without a `DEFAULT` key, else the first hit's account or `DEFAULT`'s |
| Classifier.DefaultValue | importer/alipay.py:54-56 | `None` exactly when the table has no `DEFAULT` key; otherwise the account of a `DEFAULT` entry |
| Classifier.FirstHit | importer/alipay.py:57-62 | the index found is a hit and no earlier index from the start position is; `None` means no index is a hit |
| Classifier.ClassifyFailsIffNoDefault | importer/alipay.py:54-55 | classification raises exactly when `DEFAULT` is missing, whatever the keyword |
| Classifier.ClassifyGivesTableAccount | importer/alipay.py:56-63 | with `DEFAULT` present, the answer is always one of the table's accounts |
| Classifier.ClassifyFirstHitWins | importer/alipay.py:57-62 | a hit at `i` with no earlier hit decides the answer, whatever later entries say |
| Classifier.ClassifyFallsBackToDefault | importer/alipay.py:56-63 | with no hit anywhere the answer is `DEFAULT`'s account |
| Classifier.ClassifyIsFirstHitOrDefault | importer/alipay.py:54-63 | the answer is the first hit's account, or `DEFAULT`'s when nothing hits; nothing else |
| Classifier.ClassifyOrderDecides | importer/alipay.py:57-62 | two keys that both match a keyword give different answers depending on which comes first |
| Classifier.Classify | importer/alipay.py:54-63 | definition of `mapping_account`'s result: the `DEFAULT` check, then the first hit's account or `DEFAULT`'s; specified by ClassifyFailsIffNoDefault, ClassifyIsFirstHitOrDefault and ClassifyFirstHitWins |
| Classifier.Matches | importer/alipay.py:60 | definition of `re.search(key, keyword) or key == keyword` on the pattern subset; specified by PlainPatternHits, PlainPatternMisses and NoAlternativeOccurs |
| Classifier.ScanAlternatives | importer/alipay.py:60 | reading a pattern always yields at least one alternative |
| Classifier.AlternativesOfJoinPattern | importer/alipay.py:60 | a pattern written as escaped literals joined with `|` reads back as exactly those literals |
| Classifier.ScanEscaped | importer/alipay.py:60 | an escaped literal is read back as the literal |
| Classifier.AlternativesOfPlainJoin | importer/alipay.py:60 | plain literals joined with `|` read back as exactly those literals |
| Classifier.PlainPatternMisses | importer/alipay.py:60 | a pattern of plain literals misses a keyword holding none of their first characters |
| Classifier.PlainPatternHits | importer/alipay.py:60 | a pattern of plain literals matches a keyword containing one of them |
| Classifier.NoAlternativeOccurs | importer/alipay.py:60 | a pattern none of whose alternatives occurs in the keyword, and which differs from it, does not match |
| Text.StripChars | importer/wechat.py:108-109 | definition of `str.strip(chars)`; specified by StripCharsIsStrip and StripIsUnique |
| Text.Strip | importer/alipay.py:106-117 | definition of `str.strip()` with Python's whitespace set; specified by StripCharsIsStrip |
| Text.StripCharsIsStrip | importer/wechat.py:108-109 | `str.strip(chars)` gives a contiguous piece of its input; everything cut off at either end is in `chars`, and the piece neither starts nor ends with one |
| Text.StripIsUnique | importer/wechat.py:108-109 | that description pins the result down: two strips of the same string by the same set are equal |
| Text.ReplaceChar | importer/alipay.py:118 | the result has the input's length, holds no replaced character, and agrees with the input everywhere else |
| Calendar.IsLeapYear | importer/alipay.py:83 | definition of the Gregorian leap-year rule `datetime` applies; used by DaysInMonth |
| Calendar.DaysInMonth | importer/alipay.py:83 | definition of the month lengths `datetime` checks a day against; specified through ParseDashedDate and ParseCompactDate, which accept only valid dates |
| Calendar.Digits | importer/alipay.py:84-85 | strftime's zero padding: exactly `w` ASCII digits |
| Calendar.ValueOfDigits | importer/alipay.py:84-85 | a zero-padded rendering reads back as its number |
| Calendar.DigitsOfValue | importer/bank_cmb.py:72-73 | rendering a digit string's value in as many digits gives the string back |
| Calendar.Field | importer/alipay.py:83 | definition of one strptime numeric directive; specified by ParseFormattedDate, ParseFormattedTime and ParseUnpaddedTime |
| Calendar.ParseDashedDate | importer/alipay.py:83 | a parsed `%Y-%m-%d` date is a valid Gregorian date |
| Calendar.ParseClockTime | importer/bank_cmb.py:77 | a parsed `%H:%M:%S` time is a valid time of day |
| Calendar.ParseDatetime | importer/alipay.py:83 | a parsed `%Y-%m-%d %H:%M:%S` timestamp is a valid date and time |
| Calendar.ParseCompactDate | importer/bank_cmb.py:72 | a parsed `%Y%m%d` date is a valid Gregorian date |
| Calendar.FormatDate | importer/alipay.py:84 | strftime's `%Y-%m-%d` has the shape of an ISO 8601 extended calendar date |
| Calendar.FormatTime | importer/alipay.py:85 | strftime's `%H:%M:%S` has the shape of an ISO 8601 extended time of day |
| Calendar.ExpandDatetime | importer/alipay.py:82-86 | `_expand_datetime` succeeds exactly when the modelled subset of strptime (ASCII digits, one- or two-digit month, day and time fields) accepts the input; it gives an ISO date and an ISO time that parse back to the same date and time as the input |
| Calendar.ExpandDate | importer/bank_cmb.py:71-74 | `_expand_date` succeeds exactly when the modelled subset of strptime (eight ASCII digits) accepts the input; it gives the same eight digits with hyphens inserted, which parse back to the same date |
| Calendar.ExpandTime | importer/bank_cmb.py:76-79 | `_expand_time` succeeds exactly when the modelled subset of strptime (one- or two-digit ASCII fields) accepts the input; it gives an ISO time that parses back to the same time as the input |
| Calendar.ParseFormattedDate | importer/alipay.py:83-84 | parsing the rendering of a valid date gives the date back |
| Calendar.ParseFormattedTime | importer/alipay.py:83-85 | parsing the rendering of a valid time gives the time back |
| Calendar.ParseRenderedDatetime | importer/alipay.py:83-85 | a valid date and time written as `%Y-%m-%d %H:%M:%S` parse back as themselves |
| Calendar.ExpandDatetimeOfRendered | importer/alipay.py:82-86 | a rendered valid date and time round-trip through `_expand_datetime` |
| Calendar.ExpandDatetimeOfPadded | importer/alipay.py:82-86 | on a zero-padded timestamp, `_expand_datetime` is the split at the space |
| Calendar.ExpandDateOfRendered | importer/bank_cmb.py:71-74 | the eight digits of a valid date expand to its ISO rendering |
| Calendar.ExpandTimePads | importer/bank_cmb.py:76-79 | one-digit time fields are accepted and re-rendered zero-padded |
| Calendar.ParseUnpaddedTime | importer/bank_cmb.py:77 | strptime reads one-digit time fields as their values |
| Calendar.ExpandTimeOfPadded | importer/bank_cmb.py:76-79 | an accepted eight-character time comes back unchanged |
| Ledger.FlagFor | importer/alipay.py:154 | the flag is `!` exactly when a leg is `Assets:Unknown`, `*` otherwise |
| Ledger.Assemble | importer/alipay.py:146-154 | the legs fail to classify exactly when `DEFAULT` is missing; otherwise the entry is well formed (flag matches the unknown account, credit amount is `-` + debit amount, both legs are table accounts) and the debit amount is the amount |
| Ledger.IoDirection | importer/alipay.py:65-73 | `支出` is the credit direction, `收入` the debit direction, anything else raises with the row |
| Ledger.GetAmounts | importer/alipay.py:88-95 | both amounts are a sign and the amount without surrounding `¥`; the first is `-` for an expense, `+` for an income and `?` otherwise; the second is `+` for an expense, `-` for an income and `?` otherwise |
| Ledger.Walk | importer/alipay.py:98-157 | definition of the loop over `reversed(list(self.reader))`: skip, break, raise or append per row; specified by WalkConcat, WalkReversesRows, WalkSkipsRow, WalkIgnoresRowsAboveStop and WalkEntriesAreEmitted |
| Ledger.WalkStepBack | importer/alipay.py:98 | the walk over the first `i + 1` rows is row `i`'s step in front of the walk over the first `i` |
| Ledger.WalkAdvance | importer/alipay.py:98-155 | the loop invariant carried one row up: skip, emit, stop and raise each leave the outcome split as the loop expects |
| Ledger.WalkConcat | importer/alipay.py:98 | the walk over `a + b` is the walk over `b`, then, unless that one stopped or failed, the walk over `a` |
| Ledger.WalkIgnoresRowsAboveStop | importer/alipay.py:102-103 | nothing above a stopping row is read |
| Ledger.WalkEndsAtStop | importer/alipay.py:102-103 | a walk whose first row stops never runs out of rows |
| Ledger.WalkWithoutStop | importer/bank_cmb.py:89-94 | a walk over rows none of which stops never ends in `Stopped` |
| Ledger.WalkSkipsRow | importer/alipay.py:100-101 | a skipped row can be taken out wherever it stands |
| Ledger.WalkReversesRows | importer/alipay.py:98 | when every row yields an entry, the entries are the rows' in reverse file order |
| Ledger.WalkEntriesAreEmitted | importer/alipay.py:155 | every entry appended is one some row's step produced |
| Ledger.HeaderLine | importer/alipay.py:162 | definition of the template's first line, with the quoted payee only when there is one (absent in importer/bank_cmb.py:131); specified by BeanLines |
| Ledger.PostingLine | importer/alipay.py:163-164 | definition of a posting line of the template; specified by BeanLines |
| Ledger.Bean | importer/alipay.py:161-166 | definition of `template.format_map(p)`; specified by BeanLines |
| Ledger.ComposeBeans | importer/alipay.py:160-167 | one block per entry, in the entries' order |
| Ledger.BeanLines | importer/alipay.py:161-165 | a block reads back as exactly three lines: header, credit posting, debit posting |
| Ledger.ComposeBeansConcat | importer/alipay.py:166 | composing a concatenation gives the concatenated blocks |
| Alipay.Normalize | importer/alipay.py:106-118 | the normalised item holds no `"` |
| Alipay.IsDropped | importer/alipay.py:121-135 | definition of the neutral rows that are skipped; specified by SkipsDroppedRows and NeutralRow |
| Alipay.Counterparty | importer/alipay.py:147-149 | definition of the `type + payee + comment` keyword of the other party; specified by EntryOfRecord |
| Alipay.Narration | importer/alipay.py:143 | definition of the narration; specified by EntryOfRecord |
| Alipay.ParseRows | importer/alipay.py:97-156 | definition of what one `parse` call appends and how it ends, as the walk of RowStep over the rows; specified by ReverseFileOrder, StopsAtHeader, EntriesWellFormed and ParseAdvance |
| Alipay.RowStep | importer/alipay.py:98-137 | definition of one pass of the loop body; specified by RowEntry, NeutralRow, StopsAtHeader and SkipsBlankRows, and implemented by AlipayParser.HandleRow |
| Alipay.EntryStep | importer/alipay.py:139-154 | definition of building the dict `d`; specified by EntryOfRecord, and implemented by AlipayParser.BuildEntry |
| Alipay.Reclassify | importer/alipay.py:136-137 | only the income/expense column changes, and only a neutral successful refund becomes income |
| Alipay.EntryOfRecord | importer/alipay.py:139-153 | an entry has the ISO date and time of its timestamp, the payee, the narration; an expense puts the payer on the credit leg and type+payee+comment on the debit leg, an income the reverse; the amount is on the debit leg and negated on the credit leg |
| Alipay.RowEntry | importer/alipay.py:98-137 | a row yielding an entry is a full data row below the header, not a dropped neutral row, and its item holds no `"` |
| Alipay.NeutralRow | importer/alipay.py:121-145 | a neutral row is skipped when listed, handled as income when a successful refund, and otherwise raises the unknown income/expense error |
| Alipay.StopsAtHeader | importer/alipay.py:102-103 | the header row ends the walk: rows above it are never read |
| Alipay.SkipsBlankRows | importer/alipay.py:100-101 | blank rows change nothing, wherever they stand |
| Alipay.SkipsDroppedRows | importer/alipay.py:121-135 | a dropped neutral row changes nothing, wherever it stands |
| Alipay.ReverseFileOrder | importer/alipay.py:98 | entries come in reverse file order, one per row |
| Alipay.EntriesWellFormed | importer/alipay.py:139-155 | every parsed entry has an ISO date and time, a payee, and legs and flag that fit together |
| Alipay.ParseAdvance | importer/alipay.py:98-155 | the loop invariant of `parse` carried one row up the file |
| Alipay.AlipayParser.constructor | importer/alipay.py:78-80 | the reader's rows, nothing parsed yet, and the table to classify with |
| Alipay.AlipayParser.Parse | importer/alipay.py:97-157 | the reader is exhausted, `parsed` grows by exactly `ParseRows`' entries, and the result is `parsed` or the exception that ended the loop |
| Alipay.AlipayParser.HandleRow | importer/alipay.py:98-137 | one pass of the loop body up to the dict `d` is `RowStep` |
| Alipay.AlipayParser.BuildEntry | importer/alipay.py:139-155 | building the dict `d` is `EntryStep` |
| Wechat.CleanItem | importer/wechat.py:108 | the cleaned item holds no `"` |
| Wechat.Normalize | importer/wechat.py:97-109 | the normalised item holds no `"` |
| Wechat.Narration | importer/wechat.py:119 | definition of the narration; specified by EntryOfRecord |
| Wechat.ParseRows | importer/wechat.py:88-133 | definition of what one `parse` call appends and how it ends, as the walk of RowStep over the rows; specified by ReverseFileOrder, StopsAtHeader, EntriesWellFormed and ParseAdvance |
| Wechat.RowStep | importer/wechat.py:89-113 | definition of one pass of the loop body; specified by RowEntry, StopsAtHeader, SkipsBlankRows and SkipsPocketTransfers, and implemented by WechatParser.HandleRow |
| Wechat.EntryStep | importer/wechat.py:115-130 | definition of building the dict `d`; specified by EntryOfRecord, and implemented by WechatParser.BuildEntry |
| Wechat.CleanItemCutsNoteCharacters | importer/wechat.py:108 | the item is first cut to a strip of itself by the note characters, then its quotes are replaced |
| Wechat.AmountHasNoYenAtEnds | importer/wechat.py:109 | the amount is the stripped column with every `¥` at either end cut off |
| Wechat.EntryOfRecord | importer/wechat.py:115-130 | an entry has the ISO date and time and the payee; an expense classifies the payer and payee+item, an income type+payee+item and payer+status; the amount is on the debit leg and negated on the credit leg |
| Wechat.RowEntry | importer/wechat.py:89-113 | a row yielding an entry is a full data row below the header and not a change-pocket transfer |
| Wechat.StopsAtHeader | importer/wechat.py:93-94 | the header row ends the walk: rows above it are never read |
| Wechat.SkipsBlankRows | importer/wechat.py:91-92 | blank rows change nothing, wherever they stand |
| Wechat.SkipsPocketTransfers | importer/wechat.py:112-113 | a transfer into the change pocket changes nothing, wherever it stands |
| Wechat.ReverseFileOrder | importer/wechat.py:89 | entries come in reverse file order, one per row |
| Wechat.EntriesWellFormed | importer/wechat.py:115-131 | every parsed entry has an ISO date and time, a payee, and legs and flag that fit together |
| Wechat.ParseAdvance | importer/wechat.py:89-131 | the loop invariant of `parse` carried one row up the file |
| Wechat.RentPattern | importer/wechat.py:16 | the rent key is its two literals joined by `|` |
| Wechat.TransportPattern | importer/wechat.py:17 | the transport key is its thirteen literals joined by `|` |
| Wechat.DonationPattern | importer/wechat.py:18 | the donation key is its four literals joined by `|` |
| Wechat.FoodPattern | importer/wechat.py:19 | the food key is its six literals joined by `|` |
| Wechat.GiftPattern | importer/wechat.py:20 | the gift-money key is its four literals joined by `|` |
| Wechat.RefundSkipsRent | importer/wechat.py:16 | the refund keyword does not hit the rent entry |
| Wechat.RefundSkipsTransport | importer/wechat.py:17 | the refund keyword does not hit the transport entry |
| Wechat.RefundMissesTransport | importer/wechat.py:17 | the transport pattern does not match the refund keyword |
| Wechat.RefundSkipsDonation | importer/wechat.py:18 | the refund keyword does not hit the donation entry |
| Wechat.RefundMissesDonation | importer/wechat.py:18 | the donation pattern does not match the refund keyword |
| Wechat.RefundSkipsFood | importer/wechat.py:19 | the refund keyword does not hit the food entry |
| Wechat.RefundMissesFood | importer/wechat.py:19 | the food pattern does not match the refund keyword |
| Wechat.RefundHitsGift | importer/wechat.py:20 | the refund keyword hits the gift-money expense entry |
| Wechat.RefundMatchesGift | importer/wechat.py:20 | the gift-money pattern matches the refund keyword |
| Wechat.RefundMatchesRedPacket | importer/wechat.py:27 | the later received-red-packet entry matches the refund keyword too |
| Wechat.RefundIsGiftMoney | importer/wechat.py:13-32 | with the shipped table, `微信红包-退款` is booked to `Expenses:Relationship:GiftMoney` |
| Wechat.RefundOrderDecides | importer/wechat.py:20-27 | with the two entries swapped the same keyword would be booked to `Income:Relationship:GiftMoney` |
| Wechat.WechatParser.constructor | importer/wechat.py:69-71 | the reader's rows, nothing parsed yet, and the table to classify with |
| Wechat.WechatParser.Parse | importer/wechat.py:88-133 | the reader is exhausted, `parsed` grows by exactly `ParseRows`' entries, and the result is `parsed` or the exception that ended the loop |
| Wechat.WechatParser.HandleRow | importer/wechat.py:89-113 | one pass of the loop body up to the dict `d` is `RowStep` |
| Wechat.WechatParser.BuildEntry | importer/wechat.py:115-131 | building the dict `d` is `EntryStep` |
| BankCmb.Normalize | importer/bank_cmb.py:97-103 | definition of the column reads into `c`; specified by EntryOfRecord and RowEntry |
| BankCmb.GetDrcrStatus | importer/bank_cmb.py:56-62 | credit exactly when the expense column is non-empty; the amount is the column that decided |
| BankCmb.GetAmounts | importer/bank_cmb.py:81-86 | both amounts are a sign and the amount with `-` stripped from both ends; the signs differ and the first is negative exactly when the amount starts with `-` |
| BankCmb.GetAmountsMagnitude | importer/bank_cmb.py:82 | the shared magnitude is a strip of the amount by `-` |
| BankCmb.Narration | importer/bank_cmb.py:113 | definition of the narration, with the raw time; specified by EntryOfRecord |
| BankCmb.ParseRows | importer/bank_cmb.py:88-123 | definition of what one `parse` call appends and how it ends, as the walk of RowStep over the rows; specified by ReverseFileOrder, SkipsMarkedRows, NeverStops, EntriesWellFormed and ParseAdvance |
| BankCmb.RowStep | importer/bank_cmb.py:89-107 | definition of one pass of the loop body; specified by RowEntry, SkipsMarkedRows and NeverStops, and implemented by CmbDebitCardParser.HandleRow |
| BankCmb.EntryStep | importer/bank_cmb.py:109-123 | definition of building the dict `d`; specified by EntryOfRecord and ShippedEntryFlag, and implemented by CmbDebitCardParser.BuildEntry |
| BankCmb.EntryOfRecord | importer/bank_cmb.py:109-123 | an entry has the ISO date and time, no payee, the raw time in the narration; an expense credits `CMB`'s account and debits the comment's with the expense amount, an income the reverse with the income amount |
| BankCmb.RowEntry | importer/bank_cmb.py:89-107 | a row yielding an entry is a full row that is not a comment, header or sweep-account row |
| BankCmb.SkipsMarkedRows | importer/bank_cmb.py:89-107 | blank, comment, header and sweep-account rows change nothing, wherever they stand: rows on both sides of a header are read |
| BankCmb.NeverStops | importer/bank_cmb.py:89-94 | the bank parser never stops early |
| BankCmb.ReverseFileOrder | importer/bank_cmb.py:89 | entries come in reverse file order, one per row |
| BankCmb.EntriesWellFormed | importer/bank_cmb.py:109-124 | every parsed entry has an ISO date and time, no payee, and legs and flag that fit together |
| BankCmb.ParseAdvance | importer/bank_cmb.py:89-124 | the loop invariant of `parse` carried one row up the file |
| BankCmb.RentPattern | importer/bank_cmb.py:13 | the rent key is its two literals joined by `|` |
| BankCmb.OwnKeywordSkipsRent | importer/bank_cmb.py:13 | `CMB` does not hit the rent entry |
| BankCmb.OwnKeywordSkipsOctopus | importer/bank_cmb.py:14 | `CMB` does not hit the transport entry |
| BankCmb.OwnKeywordHitsCmb | importer/bank_cmb.py:16 | `CMB` hits its own entry |
| BankCmb.OwnKeywordIsCardAccount | importer/bank_cmb.py:10-32 | with the shipped table, `CMB` is booked to `Assets:Cash:CMBC-5189:Cash` |
| BankCmb.ShippedEntryFlag | importer/bank_cmb.py:115-123 | with the shipped table, the card's leg is the CMB cash account and the entry needs review exactly when the comment falls back to `Assets:Unknown` |
| BankCmb.CmbDebitCardParser.constructor | importer/bank_cmb.py:67-69 | the reader's rows, nothing parsed yet, and the table to classify with |
| BankCmb.CmbDebitCardParser.Parse | importer/bank_cmb.py:88-126 | the reader is exhausted, `parsed` grows by exactly `ParseRows`' entries, and the result is `parsed` or the exception that ended the loop |
| BankCmb.CmbDebitCardParser.HandleRow | importer/bank_cmb.py:89-107 | one pass of the loop body up to the dict `d` is `RowStep` |
| BankCmb.CmbDebitCardParser.BuildEntry | importer/bank_cmb.py:109-124 | building the dict `d` is `EntryStep` |

## Left out

- `importer/price_gen.py` is not part of this model. It fetches market data over the network and formats floating-point prices.
- `main`, the command-line handling, `print_beans` and `write_beans` are file and console I/O. They are not modelled.
- CSV tokenising is not modelled. The parsers take the rows the reader would yield, as a sequence of sequences of strings.
- The account table is a constructor argument of each parser class rather than a module-level global. The shipped table is each module's `AccountMap` constant.
- `default_pass` is not modelled, because it has no effect in any of the three `parse` methods.
- The fields read but never used (Alipay's `payee_id`, `t_id` and `m_id`; WeChat's `t_id`, `m_id` and `comment`; the bank's `balance`) influence nothing. They are kept only where a column is read.
- Classifier.Matches: only literal alternatives separated by `|` and backslash escapes are read. Every shipped key stays within that subset. Other regular-expression syntax (`.`, `*`, classes, groups) is read literally, and a lone trailing backslash, which Python's `re` would reject, is read as a literal backslash.
- Calendar.ParseDatetime: strptime's leniency about whitespace is not modelled. A single space must separate date and time, where Python's `%Y-%m-%d %H:%M:%S` also accepts any run of whitespace.
- Calendar.ExpandDatetime: strptime's day pattern also accepts a space followed by one digit (`2024-01- 5`), and its `\d` also matches non-ASCII decimal digits (full-width `２０２４`). The model rejects both, so it returns `None` where Python succeeds on such inputs.
- Calendar.ExpandDate: the same two leniencies are rejected: the space-digit day (`202401 5`, eight characters) and non-ASCII decimal digits.
- Calendar.ExpandTime: non-ASCII decimal digits in the time fields are rejected, where strptime accepts them.
- Classifier.DefaultValue: on a table with a repeated key, the model takes the first entry's account, where a Python dict literal keeps the last value at the first key's position. Classifier.FirstHit has the same limit. The three shipped tables have no repeated key.
- Calendar.ParseCompactDate: only eight-character inputs are accepted. The shorter forms that strptime also reads (`%Y%m%d` on six or seven digits) are treated as errors.
- Calendar.FormatDate: years are always written with four digits. Python renders years below 1000 as platform-dependent.
