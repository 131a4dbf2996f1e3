/**
 * `mapping_account`, the account classifier the three importers share (the
 * function is the same text in all three files): an insertion-ordered table
 * of (pattern, account) pairs searched top to bottom, first match wins, with
 * the reserved key `DEFAULT` giving the fallback account.
 *
 * Patterns are read in the subset of Python regular expressions that every
 * shipped table stays within: `|` separates literal alternatives and a
 * backslash makes the next character literal (as in `\(`). A pattern is
 * found in a keyword when one of its alternatives is a substring of it.
 */
module Classifier {
  import opened Wrappers
  import opened Text

  /** A Python dict literal in its insertion order. */
  type AccountMap = seq<(string, string)>

  const DefaultKey: string := "DEFAULT"

  /** The `KeyError` raised when the table has no `DEFAULT` entry. */
  datatype ClassifyError = MissingDefault

  /**
   * Reads the rest of a pattern, `cur` being the alternative read so far:
   * `|` closes an alternative and `\x` stands for the character `x`.
   */
  function ScanAlternatives(key: string, cur: string): (alts: seq<string>)
    ensures |alts| >= 1
    decreases |key|
  {
    if key == [] then [cur]
    else if key[0] == '|' then [cur] + ScanAlternatives(key[1..], [])
    else if key[0] == '\\' && |key| >= 2 then ScanAlternatives(key[2..], cur + [key[1]])
    else ScanAlternatives(key[1..], cur + [key[0]])
  }

  /** The literal alternatives a pattern stands for. */
  function Alternatives(key: string): seq<string>
  {
    ScanAlternatives(key, [])
  }

  /** `re.search(key, keyword) or key == keyword`. */
  predicate Matches(key: string, keyword: string)
  {
    var alts := Alternatives(key);
    (exists k :: 0 <= k < |alts| && IsSubstring(alts[k], keyword)) || key == keyword
  }

  /** Entry `i` is a non-DEFAULT entry whose pattern is found in the keyword. */
  predicate Hit(table: AccountMap, keyword: string, i: int)
    requires 0 <= i < |table|
  {
    table[i].0 != DefaultKey && Matches(table[i].0, keyword)
  }

  predicate HasDefault(table: AccountMap)
  {
    exists i :: 0 <= i < |table| && table[i].0 == DefaultKey
  }

  /** `account_map["DEFAULT"]`; a dict has one entry per key, so this is the first `DEFAULT` entry. */
  function DefaultValue(table: AccountMap): (r: Option<string>)
    ensures r.None? <==> !HasDefault(table)
    ensures r.Some? ==> exists i :: 0 <= i < |table| && table[i].0 == DefaultKey && table[i].1 == r.value
  {
    if table == [] then None
    else if table[0].0 == DefaultKey then Some(table[0].1)
    else
      var r := DefaultValue(table[1..]);
      assert HasDefault(table) ==> HasDefault(table[1..]) by {
        if HasDefault(table) {
          var i :| 0 <= i < |table| && table[i].0 == DefaultKey;
          assert table[1..][i - 1].0 == DefaultKey;
        }
      }
      assert r.Some? ==> exists i :: 0 <= i < |table| && table[i].0 == DefaultKey && table[i].1 == r.value by {
        if r.Some? {
          var i :| 0 <= i < |table[1..]| && table[1..][i].0 == DefaultKey && table[1..][i].1 == r.value;
          assert table[i + 1].0 == DefaultKey && table[i + 1].1 == r.value;
        }
      }
      r
  }

  /** Index of the first hit at position `from` or later, scanning in table order. */
  function FirstHit(table: AccountMap, keyword: string, from: nat): (r: Option<nat>)
    requires from <= |table|
    ensures r.Some? ==> from <= r.value < |table| && Hit(table, keyword, r.value)
    ensures r.Some? ==> forall j :: from <= j < r.value ==> !Hit(table, keyword, j)
    ensures r.None? ==> forall j :: from <= j < |table| ==> !Hit(table, keyword, j)
    decreases |table| - from
  {
    if from == |table| then None
    else if Hit(table, keyword, from) then Some(from)
    else FirstHit(table, keyword, from + 1)
  }

  /** What `mapping_account(table, keyword)` returns, or the `KeyError` it raises. */
  function Classify(table: AccountMap, keyword: string): Result<string, ClassifyError>
  {
    match DefaultValue(table)
    case None => Failure(MissingDefault)
    case Some(fallback) =>
      match FirstHit(table, keyword, 0)
      case Some(i) => Success(table[i].1)
      case None => Success(fallback)
  }

  /**
   * `mapping_account`: check for `DEFAULT`, start from its value, then walk
   * the keys in order, skipping `DEFAULT`, and stop at the first match.
   */
  method MappingAccount(table: AccountMap, keyword: string) returns (r: Result<string, ClassifyError>)
    ensures r == Classify(table, keyword)
  {
    var fallback := DefaultValue(table);
    if fallback.None? {
      return Failure(MissingDefault);
    }
    var accountName := fallback.value;
    var i := 0;
    while i < |table|
      invariant 0 <= i <= |table|
      invariant FirstHit(table, keyword, i) == FirstHit(table, keyword, 0)
    {
      var (key, account) := table[i];
      if key == DefaultKey {
        i := i + 1;
        continue;
      }
      if Matches(key, keyword) {
        accountName := account;
        break;
      }
      i := i + 1;
    }
    return Success(accountName);
  }

  /** The classifier fails exactly when the table has no `DEFAULT` key, whatever the keyword. */
  lemma ClassifyFailsIffNoDefault(table: AccountMap, keyword: string)
    ensures Classify(table, keyword).Failure? <==> !HasDefault(table)
  {
  }

  /** With a `DEFAULT` key, the answer is always one of the table's accounts. */
  lemma ClassifyGivesTableAccount(table: AccountMap, keyword: string)
    requires HasDefault(table)
    ensures Classify(table, keyword).Success?
    ensures exists i :: 0 <= i < |table| && table[i].1 == Classify(table, keyword).value
  {
    match FirstHit(table, keyword, 0)
    case Some(i) =>
    case None =>
  }

  /**
   * First match wins: when entry `i` is a hit and no earlier entry is, the
   * answer is entry `i`'s account, whatever the later entries say.
   */
  lemma {:induction false} ClassifyFirstHitWins(table: AccountMap, keyword: string, i: nat)
    requires HasDefault(table)
    requires i < |table| && Hit(table, keyword, i)
    requires forall j :: 0 <= j < i ==> !Hit(table, keyword, j)
    ensures Classify(table, keyword) == Success(table[i].1)
  {
    var r := FirstHit(table, keyword, 0);
    assert r.Some? && r.value == i;
  }

  /** When no non-DEFAULT key matches, the answer is `DEFAULT`'s account. */
  lemma ClassifyFallsBackToDefault(table: AccountMap, keyword: string)
    requires HasDefault(table)
    requires forall j :: 0 <= j < |table| ==> !Hit(table, keyword, j)
    ensures Classify(table, keyword) == Success(DefaultValue(table).value)
  {
  }

  /**
   * The answer is either the account of the first hit, or `DEFAULT`'s
   * account when there is no hit at all; nothing else.
   */
  lemma {:induction false} ClassifyIsFirstHitOrDefault(table: AccountMap, keyword: string)
    requires HasDefault(table)
    ensures var r := Classify(table, keyword).value;
      (exists i :: 0 <= i < |table| && Hit(table, keyword, i)
         && (forall j :: 0 <= j < i ==> !Hit(table, keyword, j)) && r == table[i].1)
      || ((forall j :: 0 <= j < |table| ==> !Hit(table, keyword, j)) && r == DefaultValue(table).value)
  {
    match FirstHit(table, keyword, 0)
    case Some(i) =>
      assert Hit(table, keyword, i) && (forall j :: 0 <= j < i ==> !Hit(table, keyword, j));
    case None =>
  }

  /**
   * Order decides: two keys that both match a keyword give different
   * answers depending on which one comes first.
   */
  lemma {:induction false} ClassifyOrderDecides(keyword: string, a: string, va: string, b: string, vb: string, fallback: string)
    requires a != DefaultKey && b != DefaultKey
    requires Matches(a, keyword) && Matches(b, keyword)
    ensures Classify([(DefaultKey, fallback), (a, va), (b, vb)], keyword) == Success(va)
    ensures Classify([(DefaultKey, fallback), (b, vb), (a, va)], keyword) == Success(vb)
  {
    var t1 := [(DefaultKey, fallback), (a, va), (b, vb)];
    var t2 := [(DefaultKey, fallback), (b, vb), (a, va)];
    assert t1[0].0 == DefaultKey && t2[0].0 == DefaultKey;
    ClassifyFirstHitWins(t1, keyword, 1);
    ClassifyFirstHitWins(t2, keyword, 2 - 1);
  }

  /** A pattern written with `|` between alternatives and `\` before each `|` and `\` inside them. */
  function Escape(s: string): (r: string)
  {
    if s == [] then []
    else (if s[0] == '|' || s[0] == '\\' then ['\\', s[0]] else [s[0]]) + Escape(s[1..])
  }

  function JoinPattern(alts: seq<string>): string
    requires |alts| >= 1
  {
    if |alts| == 1 then Escape(alts[0]) else Escape(alts[0]) + "|" + JoinPattern(alts[1..])
  }

  lemma {:induction false} ScanEscaped(a: string, rest: string, cur: string)
    ensures ScanAlternatives(Escape(a) + rest, cur) == ScanAlternatives(rest, cur + a)
    decreases |a|
  {
    if a == [] {
      assert Escape(a) + rest == rest;
      assert cur + a == cur;
    } else {
      ScanEscapedHead(a, rest, cur);
      ScanEscaped(a[1..], rest, cur + [a[0]]);
      assert cur + [a[0]] + a[1..] == cur + a;
    }
  }

  /** Reading the escaped first character of `a` adds it to the alternative being read. */
  lemma ScanEscapedHead(a: string, rest: string, cur: string)
    requires a != []
    ensures ScanAlternatives(Escape(a) + rest, cur) == ScanAlternatives(Escape(a[1..]) + rest, cur + [a[0]])
  {
    var tail := Escape(a[1..]) + rest;
    if a[0] == '|' || a[0] == '\\' {
      assert Escape(a) + rest == ['\\', a[0]] + tail;
      ScanEscapedChar(a[0], tail, cur);
    } else {
      assert Escape(a) + rest == [a[0]] + tail;
      ScanLiteralChar(a[0], tail, cur);
    }
  }

  /** `\x` adds `x` to the alternative being read. */
  lemma ScanEscapedChar(c: char, tail: string, cur: string)
    ensures ScanAlternatives(['\\', c] + tail, cur) == ScanAlternatives(tail, cur + [c])
  {
    assert (['\\', c] + tail)[2..] == tail;
  }

  /** A character other than `|` and `\` adds itself to the alternative being read. */
  lemma ScanLiteralChar(c: char, tail: string, cur: string)
    requires c != '|' && c != '\\'
    ensures ScanAlternatives([c] + tail, cur) == ScanAlternatives(tail, cur + [c])
  {
    assert ([c] + tail)[1..] == tail;
  }

  /** Reading a joined pattern gives back the alternatives it was written from. */
  lemma {:induction false} AlternativesOfJoinPattern(alts: seq<string>)
    requires |alts| >= 1
    ensures Alternatives(JoinPattern(alts)) == alts
    decreases |alts|
  {
    if |alts| == 1 {
      ScanEscaped(alts[0], [], []);
      assert Escape(alts[0]) + [] == Escape(alts[0]);
      assert [] + alts[0] == alts[0];
    } else {
      var rest := JoinPattern(alts[1..]);
      ScanEscaped(alts[0], "|" + rest, []);
      assert Escape(alts[0]) + "|" + rest == Escape(alts[0]) + ("|" + rest);
      assert [] + alts[0] == alts[0];
      var k := "|" + rest;
      assert k[0] == '|' && k[1..] == rest;
      assert ScanAlternatives(k, alts[0]) == [alts[0]] + ScanAlternatives(rest, []);
      AlternativesOfJoinPattern(alts[1..]);
    }
  }

  /** A pattern without `|` or `\` is the single literal it spells. */
  predicate IsPlain(s: string)
  {
    '|' !in s && '\\' !in s
  }

  lemma {:induction false} ScanPlain(a: string, rest: string, cur: string)
    requires IsPlain(a)
    ensures ScanAlternatives(a + rest, cur) == ScanAlternatives(rest, cur + a)
    decreases |a|
  {
    if a == [] {
      assert a + rest == rest;
      assert cur + a == cur;
    } else {
      assert (a + rest)[1..] == a[1..] + rest;
      ScanPlain(a[1..], rest, cur + [a[0]]);
      assert cur + [a[0]] + a[1..] == cur + a;
    }
  }

  /** A plain literal followed by `|` is read as one alternative. */
  lemma ScanPlainAlternative(a: string, rest: string)
    requires IsPlain(a)
    ensures ScanAlternatives(a + "|" + rest, []) == [a] + ScanAlternatives(rest, [])
  {
    assert a + "|" + rest == a + ("|" + rest);
    ScanPlain(a, "|" + rest, []);
    assert [] + a == a;
    var k := "|" + rest;
    assert k[0] == '|' && k[1..] == rest;
    assert ScanAlternatives(k, a) == [a] + ScanAlternatives(rest, []);
  }

  /** A plain pattern is the one literal it spells. */
  lemma ScanPlainLast(a: string)
    requires IsPlain(a)
    ensures ScanAlternatives(a, []) == [a]
  {
    ScanPlain(a, [], []);
    assert a + [] == a;
    assert [] + a == a;
  }

  /** A pattern written as plain literals joined with `|` stands for exactly those literals. */
  lemma {:induction false} AlternativesOfPlainJoin(parts: seq<string>)
    requires |parts| >= 1
    requires forall k :: 0 <= k < |parts| ==> IsPlain(parts[k])
    ensures Alternatives(Join(parts, '|')) == parts
    decreases |parts|
  {
    if |parts| == 1 {
      ScanPlainLast(parts[0]);
    } else {
      var rest := Join(parts[1..], '|');
      assert Join(parts, '|') == parts[0] + "|" + rest;
      ScanPlainAlternative(parts[0], rest);
      AlternativesOfPlainJoin(parts[1..]);
    }
  }

  /**
   * A pattern of plain literals misses a keyword that holds the first
   * character of none of them.
   */
  lemma PlainPatternMisses(parts: seq<string>, keyword: string)
    requires |parts| >= 1
    requires forall k :: 0 <= k < |parts| ==> IsPlain(parts[k]) && parts[k] != [] && parts[k][0] !in keyword
    ensures !Matches(Join(parts, '|'), keyword)
  {
    var key := Join(parts, '|');
    AlternativesOfPlainJoin(parts);
    JoinStartsWithFirst(parts, '|');
    assert key[0] == parts[0][0];
    NoAlternativeOccurs(key, keyword);
  }

  /** A pattern of plain literals matches a keyword in which one of them occurs. */
  lemma PlainPatternHits(parts: seq<string>, k: nat, keyword: string)
    requires |parts| >= 1
    requires forall j :: 0 <= j < |parts| ==> IsPlain(parts[j])
    requires k < |parts| && IsSubstring(parts[k], keyword)
    ensures Matches(Join(parts, '|'), keyword)
  {
    AlternativesOfPlainJoin(parts);
  }

  /** A pattern none of whose alternatives occurs in the keyword and that differs from it does not match. */
  lemma NoAlternativeOccurs(key: string, keyword: string)
    requires key != keyword
    requires forall k :: 0 <= k < |Alternatives(key)| ==> Alternatives(key)[k] != [] && Alternatives(key)[k][0] !in keyword
    ensures !Matches(key, keyword)
  {
    var alts := Alternatives(key);
    forall k | 0 <= k < |alts| ensures !IsSubstring(alts[k], keyword) {
      AbsentFirstChar(alts[k], keyword);
    }
  }
}
