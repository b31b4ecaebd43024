/**
 * The exchange-rate query URL: a fixed service prefix carrying the invoice date and
 * base currency, followed by the line-item currency codes separated by commas.
 */
module Query {

  /** Root of the exchange-rate service. */
  const BaseUrl: string := "https://api.exchangeratesapi.io"

  /** The part of the query before the currency list; it ends in `symbols=`. */
  function Prefix(date: string, baseCurrency: string): string
  {
    BaseUrl + "/" + date + "?base=" + baseCurrency + "&symbols="
  }

  /** Reference definition of the currency list: the parts separated by single commas. */
  function Join(parts: seq<string>): string
  {
    if |parts| == 0 then ""
    else if |parts| == 1 then parts[0]
    else parts[0] + "," + Join(parts[1..])
  }

  /**
   * The query builder's loop as written: visiting the codes from index `i` on, it appends
   * each code to `acc`, followed by a comma unless the code is the last one.
   */
  function AppendSymbols(acc: string, symbols: seq<string>, i: nat): string
    requires i <= |symbols|
    decreases |symbols| - i
  {
    if i == |symbols| then acc
    else AppendSymbols(acc + symbols[i] + (if i == |symbols| - 1 then "" else ","), symbols, i + 1)
  }

  /** The loop produces exactly the comma-joined list of the codes it visits. */
  lemma {:induction false} AppendSymbolsJoins(acc: string, symbols: seq<string>, i: nat)
    requires i <= |symbols|
    ensures AppendSymbols(acc, symbols, i) == acc + Join(symbols[i..])
    decreases |symbols| - i
  {
    if i < |symbols| {
      var sep := if i == |symbols| - 1 then "" else ",";
      AppendSymbolsJoins(acc + symbols[i] + sep, symbols, i + 1);
      if i == |symbols| - 1 {
        assert symbols[i..] == [symbols[i]];
        assert symbols[i + 1..] == [];
      } else {
        assert symbols[i..][1..] == symbols[i + 1..];
      }
    }
  }

  /** No part contains a comma, so the joined list can be split apart again. */
  ghost predicate CommaFree(parts: seq<string>)
  {
    forall k :: 0 <= k < |parts| ==> ',' !in parts[k]
  }

  /** Index of the first comma in `s`. */
  function FirstComma(s: string): (i: nat)
    requires ',' in s
    ensures i < |s| && s[i] == ','
    ensures ',' !in s[..i]
  {
    if s[0] == ',' then 0
    else
      var j := FirstComma(s[1..]);
      assert s[..j + 1] == [s[0]] + s[1..][..j];
      j + 1
  }

  /** Splits `s` at every comma, as `String.prototype.split(',')` does; the empty string gives `[""]`. */
  function Split(s: string): (parts: seq<string>)
    ensures |parts| >= 1
    decreases |s|
  {
    if ',' !in s then [s]
    else
      var i := FirstComma(s);
      [s[..i]] + Split(s[i + 1..])
  }

  /** A comma with no comma before it is the first comma. */
  lemma FirstCommaIsUnique(s: string, j: nat)
    requires j < |s| && s[j] == ','
    requires forall k :: 0 <= k < j ==> s[k] != ','
    ensures ',' in s && FirstComma(s) == j
  {
    assert s[j] in s;
    var i := FirstComma(s);
    forall k | 0 <= k < i
      ensures s[k] != ','
    {
      assert s[k] == s[..i][k];
    }
  }

  /** Splitting a comma-free head, a comma and a tail gives the head followed by the tail's parts. */
  lemma SplitCons(head: string, tail: string)
    requires ',' !in head
    ensures Split(head + "," + tail) == [head] + Split(tail)
  {
    var s := head + "," + tail;
    forall k | 0 <= k < |head|
      ensures s[k] != ','
    {
      assert s[k] == head[k];
    }
    FirstCommaIsUnique(s, |head|);
    assert s[..|head|] == head;
    assert s[|head| + 1..] == tail;
  }

  /** Splitting a non-empty comma-joined list of comma-free codes gives back the codes, in order. */
  lemma {:induction false} SplitJoin(parts: seq<string>)
    requires |parts| >= 1
    requires CommaFree(parts)
    ensures Split(Join(parts)) == parts
  {
    if |parts| == 1 {
      assert ',' !in parts[0];
    } else {
      assert ',' !in parts[0];
      SplitCons(parts[0], Join(parts[1..]));
      assert CommaFree(parts[1..]) by {
        forall k | 0 <= k < |parts[1..]|
          ensures ',' !in parts[1..][k]
        {
          assert parts[1..][k] == parts[k + 1];
        }
      }
      SplitJoin(parts[1..]);
      assert parts == [parts[0]] + parts[1..];
    }
  }
}
