/**
 * Real-time quote lookup of server/model/current_query.py with the tables
 * of server/model/constants.py: a stock id is prefixed with its market by
 * the first matching entry of an ordered prefix table, the quote service's
 * '~'-separated record is split, and fixed positions of it are written into
 * the caller's stock_info dictionary.
 */
module StockQuote {
  import opened Wrappers

  // ---------------------------------------------------------------------
  // constants.py
  // ---------------------------------------------------------------------

  const BasicQueryUrl: string := "http://qt.gtimg.cn/q=%s"
  const FlowQueryUrl: string := "http://qt.gtimg.cn/q=ff_%s"

  /** (prefix, market) pairs, tried in this order. */
  const StockCodeCategories: seq<(string, string)> :=
    [("000001", "sh"), ("39900", "sz"), ("600", "sh"), ("00", "sz"), ("300", "sz")]

  /** Ids that denote market indices rather than single stocks. */
  const StockIndexCodes: seq<string> := ["000001", "399001", "399006"]

  predicate HasPrefix(s: string, prefix: string) { |prefix| <= |s| && s[..|prefix|] == prefix }

  /** A "%s" placeholder starts at position k. */
  predicate PlaceholderAt(t: string, k: int) {
    0 <= k && k + 1 < |t| && t[k] == '%' && t[k + 1] == 's'
  }

  /** Number of placeholders starting at position k or later. */
  function PlaceholdersFrom(t: string, k: nat): nat
    requires k <= |t|
    decreases |t| - k
  {
    if k == |t| then 0 else (if PlaceholderAt(t, k) then 1 else 0) + PlaceholdersFrom(t, k + 1)
  }

  function PlaceholderCount(t: string): nat { PlaceholdersFrom(t, 0) }

  /** Position of the first placeholder at k or later. */
  function FirstPlaceholder(t: string, k: nat): (r: Option<nat>)
    requires k <= |t|
    decreases |t| - k
    ensures r.Some? ==> k <= r.value && PlaceholderAt(t, r.value)
    ensures r.Some? ==> forall j :: k <= j < r.value ==> !PlaceholderAt(t, j)
    ensures r.None? ==> forall j :: k <= j < |t| ==> !PlaceholderAt(t, j)
  {
    if k == |t| then None else if PlaceholderAt(t, k) then Some(k) else FirstPlaceholder(t, k + 1)
  }

  /** Before the first placeholder at j or later the count does not change. */
  lemma {:induction false} CountUpTo(t: string, j: nat, k: nat)
    requires j <= k <= |t|
    requires forall i :: j <= i < k ==> !PlaceholderAt(t, i)
    ensures PlaceholdersFrom(t, j) == PlaceholdersFrom(t, k)
    decreases k - j
  {
    if j < k {
      CountUpTo(t, j + 1, k);
    }
  }

  /**
   * template % arg with a single string argument: the argument takes the
   * place of the only "%s". A template without a placeholder raises "not
   * all arguments converted" and one with two or more "not enough
   * arguments"; both are TypeErrors, here None.
   */
  function Format(template: string, arg: string): (r: Option<string>)
    ensures r.Some? <==> PlaceholderCount(template) == 1
  {
    match FirstPlaceholder(template, 0)
    case None =>
      CountUpTo(template, 0, |template|);
      None
    case Some(k) =>
      CountUpTo(template, 0, k);
      assert !PlaceholderAt(template, k + 1);
      if PlaceholdersFrom(template, k + 2) == 0 then Some(template[..k] + arg + template[k + 2..]) else None
  }

  /** Templates with no placeholder or with two raise instead of formatting. */
  lemma FormatRejectsOtherCounts(arg: string)
    ensures Format("q=", arg).None?
    ensures Format("%s%s", arg).None?
  {
    assert !PlaceholderAt("q=", 0) && !PlaceholderAt("q=", 1);
    assert PlaceholderAt("%s%s", 0) && PlaceholderAt("%s%s", 2);
    assert PlaceholdersFrom("%s%s", 2) == 1;
  }

  /** The part of both query URLs before the code. */
  const QueryHost: string := "http://qt.gtimg.cn/q="

  /** A template made of a '%'-free head, one "%s" and a '%'-free tail has one placeholder, right after the head. */
  lemma {:induction false} SinglePlaceholder(head: string, tail: string, k: nat)
    requires '%' !in head && '%' !in tail
    requires k <= |head|
    ensures PlaceholdersFrom(head + "%s" + tail, k) == 1
    ensures FirstPlaceholder(head + "%s" + tail, k) == Some(|head|)
    decreases |head| - k
  {
    var t := head + "%s" + tail;
    if k < |head| {
      assert t[k] == head[k];
      assert !PlaceholderAt(t, k);
      SinglePlaceholder(head, tail, k + 1);
    } else {
      assert PlaceholderAt(t, k);
      assert t[k + 1] == 's';
      NoPlaceholderInTail(head, tail, k + 1);
    }
  }

  lemma {:induction false} NoPlaceholderInTail(head: string, tail: string, k: nat)
    requires '%' !in tail
    requires |head| + 1 <= k <= |head| + 2 + |tail|
    ensures PlaceholdersFrom(head + "%s" + tail, k) == 0
    decreases |head| + 2 + |tail| - k
  {
    var t := head + "%s" + tail;
    if k < |t| {
      assert t[k] == 's' || t[k] == tail[k - |head| - 2];
      assert !PlaceholderAt(t, k);
      NoPlaceholderInTail(head, tail, k + 1);
    }
  }

  /** Formatting a template with a single placeholder puts the argument in its place. */
  lemma FormatSingle(head: string, tail: string, arg: string)
    requires '%' !in head && '%' !in tail
    ensures PlaceholderCount(head + "%s" + tail) == 1
    ensures Format(head + "%s" + tail, arg) == Some(head + arg + tail)
  {
    var t := head + "%s" + tail;
    SinglePlaceholder(head, tail, 0);
    assert t[..|head|] == head;
    assert t[|head| + 2..] == tail;
  }

  /** The basic query URL has exactly one placeholder, and formatting it appends the code to the host. */
  lemma BasicUrlTemplate(code: string)
    ensures PlaceholderCount(BasicQueryUrl) == 1
    ensures Format(BasicQueryUrl, code) == Some(QueryHost + code)
  {
    assert '%' !in QueryHost;
    assert BasicQueryUrl == QueryHost + "%s" + "";
    FormatSingle(QueryHost, "", code);
    assert QueryHost + code + "" == QueryHost + code;
  }

  /**
   * The flow query URL has exactly one placeholder, and the flow query URL
   * of a code is the basic query URL of 'ff_' followed by the code.
   */
  lemma FlowUrlTemplate(code: string)
    ensures PlaceholderCount(FlowQueryUrl) == 1
    ensures Format(FlowQueryUrl, code) == Format(BasicQueryUrl, "ff_" + code)
  {
    var head := QueryHost + "ff_";
    assert '%' !in head;
    assert FlowQueryUrl == head + "%s" + "";
    FormatSingle(head, "", code);
    BasicUrlTemplate("ff_" + code);
    ConcatAssoc(QueryHost, "ff_", code);
  }

  lemma ConcatAssoc(a: string, b: string, c: string)
    ensures (a + b) + c + "" == a + (b + c)
  {
  }

  // ---------------------------------------------------------------------
  // __get_stock_code
  // ---------------------------------------------------------------------

  /** Index of the first table row whose prefix the id starts with. */
  function FirstMatch(table: seq<(string, string)>, id: string, from: nat): (r: Option<nat>)
    requires from <= |table|
    decreases |table| - from
    ensures r.Some? ==> from <= r.value < |table| && HasPrefix(id, table[r.value].0)
    ensures r.Some? ==> forall j :: from <= j < r.value ==> !HasPrefix(id, table[j].0)
    ensures r.None? ==> forall j :: from <= j < |table| ==> !HasPrefix(id, table[j].0)
  {
    if from == |table| then None
    else if HasPrefix(id, table[from].0) then Some(from)
    else FirstMatch(table, id, from + 1)
  }

  /** __get_stock_code: market + id for the first matching prefix, '' when none matches. */
  function StockCode(id: string): (code: string)
    ensures code == "" <==> forall j :: 0 <= j < |StockCodeCategories| ==> !HasPrefix(id, StockCodeCategories[j].0)
    ensures code != "" ==>
              exists i :: 0 <= i < |StockCodeCategories| && HasPrefix(id, StockCodeCategories[i].0) &&
                (forall j :: 0 <= j < i ==> !HasPrefix(id, StockCodeCategories[j].0)) &&
                code == StockCodeCategories[i].1 + id
  {
    match FirstMatch(StockCodeCategories, id, 0)
    case None => ""
    case Some(i) => StockCodeCategories[i].1 + id
  }

  /** A non-empty code is a two-letter market, 'sh' or 'sz', followed by the original id. */
  lemma StockCodeShape(id: string)
    requires StockCode(id) != ""
    ensures |StockCode(id)| == |id| + 2
    ensures StockCode(id)[..2] in {"sh", "sz"}
    ensures StockCode(id)[2..] == id
  {
  }

  /** The Shanghai composite index is matched before the generic Shenzhen "00" prefix. */
  lemma StockCodeShanghaiIndex()
    ensures StockCode("000001") == "sh000001"
  {
    assert HasPrefix("000001", "000001");
  }

  lemma StockCodeShenzhenMain()
    ensures StockCode("000002") == "sz000002"
  {
    assert !HasPrefix("000002", "000001") by { assert "000002"[5] != "000001"[5]; }
    assert !HasPrefix("000002", "39900") by { assert "000002"[0] != "39900"[0]; }
    assert !HasPrefix("000002", "600") by { assert "000002"[0] != "600"[0]; }
    assert HasPrefix("000002", "00");
  }

  lemma StockCodeShanghaiMain()
    ensures StockCode("600000") == "sh600000"
  {
    assert !HasPrefix("600000", "000001") by { assert "600000"[0] != "000001"[0]; }
    assert !HasPrefix("600000", "39900") by { assert "600000"[0] != "39900"[0]; }
    assert HasPrefix("600000", "600");
  }

  lemma StockCodeChiNext()
    ensures StockCode("300043") == "sz300043"
  {
    assert !HasPrefix("300043", "000001") by { assert "300043"[0] != "000001"[0]; }
    assert !HasPrefix("300043", "39900") by { assert "300043"[1] != "39900"[1]; }
    assert !HasPrefix("300043", "600") by { assert "300043"[0] != "600"[0]; }
    assert !HasPrefix("300043", "00") by { assert "300043"[0] != "00"[0]; }
    assert HasPrefix("300043", "300");
  }

  lemma StockCodeShenzhenIndex()
    ensures StockCode("399001") == "sz399001"
  {
    assert !HasPrefix("399001", "000001") by { assert "399001"[0] != "000001"[0]; }
    assert HasPrefix("399001", "39900");
  }

  /** An id outside every listed prefix has no code. */
  lemma StockCodeUnknown()
    ensures StockCode("700000") == ""
  {
    assert !HasPrefix("700000", "000001") by { assert "700000"[0] != "000001"[0]; }
    assert !HasPrefix("700000", "39900") by { assert "700000"[0] != "39900"[0]; }
    assert !HasPrefix("700000", "600") by { assert "700000"[0] != "600"[0]; }
    assert !HasPrefix("700000", "00") by { assert "700000"[0] != "00"[0]; }
    assert !HasPrefix("700000", "300") by { assert "700000"[0] != "300"[0]; }
  }

  /** Every index code has a market: each starts with some prefix of the table. */
  lemma IndexCodesHaveMarkets()
    ensures forall c :: c in StockIndexCodes ==> StockCode(c) != ""
  {
    assert HasPrefix("000001", "000001");
    assert HasPrefix("399001", "39900");
    assert HasPrefix("399006", "39900");
  }

  // ---------------------------------------------------------------------
  // the '~'-separated record
  // ---------------------------------------------------------------------

  /** str.split(sep). */
  function Split(s: string, sep: char): (parts: seq<string>)
    ensures |parts| >= 1
    ensures forall p :: p in parts ==> sep !in p
    decreases |s|
  {
    if sep !in s then [s]
    else
      var i := FirstIndex(s, sep);
      [s[..i]] + Split(s[i + 1..], sep)
  }

  function FirstIndex(s: string, c: char): (i: nat)
    requires c in s
    ensures i < |s| && s[i] == c && c !in s[..i]
  {
    if s[0] == c then 0 else FirstIndex(s[1..], c) + 1
  }

  /** sep.join(parts). */
  function Join(parts: seq<string>, sep: char): string
    requires |parts| >= 1
  {
    if |parts| == 1 then parts[0] else parts[0] + [sep] + Join(parts[1..], sep)
  }

  /** Splitting loses nothing: joining the fields back gives the record. */
  lemma {:induction false} SplitJoin(s: string, sep: char)
    ensures Join(Split(s, sep), sep) == s
    decreases |s|
  {
    if sep in s {
      var i := FirstIndex(s, sep);
      SplitJoin(s[i + 1..], sep);
      assert s == s[..i] + [sep] + s[i + 1..];
    }
  }

  /** Length of the run of c at the start of s. */
  function LeadingRun(s: string, c: char): (n: nat)
    ensures n <= |s|
    ensures forall k :: 0 <= k < n ==> s[k] == c
    ensures n < |s| ==> s[n] != c
  {
    if |s| > 0 && s[0] == c then 1 + LeadingRun(s[1..], c) else 0
  }

  /** Length of the run of c at the end of s. */
  function TrailingRun(s: string, c: char): (n: nat)
    ensures n <= |s|
    ensures forall k :: |s| - n <= k < |s| ==> s[k] == c
    ensures n < |s| ==> s[|s| - 1 - n] != c
  {
    if |s| > 0 && s[|s| - 1] == c then 1 + TrailingRun(s[..|s| - 1], c) else 0
  }

  /** str.strip(c): drop every leading and trailing c. */
  function Strip(s: string, c: char): string {
    var i := LeadingRun(s, c);
    s[i..|s| - TrailingRun(s[i..], c)]
  }

  /** What strip leaves is a slice of s with only c around it. */
  lemma StripShape(s: string, c: char)
    ensures var r := Strip(s, c);
            exists i, j :: 0 <= i <= j <= |s| && r == s[i..j] &&
              (forall k :: 0 <= k < i ==> s[k] == c) && (forall k :: j <= k < |s| ==> s[k] == c)
  {
    var i := LeadingRun(s, c);
    var t := s[i..];
    var n := TrailingRun(t, c);
    var j := |s| - n;
    forall k | j <= k < |s| ensures s[k] == c {
      assert s[k] == t[k - i];
    }
    assert Strip(s, c) == s[i..j];
  }

  /** What strip leaves neither starts nor ends with c. */
  lemma StripEnds(s: string, c: char)
    ensures |Strip(s, c)| > 0 ==> Strip(s, c)[0] != c && Strip(s, c)[|Strip(s, c)| - 1] != c
  {
    var i := LeadingRun(s, c);
    var t := s[i..];
    var n := TrailingRun(t, c);
    var r := Strip(s, c);
    assert r == t[..|t| - n];
    if |r| > 0 {
      assert r[0] == s[i];
      assert r[|r| - 1] == t[|t| - 1 - n];
    }
  }

  lemma StripExample()
    ensures Strip("%1.25%", '%') == "1.25"
  {
    assert "%1.25%"[1..] == "1.25%";
    assert LeadingRun("1.25%", '%') == 0;
    assert "1.25%"[..4] == "1.25";
    assert "1.25"[3] != '%';
    assert TrailingRun("1.25", '%') == 0;
  }

  // ---------------------------------------------------------------------
  // writing fields into stock_info
  // ---------------------------------------------------------------------

  /** A value stored in stock_info. */
  datatype Value = Text(text: string) | Number(number: real)

  /** How a raw field becomes a value: gbk-decode it, float() it, or float() it after strip('%'). */
  datatype Conversion = Gbk | Float | PercentFloat

  /** stock_info[key] = conversion(result[pos]). */
  datatype FieldRule = FieldRule(key: string, pos: nat, conversion: Conversion)

  /** The exceptions a rule can raise; none of them is caught by the query methods. */
  datatype Fault = IndexError | ValueError | DecodeError

  /**
   * __parse_stock_data. decode stands for bytes.decode('gbk') and toFloat
   * for float(), each None where Python raises.
   */
  const StockDataRules: seq<FieldRule> := [
    FieldRule("name", 1, Gbk), FieldRule("close_price", 3, Float), FieldRule("high_price", 33, Float),
    FieldRule("low_price", 34, Float), FieldRule("amplitude", 43, PercentFloat),
    FieldRule("updown", 32, PercentFloat), FieldRule("turnover", 38, PercentFloat), FieldRule("volume", 45, Float)]

  /** __parse_stock_index: as above, volume from field 37 and no turnover. */
  const StockIndexRules: seq<FieldRule> := [
    FieldRule("name", 1, Gbk), FieldRule("close_price", 3, Float), FieldRule("high_price", 33, Float),
    FieldRule("low_price", 34, Float), FieldRule("amplitude", 43, PercentFloat),
    FieldRule("updown", 32, PercentFloat), FieldRule("volume", 37, Float)]

  /** The field mapping of get_flow_data (the last key is spelled as in the service code). */
  const FlowRules: seq<FieldRule> := [
    FieldRule("main_inflow", 1, Float), FieldRule("main_outflow", 2, Float), FieldRule("main_net_inflow", 3, Float),
    FieldRule("retail_inflow", 5, Float), FieldRule("retail_outflow", 6, Float),
    FieldRule("retail_net_inflow", 7, Float), FieldRule("inflow_outlow_sum", 9, Float)]

  datatype Converted = Ok(value: Value) | Raise(fault: Fault)

  function Convert(rule: FieldRule, result: seq<string>, decode: string -> Option<string>,
                   toFloat: string -> Option<real>): (c: Converted)
    ensures rule.pos >= |result| <==> c == Raise(IndexError)
  {
    if rule.pos >= |result| then Raise(IndexError)
    else
      var raw := result[rule.pos];
      match rule.conversion
      case Gbk => (match decode(raw) case Some(t) => Ok(Text(t)) case None => Raise(DecodeError))
      case Float => (match toFloat(raw) case Some(x) => Ok(Number(x)) case None => Raise(ValueError))
      case PercentFloat =>
        (match toFloat(Strip(raw, '%')) case Some(x) => Ok(Number(x)) case None => Raise(ValueError))
  }

  /** The dictionary after running the rules in order, and the exception that stopped them, if any. */
  function ApplyRules(info: map<string, Value>, rules: seq<FieldRule>, result: seq<string>,
                      decode: string -> Option<string>, toFloat: string -> Option<real>): (map<string, Value>, Option<Fault>)
    decreases |rules|
  {
    if |rules| == 0 then (info, None)
    else match Convert(rules[0], result, decode, toFloat)
      case Raise(f) => (info, Some(f))
      case Ok(v) => ApplyRules(info[rules[0].key := v], rules[1..], result, decode, toFloat)
  }

  function Keys(rules: seq<FieldRule>): set<string> {
    set r | r in rules :: r.key
  }

  ghost predicate DistinctKeys(rules: seq<FieldRule>) {
    forall a, b :: 0 <= a < b < |rules| ==> rules[a].key != rules[b].key
  }

  /** Running rules writes only their keys and keeps every other entry. */
  lemma {:induction false} ApplyRulesFrame(info: map<string, Value>, rules: seq<FieldRule>, result: seq<string>,
                                           decode: string -> Option<string>, toFloat: string -> Option<real>)
    ensures var out := ApplyRules(info, rules, result, decode, toFloat).0;
            info.Keys <= out.Keys <= info.Keys + Keys(rules) &&
            forall k :: k in info && k !in Keys(rules) ==> out[k] == info[k]
    decreases |rules|
  {
    if |rules| > 0 {
      assert Keys(rules) == {rules[0].key} + Keys(rules[1..]) by {
        assert forall r :: r in rules <==> r == rules[0] || r in rules[1..];
      }
      match Convert(rules[0], result, decode, toFloat)
      case Raise(f) =>
      case Ok(v) => ApplyRulesFrame(info[rules[0].key := v], rules[1..], result, decode, toFloat);
    }
  }

  /** When no rule raises, every key of the rules holds the converted value of its field. */
  lemma {:induction false} ApplyRulesSuccess(info: map<string, Value>, rules: seq<FieldRule>, result: seq<string>,
                                             decode: string -> Option<string>, toFloat: string -> Option<real>)
    requires DistinctKeys(rules)
    requires ApplyRules(info, rules, result, decode, toFloat).1.None?
    ensures var out := ApplyRules(info, rules, result, decode, toFloat).0;
            out.Keys == info.Keys + Keys(rules) &&
            forall r :: r in rules ==> Convert(r, result, decode, toFloat) == Ok(out[r.key])
    decreases |rules|
  {
    if |rules| > 0 {
      var rest := rules[1..];
      assert Keys(rules) == {rules[0].key} + Keys(rest) by {
        assert forall r :: r in rules <==> r == rules[0] || r in rest;
      }
      var v := Convert(rules[0], result, decode, toFloat).value;
      var info1 := info[rules[0].key := v];
      ApplyRulesSuccess(info1, rest, result, decode, toFloat);
      ApplyRulesFrame(info1, rest, result, decode, toFloat);
      assert rules[0].key !in Keys(rest) by {
        forall r | r in rest ensures r.key != rules[0].key {
          var b :| 0 <= b < |rest| && rest[b] == r;
          assert rules[b + 1] == r;
        }
      }
      assert forall r :: r in rules ==> r == rules[0] || r in rest;
    }
  }

  /** When a rule raises, exactly the rules before it have been applied. */
  lemma {:induction false} ApplyRulesFailure(info: map<string, Value>, rules: seq<FieldRule>, result: seq<string>,
                                             decode: string -> Option<string>, toFloat: string -> Option<real>)
    requires ApplyRules(info, rules, result, decode, toFloat).1.Some?
    ensures var (out, fault) := ApplyRules(info, rules, result, decode, toFloat);
            exists n :: 0 <= n < |rules| &&
              Convert(rules[n], result, decode, toFloat) == Raise(fault.value) &&
              ApplyRules(info, rules[..n], result, decode, toFloat) == (out, None)
    decreases |rules|
  {
    var (out, fault) := ApplyRules(info, rules, result, decode, toFloat);
    match Convert(rules[0], result, decode, toFloat)
    case Raise(f) =>
      assert rules[..0] == [];
    case Ok(v) =>
      var info1 := info[rules[0].key := v];
      var rest := rules[1..];
      ApplyRulesFailure(info1, rest, result, decode, toFloat);
      var n :| 0 <= n < |rest| && Convert(rest[n], result, decode, toFloat) == Raise(fault.value) &&
               ApplyRules(info1, rest[..n], result, decode, toFloat) == (out, None);
      assert rules[..n + 1][0] == rules[0] && rules[..n + 1][1..] == rest[..n];
      assert rules[n + 1] == rest[n];
  }

  /** Index quotes never get a turnover, stock quotes do; volume comes from field 37 or 45 respectively. */
  lemma RuleTablesDiffer()
    ensures "turnover" !in Keys(StockIndexRules) && "turnover" in Keys(StockDataRules)
    ensures StockIndexRules[6] == FieldRule("volume", 37, Float) && StockDataRules[7] == FieldRule("volume", 45, Float)
    ensures StockIndexRules[..6] == StockDataRules[..6]
  {
    assert StockDataRules[6].key == "turnover";
    forall i | 0 <= i < |StockIndexRules| ensures StockIndexRules[i].key != "turnover" {
      assert StockIndexRules[i].key[0] != 't' || |StockIndexRules[i].key| != 8;
    }
  }

  /** Within each table every key is written by one rule only. */
  lemma RuleTablesDistinct()
    ensures DistinctKeys(StockDataRules) && DistinctKeys(StockIndexRules) && DistinctKeys(FlowRules)
  {
    forall a, b | 0 <= a < b < |StockDataRules| ensures StockDataRules[a].key != StockDataRules[b].key {
      var ka, kb := StockDataRules[a].key, StockDataRules[b].key;
      assert |ka| != |kb| || ka[0] != kb[0];
    }
    forall a, b | 0 <= a < b < |StockIndexRules| ensures StockIndexRules[a].key != StockIndexRules[b].key {
      var ka, kb := StockIndexRules[a].key, StockIndexRules[b].key;
      assert |ka| != |kb| || ka[0] != kb[0];
    }
    forall a, b | 0 <= a < b < |FlowRules| ensures FlowRules[a].key != FlowRules[b].key {
      var ka, kb := FlowRules[a].key, FlowRules[b].key;
      assert |ka| != |kb| || ka[0] != kb[0];
    }
  }

  /** The caller's stock_info dictionary, which the query methods fill in place. */
  class StockInfo {
    var fields: map<string, Value>

    constructor()
      ensures fields == map[]
    {
      fields := map[];
    }
  }

  /** One line of the parsers: stock_info[rule.key] = converted result[rule.pos], or the exception it raises. */
  method Store(info: StockInfo, rule: FieldRule, result: seq<string>,
               decode: string -> Option<string>, toFloat: string -> Option<real>) returns (fault: Option<Fault>)
    modifies info
    ensures (info.fields, fault) == ApplyRules(old(info.fields), [rule], result, decode, toFloat)
  {
    match Convert(rule, result, decode, toFloat)
    case Raise(f) =>
      fault := Some(f);
    case Ok(v) =>
      info.fields := info.fields[rule.key := v];
      fault := None;
  }

  /** Applying rules a then rules b is applying a + b, stopping at the first exception. */
  lemma {:induction false} ApplyRulesAppend(info: map<string, Value>, a: seq<FieldRule>, b: seq<FieldRule>, result: seq<string>,
                                            decode: string -> Option<string>, toFloat: string -> Option<real>)
    ensures var (mid, fa) := ApplyRules(info, a, result, decode, toFloat);
            ApplyRules(info, a + b, result, decode, toFloat) ==
              if fa.Some? then (mid, fa) else ApplyRules(mid, b, result, decode, toFloat)
    decreases |a|
  {
    if |a| > 0 {
      assert (a + b)[0] == a[0] && (a + b)[1..] == a[1..] + b;
      match Convert(a[0], result, decode, toFloat)
      case Raise(f) =>
      case Ok(v) => ApplyRulesAppend(info[a[0].key := v], a[1..], b, result, decode, toFloat);
    } else {
      assert a + b == b;
    }
  }

  /**
   * One line of a parser, in sequence: given that the lines before rule k
   * have run without an exception, run line k. Where it raises, the whole
   * parser ends in that state.
   */
  method StoreNext(info: StockInfo, rules: seq<FieldRule>, k: nat, ghost start: map<string, Value>, result: seq<string>,
                   decode: string -> Option<string>, toFloat: string -> Option<real>) returns (fault: Option<Fault>)
    requires k < |rules|
    requires ApplyRules(start, rules[..k], result, decode, toFloat) == (info.fields, None)
    modifies info
    ensures (info.fields, fault) == ApplyRules(start, rules[..k + 1], result, decode, toFloat)
    ensures fault.Some? ==> (info.fields, fault) == ApplyRules(start, rules, result, decode, toFloat)
  {
    fault := Store(info, rules[k], result, decode, toFloat);
    ApplyRulesAppend(start, rules[..k], [rules[k]], result, decode, toFloat);
    assert rules[..k] + [rules[k]] == rules[..k + 1];
    ApplyRulesAppend(start, rules[..k + 1], rules[k + 1..], result, decode, toFloat);
    assert rules[..k + 1] + rules[k + 1..] == rules;
  }

  /** __parse_stock_data: the eight lines of StockDataRules, in order, each of which may raise. */
  method ParseStockData(result: seq<string>, info: StockInfo,
                        decode: string -> Option<string>, toFloat: string -> Option<real>) returns (fault: Option<Fault>)
    modifies info
    ensures (info.fields, fault) == ApplyRules(old(info.fields), StockDataRules, result, decode, toFloat)
  {
    ghost var start := info.fields;
    var rules := StockDataRules;
    assert rules[..0] == [];
    fault := StoreNext(info, rules, 0, start, result, decode, toFloat);  // name
    if fault.Some? { return; }
    fault := StoreNext(info, rules, 1, start, result, decode, toFloat);  // close_price
    if fault.Some? { return; }
    fault := StoreNext(info, rules, 2, start, result, decode, toFloat);  // high_price
    if fault.Some? { return; }
    fault := StoreNext(info, rules, 3, start, result, decode, toFloat);  // low_price
    if fault.Some? { return; }
    fault := StoreNext(info, rules, 4, start, result, decode, toFloat);  // amplitude
    if fault.Some? { return; }
    fault := StoreNext(info, rules, 5, start, result, decode, toFloat);  // updown
    if fault.Some? { return; }
    fault := StoreNext(info, rules, 6, start, result, decode, toFloat);  // turnover
    if fault.Some? { return; }
    fault := StoreNext(info, rules, 7, start, result, decode, toFloat);  // volume
    assert rules[..8] == rules;
  }

  /** __parse_stock_index: the seven lines of StockIndexRules, in order. */
  method ParseStockIndex(result: seq<string>, info: StockInfo,
                         decode: string -> Option<string>, toFloat: string -> Option<real>) returns (fault: Option<Fault>)
    modifies info
    ensures (info.fields, fault) == ApplyRules(old(info.fields), StockIndexRules, result, decode, toFloat)
  {
    ghost var start := info.fields;
    var rules := StockIndexRules;
    assert rules[..0] == [];
    fault := StoreNext(info, rules, 0, start, result, decode, toFloat);  // name
    if fault.Some? { return; }
    fault := StoreNext(info, rules, 1, start, result, decode, toFloat);  // close_price
    if fault.Some? { return; }
    fault := StoreNext(info, rules, 2, start, result, decode, toFloat);  // high_price
    if fault.Some? { return; }
    fault := StoreNext(info, rules, 3, start, result, decode, toFloat);  // low_price
    if fault.Some? { return; }
    fault := StoreNext(info, rules, 4, start, result, decode, toFloat);  // amplitude
    if fault.Some? { return; }
    fault := StoreNext(info, rules, 5, start, result, decode, toFloat);  // updown
    if fault.Some? { return; }
    fault := StoreNext(info, rules, 6, start, result, decode, toFloat);  // volume
    assert rules[..7] == rules;
  }

  /**
   * The parser get_basic_data dispatches to: index codes are parsed as
   * indices, every other code as a stock.
   */
  function BasicRules(stockId: string): seq<FieldRule> {
    if stockId in StockIndexCodes then StockIndexRules else StockDataRules
  }

  /**
   * get_basic_data. fetch stands for the HTTP request and the regular
   * expression: the quoted payloads found in the response for a URL, or
   * None for the URLError that the method catches. The exceptions of the
   * parsers are not caught and are returned as the fault.
   */
  method GetBasicData(stockId: string, info: StockInfo, fetch: string -> Option<seq<string>>,
                      decode: string -> Option<string>, toFloat: string -> Option<real>) returns (fault: Option<Fault>)
    modifies info
    ensures var code := StockCode(stockId);
            var response := fetch(QueryHost + code);
            var tagged := old(info.fields)["code" := Text(stockId)];
            if code == "" then info.fields == old(info.fields) && fault.None?
            else if response.None? || |response.value| == 0 then info.fields == tagged && fault.None?
            else (info.fields, fault) ==
                   ApplyRules(tagged, BasicRules(stockId), Split(response.value[0], '~'), decode, toFloat)
  {
    var code := StockCode(stockId);
    if |code| == 0 {
      return None;
    }
    info.fields := info.fields["code" := Text(stockId)];
    BasicUrlTemplate(code);
    var url := Format(BasicQueryUrl, code).value;
    var response := fetch(url);
    if response.None? || |response.value| == 0 {
      return None;
    }
    var result := Split(response.value[0], '~');
    if stockId in StockIndexCodes {
      fault := ParseStockIndex(result, info, decode, toFloat);
    } else {
      fault := ParseStockData(result, info, decode, toFloat);
    }
  }

  /** get_flow_data: as get_basic_data with the flow URL and the seven flow fields; no 'code' entry is written. */
  method GetFlowData(stockId: string, info: StockInfo, fetch: string -> Option<seq<string>>,
                     toFloat: string -> Option<real>) returns (fault: Option<Fault>)
    modifies info
    ensures var code := StockCode(stockId);
            var response := fetch(QueryHost + ("ff_" + code));
            if code == "" || response.None? || |response.value| == 0 then info.fields == old(info.fields) && fault.None?
            else (info.fields, fault) ==
                   ApplyRules(old(info.fields), FlowRules, Split(response.value[0], '~'), _ => None, toFloat)
  {
    var code := StockCode(stockId);
    if |code| == 0 {
      return None;
    }
    FlowUrlTemplate(code);
    BasicUrlTemplate("ff_" + code);
    var url := Format(FlowQueryUrl, code).value;
    var response := fetch(url);
    if response.None? || |response.value| == 0 {
      return None;
    }
    var result := Split(response.value[0], '~');
    fault := StoreFlowFields(info, result, toFloat);
  }

  /** The seven assignments at the end of get_flow_data, in order, each of which may raise. */
  method StoreFlowFields(info: StockInfo, result: seq<string>, toFloat: string -> Option<real>) returns (fault: Option<Fault>)
    modifies info
    ensures (info.fields, fault) == ApplyRules(old(info.fields), FlowRules, result, _ => None, toFloat)
  {
    ghost var start := info.fields;
    var rules := FlowRules;
    assert rules[..0] == [];
    fault := StoreNext(info, rules, 0, start, result, _ => None, toFloat);  // main_inflow
    if fault.Some? { return; }
    fault := StoreNext(info, rules, 1, start, result, _ => None, toFloat);  // main_outflow
    if fault.Some? { return; }
    fault := StoreNext(info, rules, 2, start, result, _ => None, toFloat);  // main_net_inflow
    if fault.Some? { return; }
    fault := StoreNext(info, rules, 3, start, result, _ => None, toFloat);  // retail_inflow
    if fault.Some? { return; }
    fault := StoreNext(info, rules, 4, start, result, _ => None, toFloat);  // retail_outflow
    if fault.Some? { return; }
    fault := StoreNext(info, rules, 5, start, result, _ => None, toFloat);  // retail_net_inflow
    if fault.Some? { return; }
    fault := StoreNext(info, rules, 6, start, result, _ => None, toFloat);  // inflow_outlow_sum
    assert rules[..7] == rules;
  }

  /**
   * A quote whose record is long enough and whose fields all convert fills
   * in every field of its rule table: index quotes get no turnover entry
   * unless one was there before, stock quotes get one.
   */
  lemma BasicDataFields(stockId: string, info: map<string, Value>, result: seq<string>,
                        decode: string -> Option<string>, toFloat: string -> Option<real>)
    requires ApplyRules(info, BasicRules(stockId), result, decode, toFloat).1.None?
    ensures var out := ApplyRules(info, BasicRules(stockId), result, decode, toFloat).0;
            out.Keys == info.Keys + Keys(BasicRules(stockId)) &&
            (forall r :: r in BasicRules(stockId) ==> Convert(r, result, decode, toFloat) == Ok(out[r.key])) &&
            (stockId in StockIndexCodes ==> ("turnover" in out <==> "turnover" in info)) &&
            (stockId !in StockIndexCodes ==> "turnover" in out)
  {
    RuleTablesDistinct();
    RuleTablesDiffer();
    ApplyRulesSuccess(info, BasicRules(stockId), result, decode, toFloat);
  }
}
