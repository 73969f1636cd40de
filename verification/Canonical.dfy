/** The canonical attestation text (execution_motor/canonical.py) as an unambiguous encoding: a
    decoder gives back every field, so two attestations with the same text agree on all of them. */
module Canonical {
  import opened Prelude

  const VERSION := "afe-attest-v1"
  const SIDE_BUY := "BUY"
  const SIDE_SELL := "SELL"
  const SIDE_SELL_SHORT := "SELL_SHORT"

  datatype Fields = Fields(
    signalId: string, symbol: string, side: string, orderType: string, qtyNanos: int, limitPriceNanos: int,
    stopPriceNanos: int, decidedAtNs: int, expiresAtNs: int, aegisStateSeq: int, limitsConfig: string, keyId: string)

  // ---------------------------------------------------------------- decimal integers

  predicate IsDigit(c: char) {
    '0' <= c <= '9'
  }

  function Digit(n: nat): (c: char)
    requires n < 10
    ensures IsDigit(c) && DigitValue(c) == n
  {
    '0' + n as char
  }

  function DigitValue(c: char): nat
    requires IsDigit(c)
  {
    (c - '0') as nat
  }

  function NatText(n: nat): (s: string)
    ensures s != [] && forall i :: 0 <= i < |s| ==> IsDigit(s[i])
  {
    if n < 10 then [Digit(n)] else NatText(n / 10) + [Digit(n % 10)]
  }

  /** The decimal text has no leading zero, so with IntRoundTrip it is the one a number has. */
  lemma {:induction false} NoLeadingZero(n: nat)
    ensures |NatText(n)| > 1 ==> NatText(n)[0] != '0'
    ensures n > 0 ==> NatText(n)[0] != '0'
  {
    if n >= 10 {
      NoLeadingZero(n / 10);
    } else {
      assert n > 0 ==> DigitValue(Digit(n)) != DigitValue('0');
    }
  }

  /** int() formatted by an f-string. */
  function IntText(n: int): string {
    if n < 0 then "-" + NatText(-n) else NatText(n)
  }

  /** A minus sign stands before negative numbers and no others. */
  lemma SignIs(n: int)
    ensures if n < 0 then IntText(n) == "-" + NatText(-n) else IntText(n) == NatText(n) && IntText(n)[0] != '-'
  {
  }

  function NatValue(s: string): nat
    requires forall i :: 0 <= i < |s| ==> IsDigit(s[i])
  {
    if s == [] then 0 else NatValue(s[..|s| - 1]) * 10 + DigitValue(s[|s| - 1])
  }

  lemma {:induction false} NatRoundTrip(n: nat)
    ensures NatValue(NatText(n)) == n
  {
    if n < 10 {
      assert NatText(n)[..0] == [];
    } else {
      NatRoundTrip(n / 10);
      var front := NatText(n / 10);
      assert NatText(n)[..|front|] == front;
    }
  }

  /** Reads back what IntText writes. */
  function IntValue(s: string): Option<int> {
    var negative := s != [] && s[0] == '-';
    var digits := if negative then s[1..] else s;
    if forall i :: 0 <= i < |digits| ==> IsDigit(digits[i])
    then Some(if negative then 0 - NatValue(digits) else NatValue(digits))
    else None
  }

  predicate AllDigits(s: string) {
    s != [] && forall i :: 0 <= i < |s| ==> IsDigit(s[i])
  }

  lemma IntValueOfDigits(digits: string)
    requires AllDigits(digits)
    ensures IntValue(digits) == Some(NatValue(digits))
    ensures IntValue("-" + digits) == Some(0 - NatValue(digits))
  {
    assert digits[0] != '-';
    assert ("-" + digits)[1..] == digits;
  }

  lemma IntRoundTrip(n: int)
    ensures IntValue(IntText(n)) == Some(n)
  {
    var size := if n < 0 then -n else n;
    NatRoundTrip(size);
    IntValueOfDigits(NatText(size));
  }

  lemma IntTextHasNoBreak(n: int)
    ensures '\n' !in IntText(n)
  {
    var digits := NatText(if n < 0 then -n else n);
    forall i | 0 <= i < |digits| ensures digits[i] != '\n' {
      assert IsDigit(digits[i]);
    }
  }

  // ---------------------------------------------------------------- building the text

  /** Category Cc: the C0 and C1 controls and DEL. */
  predicate IsControl(c: char) {
    c <= '\U{1F}' || '\U{7F}' <= c <= '\U{9F}'
  }

  /** _clean lets the value through. */
  predicate Clean(value: string) {
    value != [] && forall i :: 0 <= i < |value| ==> !IsControl(value[i]) && value[i] != '='
  }

  /** A value is let through when it is not empty and none of its code points is below 32, from 127 to 159, or the
      equals sign. */
  lemma CleanIs(value: string)
    ensures Clean(value) <==>
      |value| > 0 && forall i :: 0 <= i < |value| ==>
        var code := value[i] as int; code >= 32 && !(127 <= code <= 159) && code != 61
  {
    assert '=' as int == 61;
    forall i | 0 <= i < |value|
      ensures !IsControl(value[i]) && value[i] != '=' <==>
        value[i] as int >= 32 && !(127 <= value[i] as int <= 159) && value[i] as int != 61
    {
      ControlIs(value[i]);
    }
  }

  lemma ControlIs(c: char)
    ensures IsControl(c) <==> c as int < 32 || 127 <= c as int <= 159
    ensures c == '=' <==> c as int == 61
  {
  }

  /** Every line with its terminator. */
  function Join(lines: seq<string>): string {
    if lines == [] then "" else lines[0] + "\n" + Join(lines[1..])
  }

  function FrontLines(f: Fields): seq<string> {
    [VERSION, "signal_id=" + f.signalId, "symbol=" + f.symbol]
  }

  function BackLines(f: Fields): seq<string> {
    [ "order_type=" + f.orderType,
      "qty_nanos=" + IntText(f.qtyNanos),
      "limit_price_nanos=" + IntText(f.limitPriceNanos),
      "stop_price_nanos=" + IntText(f.stopPriceNanos),
      "decided_at_ns=" + IntText(f.decidedAtNs),
      "expires_at_ns=" + IntText(f.expiresAtNs),
      "aegis_state_seq=" + IntText(f.aegisStateSeq),
      "limits_config_sha256=" + f.limitsConfig,
      "key_id=" + f.keyId ]
  }

  function Text(f: Fields): string {
    Join(FrontLines(f) + ["side=" + f.side] + BackLines(f))
  }

  /** The thirteen lines as they are signed, each with its terminator. */
  lemma TextIs(f: Fields)
    ensures Text(f) == Join([
      "afe-attest-v1", "signal_id=" + f.signalId, "symbol=" + f.symbol, "side=" + f.side,
      "order_type=" + f.orderType, "qty_nanos=" + IntText(f.qtyNanos),
      "limit_price_nanos=" + IntText(f.limitPriceNanos), "stop_price_nanos=" + IntText(f.stopPriceNanos),
      "decided_at_ns=" + IntText(f.decidedAtNs), "expires_at_ns=" + IntText(f.expiresAtNs),
      "aegis_state_seq=" + IntText(f.aegisStateSeq), "limits_config_sha256=" + f.limitsConfig, "key_id=" + f.keyId])
  {
    assert FrontLines(f) + ["side=" + f.side] + BackLines(f) == [
      "afe-attest-v1", "signal_id=" + f.signalId, "symbol=" + f.symbol, "side=" + f.side,
      "order_type=" + f.orderType, "qty_nanos=" + IntText(f.qtyNanos),
      "limit_price_nanos=" + IntText(f.limitPriceNanos), "stop_price_nanos=" + IntText(f.stopPriceNanos),
      "decided_at_ns=" + IntText(f.decidedAtNs), "expires_at_ns=" + IntText(f.expiresAtNs),
      "aegis_state_seq=" + IntText(f.aegisStateSeq), "limits_config_sha256=" + f.limitsConfig, "key_id=" + f.keyId];
  }

  predicate Buildable(f: Fields) {
    Clean(f.signalId) && Clean(f.symbol) && Clean(f.orderType) && Clean(f.limitsConfig) && Clean(f.keyId)
  }

  /** build_canonical_text: refuses the first value that is empty or has a forbidden character. The
      side is not checked. */
  function BuildCanonicalText(f: Fields): (r: Result<string, string>)
    ensures r.Ok? <==> Buildable(f)
  {
    if !Clean(f.signalId) then Err("signal_id")
    else if !Clean(f.symbol) then Err("symbol")
    else if !Clean(f.orderType) then Err("order_type")
    else if !Clean(f.limitsConfig) then Err("limits_config_sha256")
    else if !Clean(f.keyId) then Err("key_id")
    else Ok(Text(f))
  }

  // ---------------------------------------------------------------- cutting lines off either end

  function FirstBreak(text: string): nat
    ensures FirstBreak(text) <= |text|
  {
    if text == [] || text[0] == '\n' then 0 else 1 + FirstBreak(text[1..])
  }

  /** The first `k` lines and what follows them. */
  function CutFront(text: string, k: nat): Option<(seq<string>, string)> {
    if k == 0 then Some(([], text))
    else
      var i := FirstBreak(text);
      if i == |text| then None
      else
        var rest := CutFront(text[i + 1..], k - 1);
        if rest.None? then None else Some(([text[..i]] + rest.value.0, rest.value.1))
  }

  /** Where the last line of a text starts, its terminator left off. */
  function LastLineStart(text: string): nat
    ensures LastLineStart(text) <= |text|
  {
    if text == [] || text[|text| - 1] == '\n' then |text| else LastLineStart(text[..|text| - 1])
  }

  /** The last `k` lines and what precedes them. */
  function CutBack(text: string, k: nat): Option<(string, seq<string>)>
    decreases k
  {
    if k == 0 then Some((text, []))
    else if text == [] || text[|text| - 1] != '\n' then None
    else
      var body := text[..|text| - 1];
      var i := LastLineStart(body);
      var rest := CutBack(body[..i], k - 1);
      if rest.None? then None else Some((rest.value.0, rest.value.1 + [body[i..]]))
  }

  lemma Regroup(a: string, b: string, c: string, d: string)
    ensures a + (b + c + d) == a + b + c + d
    ensures a + b + (c + d) == a + b + c + d
  {
    RegroupThree(b, c, d);
    RegroupThree(a, b + c, d);
    RegroupThree(a, b, c);
    RegroupThree(a + b, c, d);
  }

  lemma RegroupThree(a: string, b: string, c: string)
    ensures a + (b + c) == a + b + c
  {
  }

  predicate Unbroken(lines: seq<string>) {
    forall i :: 0 <= i < |lines| ==> '\n' !in lines[i]
  }

  lemma {:induction false} FirstBreakIsLineEnd(line: string, rest: string)
    requires '\n' !in line
    ensures FirstBreak(line + "\n" + rest) == |line|
    decreases |line|
  {
    var text := line + "\n" + rest;
    if line != [] {
      assert line[0] in line;
      assert text[1..] == line[1..] + "\n" + rest;
      FirstBreakIsLineEnd(line[1..], rest);
    }
  }

  lemma {:induction false} CutFrontOfJoin(lines: seq<string>, rest: string)
    requires Unbroken(lines)
    ensures CutFront(Join(lines) + rest, |lines|) == Some((lines, rest))
    decreases |lines|
  {
    if lines == [] {
      assert Join(lines) + rest == rest;
    } else {
      CutFrontOfJoin(lines[1..], rest);
      CutFrontStep(lines[0], Join(lines[1..]) + rest, |lines| - 1);
      Regroup(lines[0], "\n", Join(lines[1..]), rest);
      assert lines == [lines[0]] + lines[1..];
    }
  }

  lemma CutFrontStep(line: string, tail: string, k: nat)
    requires '\n' !in line && CutFront(tail, k).Some?
    ensures CutFront(line + "\n" + tail, k + 1)
         == Some(([line] + CutFront(tail, k).value.0, CutFront(tail, k).value.1))
  {
    var text := line + "\n" + tail;
    FirstBreakIsLineEnd(line, tail);
    assert text[|line| + 1..] == tail && text[..|line|] == line;
  }

  /** Whole lines only. */
  predicate WholeLines(text: string) {
    text == [] || text[|text| - 1] == '\n'
  }

  lemma {:induction false} LastLineStartIs(before: string, line: string)
    requires WholeLines(before) && '\n' !in line
    ensures LastLineStart(before + line) == |before|
    decreases |line|
  {
    var text := before + line;
    if line == [] {
      assert text == before;
    } else {
      assert line[|line| - 1] in line;
      assert text[..|text| - 1] == before + line[..|line| - 1];
      LastLineStartIs(before, line[..|line| - 1]);
    }
  }

  lemma {:induction false} JoinSnoc(lines: seq<string>, line: string)
    ensures Join(lines + [line]) == Join(lines) + line + "\n"
    decreases |lines|
  {
    if lines == [] {
      assert ([line])[1..] == [];
    } else {
      assert (lines + [line])[1..] == lines[1..] + [line];
      JoinSnoc(lines[1..], line);
    }
  }

  lemma {:induction false} JoinConcat(a: seq<string>, b: seq<string>)
    ensures Join(a + b) == Join(a) + Join(b)
    decreases |a|
  {
    if a == [] {
      assert a + b == b;
    } else {
      assert (a + b)[1..] == a[1..] + b;
      JoinConcat(a[1..], b);
    }
  }

  lemma {:induction false} JoinIsWhole(before: string, lines: seq<string>)
    requires WholeLines(before)
    ensures WholeLines(before + Join(lines))
    decreases |lines|
  {
    if lines == [] {
      assert before + Join(lines) == before;
    } else {
      var front, last := lines[..|lines| - 1], lines[|lines| - 1];
      assert lines == front + [last];
      JoinSnoc(front, last);
    }
  }

  lemma CutBackStep(head: string, last: string, k: nat)
    requires WholeLines(head) && '\n' !in last && CutBack(head, k).Some?
    ensures CutBack(head + last + "\n", k + 1)
         == Some((CutBack(head, k).value.0, CutBack(head, k).value.1 + [last]))
  {
    var text := head + last + "\n";
    var body := text[..|text| - 1];
    assert body == head + last;
    LastLineStartIs(head, last);
    assert body[..|head|] == head && body[|head|..] == last;
  }

  lemma CutBackSnoc(before: string, front: seq<string>, last: string)
    requires WholeLines(before) && '\n' !in last
    requires CutBack(before + Join(front), |front|) == Some((before, front))
    ensures CutBack(before + Join(front + [last]), |front + [last]|) == Some((before, front + [last]))
  {
    JoinIsWhole(before, front);
    CutBackStep(before + Join(front), last, |front|);
    JoinSnoc(front, last);
    Regroup(before, Join(front), last, "\n");
  }

  lemma {:induction false} CutBackOfJoin(before: string, lines: seq<string>)
    requires WholeLines(before) && Unbroken(lines)
    ensures CutBack(before + Join(lines), |lines|) == Some((before, lines))
    decreases |lines|
  {
    if lines == [] {
      assert before + Join(lines) == before;
    } else {
      var front, last := lines[..|lines| - 1], lines[|lines| - 1];
      CutBackOfJoin(before, front);
      CutBackSnoc(before, front, last);
      assert lines == front + [last];
    }
  }

  // ---------------------------------------------------------------- the decoder

  function Value(line: string, name: string): Option<string> {
    if name <= line then Some(line[|name|..]) else None
  }

  function IntField(line: string, name: string): Option<int> {
    var value := Value(line, name);
    if value.None? then None else IntValue(value.value)
  }

  function TextFields(front: seq<string>, side: string, back: seq<string>): seq<Option<string>>
    requires |front| == 3 && |back| == 9
  {
    [ Value(front[1], "signal_id="), Value(front[2], "symbol="), Value(side, "side="),
      Value(back[0], "order_type="), Value(back[7], "limits_config_sha256="), Value(back[8], "key_id=") ]
  }

  function IntFields(back: seq<string>): seq<Option<int>>
    requires |back| == 9
  {
    [ IntField(back[1], "qty_nanos="), IntField(back[2], "limit_price_nanos="),
      IntField(back[3], "stop_price_nanos="), IntField(back[4], "decided_at_ns="),
      IntField(back[5], "expires_at_ns="), IntField(back[6], "aegis_state_seq=") ]
  }

  function FieldsFrom(front: seq<string>, side: string, back: seq<string>): Option<Fields>
    requires |front| == 3 && |back| == 9
  {
    var t, n := TextFields(front, side, back), IntFields(back);
    if front[0] == VERSION && (forall i :: 0 <= i < 6 ==> t[i].Some? && n[i].Some?) then
      Some(Fields(t[0].value, t[1].value, t[2].value, t[3].value,
                  n[0].value, n[1].value, n[2].value, n[3].value, n[4].value, n[5].value, t[4].value, t[5].value))
    else None
  }

  /** Three lines off the front, nine off the back; what is left is the side, whatever it contains. */
  function Decode(text: string): Option<Fields> {
    var front := CutFront(text, 3);
    if front.None? then None
    else
      var back := CutBack(front.value.1, 9);
      if back.None? || back.value.0 == [] || |front.value.0| != 3 || |back.value.1| != 9 then None
      else FieldsFrom(front.value.0, back.value.0[..|back.value.0| - 1], back.value.1)
  }

  lemma ValueOf(name: string, value: string)
    ensures Value(name + value, name) == Some(value)
  {
    assert name <= name + value;
  }

  lemma IntFieldOf(name: string, n: int)
    ensures IntField(name + IntText(n), name) == Some(n)
  {
    ValueOf(name, IntText(n));
    IntRoundTrip(n);
  }

  lemma TextFieldsRoundTrip(f: Fields)
    ensures TextFields(FrontLines(f), "side=" + f.side, BackLines(f))
         == [Some(f.signalId), Some(f.symbol), Some(f.side), Some(f.orderType), Some(f.limitsConfig), Some(f.keyId)]
  {
    ValueOf("signal_id=", f.signalId);
    ValueOf("symbol=", f.symbol);
    ValueOf("side=", f.side);
    ValueOf("order_type=", f.orderType);
    ValueOf("limits_config_sha256=", f.limitsConfig);
    ValueOf("key_id=", f.keyId);
  }

  lemma IntFieldsRoundTrip(f: Fields)
    ensures IntFields(BackLines(f))
         == [ Some(f.qtyNanos), Some(f.limitPriceNanos), Some(f.stopPriceNanos), Some(f.decidedAtNs),
              Some(f.expiresAtNs), Some(f.aegisStateSeq) ]
  {
    IntFieldOf("qty_nanos=", f.qtyNanos);
    IntFieldOf("limit_price_nanos=", f.limitPriceNanos);
    IntFieldOf("stop_price_nanos=", f.stopPriceNanos);
    IntFieldOf("decided_at_ns=", f.decidedAtNs);
    IntFieldOf("expires_at_ns=", f.expiresAtNs);
    IntFieldOf("aegis_state_seq=", f.aegisStateSeq);
  }

  lemma FieldsRoundTrip(f: Fields)
    ensures FieldsFrom(FrontLines(f), "side=" + f.side, BackLines(f)) == Some(f)
  {
    TextFieldsRoundTrip(f);
    IntFieldsRoundTrip(f);
    FieldsGiveBack(FrontLines(f), "side=" + f.side, BackLines(f), f);
  }

  lemma FieldsGiveBack(front: seq<string>, side: string, back: seq<string>, f: Fields)
    requires |front| == 3 && |back| == 9 && front[0] == VERSION
    requires TextFields(front, side, back)
          == [Some(f.signalId), Some(f.symbol), Some(f.side), Some(f.orderType), Some(f.limitsConfig), Some(f.keyId)]
    requires IntFields(back)
          == [ Some(f.qtyNanos), Some(f.limitPriceNanos), Some(f.stopPriceNanos), Some(f.decidedAtNs),
               Some(f.expiresAtNs), Some(f.aegisStateSeq) ]
    ensures FieldsFrom(front, side, back) == Some(f)
  {
  }

  lemma LabelledHasNoBreak(name: string, value: string)
    requires '\n' !in name && '\n' !in value
    ensures '\n' !in name + value
  {
  }

  lemma CleanHasNoBreak(value: string)
    requires Clean(value)
    ensures '\n' !in value
  {
  }

  lemma FrontIsUnbroken(f: Fields)
    requires Buildable(f)
    ensures Unbroken(FrontLines(f))
  {
    CleanHasNoBreak(f.signalId);
    CleanHasNoBreak(f.symbol);
  }

  lemma NamesAreUnbroken()
    ensures Unbroken(BACK_NAMES)
  {
    FirstNamesAreUnbroken();
    LastNamesAreUnbroken();
    assert BACK_NAMES == BACK_NAMES[..5] + BACK_NAMES[5..];
  }

  lemma FirstNamesAreUnbroken()
    ensures Unbroken(BACK_NAMES[..5])
  {
    assert BACK_NAMES[..5] == ["order_type=", "qty_nanos=", "limit_price_nanos=",
                               "stop_price_nanos=", "decided_at_ns="];
  }

  lemma LastNamesAreUnbroken()
    ensures Unbroken(BACK_NAMES[5..])
  {
    assert BACK_NAMES[5..] == ["expires_at_ns=", "aegis_state_seq=", "limits_config_sha256=", "key_id="];
  }

  lemma BackIsUnbroken(f: Fields)
    requires Buildable(f)
    ensures Unbroken(BackLines(f))
  {
    var values := [ f.orderType, IntText(f.qtyNanos), IntText(f.limitPriceNanos), IntText(f.stopPriceNanos),
                    IntText(f.decidedAtNs), IntText(f.expiresAtNs), IntText(f.aegisStateSeq), f.limitsConfig, f.keyId ];
    BackValuesAreUnbroken(f, values);
    NamesAreUnbroken();
    LabelledUnbroken(BackLines(f), BACK_NAMES, values);
  }

  const BACK_NAMES := [ "order_type=", "qty_nanos=", "limit_price_nanos=", "stop_price_nanos=", "decided_at_ns=",
                        "expires_at_ns=", "aegis_state_seq=", "limits_config_sha256=", "key_id=" ]

  lemma BackValuesAreUnbroken(f: Fields, values: seq<string>)
    requires Buildable(f)
    requires values == [ f.orderType, IntText(f.qtyNanos), IntText(f.limitPriceNanos), IntText(f.stopPriceNanos),
                         IntText(f.decidedAtNs), IntText(f.expiresAtNs), IntText(f.aegisStateSeq),
                         f.limitsConfig, f.keyId ]
    ensures Unbroken(values)
  {
    CleanHasNoBreak(f.orderType);
    CleanHasNoBreak(f.limitsConfig);
    CleanHasNoBreak(f.keyId);
    IntTextHasNoBreak(f.qtyNanos);
    IntTextHasNoBreak(f.limitPriceNanos);
    IntTextHasNoBreak(f.stopPriceNanos);
    IntTextHasNoBreak(f.decidedAtNs);
    IntTextHasNoBreak(f.expiresAtNs);
    IntTextHasNoBreak(f.aegisStateSeq);
  }

  lemma LabelledUnbroken(lines: seq<string>, names: seq<string>, values: seq<string>)
    requires |lines| == |names| == |values| && Unbroken(names) && Unbroken(values)
    requires forall i :: 0 <= i < |lines| ==> lines[i] == names[i] + values[i]
    ensures Unbroken(lines)
  {
    forall i | 0 <= i < |lines| ensures '\n' !in lines[i] {
      LabelledHasNoBreak(names[i], values[i]);
    }
  }

  /** The decoder undoes the builder, for every side string whatsoever. */
  lemma TextRoundTrip(f: Fields)
    requires Buildable(f)
    ensures Decode(Text(f)) == Some(f)
  {
    FrontIsUnbroken(f);
    BackIsUnbroken(f);
    CutBothEnds(FrontLines(f), "side=" + f.side, BackLines(f));
    FieldsRoundTrip(f);
  }

  lemma DecodeParts(text: string, front: seq<string>, rest: string, side: string, back: seq<string>)
    requires |front| == 3 && |back| == 9
    requires CutFront(text, 3) == Some((front, rest)) && CutBack(rest, 9) == Some((side + "\n", back))
    ensures Decode(text) == FieldsFrom(front, side, back)
  {
    assert (side + "\n")[..|side|] == side;
  }

  /** Cutting three lines off the front and nine off the back leaves the middle, whatever it holds. */
  lemma CutBothEnds(front: seq<string>, side: string, back: seq<string>)
    requires |front| == 3 && |back| == 9 && Unbroken(front) && Unbroken(back)
    ensures Decode(Join(front + [side] + back)) == FieldsFrom(front, side, back)
  {
    var rest := side + "\n" + Join(back);
    JoinConcat(front + [side], back);
    JoinSnoc(front, side);
    Regroup(Join(front), side, "\n", Join(back));
    CutFrontOfJoin(front, rest);
    CutBackOfJoin(side + "\n", back);
    DecodeParts(Join(front) + rest, front, rest, side, back);
  }

  /** Two attestations that build the same text agree on all twelve fields. */
  lemma TextIsInjective(f: Fields, g: Fields)
    requires BuildCanonicalText(f).Ok? && BuildCanonicalText(g).Ok?
    requires BuildCanonicalText(f) == BuildCanonicalText(g)
    ensures f == g
  {
    TextRoundTrip(f);
    TextRoundTrip(g);
  }

  // ---------------------------------------------------------------- candidate sides

  /** candidate_side_names: None where it raises. */
  function CandidateSideNames(orderSide: int, allowShort: bool): (r: Option<seq<string>>)
    ensures r.Some? <==> orderSide == 1 || orderSide == 2
    ensures orderSide == 1 ==> r == Some(["BUY"])
    ensures orderSide == 2 ==> r.value == ["SELL"] + if allowShort then ["SELL_SHORT"] else []
  {
    if orderSide == 1 then Some([SIDE_BUY])
    else if orderSide == 2 then Some(if allowShort then [SIDE_SELL, SIDE_SELL_SHORT] else [SIDE_SELL])
    else None
  }
}
