/** The two pieces of Rust's core library that the address lookup relies on:
    `str::rsplit_once` and `u16::from_str` (decimal, as `str::parse` uses it),
    with a decimal printer to state what the parser accepts. */
module CoreStr {
  import opened Common

  /** `s.rsplit_once(c)`: the text before and after the LAST occurrence of `c`. */
  function RSplitOnce(s: string, c: char): (r: Option<(string, string)>)
    ensures r.None? <==> c !in s
    ensures r.Some? ==> r.value.0 + [c] + r.value.1 == s && c !in r.value.1
  {
    if s == [] then None
    else
      var init, last := s[..|s| - 1], s[|s| - 1];
      assert s == init + [last];
      if last == c then Some((init, []))
      else
        match RSplitOnce(init, c)
        case None => None
        case Some((before, after)) => Some((before, after + [last]))
  }

  /** Splitting at the last `c` undoes a join at `c` whenever the right part has
      no `c`, whatever the left part holds. */
  lemma {:induction false} RSplitOnceOfJoin(before: string, after: string, c: char)
    requires c !in after
    ensures RSplitOnce(before + [c] + after, c) == Some((before, after))
  {
    var s := before + [c] + after;
    if after != [] {
      var init := after[..|after| - 1];
      assert s[..|s| - 1] == before + [c] + init;
      assert after == init + [after[|after| - 1]];
      RSplitOnceOfJoin(before, init, c);
    } else {
      assert s[..|s| - 1] == before;
    }
  }

  predicate IsDigit(ch: char) {
    '0' <= ch <= '9'
  }

  predicate AllDigits(ds: string) {
    forall i :: 0 <= i < |ds| ==> IsDigit(ds[i])
  }

  function DigitValue(ch: char): (d: nat)
    requires IsDigit(ch)
    ensures d < 10
  {
    ch as int - '0' as int
  }

  function DigitChar(d: nat): (ch: char)
    requires d < 10
    ensures IsDigit(ch) && DigitValue(ch) == d
  {
    ('0' as int + d) as char
  }

  /** The number a string of decimal digits denotes, read positionally. */
  function Value(ds: string): nat
    requires AllDigits(ds)
  {
    if ds == [] then 0 else Value(ds[..|ds| - 1]) * 10 + DigitValue(ds[|ds| - 1])
  }

  /** The digit loop of `u16::from_str_radix(_, 10)`: accumulates left to right
      and fails on a non-digit or as soon as the value leaves `u16`. */
  function ParseDigits(acc: u16, ds: string): (r: Option<u16>)
    ensures r.Some? ==> AllDigits(ds) && acc <= r.value
    decreases |ds|
  {
    if ds == [] then Some(acc)
    else if !IsDigit(ds[0]) then None
    else
      var v := acc * 10 + DigitValue(ds[0]);
      if v > U16_MAX then None else ParseDigits(v, ds[1..])
  }

  /** `u16::from_str`: an optional leading `+`, then one or more decimal digits.
      The empty string, a lone sign and any `-` are rejected. */
  function ParseU16(s: string): (r: Option<u16>)
    ensures r.Some? ==> |Unsigned(s)| > 0 && AllDigits(Unsigned(s))
  {
    if s == [] then None
    else if (s[0] == '+' || s[0] == '-') && |s| == 1 then None
    else if s[0] == '+' then ParseDigits(0, s[1..])
    else ParseDigits(0, s)
  }

  /** The digits of a number literal: the string without a leading `+`. */
  function Unsigned(s: string): string {
    if |s| > 0 && s[0] == '+' then s[1..] else s
  }

  /** Appending digits never lowers the value read. */
  lemma {:induction false} ValueGrows(pre: string, ds: string)
    requires AllDigits(pre) && AllDigits(ds)
    ensures AllDigits(pre + ds) && Value(pre + ds) >= Value(pre)
  {
    assert AllDigits(pre + ds);
    if ds != [] {
      var init := ds[..|ds| - 1];
      assert (pre + ds)[..|pre + ds| - 1] == pre + init;
      ValueGrows(pre, init);
    } else {
      assert pre + ds == pre;
    }
  }

  /** The accumulating loop computes the positional value, failing exactly when
      a non-digit occurs or the whole value exceeds `u16`. */
  lemma {:induction false} ParseDigitsComputesValue(pre: string, ds: string)
    requires AllDigits(pre) && Value(pre) <= U16_MAX
    ensures ParseDigits(Value(pre), ds)
            == if AllDigits(pre + ds) && Value(pre + ds) <= U16_MAX then Some(Value(pre + ds)) else None
    decreases |ds|
  {
    if ds == [] {
      assert pre + ds == pre;
    } else if !IsDigit(ds[0]) {
      assert (pre + ds)[|pre|] == ds[0];
    } else {
      var pre' := pre + [ds[0]];
      assert AllDigits(pre');
      assert pre'[..|pre'| - 1] == pre;
      assert pre' + ds[1..] == pre + ds;
      var v := Value(pre) * 10 + DigitValue(ds[0]);
      assert v == Value(pre');
      if v > U16_MAX {
        if AllDigits(pre + ds) {
          assert forall i :: 0 <= i < |ds| - 1 ==> ds[1..][i] == (pre + ds)[|pre| + 1 + i];
          ValueGrows(pre', ds[1..]);
        }
      } else {
        ParseDigitsComputesValue(pre', ds[1..]);
      }
    }
  }

  /** `u16::from_str` accepts exactly the strings whose digits (after an optional
      `+`) are nonempty, all decimal, and denote at most 65535, and gives that value. */
  lemma ParseU16Accepts(s: string)
    ensures ParseU16(s).Some? <==>
            |Unsigned(s)| > 0 && AllDigits(Unsigned(s)) && Value(Unsigned(s)) <= U16_MAX
    ensures ParseU16(s).Some? ==> ParseU16(s).value == Value(Unsigned(s))
  {
    assert AllDigits([]) && Value([]) == 0;
    var u := Unsigned(s);
    ParseDigitsComputesValue([], u);
    assert [] + u == u;
    if s != [] && s[0] == '-' {
      assert !IsDigit(u[0]);
    }
  }

  /** What `u16::from_str` rejects: the empty string, a lone `+` or `-`, any
      string holding a `-`, and any value above 65535. */
  lemma ParseU16Rejects(s: string)
    ensures s == [] || s == "+" || s == "-" ==> ParseU16(s).None?
    ensures '-' in s ==> ParseU16(s).None?
    ensures AllDigits(Unsigned(s)) && Value(Unsigned(s)) > U16_MAX ==> ParseU16(s).None?
  {
    ParseU16Accepts(s);
    if '-' in s {
      var i :| 0 <= i < |s| && s[i] == '-';
      if |Unsigned(s)| > 0 && s[0] == '+' {
        assert Unsigned(s)[i - 1] == '-';
      } else if |Unsigned(s)| > 0 {
        assert Unsigned(s)[i] == '-';
      }
    }
  }

  /** The decimal form of a number (`to_string`), most significant digit first. */
  function ToDecimal(n: nat): (s: string)
    ensures |s| > 0 && AllDigits(s) && Value(s) == n
  {
    if n < 10 then [DigitChar(n)]
    else
      var init := ToDecimal(n / 10);
      var s := init + [DigitChar(n % 10)];
      assert AllDigits(s);
      assert s[..|s| - 1] == init;
      s
  }

  /** Every port printed in decimal parses back to itself. */
  lemma ParseU16OfDecimal(n: u16)
    ensures ParseU16(ToDecimal(n)) == Some(n)
  {
    var s := ToDecimal(n);
    assert IsDigit(s[0]);
    ParseU16Accepts(s);
  }
}
