/** The pieces of Go's strconv and strings packages that the lifecycle relies on:
    base-10 formatting and parsing of int64 values and whitespace trimming. */
module Text {
  import opened Common

  predicate IsDigit(c: char) { '0' <= c <= '9' }

  predicate AllDigits(s: string) { forall i :: 0 <= i < |s| ==> IsDigit(s[i]) }

  function DigitChar(d: nat): (c: char)
    requires d < 10
    ensures IsDigit(c)
  {
    ('0' as int + d) as char
  }

  function DigitValue(c: char): (d: nat)
    requires IsDigit(c)
    ensures d < 10
  {
    c as int - '0' as int
  }

  /** Decimal digits of n, most significant first, without leading zeros. */
  function FormatNat(n: nat): (s: string)
    ensures |s| >= 1 && AllDigits(s)
    ensures n < 10 <==> |s| == 1
    decreases n
  {
    if n < 10 then [DigitChar(n)] else FormatNat(n / 10) + [DigitChar(n % 10)]
  }

  /** strconv.FormatInt(v, 10). */
  function FormatInt(v: int): (s: string)
    ensures |s| >= 1
    ensures v >= 0 ==> AllDigits(s)
    ensures v < 0 ==> s[0] == '-' && AllDigits(s[1..])
  {
    if v < 0 then "-" + FormatNat(-v) else FormatNat(v)
  }

  /** The number a digit string denotes (leading zeros allowed). */
  function DigitsValue(s: string): nat
    requires AllDigits(s)
  {
    if |s| == 0 then 0 else DigitsValue(s[..|s| - 1]) * 10 + DigitValue(s[|s| - 1])
  }

  /** strconv.ParseInt(s, 10, 64): an optional sign, then one or more decimal digits
      (no prefix, no underscores, since the base is given), in the int64 range.
      None stands for the syntax and range errors. */
  function ParseInt(s: string): (r: Option<Int64>)
    ensures r.Some? ==> |s| >= 1
    ensures r.Some? && r.value < 0 ==> s[0] == '-'
  {
    if |s| == 0 then None
    else
      var negative := s[0] == '-';
      var digits := if s[0] == '+' || s[0] == '-' then s[1..] else s;
      if |digits| == 0 || !AllDigits(digits) then None
      else
        var n: int := DigitsValue(digits);
        var v: int := if negative then -n else n;
        if Int64Min <= v < Int64Limit then Some(v) else None
  }

  lemma {:induction false} DigitsValueOfFormat(n: nat)
    ensures DigitsValue(FormatNat(n)) == n
    decreases n
  {
    if n >= 10 {
      var s := FormatNat(n);
      DigitsValueOfFormat(n / 10);
      assert s[..|s| - 1] == FormatNat(n / 10);
      assert DigitValue(s[|s| - 1]) == n % 10;
    }
  }

  /** Formatting then parsing gives the value back: decimal ids written into
      labels can be read again. */
  lemma ParseFormatRoundTrip(v: Int64)
    ensures ParseInt(FormatInt(v)) == Some(v)
  {
    var s := FormatInt(v);
    if v < 0 {
      var m: nat := -(v as int);
      DigitsValueOfFormat(m);
      assert s == "-" + FormatNat(m);
      assert s[1..] == FormatNat(m);
    } else {
      DigitsValueOfFormat(v);
      assert IsDigit(s[0]);
    }
  }

  /** Every string of one or more decimal digits, with no sign, a '+' or a
      '-' in front (leading zeros allowed), parses to the value it denotes
      when that value is in the int64 range, and is a range error otherwise. */
  lemma ParseIntDigits(sign: string, d: string)
    requires sign == "" || sign == "+" || sign == "-"
    requires |d| >= 1 && AllDigits(d)
    ensures var v: int := if sign == "-" then -(DigitsValue(d) as int) else DigitsValue(d);
      ParseInt(sign + d) == if Int64Min <= v < Int64Limit then Some(v) else None
  {
    var s := sign + d;
    if sign == "" {
      assert s == d;
      assert IsDigit(s[0]);
    } else {
      assert s[0] == sign[0] && s[1..] == d;
    }
  }

  /** Only a sign followed by one or more digits, or digits alone, parse:
      with ParseIntDigits this fixes ParseInt on every input. */
  lemma ParseIntShape(s: string)
    ensures ParseInt(s).Some? ==>
              || (|s| >= 1 && AllDigits(s))
              || (|s| >= 2 && (s[0] == '+' || s[0] == '-') && AllDigits(s[1..]))
  {
  }

  /** A string holding a character that is neither a digit nor a leading sign
      does not parse. */
  lemma ParseIntRejectsNonDigit(s: string, i: nat)
    requires 0 < i < |s| || (i == 0 && |s| > 0 && s[0] != '-' && s[0] != '+')
    requires !IsDigit(s[i])
    ensures ParseInt(s) == None
  {
    var digits := if s[0] == '+' || s[0] == '-' then s[1..] else s;
    if s[0] == '+' || s[0] == '-' {
      assert digits[i - 1] == s[i];
    } else {
      assert digits[i] == s[i];
    }
  }

  /** The ASCII white space that strings.TrimSpace removes. */
  predicate IsSpace(c: char) { c == ' ' || 9 <= c as int <= 13 }

  function TrimLeft(s: string): (r: string)
    ensures |r| <= |s| && r == s[|s| - |r|..]
    ensures forall j :: 0 <= j < |s| - |r| ==> IsSpace(s[j])
    ensures |r| > 0 ==> !IsSpace(r[0])
  {
    if |s| > 0 && IsSpace(s[0]) then TrimLeft(s[1..]) else s
  }

  function TrimRight(s: string): (r: string)
    ensures |r| <= |s| && r == s[..|r|]
    ensures forall j :: |r| <= j < |s| ==> IsSpace(s[j])
    ensures |r| > 0 ==> !IsSpace(r[|r| - 1])
  {
    if |s| > 0 && IsSpace(s[|s| - 1]) then TrimRight(s[..|s| - 1]) else s
  }

  /** strings.TrimSpace restricted to ASCII white space. */
  function TrimSpace(s: string): (r: string)
    ensures |r| <= |s|
  {
    TrimRight(TrimLeft(s))
  }

  /** TrimSpace gives the longest infix of s that neither starts nor ends
      with white space, obtained by removing only white space. */
  lemma TrimSpaceShape(s: string)
    ensures var r := TrimSpace(s);
      && (|r| > 0 ==> !IsSpace(r[0]) && !IsSpace(r[|r| - 1]))
      && exists k :: 0 <= k <= |s| && r <= s[k..] && AllSpace(s[..k]) && AllSpace(s[k..][|r|..])
  {
    var l := TrimLeft(s);
    var r := TrimRight(l);
    var k := |s| - |l|;
    assert l == s[k..];
    assert AllSpace(s[..k]);
    assert AllSpace(l[|r|..]);
  }

  predicate AllSpace(s: string) { forall j :: 0 <= j < |s| ==> IsSpace(s[j]) }

  lemma TrimLeftNoLeadingSpace(s: string)
    requires |s| == 0 || !IsSpace(s[0])
    ensures TrimLeft(s) == s
  {
  }

  /** Trimming twice is trimming once. */
  lemma TrimSpaceIdempotent(s: string)
    ensures TrimSpace(TrimSpace(s)) == TrimSpace(s)
  {
    var t := TrimSpace(s);
    TrimSpaceShape(s);
    TrimLeftNoLeadingSpace(t);
    if |t| > 0 {
      assert TrimRight(t) == t;
    }
  }

  /** The fields with '-' between each two, as strings.Join(fields, "-") gives them. */
  function JoinHyphen(fields: seq<string>): string
  {
    if |fields| == 0 then ""
    else if |fields| == 1 then fields[0]
    else fields[0] + "-" + JoinHyphen(fields[1..])
  }

  /** The joined string ends with the last field. */
  lemma {:induction false} JoinHyphenEndsWithLast(fields: seq<string>)
    requires |fields| >= 1
    ensures var s, last := JoinHyphen(fields), fields[|fields| - 1];
      |s| >= |last| && s[|s| - |last|..] == last
    decreases |fields|
  {
    if |fields| > 1 {
      JoinHyphenEndsWithLast(fields[1..]);
    }
  }

  /** The fields between '-' separators, as strings.Split(s, "-") gives them. */
  function SplitHyphen(s: string): (fields: seq<string>)
    ensures |fields| >= 1
  {
    if |s| == 0 then [""]
    else if s[0] == '-' then [""] + SplitHyphen(s[1..])
    else
      var rest := SplitHyphen(s[1..]);
      [[s[0]] + rest[0]] + rest[1..]
  }

  lemma {:induction false} SplitHyphenNoSeparator(x: string)
    requires '-' !in x
    ensures SplitHyphen(x) == [x]
  {
    if |x| > 0 {
      assert '-' !in x[1..] by {
        forall j | 0 <= j < |x[1..]| ensures x[1..][j] != '-' { assert x[1..][j] == x[j + 1]; }
      }
      SplitHyphenNoSeparator(x[1..]);
      assert [x[0]] + x[1..] == x;
    }
  }

  lemma {:induction false} SplitHyphenCons(x: string, y: string)
    requires '-' !in x
    ensures SplitHyphen(x + "-" + y) == [x] + SplitHyphen(y)
    decreases |x|
  {
    if |x| == 0 {
      assert x + "-" + y == "-" + y;
      assert ("-" + y)[1..] == y;
    } else {
      var s := x + "-" + y;
      assert s[0] == x[0];
      assert s[1..] == x[1..] + "-" + y;
      assert '-' !in x[1..] by {
        forall j | 0 <= j < |x[1..]| ensures x[1..][j] != '-' { assert x[1..][j] == x[j + 1]; }
      }
      SplitHyphenCons(x[1..], y);
      assert [x[0]] + x[1..] == x;
    }
  }

  predicate NoDoubleHyphen(s: string)
  {
    forall i :: 0 <= i < |s| - 1 ==> !(s[i] == '-' && s[i + 1] == '-')
  }

  /** Joining a non-empty hyphen-free field to a tail that does not start with
      '-' creates no "--". */
  lemma NoDoubleHyphenCons(x: string, y: string)
    requires |x| > 0 && '-' !in x
    requires NoDoubleHyphen(y) && (|y| > 0 ==> y[0] != '-')
    ensures NoDoubleHyphen(x + "-" + y)
  {
    var s := x + "-" + y;
    forall i | 0 <= i < |s| - 1 ensures !(s[i] == '-' && s[i + 1] == '-') {
      if i < |x| {
        assert s[i] == x[i];
      } else if i == |x| {
        assert s[i + 1] == y[0];
      } else {
        assert s[i] == y[i - |x| - 1] && s[i + 1] == y[i - |x|];
      }
    }
  }

  /** Splitting on '-' undoes joining with '-' when no field holds a '-'. */
  lemma {:induction false} SplitJoinHyphen(fields: seq<string>)
    requires |fields| >= 1
    requires forall i :: 0 <= i < |fields| ==> '-' !in fields[i]
    ensures SplitHyphen(JoinHyphen(fields)) == fields
    decreases |fields|
  {
    if |fields| == 1 {
      SplitHyphenNoSeparator(fields[0]);
    } else {
      SplitJoinHyphen(fields[1..]);
      SplitHyphenCons(fields[0], JoinHyphen(fields[1..]));
      assert [fields[0]] + fields[1..] == fields;
    }
  }

  /** Joining hyphen-free fields, all but the last non-empty, creates no "--"
      and does not start with '-'. */
  lemma {:induction false} JoinHyphenNoDouble(fields: seq<string>)
    requires |fields| >= 1
    requires forall i :: 0 <= i < |fields| ==> '-' !in fields[i]
    requires forall i :: 0 <= i < |fields| - 1 ==> |fields[i]| > 0
    ensures NoDoubleHyphen(JoinHyphen(fields))
    ensures |JoinHyphen(fields)| > 0 ==> JoinHyphen(fields)[0] != '-'
    decreases |fields|
  {
    var x := fields[0];
    if |fields| == 1 {
      forall i | 0 <= i < |x| - 1 ensures !(x[i] == '-' && x[i + 1] == '-') {
        assert x[i] in x;
      }
      assert |x| > 0 ==> x[0] in x;
    } else {
      JoinHyphenNoDouble(fields[1..]);
      NoDoubleHyphenCons(x, JoinHyphen(fields[1..]));
      assert x[0] in x;
    }
  }
}
