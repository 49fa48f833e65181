/** Types and helpers shared by the frontend pages and the backend routers. */
module Common {

  datatype Option<T> = None | Some(value: T)

  /** What a FastAPI route produces: its normal return value, or the
      status code and `detail` of the HTTPException it raised. */
  datatype Response<T> = Ok(value: T) | Error(code: int, detail: string)

  /** The role names the backend and the pages compare against. */
  const CUSTOMER: string := "customer"
  const OWNER: string := "owner"
  const DRIVER: string := "driver"
  const ADMIN: string := "admin"

  /** JavaScript `detail || fallback` for a `detail` field that may be
      missing; the empty string is falsy and also yields the fallback. */
  function OrElse(detail: Option<string>, fallback: string): (m: string)
    ensures detail.Some? && detail.value != "" ==> m == detail.value
    ensures detail.None? || detail.value == "" ==> m == fallback
  {
    if detail.Some? && detail.value != "" then detail.value else fallback
  }

  predicate IsDigit(c: char) { '0' <= c <= '9' }

  predicate AllDigits(s: string) { forall i :: 0 <= i < |s| ==> IsDigit(s[i]) }

  function DigitChar(d: nat): (c: char)
    requires d < 10
    ensures IsDigit(c) && DigitValue(c) == d
  {
    ['0', '1', '2', '3', '4', '5', '6', '7', '8', '9'][d]
  }

  function DigitValue(c: char): nat
    requires IsDigit(c)
  {
    (c as int - '0' as int) as nat
  }

  /** Decimal rendering of a number, as a JavaScript template literal or a
      Python f-string writes it. */
  function NatToString(n: nat): (s: string)
    ensures |s| > 0 && AllDigits(s)
  {
    if n < 10 then [DigitChar(n)] else NatToString(n / 10) + [DigitChar(n % 10)]
  }

  function IntToString(n: int): (s: string)
    ensures |s| > 0
  {
    if n < 0 then "-" + NatToString(-n) else NatToString(n)
  }

  /** The value of a non-empty string of decimal digits. */
  function DigitsValue(s: string): nat
    requires AllDigits(s)
  {
    if s == [] then 0 else DigitsValue(s[..|s| - 1]) * 10 + DigitValue(s[|s| - 1])
  }

  lemma {:induction false} DigitsValueOfNatToString(n: nat)
    ensures DigitsValue(NatToString(n)) == n
  {
    if n >= 10 {
      var s := NatToString(n);
      assert s[..|s| - 1] == NatToString(n / 10);
      DigitsValueOfNatToString(n / 10);
    }
  }

  /** The ASCII white space `Number` strips: tab, line feed, vertical
      tab, form feed, carriage return and space. */
  predicate IsSpace(c: char) { '\t' <= c <= '\r' || c == ' ' }

  /** `s.trim()`: leading and trailing white space removed. */
  function Trim(s: string): (t: string)
    ensures |t| <= |s|
    ensures t != [] ==> !IsSpace(t[0]) && !IsSpace(t[|t| - 1])
  {
    if s != [] && IsSpace(s[0]) then Trim(s[1..])
    else if s != [] && IsSpace(s[|s| - 1]) then Trim(s[..|s| - 1])
    else s
  }

  /** The number of leading decimal digits of `u`. */
  function DigitRun(u: string): (k: nat)
    ensures k <= |u| && AllDigits(u[..k])
    ensures k < |u| ==> !IsDigit(u[k])
  {
    if u != [] && IsDigit(u[0]) then
      var k := 1 + DigitRun(u[1..]);
      assert u[..k] == [u[0]] + u[1..][..k - 1];
      k
    else 0
  }

  predicate AllZeros(z: string) { forall i :: 0 <= i < |z| ==> z[i] == '0' }

  /** Unsigned decimal text of a whole number: digits, optionally followed
      by "." and zeros only, with at least one digit in all ("5", "5.",
      "5.00", ".0"). */
  function Whole(u: string): (r: Option<nat>)
    ensures r.Some? ==> forall i :: 0 <= i < |u| ==> IsDigit(u[i]) || u[i] == '.'
    ensures AllDigits(u) && u != "" ==> r == Some(DigitsValue(u))
  {
    var k := DigitRun(u);
    var rest := u[k..];
    if (rest == "" || (rest[0] == '.' && AllZeros(rest[1..]))) && (k > 0 || |rest| > 1) then
      assert forall i :: k < i < |u| ==> u[i] == rest[1..][i - k - 1];
      assert AllDigits(u) && u != "" ==> u[..k] == u;
      Some(DigitsValue(u[..k]))
    else None
  }

  /** A character that may occur in text `Number` reads as a whole number. */
  predicate NumberChar(c: char) { IsDigit(c) || c == '+' || c == '-' || c == '.' }

  /** JavaScript `Number(s)` on the strings the pages pass it, for text
      whose value is a whole number: white space around it is ignored,
      blank text is 0, an optional sign may precede digits with an
      all-zero fraction, and everything else is NaN (None). */
  function ParseNumber(s: string): (r: Option<int>)
    ensures Trim(s) == "" ==> r == Some(0)
    ensures AllDigits(s) && s != "" ==> r == Some(DigitsValue(s))
    ensures r.Some? ==> forall i :: 0 <= i < |Trim(s)| ==> NumberChar(Trim(s)[i])
  {
    assert AllDigits(s) && s != "" ==> Trim(s) == s;
    NumberOfTrimmed(Trim(s))
  }

  /** `Number` on text already trimmed. */
  function NumberOfTrimmed(t: string): (r: Option<int>)
    ensures t == "" ==> r == Some(0)
    ensures AllDigits(t) && t != "" ==> r == Some(DigitsValue(t))
    ensures r.Some? ==> forall i :: 0 <= i < |t| ==> NumberChar(t[i])
  {
    if t == "" then Some(0)
    else if t[0] == '-' then
      var v := Whole(t[1..]);
      assert v.Some? ==> forall i :: 1 <= i < |t| ==> t[i] == t[1..][i - 1];
      if v.Some? then Some(-(v.value as int)) else None
    else if t[0] == '+' then
      var v := Whole(t[1..]);
      assert v.Some? ==> forall i :: 1 <= i < |t| ==> t[i] == t[1..][i - 1];
      if v.Some? then Some(v.value as int) else None
    else
      var v := Whole(t);
      if v.Some? then Some(v.value as int) else None
  }

  /** Rendering a number and reading it back gives the number. */
  lemma {:induction false} NumberOfIntToString(n: int)
    ensures ParseNumber(IntToString(n)) == Some(n)
  {
    var m: nat := if n < 0 then -n else n;
    var d := NatToString(m);
    assert Whole(d) == Some(m) by {
      DigitsValueOfNatToString(m);
    }
    if n < 0 {
      var s := "-" + d;
      assert IntToString(n) == s;
      NegatedWhole(d);
      assert s[|s| - 1] == d[|d| - 1];
      ParseUntrimmed(s);
    } else {
      assert IntToString(n) == d;
      assert IsDigit(d[0]) && IsDigit(d[|d| - 1]);
      ParseUntrimmed(d);
    }
  }


  /** White space before the text does not change its trimmed form. */
  lemma {:induction false} TrimCons(c: char, s: string)
    requires IsSpace(c)
    ensures Trim([c] + s) == Trim(s)
  {
    assert ([c] + s)[1..] == s;
  }

  /** Nor does white space after it. */
  lemma {:induction false} TrimSnoc(s: string, c: char)
    requires IsSpace(c)
    ensures Trim(s + [c]) == Trim(s)
    decreases |s|
  {
    var t := s + [c];
    if s != [] && IsSpace(s[0]) {
      assert t[1..] == s[1..] + [c];
      TrimSnoc(s[1..], c);
    } else {
      assert t[..|t| - 1] == s;
    }
  }

  /** `Number` ignores white space around the text. */
  lemma {:induction false} NumberIgnoresSpaces(before: char, s: string, after: char)
    requires IsSpace(before) && IsSpace(after)
    ensures ParseNumber([before] + s + [after]) == ParseNumber(s)
  {
    TrimSnoc(s, after);
    TrimCons(before, s + [after]);
    assert [before] + s + [after] == [before] + (s + [after]);
    assert Trim([before] + s + [after]) == Trim(s);
  }

  /** A unary plus in front of digits gives their value. */
  lemma {:induction false} NumberWithPlus(n: nat)
    ensures ParseNumber("+" + NatToString(n)) == Some(n)
  {
    var d := NatToString(n);
    var s := "+" + d;
    assert s[1..] == d;
    assert Trim(s) == s;
    DigitsValueOfNatToString(n);
  }

  /** Digits followed by "." and zeros are read as the whole number. */
  lemma {:induction false} DigitRunStopsAtPoint(d: string, z: string)
    requires AllDigits(d) && AllZeros(z)
    ensures DigitRun(d + "." + z) == |d|
    decreases |d|
  {
    var u := d + "." + z;
    if d != [] {
      assert u[1..] == d[1..] + "." + z;
      DigitRunStopsAtPoint(d[1..], z);
    }
  }

  lemma {:induction false} WholeWithZeroFraction(d: string, z: string)
    requires AllDigits(d) && d != "" && AllZeros(z)
    ensures Whole(d + "." + z) == Some(DigitsValue(d))
  {
    var u := d + "." + z;
    DigitRunStopsAtPoint(d, z);
    assert u[..|d|] == d && u[|d|..] == "." + z && ("." + z)[1..] == z;
  }

  /** Text with no white space at either end is read as it stands. */
  lemma {:induction false} ParseUntrimmed(s: string)
    requires s != [] && !IsSpace(s[0]) && !IsSpace(s[|s| - 1])
    ensures ParseNumber(s) == NumberOfTrimmed(s)
  {
    assert Trim(s) == s;
  }

  lemma {:induction false} NegatedWhole(u: string)
    requires Whole(u).Some?
    ensures NumberOfTrimmed("-" + u) == Some(-(Whole(u).value as int))
  {
    assert ("-" + u)[1..] == u;
  }

  /** A whole number's text followed by "." and zeros reads as the
      number. */
  lemma {:induction false} NumberWithZeroFraction(n: int, z: string)
    requires AllZeros(z)
    ensures ParseNumber(IntToString(n) + "." + z) == Some(n)
  {
    var m: nat := if n < 0 then -n else n;
    var d := NatToString(m);
    var u := d + "." + z;
    assert Whole(u) == Some(m) by {
      WholeWithZeroFraction(d, z);
      DigitsValueOfNatToString(m);
    }
    assert u[|u| - 1] == '.' || u[|u| - 1] == '0';
    var s := IntToString(n) + "." + z;
    if n < 0 {
      assert s == "-" + u by {
        assert IntToString(n) == "-" + d;
      }
      NegatedWhole(u);
      assert s[|s| - 1] == u[|u| - 1];
      ParseUntrimmed(s);
    } else {
      assert s == u by {
        assert IntToString(n) == d;
      }
      assert IsDigit(u[0]);
      ParseUntrimmed(u);
    }
  }

  /** The rows of `s` that `keep` accepts, in their original order: what a
      `WHERE` clause selects, or what a `DELETE ... WHERE` leaves behind
      when `keep` is its negation. */
  function Filter<T(!new)>(s: seq<T>, keep: T -> bool): (r: seq<T>)
    ensures |r| <= |s|
    ensures forall x :: x in r <==> x in s && keep(x)
  {
    if s == [] then []
    else (if keep(s[0]) then [s[0]] else []) + Filter(s[1..], keep)
  }

  /** Filtering keeps every accepted row as often as it occurs and drops
      every other row. */
  lemma {:induction false} FilterCount<T(!new)>(s: seq<T>, keep: T -> bool)
    ensures forall x :: multiset(Filter(s, keep))[x] == if keep(x) then multiset(s)[x] else 0
  {
    if s != [] {
      assert s == [s[0]] + s[1..];
      FilterCount(s[1..], keep);
    }
  }

  /** Filtering keeps the order of the rows: it distributes over
      concatenation. */
  lemma {:induction false} FilterAppend<T(!new)>(a: seq<T>, b: seq<T>, keep: T -> bool)
    ensures Filter(a + b, keep) == Filter(a, keep) + Filter(b, keep)
  {
    if a == [] {
      assert a + b == b;
    } else {
      var head := if keep(a[0]) then [a[0]] else [];
      assert (a + b)[0] == a[0] && (a + b)[1..] == a[1..] + b;
      FilterAppend(a[1..], b, keep);
      calc {
        Filter(a + b, keep);
        head + Filter(a[1..] + b, keep);
        head + (Filter(a[1..], keep) + Filter(b, keep));
        (head + Filter(a[1..], keep)) + Filter(b, keep);
      }
    }
  }

}
