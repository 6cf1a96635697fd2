/**
 * The two pieces of PHP string handling the controller relies on: `implode`
 * (which builds the `Allow` header) and the decimal rendering of an integer
 * (used when an id is interpolated into the `Location` header or a message).
 * Each comes with the inverse a client uses to read the value back.
 */
module PhpStrings {

  /** `implode(sep, pieces)` for a one-character separator. */
  function Implode(sep: char, pieces: seq<string>): (s: string)
    ensures |pieces| == 1 ==> s == pieces[0]
    ensures |pieces| == 0 ==> s == ""
    decreases |pieces|
  {
    if |pieces| == 0 then ""
    else if |pieces| == 1 then pieces[0]
    else pieces[0] + [sep] + Implode(sep, pieces[1..])
  }

  /** The joined string starts with the first piece and ends with the last one. */
  lemma {:induction false} ImplodeEnds(sep: char, pieces: seq<string>)
    requires |pieces| > 0
    ensures pieces[0] <= Implode(sep, pieces)
    ensures var s, last := Implode(sep, pieces), pieces[|pieces| - 1];
            |last| <= |s| && s[|s| - |last|..] == last
    decreases |pieces|
  {
    if |pieces| > 1 {
      var tail := Implode(sep, pieces[1..]);
      var s := Implode(sep, pieces);
      assert s == (pieces[0] + [sep]) + tail;
      ImplodeEnds(sep, pieces[1..]);
      var last := pieces[|pieces| - 1];
      assert pieces[1..][|pieces| - 2] == last;
      assert s[|s| - |last|..] == tail[|tail| - |last|..];
    }
  }

  /** `explode(sep, s)`: the pieces between occurrences of `sep`; never empty. */
  function Explode(sep: char, s: string): (pieces: seq<string>)
    ensures |pieces| > 0
    decreases |s|
  {
    if |s| == 0 then [""]
    else
      var rest := Explode(sep, s[1..]);
      if s[0] == sep then [""] + rest
      else [[s[0]] + rest[0]] + rest[1..]
  }

  /** A separator-free prefix ends up glued to the first piece of what follows it. */
  lemma {:induction false} ExplodePrefix(sep: char, p: string, t: string)
    requires sep !in p
    ensures Explode(sep, p + t) == [p + Explode(sep, t)[0]] + Explode(sep, t)[1..]
    decreases |p|
  {
    if |p| == 0 {
      var e := Explode(sep, t);
      assert p + t == t && p + e[0] == e[0];
      assert [e[0]] + e[1..] == e;
    } else {
      var u := p + t;
      assert u[0] == p[0] && u[1..] == p[1..] + t;
      ExplodePrefix(sep, p[1..], t);
      assert [p[0]] + (p[1..] + Explode(sep, t)[0]) == p + Explode(sep, t)[0];
    }
  }

  /** Reading back an imploded list gives the list, as long as no piece holds the separator. */
  lemma {:induction false} ExplodeImplode(sep: char, pieces: seq<string>)
    requires |pieces| > 0
    requires forall i :: 0 <= i < |pieces| ==> sep !in pieces[i]
    ensures Explode(sep, Implode(sep, pieces)) == pieces
    decreases |pieces|
  {
    if |pieces| == 1 {
      ExplodePrefix(sep, pieces[0], "");
      assert pieces[0] + "" == pieces[0];
    } else {
      var tail := Implode(sep, pieces[1..]);
      assert Implode(sep, pieces) == pieces[0] + ([sep] + tail);
      ExplodePrefix(sep, pieces[0], [sep] + tail);
      assert ([sep] + tail)[1..] == tail;
      ExplodeImplode(sep, pieces[1..]);
      assert pieces[0] + "" == pieces[0];
      assert pieces == [pieces[0]] + pieces[1..];
    }
  }

  predicate IsDigit(c: char) {
    '0' <= c <= '9'
  }

  predicate AllDigits(s: string) {
    forall i :: 0 <= i < |s| ==> IsDigit(s[i])
  }

  function DigitChar(d: nat): (c: char)
    requires d < 10
    ensures IsDigit(c) && c as int - '0' as int == d
  {
    (d + '0' as int) as char
  }

  /** PHP's string form of a non-negative integer: decimal digits, no leading zero. */
  function DecimalString(n: nat): (s: string)
    ensures |s| > 0 && AllDigits(s)
    ensures |s| > 1 ==> s[0] != '0'
    decreases n
  {
    if n < 10 then [DigitChar(n)] else DecimalString(n / 10) + [DigitChar(n % 10)]
  }

  /** The number a string of decimal digits denotes. */
  function DecimalValue(s: string): nat
    requires AllDigits(s)
    decreases |s|
  {
    if |s| == 0 then 0 else 10 * DecimalValue(s[..|s| - 1]) + (s[|s| - 1] as int - '0' as int)
  }

  lemma {:induction false} DecimalRoundTrip(n: nat)
    ensures DecimalValue(DecimalString(n)) == n
    decreases n
  {
    var s := DecimalString(n);
    if n < 10 {
      assert s[..|s| - 1] == [];
    } else {
      assert s[..|s| - 1] == DecimalString(n / 10);
      DecimalRoundTrip(n / 10);
    }
  }

  /** Different numbers are rendered differently. */
  lemma DecimalStringInjective(m: nat, n: nat)
    requires DecimalString(m) == DecimalString(n)
    ensures m == n
  {
    DecimalRoundTrip(m);
    DecimalRoundTrip(n);
  }
}
