/** The shape of the beneficiaries table shared by the data-entry page and the
    dashboard: its fixed header, one row of text cells, and the decimal text of
    the two numeric columns (beneficiary count and budget). */
module RecordFormat {

  datatype Option<T> = None | Some(value: T)

  /** The nine columns written by the data-entry page, in file order. */
  const Headers: seq<string> := [
    "Timestamp", "Divisyen", "Jabatan", "Negeri/Pusat", "Aktiviti", "PIC",
    "Lokasi", "Bilangan Penerima Manfaat", "Belanjawan yang dikeluarkan"
  ]

  /** One line of the table, cell by cell, as text. An empty cell ("") is what
      the CSV reader turns into a missing value. */
  datatype Row = Row(
    timestamp: string,
    divisyen: string,
    jabatan: string,
    negeri: string,
    aktiviti: string,
    pic: string,
    lokasi: string,
    benef: string,
    budget: string)

  predicate IsDigit(c: char) { '0' <= c <= '9' }

  predicate AllDigits(s: string) { forall i :: 0 <= i < |s| ==> IsDigit(s[i]) }

  function DigitChar(d: nat): (c: char)
    requires d < 10
    ensures IsDigit(c)
  {
    ['0', '1', '2', '3', '4', '5', '6', '7', '8', '9'][d]
  }

  function DigitValue(c: char): (d: nat)
    requires IsDigit(c)
    ensures d < 10
  {
    (c as int - '0' as int) as nat
  }

  lemma DigitRoundTrip(d: nat)
    requires d < 10
    ensures DigitValue(DigitChar(d)) == d
  {
  }

  /** The value of a string of decimal digits, most significant first. */
  function DigitsValue(s: string): nat
    requires AllDigits(s)
  {
    if s == [] then 0 else DigitsValue(s[..|s| - 1]) * 10 + DigitValue(s[|s| - 1])
  }

  /** Decimal text of a natural number, without sign or leading zeros. */
  function FormatNat(n: nat): (s: string)
    ensures s != [] && AllDigits(s)
    ensures |s| > 1 ==> s[0] != '0'
  {
    if n < 10 then [DigitChar(n)] else FormatNat(n / 10) + [DigitChar(n % 10)]
  }

  lemma {:induction false} FormatNatValue(n: nat)
    ensures DigitsValue(FormatNat(n)) == n
  {
    var s := FormatNat(n);
    if n < 10 {
      DigitRoundTrip(n);
    } else {
      FormatNatValue(n / 10);
      assert s[..|s| - 1] == FormatNat(n / 10);
      DigitRoundTrip(n % 10);
    }
  }

  /** A non-negative decimal: one or more digits. */
  function ParseNat(s: string): (r: Option<nat>)
    ensures r.Some? <==> s != [] && AllDigits(s)
  {
    if s != [] && AllDigits(s) then Some(DigitsValue(s)) else None
  }

  /** An integer: an optional '-' and then one or more digits. */
  function ParseInt(s: string): (r: Option<int>)
    ensures r.Some? <==> (s != [] && AllDigits(s)) || (|s| > 1 && s[0] == '-' && AllDigits(s[1..]))
  {
    if s != [] && s[0] == '-' then
      (match ParseNat(s[1..]) case Some(n) => Option<int>.Some(-(n as int)) case None => None)
    else
      (match ParseNat(s) case Some(n) => Some(n as int) case None => None)
  }

  /** Reading back a written count gives the count. */
  lemma FormatNatRoundTrip(n: nat)
    ensures ParseInt(FormatNat(n)) == Some(n as int)
  {
    FormatNatValue(n);
  }

  /** The two fraction digits of a cents amount, written as a float's shortest
      form writes them: one digit when the second is zero. */
  function FractionText(f: nat): (s: string)
    requires f < 100
    ensures 1 <= |s| <= 2 && AllDigits(s)
  {
    if f % 10 == 0 then [DigitChar(f / 10)] else [DigitChar(f / 10), DigitChar(f % 10)]
  }

  /** The text of a budget amount held as whole cents, e.g. 1250 as "12.5"
      and 0 as "0.0", as a two-decimal float is written to the table. */
  function FormatCents(c: nat): (s: string)
    ensures '.' in s && '-' !in s
  {
    var w := FormatNat(c / 100);
    assert w[0] != '-';
    w + "." + FractionText(c % 100)
  }

  /** Position of the first '.' in s, or |s| when there is none. */
  function DotIndex(s: string): (i: nat)
    ensures i <= |s|
    ensures forall j :: 0 <= j < i ==> s[j] != '.'
    ensures i < |s| ==> s[i] == '.'
  {
    if s == [] then 0 else if s[0] == '.' then 0 else 1 + DotIndex(s[1..])
  }

  /** Unsigned decimal text: one or more digits, then optionally a '.' and
      one or two more digits. */
  predicate DecimalText(s: string)
  {
    var i := DotIndex(s);
    0 < i && AllDigits(s[..i]) && (i == |s| || (|s| - (i + 1) in {1, 2} && AllDigits(s[i + 1..])))
  }

  /** Cents of an unsigned decimal with at most two fraction digits. */
  function ParseUnsignedCents(s: string): (r: Option<nat>)
    ensures r.Some? <==> DecimalText(s)
  {
    var i := DotIndex(s);
    var whole := ParseNat(s[..i]);
    if whole.None? then None
    else if i == |s| then Some(whole.value * 100)
    else
      var frac := s[i + 1..];
      if |frac| == 1 && IsDigit(frac[0]) then Some(whole.value * 100 + DigitValue(frac[0]) * 10)
      else if |frac| == 2 && AllDigits(frac) then Some(whole.value * 100 + DigitValue(frac[0]) * 10 + DigitValue(frac[1]))
      else None
  }

  /** A budget amount in cents: an optional '-', digits, and optionally a '.'
      with one or two more digits. */
  function ParseCents(s: string): (r: Option<int>)
    ensures r.Some? <==> DecimalText(s) || (s != [] && s[0] == '-' && DecimalText(s[1..]))
    ensures r.Some? ==> s != [] && IsDigit(s[|s| - 1])
  {
    if s != [] && s[0] == '-' then
      (match ParseUnsignedCents(s[1..]) case Some(n) => Option<int>.Some(-(n as int)) case None => None)
    else
      (match ParseUnsignedCents(s) case Some(n) => Some(n as int) case None => None)
  }

  lemma {:induction false} DotIndexAfterDigits(w: string, rest: string)
    requires AllDigits(w)
    requires rest != [] && rest[0] == '.'
    ensures DotIndex(w + rest) == |w|
  {
    if w != [] {
      assert (w + rest)[1..] == w[1..] + rest;
      DotIndexAfterDigits(w[1..], rest);
    } else {
      assert w + rest == rest;
    }
  }

  lemma FractionDigits(f: nat)
    requires f < 100
    ensures var t := FractionText(f);
      (|t| == 1 ==> DigitValue(t[0]) * 10 == f) &&
      (|t| == 2 ==> DigitValue(t[0]) * 10 + DigitValue(t[1]) == f)
  {
    DigitRoundTrip(f / 10);
    DigitRoundTrip(f % 10);
  }

  lemma UnsignedCentsOf(w: nat, f: nat)
    requires f < 100
    ensures ParseUnsignedCents(FormatNat(w) + "." + FractionText(f)) == Some(w * 100 + f)
  {
    var ws := FormatNat(w);
    var t := FractionText(f);
    var s := ws + "." + t;
    assert s == ws + ("." + t);
    DotIndexAfterDigits(ws, "." + t);
    assert s[..|ws|] == ws;
    assert s[|ws| + 1..] == t;
    FormatNatValue(w);
    assert ParseNat(s[..|ws|]) == Some(w);
    FractionDigits(f);
  }

  /** Reading back a written budget gives the budget. */
  lemma FormatCentsRoundTrip(c: nat)
    ensures ParseCents(FormatCents(c)) == Some(c as int)
  {
    UnsignedCentsOf(c / 100, c % 100);
    assert (c / 100) * 100 + c % 100 == c;
  }
}
