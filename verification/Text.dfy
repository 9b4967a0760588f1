/** The fragments of Go's `strings` and `strconv` packages that the controllers use on
    ASCII text: splitting and joining on one character, trimming one character,
    substring search, and decimal integers of Go's 64-bit `int`. */
module Text {
  datatype Option<+T> = None | Some(value: T)

  // ---------- Characters ----------

  predicate Free(s: string, c: char) {
    forall i | 0 <= i < |s| :: s[i] != c
  }

  predicate AllAre(s: string, c: char) {
    forall i | 0 <= i < |s| :: s[i] == c
  }

  function Count(s: string, c: char): nat {
    if s == "" then 0 else (if s[0] == c then 1 else 0) + Count(s[1..], c)
  }

  lemma {:induction false} CountFree(s: string, c: char)
    ensures Count(s, c) == 0 <==> Free(s, c)
  {
    if s != "" {
      CountFree(s[1..], c);
      assert s[0] != c && Free(s[1..], c) ==> Free(s, c) by {
        assert forall i | 1 <= i < |s| :: s[i] == s[1..][i - 1];
      }
      assert Free(s, c) ==> Free(s[1..], c);
    }
  }

  // ---------- strings.Contains ----------

  predicate Contains(s: string, t: string) {
    t <= s || (s != "" && Contains(s[1..], t))
  }

  /** A text contains another one if it starts with it somewhere. */
  lemma {:induction false} ContainsMeans(s: string, t: string)
    ensures Contains(s, t) <==> exists i :: 0 <= i <= |s| && t <= s[i..]
  {
    if t <= s {
      assert s[0..] == s;
    } else if s != "" {
      ContainsMeans(s[1..], t);
      assert forall i | 0 <= i < |s| :: s[1..][i..] == s[i + 1..];
      if i :| 0 <= i <= |s| && t <= s[i..] {
        assert i > 0 by {
          assert s[0..] == s;
        }
        assert t <= s[1..][i - 1..];
      }
    } else {
      assert forall i | 0 <= i <= |s| :: s[i..] == s;
    }
  }

  lemma {:induction false} ContainsChar(s: string, c: char)
    ensures Contains(s, [c]) <==> c in s
  {
    if s != "" {
      ContainsChar(s[1..], c);
      assert s == [s[0]] + s[1..];
      assert [c] <= s <==> s[0] == c;
    }
  }

  // ---------- strings.Split and strings.Join ----------

  /** `strings.Split(s, [c])`. */
  function Split(s: string, c: char): (r: seq<string>)
    ensures |r| == Count(s, c) + 1
  {
    if s == "" then [""]
    else if s[0] == c then [""] + Split(s[1..], c)
    else
      var rest := Split(s[1..], c);
      [[s[0]] + rest[0]] + rest[1..]
  }

  /** `strings.Join(parts, [c])`. */
  function Join(parts: seq<string>, c: char): string {
    if parts == [] then ""
    else if |parts| == 1 then parts[0]
    else parts[0] + [c] + Join(parts[1..], c)
  }

  predicate AllFree(parts: seq<string>, c: char) {
    forall i | 0 <= i < |parts| :: Free(parts[i], c)
  }

  lemma JoinOneMore(part: string, rest: seq<string>, c: char)
    requires rest != []
    ensures Join([part] + rest, c) == part + [c] + Join(rest, c)
  {
    assert ([part] + rest)[1..] == rest;
  }

  lemma JoinGrown(x: char, rest: seq<string>, c: char)
    requires rest != []
    ensures Join([[x] + rest[0]] + rest[1..], c) == [x] + Join(rest, c)
  {
    if |rest| > 1 {
      JoinOneMore([x] + rest[0], rest[1..], c);
      assert Join(rest, c) == rest[0] + [c] + Join(rest[1..], c);
      assert [x] + rest[0] + [c] + Join(rest[1..], c) == [x] + (rest[0] + [c] + Join(rest[1..], c));
    }
  }

  /** Split loses nothing, and no piece holds the separator. */
  lemma {:induction false} SplitThenJoin(s: string, c: char)
    ensures Join(Split(s, c), c) == s
    ensures AllFree(Split(s, c), c)
  {
    if s != "" {
      hide Join;
      var rest := Split(s[1..], c);
      SplitThenJoin(s[1..], c);
      if s[0] == c {
        JoinOneMore("", rest, c);
      } else {
        JoinGrown(s[0], rest, c);
      }
      assert s == [s[0]] + s[1..];
    } else {
      assert Join([""], c) == "";
    }
  }

  lemma {:induction false} SplitPrefix(a: string, b: string, c: char)
    requires Free(a, c)
    ensures Split(a, c) == [a]
    ensures Split(a + [c] + b, c) == [a] + Split(b, c)
  {
    var s := a + [c] + b;
    if a == "" {
      assert s[1..] == b;
    } else {
      assert Free(a[1..], c);
      SplitPrefix(a[1..], b, c);
      assert s[1..] == a[1..] + [c] + b;
      assert a == [a[0]] + a[1..];
      assert Split(s, c)[1..] == Split(b, c);
    }
  }

  /** Split is the only way to cut a joined text into separator-free pieces. */
  lemma {:induction false} JoinThenSplit(parts: seq<string>, c: char)
    requires parts != [] && AllFree(parts, c)
    ensures Split(Join(parts, c), c) == parts
  {
    if |parts| == 1 {
      SplitPrefix(parts[0], "", c);
    } else {
      JoinThenSplit(parts[1..], c);
      SplitPrefix(parts[0], Join(parts[1..], c), c);
      assert parts == [parts[0]] + parts[1..];
    }
  }

  lemma {:induction false} JoinFree(parts: seq<string>, c: char, d: char)
    requires AllFree(parts, d) && c != d
    ensures Free(Join(parts, c), d)
  {
    if |parts| > 1 {
      JoinFree(parts[1..], c, d);
    }
  }

  // ---------- Cutting at the first separator ----------

  function BeforeFirst(s: string, c: char): string {
    if s == "" || s[0] == c then "" else [s[0]] + BeforeFirst(s[1..], c)
  }

  function AfterFirst(s: string, c: char): string {
    if s == "" then "" else if s[0] == c then s[1..] else AfterFirst(s[1..], c)
  }

  lemma {:induction false} CutAtFirst(s: string, c: char)
    ensures Free(BeforeFirst(s, c), c)
    ensures c in s ==> s == BeforeFirst(s, c) + [c] + AfterFirst(s, c)
    ensures c !in s ==> s == BeforeFirst(s, c)
  {
    if s != "" {
      assert s == [s[0]] + s[1..];
      if s[0] != c {
        CutAtFirst(s[1..], c);
      }
    }
  }

  lemma {:induction false} FirstOfConcat(a: string, b: string, c: char)
    requires Free(a, c)
    ensures BeforeFirst(a + [c] + b, c) == a && AfterFirst(a + [c] + b, c) == b
    ensures BeforeFirst(a, c) == a && AfterFirst(a, c) == "" && Count(a, c) == 0
    ensures Count(a + [c] + b, c) == 1 + Count(b, c)
  {
    if a == "" {
      assert a + [c] + b == [c] + b;
    } else {
      assert (a + [c] + b)[1..] == a[1..] + [c] + b;
      FirstOfConcat(a[1..], b, c);
      assert a == [a[0]] + a[1..];
    }
  }

  // ---------- strings.TrimLeft and strings.TrimRight ----------

  function TrimLeft(s: string, c: char): string {
    if s != "" && s[0] == c then TrimLeft(s[1..], c) else s
  }

  function TrimRight(s: string, c: char): string {
    if s != "" && s[|s| - 1] == c then TrimRight(s[..|s| - 1], c) else s
  }

  predicate StartsWith(s: string, c: char) {
    s != "" && s[0] == c
  }

  predicate EndsWith(s: string, c: char) {
    s != "" && s[|s| - 1] == c
  }

  lemma {:induction false} TrimLeftShape(s: string, c: char) returns (cut: string)
    ensures s == cut + TrimLeft(s, c) && AllAre(cut, c)
    ensures !StartsWith(TrimLeft(s, c), c)
  {
    if StartsWith(s, c) {
      cut := TrimLeftShape(s[1..], c);
      cut := [c] + cut;
      assert s == [c] + s[1..];
    } else {
      cut := "";
    }
  }

  lemma {:induction false} TrimLeftPadding(pad: string, s: string, c: char)
    requires AllAre(pad, c) && !StartsWith(s, c)
    ensures TrimLeft(pad + s, c) == s
  {
    if pad == "" {
      assert pad + s == s;
    } else {
      assert (pad + s)[1..] == pad[1..] + s;
      TrimLeftPadding(pad[1..], s, c);
    }
  }

  /** The trim takes nothing off but the character, and all of it. */
  lemma {:induction false} TrimRightShape(s: string, c: char) returns (cut: string)
    ensures s == TrimRight(s, c) + cut && AllAre(cut, c)
    ensures !EndsWith(TrimRight(s, c), c)
  {
    if EndsWith(s, c) {
      cut := TrimRightShape(s[..|s| - 1], c);
      cut := cut + [c];
      assert s == s[..|s| - 1] + [c];
    } else {
      cut := "";
    }
  }

  /** A text that does not end in the trimmed character survives one appended copy of it. */
  lemma TrimRightOnce(s: string, c: char)
    requires !EndsWith(s, c)
    ensures TrimRight(s + [c], c) == s
  {
    var t := s + [c];
    assert t[..|t| - 1] == s;
    assert TrimRight(t, c) == TrimRight(s, c) == s;
  }

  // ---------- strconv.Itoa and strconv.Atoi ----------

  const MAX_INT: int := 0x7fff_ffff_ffff_ffff
  const MIN_INT: int := -0x8000_0000_0000_0000

  predicate IsDigit(c: char) {
    '0' <= c <= '9'
  }

  predicate AllDigits(s: string) {
    forall i | 0 <= i < |s| :: IsDigit(s[i])
  }

  function DigitsValue(s: string): nat
    requires AllDigits(s)
  {
    if s == "" then 0
    else 10 * DigitsValue(s[..|s| - 1]) + (s[|s| - 1] as int - '0' as int)
  }

  function Magnitude(s: string): string {
    if s != "" && (s[0] == '+' || s[0] == '-') then s[1..] else s
  }

  predicate IsDecimal(s: string) {
    Magnitude(s) != "" && AllDigits(Magnitude(s))
  }

  function DecimalValue(s: string): int
    requires IsDecimal(s)
  {
    var magnitude: int := DigitsValue(Magnitude(s));
    if s[0] == '-' then -magnitude else magnitude
  }

  /** `strconv.Atoi` where Go's int has 64 bits. */
  function Atoi(s: string): Option<int> {
    if IsDecimal(s) && MIN_INT <= DecimalValue(s) <= MAX_INT then Some(DecimalValue(s)) else None
  }

  function NatToString(n: nat): string {
    var digit := [('0' as int + n % 10) as char];
    if n < 10 then digit else NatToString(n / 10) + digit
  }

  /** `strconv.Itoa`. */
  function Itoa(n: int): string {
    if n < 0 then "-" + NatToString(-n) else NatToString(n)
  }

  lemma {:induction false} NatToStringDigits(n: nat)
    ensures NatToString(n) != "" && AllDigits(NatToString(n))
    ensures DigitsValue(NatToString(n)) == n
  {
    if n >= 10 {
      NatToStringDigits(n / 10);
      var s := NatToString(n);
      assert s[..|s| - 1] == NatToString(n / 10);
    }
  }

  function Zeros(k: nat): string {
    seq(k, _ => '0')
  }

  lemma {:induction false} LeadingZeros(k: nat, n: nat)
    ensures AllDigits(Zeros(k) + NatToString(n)) && DigitsValue(Zeros(k) + NatToString(n)) == n
  {
    NatToStringDigits(n);
    var s := Zeros(k) + NatToString(n);
    var front := s[..|s| - 1];
    if n >= 10 {
      LeadingZeros(k, n / 10);
      assert front == Zeros(k) + NatToString(n / 10);
    } else {
      assert front == Zeros(k);
      OnlyZeros(k);
    }
  }

  lemma {:induction false} OnlyZeros(k: nat)
    ensures AllDigits(Zeros(k)) && DigitsValue(Zeros(k)) == 0
  {
    if k > 0 {
      OnlyZeros(k - 1);
      assert Zeros(k)[..k - 1] == Zeros(k - 1);
    }
  }

  lemma {:induction false} DigitsShape(d: string) returns (k: nat)
    requires d != "" && AllDigits(d)
    ensures d == Zeros(k) + NatToString(DigitsValue(d))
  {
    var front, last := d[..|d| - 1], d[|d| - 1];
    var c := last as int - '0' as int;
    assert d == front + [last] && NatToString(c) == [last];
    if front == "" {
      k := 0;
      assert DigitsValue(front) == 0;
    } else {
      k := DigitsShape(front);
      if DigitsValue(front) == 0 {
        assert NatToString(0) == "0";
        assert Zeros(k) + "0" == Zeros(k + 1);
        k := k + 1;
      } else {
        assert NatToString(DigitsValue(d)) == NatToString(DigitsValue(front)) + [last];
      }
    }
  }

  /** Exactly the texts that are read: an optional sign, zeros, and the decimal number. */
  predicate WrittenNumber(s: string, n: int, sign: string, k: nat) {
    && s == sign + Zeros(k) + NatToString(if n < 0 then -n else n)
    && (sign == "" || sign == "+" || sign == "-") && (if sign == "-" then n <= 0 else n >= 0)
  }

  lemma ReadsWritten(s: string, n: int, sign: string, k: nat)
    requires WrittenNumber(s, n, sign, k)
    ensures MIN_INT <= n <= MAX_INT ==> Atoi(s) == Some(n)
    ensures !(MIN_INT <= n <= MAX_INT) ==> Atoi(s) == None
  {
    hide DigitsValue, NatToString;
    var digits := Zeros(k) + NatToString(if n < 0 then -n else n);
    LeadingZeros(k, if n < 0 then -n else n);
    NatToStringDigits(if n < 0 then -n else n);
    assert s == sign + digits && digits != "" && IsDigit(digits[0]);
    assert Magnitude(s) == digits;
  }

  lemma SignOf(s: string) returns (sign: string)
    requires Atoi(s).Some?
    ensures s == sign + Magnitude(s) && (sign == "" || sign == "+" || sign == "-")
    ensures Magnitude(s) != "" && AllDigits(Magnitude(s))
    ensures sign == "-" ==> Atoi(s).value + DigitsValue(Magnitude(s)) == 0
    ensures sign != "-" ==> Atoi(s).value == DigitsValue(Magnitude(s))
  {
    hide DigitsValue;
    if Magnitude(s) == s {
      sign := "";
    } else {
      sign := [s[0]];
    }
  }

  lemma ReadOnlyWritten(s: string) returns (sign: string, k: nat)
    requires Atoi(s).Some?
    ensures WrittenNumber(s, Atoi(s).value, sign, k)
  {
    hide DigitsValue, NatToString, Atoi, Magnitude, Zeros, AllDigits;
    sign := SignOf(s);
    var digits := Magnitude(s);
    k := DigitsShape(digits);
    assert sign + (Zeros(k) + NatToString(DigitsValue(digits))) == sign + Zeros(k) + NatToString(DigitsValue(digits));
  }

  /** Printing an int of Go's range and reading it back gives the same int. */
  lemma ItoaThenAtoi(n: int)
    requires MIN_INT <= n <= MAX_INT
    ensures Atoi(Itoa(n)) == Some(n)
    ensures Free(Itoa(n), ':')
  {
    hide DigitsValue, NatToString;
    NatToStringDigits(if n < 0 then -n else n);
    var digits := NatToString(if n < 0 then -n else n);
    assert IsDigit(digits[0]);
    assert Magnitude(Itoa(n)) == digits;
  }
}
