// Names and identifiers: "user-<id>" names and their parser, and the base-36
// connection IDs a tracker hands out.

module Identity {
  import opened Options
  import opened Strings

  const MAX_INT64: int := 0x7fff_ffff_ffff_ffff
  const MIN_INT64: int := -0x8000_0000_0000_0000
  const TWO64: int := 0x1_0000_0000_0000_0000

  predicate IsInt64(n: int) {
    MIN_INT64 <= n <= MAX_INT64
  }

  function Digit(d: nat): char
    requires d < 36
  {
    if d < 10 then '0' + d as char else 'a' + (d - 10) as char
  }

  lemma Smaller(n: nat, base: nat)
    requires 2 <= base <= n
    ensures n / base < n && n == n / base * base + n % base
  {
  }

  // strconv.FormatUint / strconv.Itoa on the magnitude.
  function Format(n: nat, base: nat): string
    requires 2 <= base <= 36
    decreases n
  {
    if n < base then [Digit(n)] else Smaller(n, base); Format(n / base, base) + [Digit(n % base)]
  }

  function DigitValue(c: char): (r: Option<nat>)
    ensures r.Some? ==> r.value < 36
  {
    if '0' <= c <= '9' then Some(c as nat - '0' as nat)
    else if 'a' <= c <= 'z' then Some(c as nat - 'a' as nat + 10)
    else None
  }

  // The number a non-empty digit string denotes, None for any other text.
  function Value(s: string, base: nat): Option<nat> {
    if s == "" then None
    else
      var d := DigitValue(s[|s| - 1]);
      if d.None? || d.value >= base then None
      else if |s| == 1 then d
      else
        var v := Value(s[..|s| - 1], base);
        if v.None? then None else Some(v.value * base + d.value)
  }

  lemma DigitRoundTrip(d: nat)
    requires d < 36
    ensures DigitValue(Digit(d)) == Some(d)
  {
  }

  lemma {:induction false} ValueOfFormat(n: nat, base: nat)
    requires 2 <= base <= 36
    ensures Value(Format(n, base), base) == Some(n)
    decreases n
  {
    if n < base {
      DigitRoundTrip(n);
    } else {
      Smaller(n, base);
      DigitRoundTrip(n % base);
      var q := n / base;
      ValueOfFormat(q, base);
    }
  }

  function Zeros(n: nat): string {
    if n == 0 then "" else "0" + Zeros(n - 1)
  }

  lemma {:induction false} ZerosSnoc(n: nat)
    ensures Zeros(n + 1) == Zeros(n) + "0"
  {
    if n > 0 {
      ZerosSnoc(n - 1);
    }
  }

  lemma {:induction false} ZeroValue(s: string)
    requires Value(s, 10) == Some(0)
    ensures s == Zeros(|s|)
  {
    var k := |s| - 1;
    assert s == s[..k] + [s[k]] && s[k] == '0';
    if k > 0 {
      ZeroValue(s[..k]);
      ZerosSnoc(k);
    }
  }

  // Only the decimal text of a number, after any zeros, denotes it.
  lemma {:induction false} ValueIsFormat(s: string, n: nat) returns (z: nat)
    requires n > 0 && Value(s, 10) == Some(n)
    ensures s == Zeros(z) + Format(n, 10)
  {
    var k := |s| - 1;
    var d := DigitValue(s[k]).value;
    assert s == s[..k] + [s[k]] && s[k] == Digit(d);
    if k == 0 {
      z := 0;
    } else {
      var v := Value(s[..k], 10).value;
      if v == 0 {
        ZeroValue(s[..k]);
        z := k;
      } else {
        z := ValueIsFormat(s[..k], v);
        assert n / 10 == v && n % 10 == d;
      }
    }
  }

  lemma {:induction false} ValueAfterZeros(z: nat, s: string)
    requires Value(s, 10).Some?
    ensures Value(Zeros(z) + s, 10) == Value(s, 10)
  {
    var t := Zeros(z) + s;
    var k := |s| - 1;
    assert t[..|t| - 1] == Zeros(z) + s[..k];
    if k > 0 {
      ValueAfterZeros(z, s[..k]);
    } else {
      ValueOfZeros(z);
      assert Zeros(z) + s[..k] == Zeros(z);
    }
  }

  lemma {:induction false} ValueOfZeros(z: nat)
    ensures z > 0 ==> Value(Zeros(z), 10) == Some(0)
  {
    if z > 0 {
      ZerosSnoc(z - 1);
      ValueOfZeros(z - 1);
      assert Zeros(z)[..|Zeros(z)| - 1] == Zeros(z - 1);
      assert z == 1 ==> Zeros(z) == "0";
    }
  }

  function Itoa(n: int): string {
    if n < 0 then "-" + Format(-n, 10) else Format(n, 10)
  }

  // strconv.Atoi: optional sign, decimal digits, result in the int64 range.
  function Atoi(s: string): Option<int> {
    var negative := s != "" && s[0] == '-';
    var body := if s != "" && (s[0] == '-' || s[0] == '+') then s[1..] else s;
    var v := Value(body, 10);
    if v.None? then None
    else
      var n := if negative then 0 - v.value else v.value as int;
      if IsInt64(n) then Some(n) else None
  }

  const USER_PREFIX := "user-"

  function LimiterUserName(userID: int): string {
    USER_PREFIX + Itoa(userID)
  }

  function ParseUserID(name: string): Option<int> {
    if !(USER_PREFIX <= name) then None
    else
      var id := Atoi(name[|USER_PREFIX|..]);
      if id.None? || id.value <= 0 then None else id
  }

  lemma FormatIsDigits(n: nat, base: nat)
    requires 2 <= base <= 36
    ensures Format(n, base) != ""
    ensures forall i :: 0 <= i < |Format(n, base)| ==> Format(n, base)[i] != '-' && Format(n, base)[i] != '+'
    decreases n
  {
    if n >= base {
      Smaller(n, base);
      FormatIsDigits(n / base, base);
      assert Digit(n % base) != '-' && Digit(n % base) != '+';
    }
  }

  lemma LastIsDigit(n: nat)
    ensures Format(n, 10) != "" && !IsSpace(Format(n, 10)[|Format(n, 10)| - 1])
  {
  }

  lemma AtoiOfItoa(n: int)
    requires IsInt64(n)
    ensures Atoi(Itoa(n)) == Some(n)
  {
    var m: nat := if n < 0 then -n else n;
    ValueOfFormat(m, 10);
    FormatIsDigits(m, 10);
    if n < 0 {
      assert Itoa(n)[1..] == Format(m, 10);
    }
  }

  // The parser inverts the name exactly on the positive IDs and rejects the rest.
  // The texts Atoi reads as a positive number: its decimal digits after any zeros
  // and an optional plus sign.
  lemma AtoiExact(s: string, n: nat)
    requires 0 < n && IsInt64(n)
    ensures Atoi(s) == Some(n) <==> exists z: nat ::
              s == Zeros(z) + Format(n, 10) || s == "+" + (Zeros(z) + Format(n, 10))
  {
    hide Format, Value;
    NothingDenotes();
    if Atoi(s) == Some(n) {
      var body := if s[0] == '+' then s[1..] else s;
      var z := ValueIsFormat(body, n);
      assert s[0] == '+' ==> s == "+" + body;
    }
    forall z: nat | s == Zeros(z) + Format(n, 10) || s == "+" + (Zeros(z) + Format(n, 10)) ensures Atoi(s) == Some(n) {
      ZerosThenDigits(z, n);
    }
  }

  lemma ZerosStart(z: nat)
    ensures if z == 0 then Zeros(z) == "" else Zeros(z) != "" && Zeros(z)[0] == '0'
  {
  }

  lemma NothingDenotes()
    ensures Value("", 10) == None
  {
  }

  lemma ZerosThenDigits(z: nat, n: nat)
    requires IsInt64(n)
    ensures Atoi(Zeros(z) + Format(n, 10)) == Some(n) && Atoi("+" + (Zeros(z) + Format(n, 10))) == Some(n)
  {
    hide Format, Value, Zeros;
    var s := Zeros(z) + Format(n, 10);
    ValueOfFormat(n, 10);
    ValueAfterZeros(z, Format(n, 10));
    FormatIsDigits(n, 10);
    ZerosStart(z);
    assert s[0] == if z > 0 then Zeros(z)[0] else Format(n, 10)[0];
    assert ("+" + s)[1..] == s;
  }

  lemma UserNameRoundTrip(id: int)
    requires IsInt64(id)
    ensures ParseUserID(LimiterUserName(id)) == if id > 0 then Some(id) else None
  {
    AtoiOfItoa(id);
    assert LimiterUserName(id)[|USER_PREFIX|..] == Itoa(id);
  }

  lemma ItoaInjective(a: int, b: int)
    requires Itoa(a) == Itoa(b)
    ensures a == b
  {
    var m: nat := if a < 0 then -a else a;
    var n: nat := if b < 0 then -b else b;
    ValueOfFormat(m, 10);
    ValueOfFormat(n, 10);
    FormatIsDigits(m, 10);
    FormatIsDigits(n, 10);
    assert a < 0 ==> Itoa(a)[0] == '-' && Itoa(a)[1..] == Format(m, 10);
    assert b < 0 ==> Itoa(b)[0] == '-' && Itoa(b)[1..] == Format(n, 10);
    assert a >= 0 ==> Itoa(a)[0] != '-';
    assert b >= 0 ==> Itoa(b)[0] != '-';
  }

  lemma UserNamesDistinct(a: int, b: int)
    ensures LimiterUserName(a) == LimiterUserName(b) <==> a == b
  {
    assert LimiterUserName(a)[|USER_PREFIX|..] == Itoa(a);
    assert LimiterUserName(b)[|USER_PREFIX|..] == Itoa(b);
    if LimiterUserName(a) == LimiterUserName(b) {
      ItoaInjective(a, b);
    }
  }

  // The parser itself is not injective: names the program never builds can share an ID.
  lemma ParseUserIDNotInjective()
    ensures ParseUserID("user-7") == ParseUserID("user-07") == ParseUserID("user-+7") == Some(7)
  {
    assert "user-7"[5..] == "7" && "user-07"[5..] == "07" && "user-+7"[5..] == "+7";
    assert "+7"[1..] == "7" && "07"[..1] == "0";
    assert Value("7", 10) == Some(7) && Value("0", 10) == Some(0);
    assert Value("07", 10) == Some(7);
  }

  // The ID of the n-th connection of a tracker: a uint64 counter in base 36.
  function ConnID(n: nat): string {
    Format(n % TWO64, 36)
  }

  lemma ConnIDsDistinct(m: nat, n: nat)
    ensures ConnID(m) == ConnID(n) <==> m % TWO64 == n % TWO64
  {
    ValueOfFormat(m % TWO64, 36);
    ValueOfFormat(n % TWO64, 36);
  }
}
