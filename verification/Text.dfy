/** Joining and cutting of colon-separated text, and decimal numerals. */
module Text {

  const COLON: char := ':'

  ghost predicate Plain(s: string) {
    COLON !in s
  }

  function Join(parts: seq<string>): string {
    if |parts| == 0 then ""
    else if |parts| == 1 then parts[0]
    else parts[0] + ":" + Join(parts[1..])
  }

  /** Index of the first colon, or the length of the text. */
  function Cut(s: string): (i: nat)
    ensures i <= |s|
  {
    if s == "" || s[0] == COLON then 0 else 1 + Cut(s[1..])
  }

  function Split(s: string): seq<string>
    decreases |s|
  {
    var i := Cut(s);
    if i == |s| then [s] else [s[..i]] + Split(s[i + 1..])
  }

  lemma {:induction false} CutPlain(a: string, rest: string)
    requires Plain(a)
    ensures Cut(a + rest) == |a| + Cut(rest)
    ensures (a + rest)[..|a|] == a && (a + rest)[|a|..] == rest
  {
    if a == "" {
      assert a + rest == rest;
    } else {
      assert (a + rest)[1..] == a[1..] + rest;
      CutPlain(a[1..], rest);
    }
  }

  /** A colon-free head comes off unchanged. */
  lemma CutField(a: string, rest: string)
    requires Plain(a)
    ensures var s := a + ":" + rest; Cut(s) == |a| < |s| && s[..|a|] == a && s[|a| + 1..] == rest
  {
    CutPlain(a, ":" + rest);
    assert a + ":" + rest == a + (":" + rest);
  }

  /** Splitting undoes joining when no part holds a colon. */
  lemma {:induction false} SplitJoin(parts: seq<string>)
    requires parts != [] && forall p :: p in parts ==> Plain(p)
    ensures Split(Join(parts)) == parts
  {
    if |parts| == 1 {
      CutPlain(parts[0], "");
      assert parts[0] + "" == parts[0];
      assert parts == [parts[0]];
    } else {
      CutField(parts[0], Join(parts[1..]));
      SplitJoin(parts[1..]);
      assert parts == [parts[0]] + parts[1..];
    }
  }

  // ---------------------------------------------------------------- counting colons

  function Colons(s: string): nat {
    if s == "" then 0 else (if s[0] == COLON then 1 else 0) + Colons(s[1..])
  }

  lemma {:induction false} ColonsConcat(a: string, b: string)
    ensures Colons(a + b) == Colons(a) + Colons(b)
  {
    if a == "" {
      assert a + b == b;
    } else {
      assert (a + b)[1..] == a[1..] + b;
      ColonsConcat(a[1..], b);
    }
  }

  lemma {:induction false} PlainIffNoColons(s: string)
    ensures Plain(s) <==> Colons(s) == 0
  {
    if s != "" {
      PlainIffNoColons(s[1..]);
      assert s == [s[0]] + s[1..];
    }
  }

  lemma OneColon()
    ensures Colons(":") == 1
  {
    assert ":"[1..] == "";
  }

  /** A text with a colon is two texts around its first one. */
  lemma {:induction false} CutAtColon(s: string)
    requires !Plain(s)
    ensures Cut(s) < |s| && s == s[..Cut(s)] + ":" + s[Cut(s) + 1..]
  {
    if s[0] != COLON {
      assert s == [s[0]] + s[1..];
      CutAtColon(s[1..]);
      var i := Cut(s[1..]);
      assert s[1..][..i] == s[1..i + 1] && s[1..][i + 1..] == s[i + 2..];
      assert s[i + 1] == COLON;
    }
  }

  // ---------------------------------------------------------------- decimal numerals

  function Digit(d: int): char
    requires 0 <= d < 10
  {
    '0' + d as char
  }

  function Itoa(n: nat): (s: string)
    ensures s != ""
  {
    if n < 10 then [Digit(n)] else Itoa(n / 10) + [Digit(n % 10)]
  }

  function DigitValue(c: char): int {
    c as int - '0' as int
  }

  function Atoi(s: string): int {
    if s == "" then 0 else Atoi(s[..|s| - 1]) * 10 + DigitValue(s[|s| - 1])
  }

  /** The numeral of every natural number reads back as that number. */
  lemma {:induction false} AtoiItoa(n: nat)
    ensures Atoi(Itoa(n)) == n
    ensures forall c :: c in Itoa(n) ==> '0' <= c <= '9'
  {
    if n < 10 {
      assert [Digit(n)][..0] == "";
      assert Atoi("") == 0;
    } else {
      AtoiItoa(n / 10);
      var s := Itoa(n);
      assert s[..|s| - 1] == Itoa(n / 10);
      assert DigitValue(s[|s| - 1]) == n % 10;
    }
  }
}
