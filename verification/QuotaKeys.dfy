/** Storage keys of the quota store: the usage key ends in the period start written as an Internet
    timestamp (section 5.6 of RFC 3339, UTC, whole seconds). */
module QuotaKeys {
  import opened Text
  import opened Calendar

  const SECOND: int := 1_000_000_000

  function Two(n: int): (s: string)
    requires 0 <= n < 100
    ensures |s| == 2
  {
    [Digit(n / 10), Digit(n % 10)]
  }

  function Zeros(n: nat): string {
    if n == 0 then "" else "0" + Zeros(n - 1)
  }

  /** At least four digits, with a sign when negative. */
  function YearText(y: int): (s: string)
    ensures s != ""
  {
    if y < 0 then "-" + Padded(-y) else Padded(y)
  }

  function Padded(n: nat): (s: string)
    ensures s != ""
  {
    if |Itoa(n)| < 4 then Zeros(4 - |Itoa(n)|) + Itoa(n) else Itoa(n)
  }

  function ClockText(month: int, day: int, second: int): (s: string)
    requires 1 <= month <= 12 && 1 <= day <= 31 && 0 <= second < 86_400
    ensures |s| == 16
  {
    "-" + Two(month) + "-" + Two(day) + "T" + Two(second / 3_600) + ":" + Two(second / 60 % 60) + ":"
        + Two(second % 60) + "Z"
  }

  function SecondOfDay(t: int): (s: int)
    ensures 0 <= s < 86_400
  {
    t % DAY / SECOND
  }

  function Stamp(t: int): string {
    CivilRoundTrip(t / DAY);
    MonthAtMost31(Civil(t / DAY).year, Civil(t / DAY).month);
    var c := Civil(t / DAY);
    YearText(c.year) + ClockText(c.month, c.day, SecondOfDay(t))
  }

  lemma MonthAtMost31(y: int, m: int)
    requires 1 <= m <= 12
    ensures MonthLength(y, m) <= 31
  {}

  // ---------------------------------------------------------------- reading timestamps back

  lemma {:induction false} AtoiZeros(n: nat, s: string)
    requires s != ""
    ensures Atoi(Zeros(n) + s) == Atoi(s)
    decreases n, |s|
  {
    if n == 0 {
      assert Zeros(n) + s == s;
    } else {
      AtoiZeros(n - 1, s);
      assert Zeros(n) + s == "0" + (Zeros(n - 1) + s);
      LeadingZero(Zeros(n - 1) + s);
    }
  }

  lemma {:induction false} LeadingZero(s: string)
    ensures Atoi("0" + s) == Atoi(s)
  {
    var t := "0" + s;
    if s == "" {
      assert t[..0] == "" && Atoi("") == 0;
    } else {
      assert t[..|t| - 1] == "0" + s[..|s| - 1];
      LeadingZero(s[..|s| - 1]);
    }
  }

  lemma PaddedValue(n: nat)
    ensures Atoi(Padded(n)) == n && Padded(n)[0] != '-'
  {
    AtoiItoa(n);
    assert Itoa(n)[0] in Itoa(n);
    if |Itoa(n)| < 4 {
      AtoiZeros(4 - |Itoa(n)|, Itoa(n));
      assert Zeros(4 - |Itoa(n)|)[0] == '0';
    }
  }

  lemma YearTextInjective(a: int, b: int)
    requires YearText(a) == YearText(b)
    ensures a == b
  {
    PaddedValue(if a < 0 then -a else a);
    PaddedValue(if b < 0 then -b else b);
    if a < 0 && b < 0 {
      assert YearText(a)[1..] == Padded(-a) && YearText(b)[1..] == Padded(-b);
    }
  }

  lemma TwoInjective(a: int, b: int)
    requires 0 <= a < 100 && 0 <= b < 100 && Two(a) == Two(b)
    ensures a == b
  {
    assert Two(a)[0] == Two(b)[0] && Two(a)[1] == Two(b)[1];
  }

  lemma ClockTextParts(month: int, day: int, second: int)
    requires 1 <= month <= 12 && 1 <= day <= 31 && 0 <= second < 86_400
    ensures var s := ClockText(month, day, second);
            && s[1..3] == Two(month) && s[4..6] == Two(day) && s[7..9] == Two(second / 3_600)
            && s[10..12] == Two(second / 60 % 60) && s[13..15] == Two(second % 60)
  {}

  lemma TwoReads(n: int)
    requires 0 <= n < 100
    ensures Atoi(Two(n)) == n
  {
    var s := Two(n);
    var tens := s[..1];
    assert tens == [Digit(n / 10)] && tens[..0] == "" && Atoi("") == 0;
    assert Atoi(tens) == n / 10;
  }

  /** The date and time of day written in a timestamp, and the marks between them. */
  ghost predicate Writes(s: string, t: Date, second: int) {
    var k := |s| - 16;
    && k >= 4 && (t.year >= 0 ==> Atoi(s[..k]) == t.year) && (0 <= t.year <= 9999 ==> k == 4)
    && s[k] == '-' && Atoi(s[k + 1..k + 3]) == t.month && s[k + 3] == '-' && Atoi(s[k + 4..k + 6]) == t.day
    && s[k + 6] == 'T' && s[k + 9] == ':' && s[k + 12] == ':' && s[k + 15] == 'Z'
    && Atoi(s[k + 7..k + 9]) * 3_600 + Atoi(s[k + 10..k + 12]) * 60 + Atoi(s[k + 13..k + 15]) == second
  }

  lemma ClockReads(year: string, month: int, day: int, second: int)
    requires 1 <= month <= 12 && 1 <= day <= 31 && 0 <= second < 86_400
    ensures var s := year + ClockText(month, day, second);
            var k := |year|;
            && |s| == k + 16 && s[..k] == year
            && s[k] == '-' && s[k + 1..k + 3] == Two(month) && s[k + 3] == '-' && s[k + 4..k + 6] == Two(day)
            && s[k + 6] == 'T' && s[k + 9] == ':' && s[k + 12] == ':' && s[k + 15] == 'Z'
            && s[k + 7..k + 9] == Two(second / 3_600) && s[k + 10..k + 12] == Two(second / 60 % 60)
            && s[k + 13..k + 15] == Two(second % 60)
  {
    hide Two;
    var c := ClockText(month, day, second);
    var s, k := year + c, |year|;
    ClockTextParts(month, day, second);
    ClockMarks(month, day, second);
    assert s[k + 1..k + 3] == c[1..3] && s[k + 4..k + 6] == c[4..6] && s[k + 7..k + 9] == c[7..9];
    assert s[k + 10..k + 12] == c[10..12] && s[k + 13..k + 15] == c[13..15];
  }

  lemma ClockMarks(month: int, day: int, second: int)
    requires 1 <= month <= 12 && 1 <= day <= 31 && 0 <= second < 86_400
    ensures var c := ClockText(month, day, second);
            c[0] == '-' && c[3] == '-' && c[6] == 'T' && c[9] == ':' && c[12] == ':' && c[15] == 'Z'
  {
    hide Two;
  }

  lemma {:induction false} ItoaLength(n: nat)
    ensures n < 10 ==> |Itoa(n)| == 1
    ensures n < 100 ==> |Itoa(n)| <= 2
    ensures n < 1_000 ==> |Itoa(n)| <= 3
    ensures n < 10_000 ==> |Itoa(n)| <= 4
  {
    if n >= 10 && n < 10_000 {
      ItoaLength(n / 10);
    }
  }

  lemma {:induction false} ZerosLength(n: nat)
    ensures |Zeros(n)| == n
  {
    if n > 0 {
      ZerosLength(n - 1);
    }
  }

  lemma YearReads(y: int)
    ensures |YearText(y)| >= 4
    ensures y >= 0 ==> Atoi(YearText(y)) == y
    ensures 0 <= y <= 9999 ==> |YearText(y)| == 4
  {
    hide Atoi, Itoa;
    var n := if y < 0 then -y else y;
    PaddedValue(n);
    ItoaLength(n);
    if |Itoa(n)| < 4 {
      ZerosLength(4 - |Itoa(n)|);
    }
  }

  /** A timestamp is the civil date and the time of day of its instant, in the layout of RFC 3339; so the
      instant can be read back from it. */
  lemma StampReads(t: int)
    ensures Writes(Stamp(t), Civil(t / DAY), t % DAY / 1_000_000_000)
  {
    hide Civil, ClockText, YearText, Two, Atoi;
    CivilRoundTrip(t / DAY);
    var c, second := Civil(t / DAY), SecondOfDay(t);
    MonthAtMost31(c.year, c.month);
    YearReads(c.year);
    ClockReads(YearText(c.year), c.month, c.day, second);
    TwoReads(c.month);
    TwoReads(c.day);
    TwoReads(second / 3_600);
    TwoReads(second / 60 % 60);
    TwoReads(second % 60);
    assert second / 60 / 60 == second / 3_600;
  }

  /** Two whole-second instants with one timestamp are one instant. */
  lemma StampInjective(t: int, u: int)
    requires t % SECOND == 0 && u % SECOND == 0 && Stamp(t) == Stamp(u)
    ensures t == u
  {
    hide Civil, DayNumber, ClockText, YearText, Two;
    var c, d := Civil(t / DAY), Civil(u / DAY);
    CivilRoundTrip(t / DAY);
    CivilRoundTrip(u / DAY);
    MonthAtMost31(c.year, c.month);
    MonthAtMost31(d.year, d.month);
    var x, y := SecondOfDay(t), SecondOfDay(u);
    var yc, yd := YearText(c.year), YearText(d.year);
    assert Stamp(t)[|Stamp(t)| - 16..] == ClockText(c.month, c.day, x);
    assert Stamp(u)[|Stamp(u)| - 16..] == ClockText(d.month, d.day, y);
    assert Stamp(t)[..|Stamp(t)| - 16] == yc && Stamp(u)[..|Stamp(u)| - 16] == yd;
    YearTextInjective(c.year, d.year);
    ClockTextParts(c.month, c.day, x);
    ClockTextParts(d.month, d.day, y);
    TwoInjective(c.month, d.month);
    TwoInjective(c.day, d.day);
    TwoInjective(x / 3_600, y / 3_600);
    TwoInjective(x / 60 % 60, y / 60 % 60);
    TwoInjective(x % 60, y % 60);
    SecondsFromParts(x, y);
    InstantFromParts(t, u);
  }

  lemma SecondsFromParts(x: int, y: int)
    requires x / 3_600 == y / 3_600 && x / 60 % 60 == y / 60 % 60 && x % 60 == y % 60
    ensures x == y
  {
    assert x / 60 / 60 == x / 3_600 && y / 60 / 60 == y / 3_600;
  }

  lemma InstantFromParts(t: int, u: int)
    requires t % SECOND == 0 && u % SECOND == 0
    requires t / DAY == u / DAY && SecondOfDay(t) == SecondOfDay(u)
    ensures t == u
  {
    WholeSecondOfDay(t);
    WholeSecondOfDay(u);
  }

  lemma WholeSecondOfDay(t: int)
    requires t % SECOND == 0
    ensures t % DAY == SecondOfDay(t) * SECOND
  {
    var k := t / SECOND;
    assert t == k * SECOND;
    assert DAY == 86_400 * SECOND;
    var q := t / DAY;
    assert t % DAY == (k - 86_400 * q) * SECOND;
  }

  // ---------------------------------------------------------------- usage keys

  function QuotaKey(tenant: string, user: string, kind: string): string {
    tenant + ":" + user + ":" + kind
  }

  function UsageKey(tenant: string, user: string, kind: string, start: int): string {
    tenant + ":" + user + ":" + kind + ":" + Stamp(start)
  }

  datatype Account = Account(tenant: string, user: string, kind: string, start: int)

  /** Colon-free names, and a period start on a whole second (as all period starts are). */
  ghost predicate PlainAccount(a: Account) {
    Plain(a.tenant) && Plain(a.user) && Plain(a.kind) && a.start % SECOND == 0
  }

  function KeyOf(a: Account): string {
    UsageKey(a.tenant, a.user, a.kind, a.start)
  }

  /** Three colon-free fields come off the front in order. */
  lemma ThreeFields(x: string, y: string, z: string, rest: string)
    requires Plain(x) && Plain(y) && Plain(z)
    ensures var s := x + ":" + y + ":" + z + ":" + rest;
            && Cut(s) == |x| < |s| && s[..|x|] == x
            && var s1 := s[|x| + 1..];
               && Cut(s1) == |y| < |s1| && s1[..|y|] == y
               && var s2 := s1[|y| + 1..];
                  && Cut(s2) == |z| < |s2| && s2[..|z|] == z && s2[|z| + 1..] == rest
  {
    var s2 := z + ":" + rest;
    var s1 := y + ":" + s2;
    assert x + ":" + y + ":" + z + ":" + rest == x + ":" + s1;
    CutField(x, s1);
    CutField(y, s2);
    CutField(z, rest);
  }

  /** Two colon-free accounts never share a usage key. */
  lemma PlainKeysDiffer(a: Account, b: Account)
    requires PlainAccount(a) && PlainAccount(b) && KeyOf(a) == KeyOf(b)
    ensures a == b
  {
    hide Stamp, Cut;
    ThreeFields(a.tenant, a.user, a.kind, Stamp(a.start));
    ThreeFields(b.tenant, b.user, b.kind, Stamp(b.start));
    StampInjective(a.start, b.start);
  }

  // ---------------------------------------------------------------- exactly when a usage key is one account's

  lemma {:induction false} ZerosPlain(n: nat)
    ensures Plain(Zeros(n))
  {
    if n > 0 {
      ZerosPlain(n - 1);
    }
  }

  lemma PaddedPlain(n: nat)
    ensures Plain(Padded(n))
  {
    AtoiItoa(n);
    if |Itoa(n)| < 4 {
      ZerosPlain(4 - |Itoa(n)|);
    }
  }

  lemma TwoPlain(n: int)
    requires 0 <= n < 100
    ensures Colons(Two(n)) == 0
  {
    PlainIffNoColons(Two(n));
  }

  lemma ClockColons(month: int, day: int, second: int)
    requires 1 <= month <= 12 && 1 <= day <= 31 && 0 <= second < 86_400
    ensures Colons(ClockText(month, day, second)) == 2
  {
    hide Two, Colons;
    var date := "-" + Two(month) + "-" + Two(day) + "T" + Two(second / 3_600);
    var rest := Two(second / 60 % 60) + ":" + Two(second % 60) + "Z";
    assert ClockText(month, day, second) == date + ":" + rest;
    TwoPlain(month);
    TwoPlain(day);
    TwoPlain(second / 3_600);
    TwoPlain(second / 60 % 60);
    TwoPlain(second % 60);
    DatePlain(Two(month), Two(day), Two(second / 3_600));
    RestColons(Two(second / 60 % 60), Two(second % 60));
    ColonsConcat(date + ":", rest);
    ColonsConcat(date, ":");
    OneColon();
  }

  lemma DatePlain(month: string, day: string, hour: string)
    requires Colons(month) == 0 && Colons(day) == 0 && Colons(hour) == 0
    ensures Colons("-" + month + "-" + day + "T" + hour) == 0
  {
    PlainIffNoColons(month);
    PlainIffNoColons(day);
    PlainIffNoColons(hour);
    PlainIffNoColons("-" + month + "-" + day + "T" + hour);
  }

  lemma RestColons(minute: string, second: string)
    requires Colons(minute) == 0 && Colons(second) == 0
    ensures Colons(minute + ":" + second + "Z") == 1
  {
    PlainIffNoColons("Z");
    OneColon();
    ColonsConcat(minute + ":" + second, "Z");
    ColonsConcat(minute + ":", second);
    ColonsConcat(minute, ":");
  }

  /** A timestamp holds exactly two colons. */
  lemma StampColons(t: int)
    ensures Colons(Stamp(t)) == 2
  {
    hide Civil, ClockText, YearText, Colons;
    CivilRoundTrip(t / DAY);
    var c := Civil(t / DAY);
    MonthAtMost31(c.year, c.month);
    YearPlain(c.year);
    ClockColons(c.month, c.day, SecondOfDay(t));
    ColonsConcat(YearText(c.year), ClockText(c.month, c.day, SecondOfDay(t)));
  }

  lemma YearPlain(y: int)
    ensures Colons(YearText(y)) == 0
  {
    PaddedPlain(if y < 0 then -y else y);
    PlainIffNoColons(YearText(y));
  }

  lemma KeyColons(a: Account)
    ensures Colons(KeyOf(a)) == Colons(a.tenant) + Colons(a.user) + Colons(a.kind) + 5
  {
    hide Stamp, Colons;
    var (x, y, z, t) := (a.tenant, a.user, a.kind, Stamp(a.start));
    OneColon();
    StampColons(a.start);
    ColonsConcat(x + ":" + y + ":" + z + ":", t);
    ColonsConcat(x + ":" + y + ":" + z, ":");
    ColonsConcat(x + ":" + y + ":", z);
    ColonsConcat(x + ":" + y, ":");
    ColonsConcat(x + ":", y);
    ColonsConcat(x, ":");
  }

  ghost predicate PlainNames(a: Account) {
    Plain(a.tenant) && Plain(a.user) && Plain(a.kind)
  }

  /** No other account shares the usage key of a colon-free one, whatever characters that other holds. */
  lemma UsageKeyInjective(a: Account, b: Account)
    requires PlainAccount(a) && b.start % SECOND == 0 && KeyOf(a) == KeyOf(b)
    ensures a == b
  {
    hide KeyOf, Colons;
    KeyColons(a);
    KeyColons(b);
    PlainIffNoColons(a.tenant);
    PlainIffNoColons(a.user);
    PlainIffNoColons(a.kind);
    PlainIffNoColons(b.tenant);
    PlainIffNoColons(b.user);
    PlainIffNoColons(b.kind);
    PlainKeysDiffer(a, b);
  }

  /** The account that gets the part of a name after (or before) its first colon moved to its neighbour. */
  function Neighbour(a: Account): Account {
    var i, j, k := Cut(a.tenant), Cut(a.user), Cut(a.kind);
    if i < |a.tenant| then a.(tenant := a.tenant[..i], user := a.tenant[i + 1..] + ":" + a.user)
    else if j < |a.user| then a.(tenant := a.tenant + ":" + a.user[..j], user := a.user[j + 1..])
    else if k < |a.kind| then a.(user := a.user + ":" + a.kind[..k], kind := a.kind[k + 1..])
    else a
  }

  lemma TenantMoves(a: Account)
    requires !Plain(a.tenant)
    ensures Neighbour(a) != a && KeyOf(Neighbour(a)) == KeyOf(a)
  {
    hide Stamp, Cut;
    CutAtColon(a.tenant);
    var i := Cut(a.tenant);
    var p, q := a.tenant[..i], a.tenant[i + 1..];
    assert |p| < |a.tenant|;
    assert p + ":" + (q + ":" + a.user) == (p + ":" + q) + ":" + a.user;
  }

  lemma UserMoves(a: Account)
    requires Plain(a.tenant) && !Plain(a.user)
    ensures Neighbour(a) != a && KeyOf(Neighbour(a)) == KeyOf(a)
  {
    hide Stamp, Cut;
    PlainCut(a.tenant);
    CutAtColon(a.user);
    var j := Cut(a.user);
    var p, q := a.user[..j], a.user[j + 1..];
    assert |q| < |a.user|;
    assert a.tenant + ":" + (p + ":" + q) == (a.tenant + ":" + p) + ":" + q;
  }

  lemma KindMoves(a: Account)
    requires Plain(a.tenant) && Plain(a.user) && !Plain(a.kind)
    ensures Neighbour(a) != a && KeyOf(Neighbour(a)) == KeyOf(a)
  {
    hide Stamp, Cut;
    PlainCut(a.tenant);
    PlainCut(a.user);
    CutAtColon(a.kind);
    var k := Cut(a.kind);
    var p, q := a.kind[..k], a.kind[k + 1..];
    assert |q| < |a.kind|;
    var x := a.tenant + ":";
    assert x + (a.user + ":" + p) + ":" + q == x + a.user + ":" + (p + ":" + q);
  }

  /** A colon in any name makes a different account share the key. */
  lemma NeighbourCollides(a: Account)
    requires !PlainNames(a)
    ensures Neighbour(a) != a && KeyOf(Neighbour(a)) == KeyOf(a)
    ensures Neighbour(a).start == a.start
  {
    hide KeyOf;
    if !Plain(a.tenant) {
      TenantMoves(a);
    } else if !Plain(a.user) {
      UserMoves(a);
    } else {
      KindMoves(a);
    }
  }

  lemma PlainCut(s: string)
    requires Plain(s)
    ensures Cut(s) == |s|
  {
    CutPlain(s, "");
    assert s + "" == s;
  }

  /** A usage key belongs to one account alone exactly when none of the three names holds a colon. */
  lemma UsageKeyUniqueIff(a: Account)
    requires a.start % SECOND == 0
    ensures (forall b: Account :: b.start % SECOND == 0 && KeyOf(b) == KeyOf(a) ==> b == a) <==> PlainNames(a)
  {
    hide KeyOf;
    if PlainNames(a) {
      forall b: Account | b.start % SECOND == 0 && KeyOf(b) == KeyOf(a) ensures b == a {
        UsageKeyInjective(a, b);
      }
    } else {
      NeighbourCollides(a);
    }
  }

  /** Nor does any other tenant, user and kind share the quota key of a colon-free one. */
  lemma QuotaKeyInjective(x: string, y: string, z: string, x': string, y': string, z': string)
    requires Plain(x) && Plain(y) && Plain(z) && QuotaKey(x, y, z) == QuotaKey(x', y', z')
    ensures x == x' && y == y' && z == z'
  {
    hide Colons, Cut;
    QuotaKeyColons(x, y, z);
    QuotaKeyColons(x', y', z');
    PlainIffNoColons(x);
    PlainIffNoColons(y);
    PlainIffNoColons(z);
    PlainIffNoColons(x');
    PlainIffNoColons(y');
    PlainIffNoColons(z');
    assert QuotaKey(x, y, z) == x + ":" + (y + ":" + z) && QuotaKey(x', y', z') == x' + ":" + (y' + ":" + z');
    CutField(x, y + ":" + z);
    CutField(x', y' + ":" + z');
    CutField(y, z);
    CutField(y', z');
  }

  lemma QuotaKeyColons(x: string, y: string, z: string)
    ensures Colons(QuotaKey(x, y, z)) == Colons(x) + Colons(y) + Colons(z) + 2
  {
    hide Colons;
    OneColon();
    ColonsConcat(x + ":" + y + ":", z);
    ColonsConcat(x + ":" + y, ":");
    ColonsConcat(x + ":", y);
    ColonsConcat(x, ":");
  }

  lemma PeriodStartsAreWhole(p: string, now: int)
    ensures PeriodBounds(p, now).0 % SECOND == 0
  {
    hide PeriodBounds, Civil;
    PeriodStartDay(p, now);
    var first := PeriodBounds(p, now).0 / DAY;
    assert first * DAY == first * 86_400 * SECOND;
  }
}
