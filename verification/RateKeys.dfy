/** Storage keys of the rate limiter and why two keys never share one. */
module RateKeys {
  import opened Text

  datatype Key = Key(tenant: string, user: string, team: string, tool: string, scope: string)

  const EMPTY: Key := Key("", "", "", "", "")

  type Field = (string, string)

  function FieldOf(tag: string, value: string): seq<Field> {
    if value == "" then [] else [(tag, value)]
  }

  function Fields(k: Key): seq<Field> {
    FieldOf("s", k.scope) + FieldOf("t", k.tenant) + FieldOf("tm", k.team) + FieldOf("u", k.user)
    + FieldOf("tl", k.tool)
  }

  function Label(f: Field): string {
    f.0 + ":" + f.1
  }

  function Labelled(fs: seq<Field>): seq<string> {
    if fs == [] then [] else [Label(fs[0])] + Labelled(fs[1..])
  }

  function KeyString(k: Key): string {
    if Fields(k) == [] then "global" else Join(Labelled(Fields(k)))
  }

  /** The source's own construction, one optional part at a time. */
  method BuildKeyString(k: Key) returns (s: string)
    ensures s == KeyString(k)
  {
    var parts: seq<string> := [];
    parts := AppendPart(parts, [], "s", k.scope);
    parts := AppendPart(parts, FieldOf("s", k.scope), "t", k.tenant);
    parts := AppendPart(parts, FieldOf("s", k.scope) + FieldOf("t", k.tenant), "tm", k.team);
    parts := AppendPart(parts, FieldOf("s", k.scope) + FieldOf("t", k.tenant) + FieldOf("tm", k.team), "u", k.user);
    parts := AppendPart(parts, FieldOf("s", k.scope) + FieldOf("t", k.tenant) + FieldOf("tm", k.team)
                               + FieldOf("u", k.user), "tl", k.tool);
    s := if |parts| == 0 then "global" else Join(parts);
  }

  /** Appends `tag:value` unless the value is empty; `done` are the fields appended so far. */
  method AppendPart(parts: seq<string>, ghost done: seq<Field>, tag: string, value: string) returns (r: seq<string>)
    requires parts == Labelled(done)
    ensures r == Labelled(done + FieldOf(tag, value))
    ensures r == [] <==> done + FieldOf(tag, value) == []
  {
    r := parts;
    if value != "" {
      r := r + [Label((tag, value))];
    }
    LabelledConcat(done, FieldOf(tag, value));
    assert Labelled([(tag, value)]) == [Label((tag, value))];
    assert done + [] == done;
  }

  lemma {:induction false} LabelledConcat(a: seq<Field>, b: seq<Field>)
    ensures Labelled(a + b) == Labelled(a) + Labelled(b)
  {
    if a == [] {
      assert a + b == b;
    } else {
      LabelledConcat(a[1..], b);
      assert (a + b)[1..] == a[1..] + b && (a + b)[0] == a[0];
      var h, x, y := [Label(a[0])], Labelled(a[1..]), Labelled(b);
      assert h + (x + y) == (h + x) + y;
    }
  }

  // ---------------------------------------------------------------- the left inverse

  function Flat(fs: seq<Field>): seq<string> {
    if fs == [] then [] else [fs[0].0, fs[0].1] + Flat(fs[1..])
  }

  function Pairs(tokens: seq<string>): seq<Field> {
    if |tokens| < 2 then [] else [(tokens[0], tokens[1])] + Pairs(tokens[2..])
  }

  function Lookup(fs: seq<Field>, tag: string): string {
    if fs == [] then "" else if fs[0].0 == tag then fs[0].1 else Lookup(fs[1..], tag)
  }

  function ParseKey(s: string): Key {
    var fs := Pairs(Split(s));
    Key(Lookup(fs, "t"), Lookup(fs, "u"), Lookup(fs, "tm"), Lookup(fs, "tl"), Lookup(fs, "s"))
  }

  ghost predicate PlainKey(k: Key) {
    Plain(k.tenant) && Plain(k.user) && Plain(k.team) && Plain(k.tool) && Plain(k.scope)
  }

  lemma {:induction false} JoinFlat(fs: seq<Field>)
    requires fs != []
    ensures Join(Labelled(fs)) == Join(Flat(fs)) && Flat(fs) != []
  {
    var tag, value, rest := fs[0].0, fs[0].1, fs[1..];
    assert Flat(fs)[1..] == [value] + Flat(rest);
    assert Labelled(fs)[1..] == Labelled(rest);
    if rest == [] {
      assert Flat(fs)[1..] == [value];
    } else {
      JoinFlat(rest);
      JoinCons(value, Flat(rest));
      JoinCons(tag, [value] + Flat(rest));
      JoinCons(Label(fs[0]), Labelled(rest));
      assert Flat(fs) == [tag] + ([value] + Flat(rest));
      assert Labelled(fs) == [Label(fs[0])] + Labelled(rest);
      JoinAssoc(tag, value, Join(Flat(rest)));
    }
  }

  lemma JoinCons(head: string, tail: seq<string>)
    requires tail != []
    ensures Join([head] + tail) == head + ":" + Join(tail)
  {
    assert ([head] + tail)[1..] == tail;
  }

  lemma JoinAssoc(a: string, b: string, c: string)
    ensures a + ":" + (b + ":" + c) == a + ":" + b + ":" + c
  {}

  lemma {:induction false} PairsFlat(fs: seq<Field>)
    ensures Pairs(Flat(fs)) == fs
    ensures (forall f :: f in fs ==> Plain(f.0) && Plain(f.1)) ==> forall p :: p in Flat(fs) ==> Plain(p)
  {
    if fs != [] {
      PairsFlat(fs[1..]);
      assert Flat(fs)[2..] == Flat(fs[1..]);
      assert fs == [fs[0]] + fs[1..];
    }
  }

  lemma {:induction false} LookupConcat(a: seq<Field>, b: seq<Field>, tag: string)
    requires forall f :: f in a ==> f.1 != ""
    ensures Lookup(a + b, tag) == if Lookup(a, tag) != "" then Lookup(a, tag) else Lookup(b, tag)
  {
    if a == [] {
      assert a + b == b;
    } else {
      assert (a + b)[1..] == a[1..] + b;
      LookupConcat(a[1..], b, tag);
    }
  }

  function FieldFor(k: Key, tag: string): string {
    if tag == "s" then k.scope else if tag == "t" then k.tenant else if tag == "tm" then k.team
    else if tag == "u" then k.user else if tag == "tl" then k.tool else ""
  }

  lemma LookupFields(k: Key, tag: string)
    ensures Lookup(Fields(k), tag) == FieldFor(k, tag)
  {
    LookupFive("s", k.scope, "t", k.tenant, "tm", k.team, "u", k.user, "tl", k.tool, tag);
  }

  lemma LookupFive(a: string, va: string, b: string, vb: string, c: string, vc: string,
                   d: string, vd: string, e: string, ve: string, tag: string)
    ensures Lookup(FieldOf(a, va) + FieldOf(b, vb) + FieldOf(c, vc) + FieldOf(d, vd) + FieldOf(e, ve), tag)
         == if a == tag && va != "" then va else if b == tag && vb != "" then vb
            else if c == tag && vc != "" then vc else if d == tag && vd != "" then vd
            else if e == tag then ve else ""
  {
    var fa, fb, fc, fd, fe := FieldOf(a, va), FieldOf(b, vb), FieldOf(c, vc), FieldOf(d, vd), FieldOf(e, ve);
    LookupOne(a, va, tag);
    LookupOne(b, vb, tag);
    LookupOne(c, vc, tag);
    LookupOne(d, vd, tag);
    LookupOne(e, ve, tag);
    LookupConcat(fa, fb, tag);
    LookupConcat(fa + fb, fc, tag);
    LookupConcat(fa + fb + fc, fd, tag);
    LookupConcat(fa + fb + fc + fd, fe, tag);
  }

  lemma LookupOne(tag: string, value: string, wanted: string)
    ensures Lookup(FieldOf(tag, value), wanted) == if tag == wanted then value else ""
  {
    assert [(tag, value)][1..] == [];
  }

  /** On colon-free fields the key can be read back from its text, the empty key included. */
  lemma ParseKeyString(k: Key)
    requires PlainKey(k)
    ensures ParseKey(KeyString(k)) == k
  {
    var fs := Fields(k);
    LookupFields(k, "s");
    LookupFields(k, "t");
    LookupFields(k, "tm");
    LookupFields(k, "u");
    LookupFields(k, "tl");
    if fs == [] {
      SplitJoin(["global"]);
    } else {
      PlainFields(k);
      FieldsReadBack(fs);
    }
  }

  lemma PlainFields(k: Key)
    requires PlainKey(k)
    ensures forall f :: f in Fields(k) ==> Plain(f.0) && Plain(f.1)
  {}

  lemma FieldsReadBack(fs: seq<Field>)
    requires fs != [] && forall f :: f in fs ==> Plain(f.0) && Plain(f.1)
    ensures Pairs(Split(Join(Labelled(fs)))) == fs
  {
    JoinFlat(fs);
    PairsFlat(fs);
    SplitJoin(Flat(fs));
  }

  /** So no two colon-free keys share a storage key. */
  lemma KeyStringInjective(a: Key, b: Key)
    requires PlainKey(a) && PlainKey(b) && KeyString(a) == KeyString(b)
    ensures a == b
  {
    ParseKeyString(a);
    ParseKeyString(b);
  }

  // ---------------------------------------------------------------- exactly when a text is one key's

  /** The order in which fields are written; 5 for what is not a field. */
  function Rank(tag: string): (r: nat)
    ensures r <= 5
  {
    if tag == "s" then 0 else if tag == "t" then 1 else if tag == "tm" then 2
    else if tag == "u" then 3 else if tag == "tl" then 4 else 5
  }

  /** Fields as every key has them: known tags in order, no empty value. */
  ghost predicate WellOrdered(fs: seq<Field>) {
    && (forall i :: 0 <= i < |fs| ==> Rank(fs[i].0) < 5 && fs[i].1 != "")
    && (forall i, j :: 0 <= i < j < |fs| ==> Rank(fs[i].0) < Rank(fs[j].0))
  }

  lemma {:induction false} AppendOrdered(fs: seq<Field>, tag: string, value: string)
    requires WellOrdered(fs) && Rank(tag) < 5 && forall i :: 0 <= i < |fs| ==> Rank(fs[i].0) < Rank(tag)
    ensures WellOrdered(fs + FieldOf(tag, value))
    ensures forall i :: 0 <= i < |fs + FieldOf(tag, value)| ==> Rank((fs + FieldOf(tag, value))[i].0) <= Rank(tag)
  {
    hide Rank;
  }

  lemma FieldsOrdered(k: Key)
    ensures WellOrdered(Fields(k))
  {
    var f1 := FieldOf("s", k.scope);
    var f2 := f1 + FieldOf("t", k.tenant);
    var f3 := f2 + FieldOf("tm", k.team);
    var f4 := f3 + FieldOf("u", k.user);
    assert [] + f1 == f1;
    AppendOrdered([], "s", k.scope);
    AppendOrdered(f1, "t", k.tenant);
    AppendOrdered(f2, "tm", k.team);
    AppendOrdered(f3, "u", k.user);
    AppendOrdered(f4, "tl", k.tool);
  }

  /** The fields determine the key. */
  lemma FieldsInjective(a: Key, b: Key)
    requires Fields(a) == Fields(b)
    ensures a == b
  {
    hide Fields, Lookup;
    LookupFields(a, "s");
    LookupFields(a, "t");
    LookupFields(a, "tm");
    LookupFields(a, "u");
    LookupFields(a, "tl");
    LookupFields(b, "s");
    LookupFields(b, "t");
    LookupFields(b, "tm");
    LookupFields(b, "u");
    LookupFields(b, "tl");
  }

  function With(k: Key, tag: string, value: string): Key {
    if tag == "s" then k.(scope := value) else if tag == "t" then k.(tenant := value)
    else if tag == "tm" then k.(team := value) else if tag == "u" then k.(user := value) else k.(tool := value)
  }

  /** The fields a key holds are known by its values, so setting a later one appends it. */
  lemma WithAppends(k: Key, tag: string, value: string)
    requires Rank(tag) < 5 && value != ""
    requires forall t :: Rank(tag) <= Rank(t) < 5 ==> FieldFor(k, t) == ""
    ensures Fields(With(k, tag, value)) == Fields(k) + [(tag, value)]
  {
    assert FieldFor(k, tag) == "";
    if Rank(tag) <= 1 { assert FieldFor(k, "t") == ""; }
    if Rank(tag) <= 2 { assert FieldFor(k, "tm") == ""; }
    if Rank(tag) <= 3 { assert FieldFor(k, "u") == ""; }
    assert FieldFor(k, "tl") == "";
  }

  lemma SingleKey(tag: string, value: string)
    requires Rank(tag) < 5 && value != ""
    ensures Fields(With(EMPTY, tag, value)) == [(tag, value)]
  {
    WithAppends(EMPTY, tag, value);
  }

  lemma DoubleKey(tag: string, value: string, later: string, more: string)
    requires Rank(tag) < Rank(later) < 5 && value != "" && more != ""
    ensures Fields(With(With(EMPTY, tag, value), later, more)) == [(tag, value), (later, more)]
  {
    hide Fields;
    SingleKey(tag, value);
    WithAppends(With(EMPTY, tag, value), later, more);
  }

  /** The value reads on as a second, later field. */
  ghost predicate Hides(f: Field) {
    exists value: string, later: string, more: string ::
      HidesAs(f, value, later, more)
  }

  ghost predicate HidesAs(f: Field, value: string, later: string, more: string) {
    value != "" && more != "" && Rank(f.0) < Rank(later) < 5 && f.1 == value + ":" + later + ":" + more
  }

  /** A key whose text is its own: no fields, or one field that hides no other. */
  ghost predicate Unmistakable(k: Key) {
    Fields(k) == [] || (|Fields(k)| == 1 && !Hides(Fields(k)[0]))
  }

  /** The text of one or more fields, taken apart at the first tag. */
  lemma TextOfFields(fs: seq<Field>)
    requires fs != []
    ensures Join(Labelled(fs)) == fs[0].0 + ":" + AfterTag(fs)
  {
    if |fs| == 1 {
      assert Labelled(fs) == [Label(fs[0])];
    } else {
      assert Labelled(fs[1..]) != [];
      JoinCons(Label(fs[0]), Labelled(fs[1..]));
      JoinAssoc(fs[0].0, fs[0].1, Join(Labelled(fs[1..])));
    }
  }

  lemma TagPlain(tag: string)
    requires Rank(tag) < 5
    ensures Plain(tag)
  {}

  lemma HeadsAgree(a: string, x: string, b: string, y: string)
    requires Plain(a) && Plain(b) && a + ":" + x == b + ":" + y
    ensures a == b && x == y
  {
    hide Cut;
    CutField(a, x);
    CutField(b, y);
  }

  /** What follows the first tag in the text of some fields. */
  function AfterTag(fs: seq<Field>): string
    requires fs != []
  {
    if |fs| == 1 then fs[0].1 else fs[0].1 + ":" + Join(Labelled(fs[1..]))
  }

  lemma AfterTagHides(tag: string, fs: seq<Field>)
    requires WellOrdered(fs) && |fs| > 1 && fs[0].0 == tag
    ensures Hides((tag, AfterTag(fs)))
  {
    hide Labelled, Rank, Join;
    var f, rest := fs[1], fs[1..];
    TextOfFields(rest);
    var more := AfterTag(rest);
    assert rest[0] == f && more != "";
    assert fs[0].1 + ":" + (f.0 + ":" + more) == fs[0].1 + ":" + f.0 + ":" + more;
    assert HidesAs((tag, AfterTag(fs)), fs[0].1, f.0, more);
  }

  /** A single field read as several: the value hides the second tag. */
  lemma ReadsAsMore(tag: string, value: string, fs: seq<Field>)
    requires WellOrdered(fs) && fs != [] && Rank(tag) < 5 && tag + ":" + value == Join(Labelled(fs))
    ensures fs[0].0 == tag && (|fs| == 1 ==> fs[0].1 == value) && (|fs| > 1 ==> Hides((tag, value)))
  {
    hide Labelled, Rank, Hides, Join;
    TextOfFields(fs);
    TagPlain(tag);
    TagPlain(fs[0].0);
    HeadsAgree(tag, value, fs[0].0, AfterTag(fs));
    if |fs| > 1 {
      AfterTagHides(tag, fs);
    }
  }

  lemma GlobalPlain()
    ensures Plain("global") && Cut("global") == 6
  {
    CutPlain("global", "");
    assert "global" + "" == "global";
  }

  lemma SharedTextAgrees(a: Key, b: Key)
    requires Unmistakable(a) && KeyString(a) == KeyString(b)
    ensures a == b
  {
    hide Fields, Hides, Cut, Labelled;
    var fa, fb := Fields(a), Fields(b);
    FieldsOrdered(a);
    FieldsOrdered(b);
    GlobalPlain();
    if fb != [] {
      TextOfFields(fb);
      TagPlain(fb[0].0);
      CutField(fb[0].0, AfterTag(fb));
    }
    if fa != [] {
      TextOfFields(fa);
      TagPlain(fa[0].0);
      CutField(fa[0].0, fa[0].1);
      assert fb != [];
      ReadsAsMore(fa[0].0, fa[0].1, fb);
      assert fa == [fa[0]] && fb == [fb[0]];
    } else {
      assert fb == [];
    }
    FieldsInjective(a, b);
  }

  /** Several fields read as one long value of the first. */
  lemma ManyAsOne(a: Key) returns (b: Key)
    requires |Fields(a)| > 1
    ensures b != a && KeyString(b) == KeyString(a)
  {
    hide Labelled, Fields, With, Join;
    var fs := Fields(a);
    FieldsOrdered(a);
    var tag, value := fs[0].0, AfterTag(fs);
    TextOfFields(fs);
    b := With(EMPTY, tag, value);
    SingleKey(tag, value);
    TextOfFields([(tag, value)]);
  }

  /** One value read as two fields. */
  lemma OneAsTwo(a: Key) returns (b: Key)
    requires |Fields(a)| == 1 && Hides(Fields(a)[0])
    ensures b != a && KeyString(b) == KeyString(a)
  {
    hide Labelled, Fields, With, Join, Hides;
    var f := Fields(a)[0];
    var value, later, more := Hidden(f);
    var two := [(f.0, value), (later, more)];
    b := With(With(EMPTY, f.0, value), later, more);
    DoubleKey(f.0, value, later, more);
    TextOfFields(Fields(a));
    TextOfFields(two);
    assert two[1..] == [(later, more)];
    TextOfFields([(later, more)]);
    assert value + ":" + (later + ":" + more) == value + ":" + later + ":" + more;
  }

  /** The other key with the text of a mistakable one. */
  lemma MistakableShares(a: Key) returns (b: Key)
    requires !Unmistakable(a)
    ensures b != a && KeyString(b) == KeyString(a)
  {
    hide KeyString, Hides, Fields;
    if |Fields(a)| > 1 {
      b := ManyAsOne(a);
    } else {
      b := OneAsTwo(a);
    }
  }

  lemma Hidden(f: Field) returns (value: string, later: string, more: string)
    requires Hides(f)
    ensures HidesAs(f, value, later, more)
  {
    value, later, more :| HidesAs(f, value, later, more);
  }

  /** A storage key belongs to one key alone, among all keys, exactly when that key has at most one
      non-empty field, and that field's value does not read on as a later field. */
  lemma TextUniqueIff(a: Key)
    ensures (forall b :: KeyString(b) == KeyString(a) ==> b == a) <==> Unmistakable(a)
  {
    hide KeyString, Unmistakable;
    if Unmistakable(a) {
      forall b | KeyString(b) == KeyString(a) ensures b == a {
        SharedTextAgrees(a, b);
      }
    } else {
      var b := MistakableShares(a);
    }
  }

  /** For example, a tenant's user shares its key with a tenant whose name holds both. */
  lemma ColonsCollide(tenant: string, user: string)
    requires tenant != "" && user != ""
    ensures var a, b := EMPTY.(tenant := tenant, user := user), EMPTY.(tenant := tenant + ":u:" + user);
            a != b && KeyString(a) == KeyString(b)
  {
    var a, b := EMPTY.(tenant := tenant, user := user), EMPTY.(tenant := tenant + ":u:" + user);
    assert Fields(a) == [("t", tenant), ("u", user)];
    assert Fields(b) == [("t", tenant + ":u:" + user)];
    assert Labelled(Fields(a)[1..]) == [Label(("u", user))];
    assert Labelled(Fields(a)) == [Label(("t", tenant))] + [Label(("u", user))];
    JoinCons(Label(("t", tenant)), [Label(("u", user))]);
    assert Labelled(Fields(b)) == [Label(("t", tenant + ":u:" + user))];
    assert "t" + ":" + tenant + ":" + ("u" + ":" + user) == "t" + ":" + (tenant + ":u:" + user);
  }
}
