/** A way of writing JSON values that a request text can be faithful with: what the text theorems ask of it can be met. */
module WrittenText {
  import opened Wrappers
  import opened DecimalNumerals
  import opened JsonValues
  import opened StableJson
  import opened FloatingPoint
  import Scan = ScanText

  /** In units of the n-th negative power of two. */
  function Scaled(n: nat, x: real): int {
    (x * TwoTo(n) as real).Floor
  }

  function NumberText(n: nat, x: real): string {
    if Scaled(n, x) < 0 then "-" + Decimal(-Scaled(n, x)) else "+" + Decimal(Scaled(n, x))
  }

  function Joined(texts: seq<string>): string {
    Scan.Encode(Scan.Utf8Length, seq(|texts|, i requires 0 <= i < |texts| => Scan.Field("", texts[i])))
  }

  function Text(n: nat, v: Json): string {
    match v
    case Null => "n"
    case Undefined => "u"
    case Bool(b) => if b then "t" else "f"
    case Number(x, _) => "d" + NumberText(n, x)
    case String(s) => "s" + s
    case Array(items) => "a" + Joined(seq(|items|, i requires 0 <= i < |items| => Text(n, items[i])))
    case Object(members) =>
      "o" + Joined(seq(|members|, i requires 0 <= i < |members| => Joined([members[i].key, Text(n, members[i].value)])))
  }

  /** Texts that were joined can be taken apart. */
  lemma JoinedInjective(a: seq<string>, b: seq<string>)
    requires Joined(a) == Joined(b)
    ensures a == b
  {
    hide Scan.Encode, Scan.Decode;
    var f := seq(|a|, i requires 0 <= i < |a| => Scan.Field("", a[i]));
    var g := seq(|b|, i requires 0 <= i < |b| => Scan.Field("", b[i]));
    Scan.Utf8Grows();
    NotEmpty(f);
    NotEmpty(g);
    if a != [] && b != [] {
      Scan.DecodeEncode(Scan.Utf8Length, f);
      Scan.DecodeEncode(Scan.Utf8Length, g);
      assert forall i | 0 <= i < |a| :: f[i].value == a[i] == b[i];
    }
  }

  lemma NotEmpty(fields: seq<Scan.Field>)
    ensures Scan.Encode(Scan.Utf8Length, fields) == "" <==> fields == []
  {
  }

  lemma DecimalOf(m: nat, n: nat)
    requires Decimal(m) == Decimal(n)
    ensures m == n
  {
    DecimalInjective(m, n);
  }

  lemma {:induction false} PowersAdd(k: nat, l: nat)
    ensures TwoTo(k + l) == TwoTo(k) * TwoTo(l)
  {
    if k > 0 {
      PowersAdd(k - 1, l);
      Doubled(TwoTo(k - 1), TwoTo(l));
    }
  }

  lemma Doubled(a: int, b: int)
    ensures 2 * (a * b) == (2 * a) * b
  {
  }

  lemma ProductOfWholes(a: int, b: int)
    ensures (a * b) as real == a as real * b as real
  {
  }

  lemma Upscaled(x: real, m: int, d: int, q: int)
    requires x * d as real == m as real
    ensures x * (d * q) as real == (m * q) as real
  {
    ProductOfWholes(d, q);
    ProductOfWholes(m, q);
    Regrouped(x, d as real, q as real);
  }

  lemma Regrouped(x: real, d: real, q: real)
    ensures x * (d * q) == (x * d) * q
  {
  }

  /** Finite numbers are whole in units that are small enough. */
  lemma ScaledIsWhole(n: nat, x: real)
    requires IsDouble(x) && n >= 1074
    ensures x * TwoTo(n) as real == Scaled(n, x) as real
  {
    hide TwoTo;
    var m: int, e: int :| Scales(x, m, e);
    var whole := WholeInUnits(n, x, m, e);
    assert (x * TwoTo(n) as real).Floor == whole;
  }

  lemma WholeInUnits(n: nat, x: real, m: int, e: int) returns (whole: int)
    requires Scales(x, m, e) && n >= 1074
    ensures x * TwoTo(n) as real == whole as real
  {
    hide TwoTo;
    if e >= 0 {
      whole := m * TwoTo(e) * TwoTo(n);
      ProductOfWholes(m * TwoTo(e), TwoTo(n));
    } else {
      whole := m * TwoTo(n + e);
      PowersAdd(-e, n + e);
      Upscaled(x, m, TwoTo(-e), TwoTo(n + e));
    }
  }

  lemma ScaledInjective(n: nat, x: real, y: real)
    requires IsDouble(x) && IsDouble(y) && n >= 1074 && Scaled(n, x) == Scaled(n, y)
    ensures x == y
  {
    hide TwoTo, IsDouble, Scaled;
    ScaledIsWhole(n, x);
    ScaledIsWhole(n, y);
    var p := TwoTo(n) as real;
    Cancelled(x, y, p);
  }

  lemma Cancelled(x: real, y: real, p: real)
    requires p >= 1.0 && x * p == y * p
    ensures x == y
  {
    assert (x - y) * p == 0.0;
  }

  lemma NumberTextInjective(n: nat, x: real, y: real)
    requires IsDouble(x) && IsDouble(y) && n >= 1074 && NumberText(n, x) == NumberText(n, y)
    ensures x == y
  {
    hide Decimal, IsDouble, Scaled;
    var s, t := NumberText(n, x), NumberText(n, y);
    assert s[0] == t[0] && s[1..] == t[1..];
    if Scaled(n, x) < 0 {
      DecimalOf(-Scaled(n, x), -Scaled(n, y));
    } else {
      DecimalOf(Scaled(n, x), Scaled(n, y));
    }
    ScaledInjective(n, x, y);
  }

  lemma {:induction false} TextOfUnsigned(n: nat, v: Json)
    ensures Text(n, Unsigned(v)) == Text(n, v)
  {
    hide NumberText, Joined;
    match v
    case Array(items) =>
      var us := Unsigned(v).items;
      forall i | 0 <= i < |items|
        ensures Text(n, us[i]) == Text(n, items[i])
      {
        TextOfUnsigned(n, items[i]);
      }
      assert seq(|us|, i requires 0 <= i < |us| => Text(n, us[i])) == seq(|items|, i requires 0 <= i < |items| => Text(n, items[i]));
    case Object(members) =>
      var us := Unsigned(v).members;
      forall i | 0 <= i < |members|
        ensures us[i].key == members[i].key && Text(n, us[i].value) == Text(n, members[i].value)
      {
        TextOfUnsigned(n, members[i].value);
      }
      assert seq(|us|, i requires 0 <= i < |us| => Joined([us[i].key, Text(n, us[i].value)]))
        == seq(|members|, i requires 0 <= i < |members| => Joined([members[i].key, Text(n, members[i].value)]));
    case _ =>
  }

  lemma {:induction false} TextDetermines(n: nat, v: Json, w: Json)
    requires n >= 1074 && Scan.Held(v) && Scan.Held(w) && Text(n, v) == Text(n, w)
    ensures Unsigned(v) == Unsigned(w)
    decreases v, 1
  {
    hide NumberText, Joined, IsDouble;
    assert Text(n, v)[0] == Text(n, w)[0] && Text(n, v)[1..] == Text(n, w)[1..];
    match v
    case Number(x, _) =>
      assert w.Number?;
      NumberTextInjective(n, x, w.value);
    case String(s) =>
      assert w.String?;
    case Array(items) =>
      assert w.Array?;
      var a := seq(|items|, i requires 0 <= i < |items| => Text(n, items[i]));
      var b := seq(|w.items|, i requires 0 <= i < |w.items| => Text(n, w.items[i]));
      JoinedInjective(a, b);
      assert |a| == |items| && |b| == |w.items|;
      forall i | 0 <= i < |items|
        ensures Unsigned(items[i]) == Unsigned(w.items[i])
      {
        assert a[i] == Text(n, items[i]) && b[i] == Text(n, w.items[i]);
        TextDetermines(n, items[i], w.items[i]);
      }
      assert Unsigned(v).items == Unsigned(w).items;
    case Object(members) =>
      assert w.Object?;
      ObjectTextDetermines(n, v, w);
    case _ =>
  }

  lemma {:induction false} ObjectTextDetermines(n: nat, v: Json, w: Json)
    requires n >= 1074 && Scan.Held(v) && Scan.Held(w) && Text(n, v) == Text(n, w) && v.Object? && w.Object?
    ensures Unsigned(v) == Unsigned(w)
    decreases v, 0
  {
    hide NumberText, Joined, IsDouble, Unsigned;
    var vs, ws := v.members, w.members;
    var a := seq(|vs|, i requires 0 <= i < |vs| => Joined([vs[i].key, Text(n, vs[i].value)]));
    var b := seq(|ws|, i requires 0 <= i < |ws| => Joined([ws[i].key, Text(n, ws[i].value)]));
    assert Text(n, v)[1..] == Joined(a) && Text(n, w)[1..] == Joined(b);
    JoinedInjective(a, b);
    assert |a| == |vs| && |b| == |ws|;
    forall i | 0 <= i < |vs|
      ensures vs[i].key == ws[i].key && Unsigned(vs[i].value) == Unsigned(ws[i].value)
    {
      var x, y := [vs[i].key, Text(n, vs[i].value)], [ws[i].key, Text(n, ws[i].value)];
      assert a[i] == Joined(x) && b[i] == Joined(y);
      JoinedInjective(x, y);
      assert x[0] == y[0] && x[1] == y[1];
      TextDetermines(n, vs[i].value, ws[i].value);
    }
    UnsignedObjects(v, w);
  }

  lemma UnsignedObjects(v: Json, w: Json)
    requires v.Object? && w.Object? && |v.members| == |w.members|
    requires forall i | 0 <= i < |v.members| ::
      v.members[i].key == w.members[i].key && Unsigned(v.members[i].value) == Unsigned(w.members[i].value)
    ensures Unsigned(v) == Unsigned(w)
  {
    assert Unsigned(v).members == Unsigned(w).members;
  }

  /** There are ways of writing that determine what is written, up to the sign of zero. */
  lemma FaithfulTextExists(n: nat)
    requires n >= 1074
    ensures Scan.Faithful((v: Json) => Text(n, v))
  {
    hide Unsigned, Text, Scan.Doubles, Stable;
    forall v, w | Scan.Written(v) && Scan.Written(w)
      ensures Text(n, v) == Text(n, w) <==> Unsigned(v) == Unsigned(w)
    {
      TextOfUnsigned(n, v);
      TextOfUnsigned(n, w);
      if Text(n, v) == Text(n, w) {
        TextDetermines(n, v, w);
      }
    }
  }
}
