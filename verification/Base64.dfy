/** The base64 decoder (mime/base64_decoder.rl), for section 6.8 of RFC 2045. */
module Base64 {
  import opened Text

  datatype State = Start | Boundary | Have1 | Have2 | Have3 | ExpectPad | Final | Held | Failed

  /** `unit` is the 32-bit accumulator; `out` is the conversion buffer. */
  datatype Decoder = Decoder(cs: State, unit: nat, out: string)

  const WORD: nat := 0x1_0000_0000

  /** The 6-bit value of a letter of the alphabet. */
  function SextetOf(c: char): Option<nat>
  {
    if 'A' <= c <= 'Z' then Some(c as int - 'A' as int)
    else if 'a' <= c <= 'z' then Some(c as int - 'a' as int + 26)
    else if '0' <= c <= '9' then Some(c as int - '0' as int + 52)
    else if c == '+' then Some(62)
    else if c == '/' then Some(63)
    else None
  }

  /** `unit <<= 6; unit |= i` in 32 bits: the top six bits drop out, and the low six bits are free. */
  function PushUnit(unit: nat, i: nat): nat { unit % 0x400_0000 * 64 + i }

  function Octet(n: nat): char { (n % 256) as char }

  /** The three octets at the low end of the accumulator, highest first. */
  function Bytes(unit: nat): string { [Octet(unit / 65536), Octet(unit / 256), Octet(unit)] }

  predicate Print(c: char) { ' ' <= c <= '~' }

  /** `b_encoded_word`. In `Held` the current octet has to be read again by whoever follows the encoded word. */
  function Step(d: Decoder, c: char): Decoder
  {
    var v := SextetOf(c);
    match d.cs
    case Start => if v.Some? then Decoder(Have1, PushUnit(d.unit, v.value), d.out) else d.(cs := Failed)
    case Boundary =>
      if v.Some? then Decoder(Have1, PushUnit(d.unit, v.value), d.out)
      else if Print(c) then d.(cs := Held) else d.(cs := Failed)
    case Have1 => if v.Some? then Decoder(Have2, PushUnit(d.unit, v.value), d.out) else d.(cs := Failed)
    case Have2 =>
      if v.Some? then Decoder(Have3, PushUnit(d.unit, v.value), d.out)
      else if c == '=' then Decoder(ExpectPad, PushUnit(d.unit, 0), d.out) else d.(cs := Failed)
    case Have3 =>
      if v.Some? then
        var u := PushUnit(d.unit, v.value);
        Decoder(Boundary, u / 0x100_0000, d.out + Bytes(u))
      else if c == '=' then
        var u := PushUnit(d.unit, 0);
        Decoder(Final, u / 0x100_0000, d.out + Bytes(u)[..2])
      else d.(cs := Failed)
    case ExpectPad =>
      if c == '=' then
        var u := PushUnit(d.unit, 0);
        Decoder(Final, u / 65536, d.out + Bytes(u)[..1])
      else d.(cs := Failed)
    case _ => d.(cs := Failed)
  }

  // ---------------------------------------------------------------- the encoding

  function Letter(i: nat): char
    requires i < 64
  {
    if i < 26 then ('A' as int + i) as char
    else if i < 52 then ('a' as int + i - 26) as char
    else if i < 62 then ('0' as int + i - 52) as char
    else if i == 62 then '+' else '/'
  }

  ghost predicate Octets(s: string) { forall i | 0 <= i < |s| :: s[i] as int < 256 }

  function Group1(a: nat): string requires a < 256 { [Letter(a / 4), Letter(a % 4 * 16), '=', '='] }

  function Group2(a: nat, b: nat): string
    requires a < 256 && b < 256
  {
    [Letter(a / 4), Letter(a % 4 * 16 + b / 16), Letter(b % 16 * 4), '=']
  }

  function Group3(a: nat, b: nat, c: nat): string
    requires a < 256 && b < 256 && c < 256
  {
    [Letter(a / 4), Letter(a % 4 * 16 + b / 16), Letter(b % 16 * 4 + c / 64), Letter(c % 64)]
  }

  /** Groups of three octets become four letters; a last group of one or two octets is padded with `=`. */
  function Encode(s: string): string
    requires Octets(s)
  {
    if s == [] then ""
    else if |s| == 1 then Group1(s[0] as int)
    else if |s| == 2 then Group2(s[0] as int, s[1] as int)
    else Group3(s[0] as int, s[1] as int, s[2] as int) + Encode(s[3..])
  }

  lemma LetterSextet(i: nat)
    requires i < 64
    ensures SextetOf(Letter(i)) == Some(i)
  {
  }

  /** Four pushes into any accumulator leave the four sextets in its low 24 bits. */
  lemma FourPushes(u: nat, a: nat, b: nat, c: nat, d: nat)
    requires u < WORD && a < 64 && b < 64 && c < 64 && d < 64
    ensures var w := PushUnit(PushUnit(PushUnit(PushUnit(u, a), b), c), d);
            w == ((((u % 256) * 64 + a) * 64 + b) * 64 + c) * 64 + d
  {
    var u1 := PushUnit(u, a);
    var u2 := PushUnit(u1, b);
    var u3 := PushUnit(u2, c);
    Low26(u, a);
    Low20(u, a);
    Low14(u, a);
    Low26(u1, b);
    Low20(u1, b);
    Low26(u2, c);
  }

  /** Remainders by the powers of two that matter. */
  lemma Mod26(x: nat, q: nat, r: nat)
    requires r < 0x400_0000 && x == q * 0x400_0000 + r
    ensures x % 0x400_0000 == r
  {
  }

  lemma Mod20(x: nat, q: nat, r: nat)
    requires r < 0x10_0000 && x == q * 0x10_0000 + r
    ensures x % 0x10_0000 == r
  {
  }

  lemma Mod14(x: nat, q: nat, r: nat)
    requires r < 0x4000 && x == q * 0x4000 + r
    ensures x % 0x4000 == r
  {
  }

  /** The low bits after a push come from lower bits before it. */
  lemma Low26(u: nat, i: nat)
    requires i < 64
    ensures PushUnit(u, i) % 0x400_0000 == u % 0x10_0000 * 64 + i
  {
    var t, r := u / 0x10_0000, u % 0x10_0000;
    var q, p := t / 0x40, t % 0x40;
    assert u == q * 0x400_0000 + (p * 0x10_0000 + r);
    Mod26(u, q, p * 0x10_0000 + r);
    Mod26((p * 0x10_0000 + r) * 64 + i, p, r * 64 + i);
  }

  lemma Low20(u: nat, i: nat)
    requires i < 64
    ensures PushUnit(u, i) % 0x10_0000 == u % 0x4000 * 64 + i
  {
    var t, r := u / 0x4000, u % 0x4000;
    var q, p := t / 0x1000, t % 0x1000;
    assert u == q * 0x400_0000 + (p * 0x4000 + r);
    Mod26(u, q, p * 0x4000 + r);
    Mod20((p * 0x4000 + r) * 64 + i, p, r * 64 + i);
  }

  lemma Low14(u: nat, i: nat)
    requires i < 64
    ensures PushUnit(u, i) % 0x4000 == u % 0x100 * 64 + i
  {
    var t, r := u / 0x100, u % 0x100;
    var q, p := t / 0x4_0000, t % 0x4_0000;
    assert u == q * 0x400_0000 + (p * 0x100 + r);
    Mod26(u, q, p * 0x100 + r);
    Mod14((p * 0x100 + r) * 64 + i, p, r * 64 + i);
  }

  /** The octets behind four sextets, whatever was in the accumulator before. */
  lemma BytesOfSextets(u: nat, x: nat, y: nat, z: nat)
    requires u < WORD && x < 256 && y < 256 && z < 256
    ensures var w := PushUnit(PushUnit(PushUnit(PushUnit(u, x / 4), x % 4 * 16 + y / 16), y % 16 * 4 + z / 64), z % 64);
            Bytes(w) == [x as char, y as char, z as char] && w < WORD
  {
    FourPushes(u, x / 4, x % 4 * 16 + y / 16, y % 16 * 4 + z / 64, z % 64);
    BytesOfWord(u % 256, x, y, z);
  }

  lemma BytesOfWord(r: nat, x: nat, y: nat, z: nat)
    requires r < 256 && x < 256 && y < 256 && z < 256
    ensures var w := (((r * 64 + x / 4) * 64 + (x % 4 * 16 + y / 16)) * 64 + (y % 16 * 4 + z / 64)) * 64 + z % 64;
            Bytes(w) == [x as char, y as char, z as char] && w < WORD
  {
    var w := (((r * 64 + x / 4) * 64 + (x % 4 * 16 + y / 16)) * 64 + (y % 16 * 4 + z / 64)) * 64 + z % 64;
    assert w == r * 0x100_0000 + x * 65536 + y * 256 + z;
    assert w / 65536 == r * 256 + x;
    assert w / 256 == r * 65536 + x * 256 + y;
  }

  lemma FoldFour(d: Decoder, a: char, b: char, x: char, y: char)
    ensures Fold(Step, d, [a, b, x, y]) == Step(Step(Step(Step(d, a), b), x), y)
  {
    var t := [a, b, x, y];
    assert t[..3][..2] == t[..2] && t[..2][..1] == t[..1] && t[..1][..0] == [];
    assert Fold(Step, d, t[..0]) == d;
    assert Fold(Step, d, t[..1]) == Step(d, a);
    assert Fold(Step, d, t[..2]) == Step(Step(d, a), b);
    assert Fold(Step, d, t[..3]) == Step(Step(Step(d, a), b), x);
  }

  /** The first two letters of a group. */
  lemma TwoLetters(d: Decoder, i: nat, j: nat)
    requires (d.cs.Start? || d.cs.Boundary?) && i < 64 && j < 64
    ensures Step(Step(d, Letter(i)), Letter(j)) == Decoder(Have2, PushUnit(PushUnit(d.unit, i), j), d.out)
  {
    LetterSextet(i);
    LetterSextet(j);
  }

  lemma Letters34(d: Decoder, i: nat, j: nat)
    requires d.cs.Have2? && i < 64 && j < 64
    ensures var u := PushUnit(PushUnit(d.unit, i), j);
            Step(Step(d, Letter(i)), Letter(j)) == Decoder(Boundary, u / 0x100_0000, d.out + Bytes(u))
  {
    LetterSextet(i);
    LetterSextet(j);
  }

  lemma Pad1(d: Decoder, i: nat)
    requires d.cs.Have2? && i < 64
    ensures var u := PushUnit(PushUnit(d.unit, i), 0);
            Step(Step(d, Letter(i)), '=') == Decoder(Final, u / 0x100_0000, d.out + Bytes(u)[..2])
  {
    LetterSextet(i);
  }

  lemma Pad2(d: Decoder)
    requires d.cs.Have2?
    ensures var u := PushUnit(PushUnit(d.unit, 0), 0);
            Step(Step(d, '='), '=') == Decoder(Final, u / 65536, d.out + Bytes(u)[..1])
  {
  }

  ghost predicate AtGroup(d: Decoder) { (d.cs.Start? || d.cs.Boundary?) && d.unit < WORD }

  /** From a group boundary, with anything in the accumulator, to `end`, yielding `s`. */
  ghost function Yields(s: string, end: State): (Decoder, Decoder) -> bool
  {
    (d: Decoder, e: Decoder) => AtGroup(d) ==> e.cs == end && e.out == d.out + s && e.unit < WORD
  }

  lemma Decodes3(a: nat, b: nat, c: nat)
    requires a < 256 && b < 256 && c < 256
    ensures Decodes(Group3(a, b, c), [a as char, b as char, c as char], Boundary)
  {
    var i, j, k, l := a / 4, a % 4 * 16 + b / 16, b % 16 * 4 + c / 64, c % 64;
    forall d: Decoder | AtGroup(d)
      ensures var e := Fold(Step, d, Group3(a, b, c));
              e.cs.Boundary? && e.out == d.out + [a as char, b as char, c as char] && e.unit < WORD
    {
      TwoLetters(d, i, j);
      Letters34(Decoder(Have2, PushUnit(PushUnit(d.unit, i), j), d.out), k, l);
      BytesOfSextets(d.unit, a, b, c);
      FoldFour(d, Letter(i), Letter(j), Letter(k), Letter(l));
    }
  }

  lemma Decodes2(a: nat, b: nat)
    requires a < 256 && b < 256
    ensures Decodes(Group2(a, b), [a as char, b as char], Final)
  {
    var i, j, k := a / 4, a % 4 * 16 + b / 16, b % 16 * 4;
    forall d: Decoder | AtGroup(d)
      ensures var e := Fold(Step, d, Group2(a, b));
              e.cs.Final? && e.out == d.out + [a as char, b as char] && e.unit < WORD
    {
      TwoLetters(d, i, j);
      Pad1(Decoder(Have2, PushUnit(PushUnit(d.unit, i), j), d.out), k);
      BytesOfSextets(d.unit, a, b, 0);
      FoldFour(d, Letter(i), Letter(j), Letter(k), '=');
    }
  }

  lemma Decodes1(a: nat)
    requires a < 256
    ensures Decodes(Group1(a), [a as char], Final)
  {
    var i, j := a / 4, a % 4 * 16;
    forall d: Decoder | AtGroup(d)
      ensures var e := Fold(Step, d, Group1(a));
              e.cs.Final? && e.out == d.out + [a as char] && e.unit < WORD
    {
      TwoLetters(d, i, j);
      Pad2(Decoder(Have2, PushUnit(PushUnit(d.unit, i), j), d.out));
      BytesOfSextets(d.unit, a, 0, 0);
      FoldFour(d, Letter(i), Letter(j), '=', '=');
    }
  }

  function EndOf(s: string): State { if |s| % 3 == 0 then Boundary else Final }

  lemma DecodesMore(t1: string, s1: string, t2: string, s2: string, end: State)
    requires Decodes(t1, s1, Boundary) && Decodes(t2, s2, end)
    ensures Decodes(t1 + t2, s1 + s2, end)
  {
    forall a, b, c | Yields(s1, Boundary)(a, b) && Yields(s2, end)(b, c) ensures Yields(s1 + s2, end)(a, c) {
      assert a.out + s1 + s2 == a.out + (s1 + s2);
    }
    TakesConcat(Step, Yields(s1, Boundary), t1, Yields(s2, end), t2, Yields(s1 + s2, end));
  }

  /** The text `t` decodes to `s`. */
  ghost predicate Decodes(t: string, s: string, end: State) { Takes(Step, Yields(s, end), t) }

  lemma DecodesShort(s: string)
    requires Octets(s) && 1 <= |s| <= 3
    ensures Decodes(Encode(s), s, if |s| == 3 then Boundary else Final)
  {
    if |s| == 1 { DecodesOf1(s); } else if |s| == 2 { DecodesOf2(s); } else { DecodesOf3(s); }
  }

  lemma DecodesOf1(s: string)
    requires Octets(s) && |s| == 1
    ensures Decodes(Encode(s), s, Final)
  {
    Decodes1(s[0] as int);
    SameDecoding(Group1(s[0] as int), [s[0]], Encode(s), s, Final);
  }

  lemma DecodesOf2(s: string)
    requires Octets(s) && |s| == 2
    ensures Decodes(Encode(s), s, Final)
  {
    Decodes2(s[0] as int, s[1] as int);
    SameDecoding(Group2(s[0] as int, s[1] as int), [s[0], s[1]], Encode(s), s, Final);
  }

  lemma DecodesOf3(s: string)
    requires Octets(s) && |s| == 3
    ensures Decodes(Encode(s), s, Boundary)
  {
    Decodes3(s[0] as int, s[1] as int, s[2] as int);
    EncodeSplit(s);
    assert s[..3] == s;
    SameDecoding(Group3(s[0] as int, s[1] as int, s[2] as int), [s[0], s[1], s[2]], Encode(s), s, Boundary);
  }

  lemma SameDecoding(t: string, s: string, t': string, s': string, end: State)
    requires Decodes(t, s, end) && t == t' && s == s'
    ensures Decodes(t', s', end)
  {
  }

  lemma EncodeSplit(s: string)
    requires Octets(s) && |s| >= 3
    ensures Octets(s[..3]) && Octets(s[3..])
    ensures Encode(s) == Encode(s[..3]) + Encode(s[3..])
    ensures Encode(s[..3]) == Group3(s[0] as int, s[1] as int, s[2] as int)
  {
    var g := s[..3];
    assert g[3..] == [];
    assert Encode(g[3..]) == "";
  }

  lemma DecodesLong(s: string, end: State)
    requires Octets(s) && |s| > 3 && Octets(s[3..]) && Decodes(Encode(s[3..]), s[3..], end)
    ensures Decodes(Encode(s), s, end)
  {
    hide Decodes;
    hide Encode;
    var g, r := s[..3], s[3..];
    EncodeSplit(s);
    DecodesOf3(g);
    DecodesMore(Encode(g), g, Encode(r), r, end);
    assert g + r == s;
    SameDecoding(Encode(g) + Encode(r), g + r, Encode(s), s, end);
  }

  lemma EndStep(n: nat)
    requires n > 3
    ensures (n - 3) % 3 == n % 3
  {
  }

  /** Every encoded text decodes to what was encoded. */
  lemma {:induction false} DecodesEncoded(s: string)
    requires Octets(s) && s != []
    ensures Decodes(Encode(s), s, EndOf(s))
  {
    hide Decodes;
    hide Encode;
    if |s| <= 3 {
      DecodesShort(s);
    } else {
      EncodeSplit(s);
      EndStep(|s|);
      DecodesEncoded(s[3..]);
      DecodesLong(s, EndOf(s));
    }
  }

  function Same(d: Decoder): Decoder { d }

  /** Decoding inverts encoding for every non-empty octet string, under every chunking, and whatever the accumulator
      held before; the decoder ends in its final state, or at a group boundary when no padding was needed. */
  lemma Base64RoundTrip(s: string, unit: nat, out: string, chunks: seq<string>)
    requires Octets(s) && s != [] && unit < WORD && Flatten(chunks) == Encode(s)
    ensures var e := Feed(Step, Same, Decoder(Start, unit, out), chunks);
            e.out == out + s && e.cs == if |s| % 3 == 0 then Boundary else Final
  {
    ChunksIrrelevant(Step, Same, Decoder(Start, unit, out), chunks);
    DecodesEncoded(s);
    assert Yields(s, EndOf(s))(Decoder(Start, unit, out), Fold(Step, Decoder(Start, unit, out), Encode(s)));
  }

  // ---------------------------------------------------------------- what is accepted

  ghost predicate Letters(t: string) { forall i | 0 <= i < |t| :: SextetOf(t[i]).Some? }

  /** Whole groups of four, of letters but for one or two `=` at the very end. */
  ghost predicate Grouped(t: string)
  {
    var n := |t|;
    n > 0 && n % 4 == 0
    && (Letters(t) || (Letters(t[..n - 1]) && t[n - 1] == '=') || (Letters(t[..n - 2]) && t[n - 2] == '=' && t[n - 1] == '='))
  }

  /** The state tells how far a text is. */
  ghost predicate Reached(cs: State, t: string)
  {
    var n := |t|;
    match cs
    case Start => t == ""
    case Boundary => n > 0 && n % 4 == 0 && Letters(t)
    case Have1 => n % 4 == 1 && Letters(t)
    case Have2 => n % 4 == 2 && Letters(t)
    case Have3 => n % 4 == 3 && Letters(t)
    case ExpectPad => n % 4 == 3 && Letters(t[..n - 1]) && t[n - 1] == '='
    case Final => Grouped(t) && t[n - 1] == '='
    case Held => true
    case Failed => true
  }

  lemma NextReached(d: Decoder, t: string, c: char)
    requires Reached(d.cs, t)
    ensures Reached(Step(d, c).cs, t + [c])
    ensures SextetOf(c).Some? && Letters(t) && !d.cs.Failed? && !d.cs.Held? ==> !Step(d, c).cs.Failed? && !Step(d, c).cs.Held?
    ensures c == '=' ==> (d.cs.Have2? ==> Step(d, c).cs.ExpectPad?) && (d.cs.Have3? || d.cs.ExpectPad? ==> Step(d, c).cs.Final?)
  {
    hide PushUnit;
    hide Bytes;
    var t' := t + [c];
    assert t'[..|t|] == t;
    if |t| > 0 { assert t'[..|t| - 1] == t[..|t| - 1]; }
  }

  lemma {:induction false} StateReached(unit: nat, out: string, t: string)
    ensures Reached(Fold(Step, Decoder(Start, unit, out), t).cs, t)
    ensures Letters(t) ==> var cs := Fold(Step, Decoder(Start, unit, out), t).cs; !cs.Failed? && !cs.Held?
  {
    hide Step;
    hide Reached;
    if t == "" {
      assert Reached(Start, t) by { NothingReached(); }
    } else {
      var init, c := t[..|t| - 1], t[|t| - 1];
      StateReached(unit, out, init);
      NextReached(Fold(Step, Decoder(Start, unit, out), init), init, c);
      assert init + [c] == t;
    }
  }

  lemma NothingReached()
    ensures Reached(Start, "")
  {
  }

  /** A text is decoded if and only if it consists of whole groups, padded only at the end. */
  lemma Base64Accepts(unit: nat, out: string, t: string)
    ensures var cs := Fold(Step, Decoder(Start, unit, out), t).cs;
            cs.Boundary? || cs.Final? <==> Grouped(t)
  {
    hide Step;
    StateReached(unit, out, t);
    if Grouped(t) && !Letters(t) { PaddedReached(unit, out, t); }
  }

  lemma PaddedReached(unit: nat, out: string, t: string)
    requires Grouped(t) && !Letters(t)
    ensures Fold(Step, Decoder(Start, unit, out), t).cs.Final?
  {
    hide Step;
    var d, n := Decoder(Start, unit, out), |t|;
    var one := t[..n - 1];
    assert one + [t[n - 1]] == t;
    hide Reached;
    if !Letters(one) {
      var two := t[..n - 2];
      assert two + [t[n - 2]] == one && one[..n - 2] == two;
      StateReached(unit, out, two);
      NextReached(Fold(Step, d, two), two, t[n - 2]);
    } else {
      StateReached(unit, out, one);
    }
    NextReached(Fold(Step, d, one), one, t[n - 1]);
  }

  // ---------------------------------------------------------------- the decoder object

  class DecoderObject {
    var cs: State
    var unit: nat
    var value: nat
    var out: string

    ghost function Now(): Decoder reads this { Decoder(cs, unit, out) }

    constructor (unit: nat)
      ensures Now() == Decoder(Start, unit, "")
    {
      cs, this.unit, value, out := Start, unit, 0, "";
    }

    method PushSextet()
      modifies this`unit
      ensures unit == PushUnit(old(unit), value)
    {
      unit := unit % 0x400_0000 * 64;
      unit := unit + value;
    }

    method PushPad()
      modifies this`unit
      ensures unit == PushUnit(old(unit), 0)
    {
      unit := unit % 0x400_0000 * 64;
    }

    /** Takes three octets off the accumulator, the last one first. */
    method FinishUnit()
      modifies this`unit, this`out
      ensures out == old(out) + Bytes(old(unit)) && unit == old(unit) / 0x100_0000
    {
      var a := new char[3];
      var i := 3;
      while i > 0
        invariant 0 <= i <= 3 && out == old(out)
        invariant unit == Shifted(old(unit), 3 - i)
        invariant forall k | i <= k < 3 :: a[k] == Octet(Shifted(old(unit), 2 - k))
      {
        a[i - 1] := Octet(unit);
        unit := unit / 256;
        i := i - 1;
      }
      ShiftedMeans(old(unit));
      assert a[..] == Bytes(old(unit));
      out := out + a[..];
    }

    method FinishPad1()
      modifies this`unit, this`out
      ensures out == old(out) + Bytes(old(unit))[..2] && unit == old(unit) / 0x100_0000
    {
      var a := new char[3];
      unit := unit / 256;
      var i := 2;
      while i > 0
        invariant 0 <= i <= 2 && out == old(out)
        invariant unit == Shifted(old(unit), 3 - i)
        invariant forall k | i <= k < 2 :: a[k] == Octet(Shifted(old(unit), 2 - k))
      {
        a[i - 1] := Octet(unit);
        unit := unit / 256;
        i := i - 1;
      }
      ShiftedMeans(old(unit));
      assert a[..2] == Bytes(old(unit))[..2];
      out := out + a[..2];
    }

    method FinishPad2()
      modifies this`unit, this`out
      ensures out == old(out) + Bytes(old(unit))[..1] && unit == old(unit) / 65536
    {
      unit := unit / 65536;
      out := out + [Octet(unit)];
    }

    method SetValue(c: char) returns (ok: bool)
      modifies this`value
      ensures ok <==> SextetOf(c).Some?
      ensures ok ==> value == SextetOf(c).value
    {
      ok := true;
      if 'A' <= c <= 'Z' {
        value := c as int - 'A' as int;
      } else if 'a' <= c <= 'z' {
        value := c as int - 'a' as int + 26;
      } else if '0' <= c <= '9' {
        value := c as int - '0' as int + 52;
      } else if c == '+' {
        value := 62;
      } else if c == '/' {
        value := 63;
      } else {
        ok := false;
      }
    }

    method Read(c: char)
      modifies this
      ensures Now() == Step(old(Now()), c)
    {
      var letter := SetValue(c);
      if letter && (cs == Start || cs == Boundary || cs == Have1 || cs == Have2 || cs == Have3) {
        PushSextet();
        if cs == Have3 { FinishUnit(); }
        cs := if cs == Start || cs == Boundary then Have1 else if cs == Have1 then Have2 else if cs == Have2 then Have3 else Boundary;
      } else if cs == Boundary && Print(c) {
        cs := Held;
      } else if cs == Have2 && c == '=' {
        PushPad();
        cs := ExpectPad;
      } else if cs == Have3 && c == '=' {
        PushPad();
        FinishPad1();
        cs := Final;
      } else if cs == ExpectPad && c == '=' {
        PushPad();
        FinishPad2();
        cs := Final;
      } else {
        cs := Failed;
      }
    }
  }

  /** `n` shifts to the right by eight bits. */
  function Shifted(unit: nat, n: nat): nat { if n == 0 then unit else Shifted(unit, n - 1) / 256 }

  lemma ShiftedMeans(unit: nat)
    ensures Shifted(unit, 0) == unit && Shifted(unit, 1) == unit / 256
    ensures Shifted(unit, 2) == unit / 65536 && Shifted(unit, 3) == unit / 0x100_0000
  {
  }
}
