/** The Q decoder (mime/q_decoder.rl), for section 4.2 of RFC 2047. */
module QDecoder {
  import opened Text
  import opened Buffer

  datatype State = Start | InWord | ExpectHigh | ExpectLow | AfterOctet | Failed

  /** `value` is the octet that an escape is collecting. */
  datatype Decoder = Decoder(cs: State, value: nat, conv: Buf)

  /** Printable octets other than `=`, `?` and `_` stand for themselves. */
  predicate Literal(c: char) { '!' <= c <= '~' && c != '=' && c != '?' && c != '_' }

  function HexValue(c: char): Option<nat>
  {
    if '0' <= c <= '9' then Some(c as int - '0' as int)
    else if 'A' <= c <= 'F' then Some(c as int - 'A' as int + 10)
    else if 'a' <= c <= 'f' then Some(c as int - 'a' as int + 10)
    else None
  }

  /** A new element of the encoded word: a literal opens a run, an escape starts at zero, an underscore is a space. */
  function NextElement(d: Decoder, c: char): Decoder
  {
    if Literal(c) then Decoder(InWord, d.value, Advance(Cont(d.conv), c))
    else if c == '=' then Decoder(ExpectHigh, 0, Advance(d.conv, c))
    else if c == '_' then Decoder(AfterOctet, d.value, AddOctet(d.conv, ' '))
    else d.(cs := Failed)
  }

  function Step(d: Decoder, c: char): Decoder
  {
    match d.cs
    case Start => NextElement(d.(conv := Buffer.Start()), c)
    case InWord => if Literal(c) then d.(conv := Advance(d.conv, c)) else NextElement(d.(conv := Stop(d.conv)), c)
    case AfterOctet => NextElement(d, c)
    case ExpectHigh =>
      var h := HexValue(c);
      if h.Some? then Decoder(ExpectLow, d.value * 16 % 256 + h.value, Advance(d.conv, c)) else d.(cs := Failed)
    case ExpectLow =>
      var h := HexValue(c);
      if h.Some? then
        var v := d.value * 16 % 256 + h.value;
        Decoder(AfterOctet, v, AddOctet(d.conv, v as char))
      else d.(cs := Failed)
    case Failed => d
  }

  /** The end of the encoded word: an open run is closed. */
  function Leave(d: Decoder): Decoder { if d.cs.InWord? then d.(conv := Stop(d.conv)) else d }

  predicate Accepting(d: Decoder) { d.cs.InWord? || d.cs.AfterOctet? }

  // ---------------------------------------------------------------- the encoding

  /** One legal way to write one octet: itself, an underscore for a space, or two hex digits of either case. */
  datatype Element = Itself(c: char) | Underscore | Escape(high: char, low: char)

  predicate Legal(e: Element)
  {
    match e
    case Itself(c) => Literal(c)
    case Underscore => true
    case Escape(h, l) => HexValue(h).Some? && HexValue(l).Some?
  }

  ghost predicate AllLegal(es: seq<Element>) { forall i | 0 <= i < |es| :: Legal(es[i]) }

  function TextOf(e: Element): string
  {
    match e
    case Itself(c) => [c]
    case Underscore => "_"
    case Escape(h, l) => ['=', h, l]
  }

  function OctetOf(e: Element): char
    requires Legal(e)
  {
    match e
    case Itself(c) => c
    case Underscore => ' '
    case Escape(h, l) => (HexValue(h).value * 16 + HexValue(l).value) as char
  }

  function EncodedText(es: seq<Element>): string
  {
    if es == [] then "" else EncodedText(es[..|es| - 1]) + TextOf(es[|es| - 1])
  }

  function Decoded(es: seq<Element>): string
    requires AllLegal(es)
  {
    if es == [] then "" else Decoded(es[..|es| - 1]) + [OctetOf(es[|es| - 1])]
  }

  /** Every octet string has an encoding, and each octet may be written in every legal way. */
  lemma EscapeAny(c: char) returns (e: Element)
    requires c as int < 256
    ensures Legal(e) && OctetOf(e) == c
  {
    var n := c as int;
    HexLetterValue(n / 16);
    HexLetterValue(n % 16);
    hide HexLetter;
    hide HexValue;
    e := Escape(HexLetter(n / 16), HexLetter(n % 16));
  }

  function HexLetter(d: nat): char
    requires d < 16
  {
    if d < 10 then ('0' as int + d) as char else ('A' as int + d - 10) as char
  }

  lemma HexLetterValue(d: nat)
    requires d < 16
    ensures HexValue(HexLetter(d)) == Some(d)
  {
  }

  lemma Fold3(d: Decoder, a: char, b: char, c: char)
    ensures Fold(Step, d, [a, b, c]) == Step(Step(Step(d, a), b), c)
  {
    var t := [a, b, c];
    assert t[..2][..1] == t[..1] && t[..1][..0] == [];
    assert Fold(Step, d, t[..0]) == d;
    assert Fold(Step, d, t[..1]) == Step(d, a);
    assert Fold(Step, d, t[..2]) == Step(Step(d, a), b);
  }

  lemma EscapeStart(d: Decoder)
    requires (d.cs.Start? || Accepting(d)) && (d.cs.AfterOctet? ==> d.conv.run.None?)
    ensures var d' := Step(d, '=');
            d'.cs.ExpectHigh? && d'.value == 0 && d'.conv.data == if d.cs.Start? then "" else Pending(d.conv)
  {
  }

  lemma EscapeDigits(d: Decoder, h: char, l: char)
    requires d.cs.ExpectHigh? && d.value == 0 && HexValue(h).Some? && HexValue(l).Some?
    ensures HexValue(h).value < 16 && HexValue(l).value < 16
    ensures var d' := Step(Step(d, h), l);
            d'.cs.AfterOctet? && d'.conv == Buf(d.conv.data + [(HexValue(h).value * 16 + HexValue(l).value) as char], None)
  {
    var d1 := Step(d, h);
    assert d1.cs.ExpectLow? && d1.value == HexValue(h).value && d1.conv.data == d.conv.data;
  }

  /** One element adds its octet, from the start or after any other element. */
  lemma ElementDecodes(d: Decoder, e: Element)
    requires Legal(e) && (d.cs.Start? || Accepting(d)) && (d.cs.AfterOctet? ==> d.conv.run.None?)
    requires d.cs.InWord? ==> d.conv.run.Some?
    ensures var d' := Fold(Step, d, TextOf(e));
            && Accepting(d') && (d'.cs.AfterOctet? ==> d'.conv.run.None?) && (d'.cs.InWord? ==> d'.conv.run.Some?)
            && Pending(d'.conv) == (if d.cs.Start? then "" else Pending(d.conv)) + [OctetOf(e)]
  {
    match e {
      case Itself(c) => FoldOne(Step, d, c);
      case Underscore => FoldOne(Step, d, '_');
      case Escape(h, l) =>
        Fold3(d, '=', h, l);
        EscapeStart(d);
        EscapeDigits(Step(d, '='), h, l);
    }
  }

  /** Every encoded text is accepted and decodes to its octets. */
  lemma {:induction false} Decodes(d: Decoder, es: seq<Element>)
    requires d.cs.Start? && AllLegal(es) && es != []
    ensures var d' := Fold(Step, d, EncodedText(es));
            && Accepting(d') && (d'.cs.AfterOctet? ==> d'.conv.run.None?) && (d'.cs.InWord? ==> d'.conv.run.Some?)
            && Pending(d'.conv) == Decoded(es)
  {
    var init, e := es[..|es| - 1], es[|es| - 1];
    if init == [] {
      assert EncodedText(es) == TextOf(e);
      ElementDecodes(d, e);
    } else {
      Decodes(d, init);
      FoldConcat(Step, d, EncodedText(init), TextOf(e));
      ElementDecodes(Fold(Step, d, EncodedText(init)), e);
    }
  }

  /** Q decoding inverts Q encoding for every non-empty list of legally written octets read in one call, whatever the
      decoder's buffer held before; the end of the call flushes the open run. */
  lemma QRoundTrip(value: nat, stale: Buf, es: seq<Element>)
    requires AllLegal(es) && es != []
    ensures var d := Fold(Step, Decoder(Start, value, stale), EncodedText(es));
            !d.cs.Failed? && Pause(d.conv).data == Decoded(es)
  {
    Decodes(Decoder(Start, value, stale), es);
  }

  // ---------------------------------------------------------------- what is accepted

  /** How a text that the decoder has not refused was written so far. */
  ghost predicate Written(cs: State, t: string, es: seq<Element>)
  {
    AllLegal(es) &&
    match cs
    case Start => t == ""
    case InWord => es != [] && t == EncodedText(es)
    case AfterOctet => es != [] && t == EncodedText(es)
    case ExpectHigh => t == EncodedText(es) + "="
    case ExpectLow => t != "" && HexValue(t[|t| - 1]).Some? && t == EncodedText(es) + "=" + [t[|t| - 1]]
    case Failed => true
  }

  lemma WriteOne(es: seq<Element>, e: Element)
    requires AllLegal(es) && Legal(e)
    ensures AllLegal(es + [e]) && EncodedText(es + [e]) == EncodedText(es) + TextOf(e)
  {
    assert (es + [e])[..|es|] == es;
  }

  lemma NextWritten(d: Decoder, t: string, es: seq<Element>, c: char) returns (es': seq<Element>)
    requires Written(d.cs, t, es)
    ensures Written(Step(d, c).cs, t + [c], es')
  {
    es' := if d.cs.Start? then [] else es;
    if (d.cs.Start? || d.cs.InWord? || d.cs.AfterOctet?) && Literal(c) {
      WriteOne(es', Itself(c));
      es' := es' + [Itself(c)];
    } else if (d.cs.Start? || d.cs.InWord? || d.cs.AfterOctet?) && c == '_' {
      WriteOne(es', Underscore);
      es' := es' + [Underscore];
    } else if d.cs.ExpectLow? && HexValue(c).Some? {
      var e := Escape(t[|t| - 1], c);
      WriteOne(es', e);
      assert EncodedText(es) + "=" + [t[|t| - 1]] + [c] == EncodedText(es) + TextOf(e);
      es' := es' + [e];
    }
  }

  lemma {:induction false} StateWritten(d: Decoder, t: string) returns (es: seq<Element>)
    requires d.cs.Start?
    ensures Written(Fold(Step, d, t).cs, t, es)
  {
    hide Step;
    es := [];
    if t != "" {
      var init, c := t[..|t| - 1], t[|t| - 1];
      es := StateWritten(d, init);
      es := NextWritten(Fold(Step, d, init), init, es, c);
      assert init + [c] == t;
    }
  }

  /** A text is accepted if and only if it is a non-empty list of legally written octets. */
  lemma QAccepts(value: nat, stale: Buf, t: string)
    ensures Accepting(Fold(Step, Decoder(Start, value, stale), t)) <==>
              exists es: seq<Element> :: AllLegal(es) && es != [] && EncodedText(es) == t
  {
    hide Step;
    var d := Decoder(Start, value, stale);
    if Accepting(Fold(Step, d, t)) { var es := StateWritten(d, t); }
    forall es: seq<Element> | AllLegal(es) && es != [] && EncodedText(es) == t ensures Accepting(Fold(Step, d, t)) {
      Decodes(d, es);
    }
  }

  // ---------------------------------------------------------------- the decoder object

  class DecoderObject {
    var cs: State
    var value: nat
    var conv: Buf

    ghost function Now(): Decoder reads this { Decoder(cs, value, conv) }

    constructor (conv: Buf)
      ensures Now() == Decoder(Start, 0, conv)
    {
      cs, value, this.conv := Start, 0, conv;
    }

    method PushHex(c: char) returns (ok: bool)
      modifies this`value
      ensures ok <==> HexValue(c).Some?
      ensures value == if ok then old(value) * 16 % 256 + HexValue(c).value else old(value)
    {
      ok := true;
      if '0' <= c <= '9' {
        value := value * 16 % 256;
        value := value + (c as int - '0' as int);
      } else if 'A' <= c <= 'F' {
        value := value * 16 % 256;
        value := value + (c as int - 'A' as int + 10);
      } else if 'a' <= c <= 'f' {
        value := value * 16 % 256;
        value := value + (c as int - 'a' as int + 10);
      } else {
        ok := false;
      }
    }

    /** The first octet of an element. */
    method Enter(c: char)
      modifies this
      ensures Now() == NextElement(old(Now()), c)
    {
      if Literal(c) {
        conv := Cont(conv);
        conv := Advance(conv, c);
        cs := InWord;
      } else if c == '=' {
        value := 0;
        conv := Advance(conv, c);
        cs := ExpectHigh;
      } else if c == '_' {
        conv := AddOctet(conv, ' ');
        cs := AfterOctet;
      } else {
        cs := Failed;
      }
    }

    method Read(c: char)
      modifies this
      ensures Now() == Step(old(Now()), c)
    {
      if cs == Start {
        conv := Buffer.Start();
        Enter(c);
      } else if cs == InWord && Literal(c) {
        conv := Advance(conv, c);
      } else if cs == InWord {
        conv := Stop(conv);
        Enter(c);
      } else if cs == AfterOctet {
        Enter(c);
      } else if cs == ExpectHigh || cs == ExpectLow {
        var ok := PushHex(c);
        if !ok {
          cs := Failed;
        } else if cs == ExpectHigh {
          conv := Advance(conv, c);
          cs := ExpectLow;
        } else {
          conv := AddOctet(conv, value as char);
          cs := AfterOctet;
        }
      }
    }
  }
}
