/** The streaming reader of IMAP literals (imap/common.rl) with on-the-fly CRLF conversion
    (imap/literal_converter.rl), fed with arbitrary chunks. */
module Literal {
  import opened Text
  import opened Buffer

  // ---------------------------------------------------------------- the reader

  const NUL: char := '\0'
  const CR: char := '\r'
  const LF: char := '\n'

  datatype State =
    | ExpectBrace | ExpectDigit | InNumber | ExpectCr | ExpectLf
    | RawTail | ConvertStart | ConvertText | ConvertCr
    | Finished | Failed

  /** `rest` collects the octets handed on to the machine that called for the literal. */
  datatype Reader = Reader(
    cs: State, convert: bool, digits: Buf, number: nat, pos: nat, buffer: Buf, rest: string)

  /** A reader at the start of a literal; the buffer may hold anything left over from before. */
  function Init(convert: bool, stale: string): Reader
  {
    Reader(ExpectBrace, convert, EMPTY, 0, 0, Buf(stale, None), "")
  }

  function Fail(m: Reader): Reader { m.(cs := Failed) }

  /** `literal_tail`: counts the octet and returns when the announced number is reached. */
  function RawStep(m: Reader, c: char): Reader
  {
    var b := if m.pos == 0 then Cont(m.buffer) else m.buffer;
    if c == NUL then Fail(m)
    else if m.pos + 1 == m.number then m.(pos := m.pos + 1, buffer := StopAfter(b, c), cs := Finished)
    else m.(pos := m.pos + 1, buffer := Advance(b, c))
  }

  /** `lit_ret` on the last octet: returns at once and skips the remaining actions of the transition. */
  function ConvertLast(m: Reader, c: char): Reader
  {
    m.(pos := m.pos + 1, cs := Finished, buffer := if c == LF || c == CR then AddOctet(m.buffer, c) else StopAfter(m.buffer, c))
  }

  /** `convert_literal_tail`, with `lit_ret` before the other actions of each transition. */
  function ConvertStep(m: Reader, c: char): Reader
  {
    if c == NUL || (c == LF && !m.cs.ConvertCr?) then Fail(m)
    else if m.pos + 1 == m.number then ConvertLast(m, c)
    else
      var m1 := m.(pos := m.pos + 1);
      match m.cs
      case ConvertStart =>
        if c == CR then m1.(cs := ConvertCr)
        else m1.(cs := ConvertText, buffer := Advance(Cont(m.buffer), c))
      case ConvertText =>
        if c == CR then m1.(cs := ConvertCr, buffer := Stop(m.buffer))
        else m1.(buffer := Advance(m.buffer, c))
      case _ =>
        if c == LF then m1.(cs := ConvertStart, buffer := AddOctet(m.buffer, LF))
        else if c == CR then m1.(buffer := AddOctet(m.buffer, CR))
        else m1.(cs := ConvertText, buffer := Advance(Cont(AddOctet(m.buffer, CR)), c))
  }

  /** Leaving the number: 32-bit conversion, which throws on overflow. */
  function CloseNumber(m: Reader): Reader
  {
    var d := Stop(m.digits);
    if Value(d.data) > MAX32 then Fail(m) else m.(cs := ExpectCr, digits := d, number := Value(d.data), pos := 0)
  }

  /** `call_literal_tail`: nothing is called for an empty literal. */
  function Enter(m: Reader): Reader
  {
    m.(buffer := EMPTY, cs := if m.number == 0 then Finished else if m.convert then ConvertStart else RawTail)
  }

  function Step(m: Reader, c: char): Reader
  {
    match m.cs
    case ExpectBrace => if c == '{' then m.(cs := ExpectDigit) else Fail(m)
    case ExpectDigit => if IsDigit(c) then m.(cs := InNumber, digits := Advance(Start(), c)) else Fail(m)
    case InNumber =>
      if IsDigit(c) && |Pending(m.digits)| < 10 then m.(digits := Advance(m.digits, c))
      else if c == '}' then CloseNumber(m) else Fail(m)
    case ExpectCr => if c == CR then m.(cs := ExpectLf) else Fail(m)
    case ExpectLf => if c == LF then Enter(m) else Fail(m)
    case RawTail => RawStep(m, c)
    case Finished => m.(rest := m.rest + [c])
    case Failed => m
    case _ => ConvertStep(m, c)
  }

  /** Both buffers are paused at the end of a chunk. */
  function EndChunk(m: Reader): Reader { m.(digits := Pause(m.digits), buffer := Pause(m.buffer)) }

  /** Reading a list of chunks, one call of `read` per chunk. */
  function ReadAll(m: Reader, chunks: seq<string>): Reader { Feed(Step, EndChunk, m, chunks) }

  // ---------------------------------------------------------------- what the reader must do

  /** What the client writes for a string. */
  function LiteralText(s: string): string { "{" + Decimal(|s|) + "}" + [CR, LF] + s }

  /** Each CRLF replaced by LF; every other octet kept. */
  function Converted(s: string): string
  {
    if s == [] then ""
    else if |s| >= 2 && s[|s| - 2] == CR && s[|s| - 1] == LF then Converted(s[..|s| - 2]) + [LF]
    else Converted(s[..|s| - 1]) + [s[|s| - 1]]
  }

  predicate BareLf(s: string, i: nat) requires i < |s| { s[i] == LF && (i == 0 || s[i - 1] != CR) }

  /** No NUL, and under conversion no LF without a CR before it. */
  ghost predicate Clean(convert: bool, s: string)
  {
    forall i | 0 <= i < |s| :: s[i] != NUL && !(convert && BareLf(s, i))
  }

  predicate Plain(c: char) { c != CR && c != LF }

  /** The endings that conversion handles: CRLF, two octets other than CR and LF, or a CR right at the start or right
      after a CRLF. */
  predicate GoodEnding(s: string)
  {
    var n := |s|;
    n == 0 || s[n - 1] == LF || (n >= 2 && Plain(s[n - 2]) && Plain(s[n - 1]))
    || (s[n - 1] == CR && (n == 1 || s[n - 2] == LF))
  }

  // ---------------------------------------------------------------- position invariant

  /** The state of the conversion after the octets of `p`, which is not the whole literal. */
  ghost predicate Converting(m: Reader, p: string)
  {
    if p == [] || p[|p| - 1] == LF then
      m.cs.ConvertStart? && m.buffer == Buf(Converted(p), None)
    else if p[|p| - 1] == CR then
      m.cs.ConvertCr? && m.buffer == Buf(Converted(p[..|p| - 1]), None)
    else
      m.cs.ConvertText? && m.buffer.run.Some? && Pending(m.buffer) == Converted(p)
  }

  ghost predicate CopyingRaw(m: Reader, p: string)
  {
    m.cs.RawTail? && if p == [] then m.buffer == EMPTY else m.buffer.run.Some? && Pending(m.buffer) == p
  }

  /** Inside the literal `s`, after its first `i` octets; `number - pos` is what is still to come. */
  ghost predicate InTail(m: Reader, s: string, i: nat)
    requires i < |s|
  {
    && m.number == |s| && m.pos == i && m.rest == ""
    && if m.convert then Converting(m, s[..i]) else CopyingRaw(m, s[..i])
  }

  /** After the literal `s`, with `t` handed on. */
  ghost predicate After(m: Reader, s: string, t: string)
  {
    && m.cs.Finished? && m.rest == t && m.buffer.run.None?
    && (!m.convert ==> m.buffer.data == s)
    && (m.convert && GoodEnding(s) ==> m.buffer.data == Converted(s))
  }

  /** Inside the announcement of the literal, after `k` octets. */
  ghost predicate InHead(m: Reader, d: string, k: nat)
    requires k < |d| + 4
  {
    && m.rest == ""
    && (k == 0 ==> m.cs.ExpectBrace?)
    && (k == 1 ==> m.cs.ExpectDigit?)
    && (1 < k <= |d| + 1 ==> m.cs.InNumber? && m.digits.run.Some? && Pending(m.digits) == d[..k - 1])
    && (k == |d| + 2 ==> m.cs.ExpectCr? && m.number == Value(d) && m.pos == 0)
    && (k == |d| + 3 ==> m.cs.ExpectLf? && m.number == Value(d) && m.pos == 0)
  }

  /** The reader after `k` octets of `LiteralText(s) + t`. */
  ghost predicate At(m: Reader, s: string, t: string, k: nat)
    requires k <= |Decimal(|s|)| + 4 + |s| + |t|
  {
    var h := |Decimal(|s|)| + 4;
    if k < h then InHead(m, Decimal(|s|), k)
    else if k < h + |s| then
      if Clean(m.convert, s[..k - h]) then InTail(m, s, k - h) else m.cs.Failed?
    else if Clean(m.convert, s) then After(m, s, t[..k - h - |s|]) else m.cs.Failed?
  }

  /** One octet of the announcement of `d`. */
  lemma HeadOctet(m: Reader, d: string, k: nat, c: char)
    requires 1 <= |d| <= 10 && AllDigits(d) && Value(d) <= MAX32 && k < |d| + 3 && InHead(m, d, k)
    requires c == if k == 0 then '{' else if k <= |d| then d[k - 1] else if k == |d| + 1 then '}' else CR
    ensures InHead(Step(m, c), d, k + 1) && Step(m, c).convert == m.convert
  {
    hide Value;
    if 1 <= k <= |d| {
      assert d[..k] == d[..k - 1] + [d[k - 1]];
    } else if k == |d| + 1 {
      assert d[..|d|] == d;
    }
  }

  lemma HeadStep(m: Reader, s: string, k: nat)
    requires |s| <= MAX32 && k < |Decimal(|s|)| + 3 && InHead(m, Decimal(|s|), k)
    ensures k + 1 < |LiteralText(s)|
    ensures InHead(Step(m, LiteralText(s)[k]), Decimal(|s|), k + 1)
    ensures Step(m, LiteralText(s)[k]).convert == m.convert
  {
    var d := Decimal(|s|);
    var text := LiteralText(s);
    DecimalDigits(|s|);
    ValueOfDecimal(|s|);
    Width32(|s|);
    hide Decimal;
    hide Value;
    hide Step;
    hide InHead;
    assert 1 <= k <= |d| ==> text[k] == d[k - 1];
    HeadOctet(m, d, k, text[k]);
  }

  lemma EnterStep(m: Reader, s: string, t: string)
    requires InHead(m, Decimal(|s|), |Decimal(|s|)| + 3)
    ensures |Decimal(|s|)| + 3 < |LiteralText(s)|
    ensures At(Step(m, LiteralText(s)[|Decimal(|s|)| + 3]), s, t, |Decimal(|s|)| + 4)
    ensures Step(m, LiteralText(s)[|Decimal(|s|)| + 3]).convert == m.convert
  {
    var d := Decimal(|s|);
    ValueOfDecimal(|s|);
    assert LiteralText(s)[|d| + 3] == LF;
    assert s[..0] == [] && t[..0] == [];
  }

  lemma CleanPrefix(convert: bool, s: string, i: nat)
    requires i < |s|
    ensures Clean(convert, s[..i + 1]) <==>
              Clean(convert, s[..i]) && s[i] != NUL && !(convert && BareLf(s, i))
  {
    var p, q := s[..i], s[..i + 1];
    assert forall j | 0 <= j < i :: p[j] == q[j] && (BareLf(p, j) <==> BareLf(q, j));
    assert q[i] == s[i] && (BareLf(q, i) <==> BareLf(s, i));
    if Clean(convert, q) {
      assert q[i] != NUL && !(convert && BareLf(q, i));
      forall j | 0 <= j < |p| ensures p[j] != NUL && !(convert && BareLf(p, j)) {
        assert q[j] != NUL && !(convert && BareLf(q, j));
      }
    }
  }

  lemma RawTailStep(m: Reader, s: string, i: nat)
    requires !m.convert && i < |s| && InTail(m, s, i) && s[i] != NUL
    ensures Step(m, s[i]).convert == m.convert
    ensures if i + 1 < |s| then InTail(Step(m, s[i]), s, i + 1) else After(Step(m, s[i]), s, "")
  {
    assert s[..i + 1] == s[..i] + [s[i]];
    assert s[..|s|] == s;
  }

  lemma ConvertedAppend(p: string, c: char)
    ensures c == LF && p != [] && p[|p| - 1] == CR ==> Converted(p + [c]) == Converted(p[..|p| - 1]) + [LF]
    ensures !(c == LF && p != [] && p[|p| - 1] == CR) ==> Converted(p + [c]) == Converted(p) + [c]
  {
    var q := p + [c];
    assert q[..|q| - 1] == p;
    if p != [] { assert q[..|q| - 2] == p[..|p| - 1]; }
  }

  /** A CR that is not followed by LF is kept. */
  lemma ConvertedCr(p: string)
    requires p != [] && p[|p| - 1] == CR
    ensures Converted(p) == Converted(p[..|p| - 1]) + [CR]
  {
  }

  lemma ConvertTailStep(m: Reader, s: string, i: nat)
    requires m.convert && i + 1 < |s| && InTail(m, s, i) && s[i] != NUL && !BareLf(s, i)
    ensures var m' := Step(m, s[i]); m'.convert == m.convert && InTail(m', s, i + 1)
  {
    var p, c := s[..i], s[i];
    assert s[..i + 1] == p + [c];
    assert (p + [c])[..i] == p;
    ConvertedAppend(p, c);
    if p != [] && p[|p| - 1] == CR { ConvertedCr(p); }
  }

  lemma ConvertTailLast(m: Reader, s: string)
    requires m.convert && s != [] && InTail(m, s, |s| - 1)
    requires s[|s| - 1] != NUL && !BareLf(s, |s| - 1)
    ensures var m' := Step(m, s[|s| - 1]); m'.convert == m.convert && After(m', s, "")
  {
    var n := |s|;
    var p, c := s[..n - 1], s[n - 1];
    assert s == p + [c];
    ConvertedAppend(p, c);
  }

  /** One octet of the stream. */
  lemma StepAt(m: Reader, s: string, t: string, k: nat)
    requires |s| <= MAX32 && k < |LiteralText(s) + t|
    requires At(m, s, t, k)
    ensures var m' := Step(m, (LiteralText(s) + t)[k]); m'.convert == m.convert && At(m', s, t, k + 1)
  {
    hide Step;
    hide Clean;
    hide InTail;
    hide After;
    hide InHead;
    var h := |Decimal(|s|)| + 4;
    var text := LiteralText(s) + t;
    if k + 1 < h {
      HeadStep(m, s, k);
    } else if k + 1 == h {
      EnterStep(m, s, t);
    } else if k < h + |s| {
      assert text[k] == s[k - h];
      TailAt(m, s, k - h);
      assert s[..|s|] == s && t[..0] == [];
    } else {
      assert text[k] == t[k - h - |s|];
      BehindAt(m, s, t, k - h - |s|);
    }
  }

  /** One octet of the literal itself. */
  lemma TailAt(m: Reader, s: string, i: nat)
    requires i < |s| && if Clean(m.convert, s[..i]) then InTail(m, s, i) else m.cs.Failed?
    ensures var m' := Step(m, s[i]);
            && m'.convert == m.convert
            && if !Clean(m.convert, s[..i + 1]) then m'.cs.Failed?
               else if i + 1 < |s| then InTail(m', s, i + 1) else After(m', s, "")
  {
    CleanPrefix(m.convert, s, i);
    assert s[..|s|] == s;
    if Clean(m.convert, s[..i]) {
      hide Step;
      if s[i] == NUL || (m.convert && BareLf(s, i)) {
        TailReject(m, s, i);
      } else if !m.convert {
        RawTailStep(m, s, i);
      } else if i + 1 < |s| {
        ConvertTailStep(m, s, i);
      } else {
        ConvertTailLast(m, s);
      }
    }
  }

  /** One octet behind the literal. */
  lemma BehindAt(m: Reader, s: string, t: string, j: nat)
    requires j < |t| && if Clean(m.convert, s) then After(m, s, t[..j]) else m.cs.Failed?
    ensures var m' := Step(m, t[j]);
            m'.convert == m.convert && if Clean(m.convert, s) then After(m', s, t[..j + 1]) else m'.cs.Failed?
  {
    hide Clean;
    assert t[..j + 1] == t[..j] + [t[j]];
  }

  lemma TailReject(m: Reader, s: string, i: nat)
    requires i < |s| && InTail(m, s, i) && (s[i] == NUL || (m.convert && BareLf(s, i)))
    ensures Step(m, s[i]).cs.Failed?
    ensures Step(m, s[i]).convert == m.convert
  {
    if i > 0 { assert s[..i][i - 1] == s[i - 1]; }
  }

  /** The end of a chunk changes nothing that matters. */
  lemma PauseAt(m: Reader, s: string, t: string, k: nat)
    requires k <= |LiteralText(s) + t|
    requires At(m, s, t, k)
    ensures At(EndChunk(m), s, t, k)
  {
  }

  // ---------------------------------------------------------------- the theorems

  /** The position invariant holds under every chunking. */
  lemma ReadWhole(convert: bool, stale: string, s: string, t: string, chunks: seq<string>)
    requires |s| <= MAX32 && Flatten(chunks) == LiteralText(s) + t
    ensures var m := ReadAll(Init(convert, stale), chunks);
            m.convert == convert && if Clean(convert, s) then After(m, s, t) else m.cs.Failed?
  {
    var text := LiteralText(s) + t;
    var inv := (m: Reader, k: nat) => k <= |text| && m.convert == convert && At(m, s, t, k);
    forall m, k: nat | k < |text| && inv(m, k) ensures inv(Step(m, text[k]), k + 1) {
      StepAt(m, s, t, k);
    }
    forall m, k: nat | k <= |text| && inv(m, k) ensures inv(EndChunk(m), k) {
      PauseAt(m, s, t, k);
    }
    DecimalDigits(|s|);
    FeedInduction(Step, EndChunk, inv, text, Init(convert, stale), chunks);
    assert t[..|t|] == t;
  }

  /** Framing round trip: under every chunking the raw reader yields exactly the written string and hands on exactly
      the octets behind it, if and only if the string has no NUL; otherwise it fails. */
  lemma LiteralRoundTrip(stale: string, s: string, t: string, chunks: seq<string>)
    requires |s| <= MAX32 && Flatten(chunks) == LiteralText(s) + t
    ensures var m := ReadAll(Init(false, stale), chunks);
            if NUL !in s then m.cs.Finished? && m.buffer.data == s && m.rest == t else m.cs.Failed?
  {
    ReadWhole(false, stale, s, t, chunks);
    if NUL in s { var i :| 0 <= i < |s| && s[i] == NUL; }
  }

  /** Conversion refines `Converted` under every chunking, for literals with a good ending; a literal with a NUL or a
      bare LF is rejected under every chunking. */
  lemma ConversionRefines(stale: string, s: string, t: string, chunks: seq<string>)
    requires |s| <= MAX32 && Flatten(chunks) == LiteralText(s) + t
    ensures var m := ReadAll(Init(true, stale), chunks);
            if Clean(true, s) then
              m.cs.Finished? && m.rest == t && (GoodEnding(s) ==> m.buffer.data == Converted(s))
            else m.cs.Failed?
  {
    ReadWhole(true, stale, s, t, chunks);
  }

  /** Without a chunk end, the open run of conversion is never empty. */
  ghost predicate RunStarted(m: Reader) { m.cs.ConvertText? ==> m.buffer.run.Some? && m.buffer.run.value != "" }

  lemma StepStartsRun(m: Reader, c: char)
    requires RunStarted(m)
    ensures RunStarted(Step(m, c))
  {
  }

  /** The last octet of a literal with a bad ending drops octets: one right after CRLF is lost, one after a single CR
      is lost with the CR, a CR behind text drops that text, and of two CRs one is lost. */
  lemma BadLast(m: Reader, s: string)
    requires m.convert && s != [] && InTail(m, s, |s| - 1) && RunStarted(m)
    requires Clean(true, s) && !GoodEnding(s)
    ensures |Step(m, s[|s| - 1]).buffer.data| < |Converted(s)|
  {
    var n := |s|;
    var p, c := s[..n - 1], s[n - 1];
    assert s == p + [c] && !BareLf(s, n - 1);
    ConvertedAppend(p, c);
    if p != [] && p[|p| - 1] == CR { ConvertedCr(p); }
  }

  lemma BadEndingLoses(stale: string, s: string, t: string)
    requires |s| <= MAX32 && Clean(true, s) && !GoodEnding(s)
    ensures |ReadAll(Init(true, stale), [LiteralText(s) + t]).buffer.data| < |Converted(s)|
  {
    hide Step;
    hide Losing;
    var text := LiteralText(s) + t;
    var inv := (m: Reader, k: nat) => k <= |text| && Losing(m, s, t, k);
    forall m, k: nat | k < |text| && inv(m, k) ensures inv(Step(m, text[k]), k + 1) {
      LosingStep(m, s, t, k);
    }
    var m0 := Init(true, stale);
    LosingStart(stale, s, t);
    FoldInduction(Step, inv, text, m0, 0, text);
    LosingEnd(Fold(Step, m0, text), s, t);
    OneChunk(m0, text);
  }

  /** The reader after `k` octets; behind the literal its buffer is too short. */
  ghost predicate Losing(m: Reader, s: string, t: string, k: nat)
    requires k <= |LiteralText(s) + t|
  {
    m.convert && At(m, s, t, k) && RunStarted(m) && (k >= |LiteralText(s)| ==> |m.buffer.data| < |Converted(s)|)
  }

  lemma LosingStart(stale: string, s: string, t: string)
    requires s != []
    ensures Losing(Init(true, stale), s, t, 0)
  {
    DecimalDigits(|s|);
  }

  lemma LosingEnd(m: Reader, s: string, t: string)
    requires Losing(m, s, t, |LiteralText(s) + t|)
    ensures |EndChunk(m).buffer.data| < |Converted(s)| || !Clean(true, s)
  {
    assert t[..|t|] == t;
  }

  lemma LosingStep(m: Reader, s: string, t: string, k: nat)
    requires |s| <= MAX32 && Clean(true, s) && !GoodEnding(s) && k < |LiteralText(s) + t| && Losing(m, s, t, k)
    ensures Losing(Step(m, (LiteralText(s) + t)[k]), s, t, k + 1)
  {
    assert s != [];
    hide Step;
    hide InHead;
    hide GoodEnding;
    hide Converted;
    var h, c := |Decimal(|s|)| + 4, (LiteralText(s) + t)[k];
    StepAt(m, s, t, k);
    StepStartsRun(m, c);
    FinishedStays(m, c);
    if k + 1 == h + |s| {
      LastInTail(m, s, t);
      BadLast(m, s);
    }
  }

  lemma LastInTail(m: Reader, s: string, t: string)
    requires s != [] && Clean(m.convert, s) && At(m, s, t, |Decimal(|s|)| + 3 + |s|)
    ensures InTail(m, s, |s| - 1) && (LiteralText(s) + t)[|Decimal(|s|)| + 3 + |s|] == s[|s| - 1]
  {
    hide Decimal;
    hide InHead;
    hide InTail;
    hide Clean;
    var n := |s| - 1;
    CleanPrefix(m.convert, s, n);
    assert s[..n + 1] == s;
    assert |LiteralText(s)| == |Decimal(|s|)| + 4 + |s|;
    assert LiteralText(s)[|Decimal(|s|)| + 4 + n] == s[n];
  }

  lemma FinishedStays(m: Reader, c: char)
    ensures m.cs.Finished? ==> Step(m, c).buffer == m.buffer
  {
  }

  lemma OneChunk(m: Reader, text: string)
    ensures ReadAll(m, [text]) == EndChunk(Fold(Step, m, text)) && Flatten([text]) == text
  {
    assert [text][..0] == [];
    assert Feed(Step, EndChunk, m, []) == m && Flatten([]) == "";
    assert "" + text == text;
  }

  /** For a literal without NUL and bare LF: conversion yields `Converted` under every chunking if and only if the
      literal has a good ending. */
  lemma ConversionExact(stale: string, s: string, t: string)
    requires |s| <= MAX32 && Clean(true, s)
    ensures (forall chunks: seq<string> | Flatten(chunks) == LiteralText(s) + t ::
               ReadAll(Init(true, stale), chunks).buffer.data == Converted(s)) <==> GoodEnding(s)
  {
    forall chunks: seq<string> | Flatten(chunks) == LiteralText(s) + t
      ensures GoodEnding(s) ==> ReadAll(Init(true, stale), chunks).buffer.data == Converted(s)
    {
      ConversionRefines(stale, s, t, chunks);
    }
    if !GoodEnding(s) {
      var chunks := [LiteralText(s) + t];
      OneChunk(Init(true, stale), LiteralText(s) + t);
      assert Flatten(chunks) == LiteralText(s) + t;
      BadEndingLoses(stale, s, t);
    }
  }

  // ---------------------------------------------------------------- what is accepted

  /** An announcement: one to ten digits whose number fits 32 bits. */
  ghost predicate Announced(d: string) { 1 <= |d| <= 10 && AllDigits(d) && Value(d) <= MAX32 }

  predicate Tail(cs: State) { cs.RawTail? || cs.ConvertStart? || cs.ConvertText? || cs.ConvertCr? }

  /** The text that brings a reader to its state: digits `d`, and behind the announcement the octets `p` of the literal. */
  ghost predicate Told(m: Reader, text: string, d: string, p: string)
  {
    var head := "{" + d + "}" + [CR, LF];
    match m.cs
    case ExpectBrace => text == "" && m.rest == ""
    case ExpectDigit => text == "{" && m.rest == ""
    case InNumber =>
      text == "{" + d && 1 <= |d| <= 10 && AllDigits(d) && m.digits.run.Some? && Pending(m.digits) == d && m.rest == ""
    case ExpectCr => Announced(d) && text == "{" + d + "}" && m.number == Value(d) && m.pos == 0 && m.rest == ""
    case ExpectLf => Announced(d) && text == "{" + d + "}" + [CR] && m.number == Value(d) && m.pos == 0 && m.rest == ""
    case Finished => Announced(d) && text == head + p + m.rest && |p| == Value(d) && Clean(m.convert, p)
    case Failed => true
    case _ =>
      && Announced(d) && text == head + p && |p| == m.pos < m.number == Value(d) && Clean(m.convert, p) && m.rest == ""
      && (m.convert && m.cs.ConvertCr? <==> m.convert && p != "" && p[|p| - 1] == CR) && (m.convert <==> !m.cs.RawTail?)
  }

  lemma CleanNext(convert: bool, p: string, c: char)
    ensures Clean(convert, p + [c]) <==>
              Clean(convert, p) && c != NUL && !(convert && c == LF && (p == "" || p[|p| - 1] != CR))
  {
    var q := p + [c];
    CleanPrefix(convert, q, |p|);
    assert q[..|p|] == p && q[..|p| + 1] == q;
  }

  lemma TailTold(m: Reader, text: string, d: string, p: string, c: char)
    requires Told(m, text, d, p) && Tail(m.cs)
    ensures Told(Step(m, c), text + [c], d, p + [c])
  {
    hide Announced;
    CleanNext(m.convert, p, c);
    hide Clean;
    var head := "{" + d + "}" + [CR, LF];
    assert head + p + [c] == head + (p + [c]) == head + (p + [c]) + "";
  }

  lemma HeadTold(m: Reader, text: string, d: string, p: string, c: char) returns (d': string, p': string)
    requires Told(m, text, d, p) && !Tail(m.cs)
    ensures Told(Step(m, c), text + [c], d', p')
  {
    d', p' := d, p;
    if m.cs.ExpectDigit? || m.cs.InNumber? {
      d' := NumberTold(m, text, d, p, c);
    } else if m.cs.ExpectLf? {
      p' := "";
      assert "{" + d + "}" + [CR] + [LF] == "{" + d + "}" + [CR, LF];
      assert ("{" + d + "}" + [CR, LF]) + "" + "" == "{" + d + "}" + [CR, LF];
    }
  }

  lemma NumberTold(m: Reader, text: string, d: string, p: string, c: char) returns (d': string)
    requires Told(m, text, d, p) && (m.cs.ExpectDigit? || m.cs.InNumber?)
    ensures Told(Step(m, c), text + [c], d', p)
  {
    hide Clean;
    hide RawStep;
    hide ConvertStep;
    if m.cs.ExpectDigit? {
      d' := [c];
      assert "{" + [c] == "{" + d';
    } else if IsDigit(c) {
      d' := d + [c];
      assert "{" + d + [c] == "{" + d';
    } else {
      d' := d;
    }
  }

  lemma {:induction false} ReadTold(convert: bool, stale: string, text: string) returns (d: string, p: string)
    ensures Told(Fold(Step, Init(convert, stale), text), text, d, p)
  {
    hide Step;
    d, p := "", "";
    if text != "" {
      var init, c := text[..|text| - 1], text[|text| - 1];
      var m := Fold(Step, Init(convert, stale), init);
      d, p := ReadTold(convert, stale, init);
      if Tail(m.cs) {
        TailTold(m, init, d, p, c);
        p := p + [c];
      } else {
        d, p := HeadTold(m, init, d, p, c);
      }
      assert init + [c] == text;
    }
  }

  lemma {:induction false} SameMode(m: Reader, text: string)
    ensures Fold(Step, m, text).convert == m.convert
  {
    if text != "" { SameMode(m, text[..|text| - 1]); }
  }

  /** A literal is only ever accepted in its form: an announcement of one to ten digits that fits 32 bits, that many octets
      without NUL, and under conversion without a bare LF, and then what is handed on. */
  lemma OnlyLiterals(convert: bool, stale: string, text: string) returns (d: string, s: string)
    requires Fold(Step, Init(convert, stale), text).cs.Finished?
    ensures Announced(d) && |s| == Value(d) && Clean(convert, s)
    ensures text == "{" + d + "}" + [CR, LF] + s + Fold(Step, Init(convert, stale), text).rest
  {
    d, s := ReadTold(convert, stale, text);
    SameMode(Init(convert, stale), text);
  }

  // ---------------------------------------------------------------- the reader as an object

  /** Both buffers keep the index of their open run in the current chunk; `Read` walks over the chunk once and stops
      with an exception when the machine fails. */
  class LiteralReader {
    var cs: State
    const convert: bool
    var number: nat
    var pos: nat
    var rest: string
    var data: string
    var open: bool
    var from: nat
    var digits: string
    var digitsOpen: bool
    var digitsFrom: nat

    /** Runs are open only where the machine opens them. */
    ghost predicate Valid()
      reads this
    {
      && (open ==> cs.RawTail? || cs.ConvertText?)
      && (digitsOpen ==> cs.InNumber?)
    }

    ghost predicate Inside(p: nat) reads this { (open ==> from <= p) && (digitsOpen ==> digitsFrom <= p) }

    /** The reader in the middle of a chunk, with the octets before `p` read. */
    ghost function Mid(chunk: string, p: nat): Reader
      requires p <= |chunk| && Inside(p)
      reads this
    {
      Reader(cs, convert, Buf(digits, if digitsOpen then Some(chunk[digitsFrom..p]) else None), number, pos,
             Buf(data, if open then Some(chunk[from..p]) else None), rest)
    }

    /** The reader between two chunks. */
    ghost function View(): Reader
      reads this
    {
      Reader(cs, convert, Buf(digits, if digitsOpen then Some("") else None), number, pos,
             Buf(data, if open then Some("") else None), rest)
    }

    constructor (convert: bool)
      ensures Valid() && View() == Init(convert, "")
    {
      cs, this.convert, number, pos, rest := ExpectBrace, convert, 0, 0, "";
      data, open, from, digits, digitsOpen, digitsFrom := "", false, 0, "", false, 0;
    }

    /** The announcement `{` number `}` CRLF. */
    method Head(chunk: string, p: nat) returns (ok: bool)
      requires p < |chunk| && Inside(p) && Valid()
      requires cs.ExpectBrace? || cs.ExpectDigit? || cs.InNumber? || cs.ExpectCr? || cs.ExpectLf?
      modifies this
      ensures ok <==> !Step(old(Mid(chunk, p)), chunk[p]).cs.Failed?
      ensures ok ==> Valid() && Inside(p + 1) && Mid(chunk, p + 1) == Step(old(Mid(chunk, p)), chunk[p])
    {
      var c := chunk[p];
      if cs.ExpectBrace? {
        if c != '{' { return false; }
        cs := ExpectDigit;
      } else if cs.ExpectDigit? {
        if !IsDigit(c) { return false; }
        cs, digits, digitsOpen, digitsFrom := InNumber, "", true, p;
        assert chunk[p..p + 1] == "" + [c];
      } else if cs.InNumber? {
        var text := if digitsOpen then digits + chunk[digitsFrom..p] else digits;
        if IsDigit(c) && |text| < 10 {
          if digitsOpen { assert chunk[digitsFrom..p + 1] == chunk[digitsFrom..p] + [c]; }
        } else {
          if c != '}' || Value(text) > MAX32 { return false; }
          cs, number, pos, digits, digitsOpen := ExpectCr, Value(text), 0, text, false;
        }
      } else if cs.ExpectCr? {
        if c != CR { return false; }
        cs := ExpectLf;
      } else {
        if c != LF { return false; }
        data := "";
        cs := if number == 0 then Finished else if convert then ConvertStart else RawTail;
      }
      ok := true;
    }

    /** Appends the open run, and the current octet if there is a run, and closes it. */
    method FinishAfter(chunk: string, p: nat)
      requires p < |chunk| && Inside(p)
      modifies `data, `open
      ensures !open && data == StopAfter(old(Mid(chunk, p).buffer), chunk[p]).data
    {
      if open {
        assert chunk[from..p + 1] == chunk[from..p] + [chunk[p]];
        data := data + chunk[from..p + 1];
        open := false;
      }
    }

    method Raw(chunk: string, p: nat) returns (ok: bool)
      requires p < |chunk| && Inside(p) && Valid() && cs.RawTail?
      modifies this
      ensures ok <==> !Step(old(Mid(chunk, p)), chunk[p]).cs.Failed?
      ensures ok ==> Valid() && Inside(p + 1) && Mid(chunk, p + 1) == Step(old(Mid(chunk, p)), chunk[p])
    {
      if chunk[p] == NUL { return false; }
      if pos == 0 { open, from := true, p; }
      pos := pos + 1;
      if pos == number {
        FinishAfter(chunk, p);
        cs := Finished;
      } else if open {
        assert chunk[from..p + 1] == chunk[from..p] + [chunk[p]];
      }
      ok := true;
    }

    method Convert(chunk: string, p: nat) returns (ok: bool)
      requires p < |chunk| && Inside(p) && Valid() && (cs.ConvertStart? || cs.ConvertText? || cs.ConvertCr?)
      modifies this
      ensures ok <==> !Step(old(Mid(chunk, p)), chunk[p]).cs.Failed?
      ensures ok ==> Valid() && Inside(p + 1) && Mid(chunk, p + 1) == Step(old(Mid(chunk, p)), chunk[p])
    {
      var c := chunk[p];
      if c == NUL || (c == LF && !cs.ConvertCr?) { return false; }
      pos := pos + 1;
      if pos == number {
        if c == LF || c == CR { data, open := data + [c], false; } else { FinishAfter(chunk, p); }
        cs := Finished;
        return true;
      }
      ConvertOn(chunk, p);
      ok := true;
    }

    /** An octet of a converted literal that is neither refused nor the last; it is counted already. */
    method ConvertOn(chunk: string, p: nat)
      requires p < |chunk| && Inside(p) && Valid() && (cs.ConvertStart? || cs.ConvertText? || cs.ConvertCr?)
      requires chunk[p] != NUL && (chunk[p] == LF ==> cs.ConvertCr?) && pos > 0 && pos != number
      modifies this
      ensures Valid() && Inside(p + 1)
      ensures Mid(chunk, p + 1) == Step(old(Mid(chunk, p)).(pos := old(pos) - 1), chunk[p])
    {
      var c := chunk[p];
      assert open ==> chunk[from..p + 1] == chunk[from..p] + [c];
      assert chunk[p..p + 1] == "" + [c];
      if cs.ConvertStart? {
        if c == CR { cs := ConvertCr; } else { cs, open, from := ConvertText, true, p; }
      } else if cs.ConvertText? {
        if c == CR {
          if open { data := data + chunk[from..p]; }
          cs, open := ConvertCr, false;
        }
      } else if c == LF {
        cs, data := ConvertStart, data + [LF];
      } else {
        data := data + [CR];
        if c != CR { cs, open, from := ConvertText, true, p; }
      }
    }

    method Octet(chunk: string, p: nat) returns (ok: bool)
      requires p < |chunk| && Inside(p) && Valid() && !cs.Failed?
      modifies this
      ensures ok <==> !Step(old(Mid(chunk, p)), chunk[p]).cs.Failed?
      ensures ok ==> Valid() && Inside(p + 1) && Mid(chunk, p + 1) == Step(old(Mid(chunk, p)), chunk[p])
    {
      if cs.Finished? {
        rest := rest + [chunk[p]];
        ok := true;
      } else if cs.RawTail? {
        ok := Raw(chunk, p);
      } else if cs.ConvertStart? || cs.ConvertText? || cs.ConvertCr? {
        ok := Convert(chunk, p);
      } else {
        ok := Head(chunk, p);
      }
    }

    /** What happens to both buffers at the end of a call. */
    method PauseBuffers(chunk: string)
      requires Inside(|chunk|)
      modifies this
      ensures View() == EndChunk(old(Mid(chunk, |chunk|))) && (old(Valid()) ==> Valid())
    {
      if open { data := data + chunk[from..]; }
      if digitsOpen { digits := digits + chunk[digitsFrom..]; }
    }

    method Read(chunk: string) returns (ok: bool)
      requires Valid() && !cs.Failed?
      modifies this
      ensures ok <==> !Fold(Step, old(View()), chunk).cs.Failed?
      ensures ok ==> Valid() && View() == EndChunk(Fold(Step, old(View()), chunk))
    {
      ghost var before := View();
      from, digitsFrom := 0, 0;
      for p := 0 to |chunk|
        invariant Valid() && Inside(p) && !cs.Failed?
        invariant Mid(chunk, p) == Fold(Step, before, chunk[..p])
      {
        FoldPrefix(before, chunk, p);
        ok := Octet(chunk, p);
        if !ok { return; }
      }
      assert chunk[..|chunk|] == chunk;
      PauseBuffers(chunk);
      ok := true;
    }
  }

  lemma FoldPrefix(m: Reader, text: string, p: nat)
    requires p < |text|
    ensures Fold(Step, m, text[..p + 1]) == Step(Fold(Step, m, text[..p]), text[p])
    ensures Fold(Step, m, text[..p + 1]).cs.Failed? ==> Fold(Step, m, text).cs.Failed?
  {
    hide Step;
    assert text[..p + 1][..p] == text[..p];
    FoldConcat(Step, m, text[..p + 1], text[p + 1..]);
    assert text[..p + 1] + text[p + 1..] == text;
    FailedStays(Fold(Step, m, text[..p + 1]), text[p + 1..]);
  }

  lemma {:induction false} FailedStays(m: Reader, text: string)
    ensures m.cs.Failed? ==> Fold(Step, m, text).cs.Failed?
  {
    if text != [] { FailedStays(m, text[..|text| - 1]); }
  }
}
