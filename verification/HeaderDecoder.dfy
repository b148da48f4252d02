/** The decoder of mail header fields (mime/header_decoder.rl), for RFC 2047. */
module HeaderDecoder {
  import opened Text
  import opened Buffer
  import Base64
  import QDecoder

  datatype Ending = Both | OnlyLf | OnlyCrlf

  datatype State =
    | NameStart | InName | AfterColon
    | BodyStart | InSpace | InWord | AtEquals
    | CharsetStart | InCharset | AtEncoding | AtQ | AtB | InQ | InB | EndMark
    | AfterEncoded | SpaceAfterEncoded | AtCr | AtLf | InFold
    | Final | Failed | LanguageSuffix

  /** `convert` is the charset conversion; `calls` lists what the callback saw: field name and decoded body.
      A language suffix of a charset leads to a state of its own and is not modelled further. */
  datatype Header = Header(
    cs: State, convert: (string, string) -> string, ending: Ending,
    field: Buf, buffer: Buf, space: Buf, charset: Buf, conv: Buf,
    qcs: QDecoder.State, qvalue: nat, bcs: Base64.State, unit: nat,
    calls: seq<(string, string)>)

  function Init(convert: (string, string) -> string, ending: Ending): Header
  {
    Header(NameStart, convert, ending, EMPTY, EMPTY, EMPTY, EMPTY, EMPTY, QDecoder.Start, 0, Base64.Start, 0, [])
  }

  const NUL: char := '\0'
  const CR: char := '\r'
  const LF: char := '\n'

  predicate Wsp(c: char) { c == ' ' || c == '\t' }
  predicate NameChar(c: char) { '!' <= c <= '9' || ';' <= c <= '~' }
  predicate BodyChar(c: char) { NUL < c <= '\U{7F}' && c != CR && c != LF && c != '=' && !Wsp(c) }
  predicate TokenChar(c: char) { '!' <= c <= '~' && c !in "()<>@,;:\"/[]?.=" }

  function Fail(m: Header): Header { m.(cs := Failed) }

  /** `ins_trail_space`. */
  function InsertSpace(m: Header): Header
  {
    if m.space.data != "" then m.(buffer := AddText(m.buffer, m.space.data), space := EMPTY) else m
  }

  function FinishSpace(m: Header): Header { InsertSpace(m.(space := Stop(m.space))) }

  /** `cb_header`, after the trailing space. */
  function Emit(m: Header): Header
  {
    var m1 := InsertSpace(m);
    m1.(calls := m1.calls + [(m1.field.data, m1.buffer.data)])
  }

  /** CR and LF leave the body; the ending policy may refuse one of them. */
  function LineEnd(m: Header, c: char): Header
  {
    if c == CR && !m.ending.OnlyLf? then m.(cs := AtCr)
    else if c == LF && !m.ending.OnlyCrlf? then m.(cs := AtLf)
    else Fail(m)
  }

  function StartName(m: Header, c: char): Header
  {
    if NameChar(c) then m.(cs := InName, field := Start()) else Fail(m)
  }

  /** The Q part of an encoded word; `?` leaves it. */
  function ActQ(m: Header, c: char): Header
  {
    var d := QDecoder.Decoder(m.qcs, m.qvalue, m.conv);
    if c == '?' && QDecoder.Accepting(d) then m.(cs := EndMark, conv := QDecoder.Leave(d).conv)
    else
      var e := QDecoder.Step(d, c);
      if e.cs.Failed? then Fail(m) else m.(qcs := e.cs, qvalue := e.value, conv := e.conv)
  }

  /** The B part of an encoded word; an octet that is held is read again as the start of the end mark. */
  function ActB(m: Header, c: char): Header
  {
    if m.bcs.Final? then if c == '?' then m.(cs := EndMark) else Fail(m)
    else
      var e := Base64.Step(Base64.Decoder(m.bcs, m.unit, m.conv.data), c);
      if e.cs.Held? then if c == '?' then m.(cs := EndMark) else Fail(m)
      else if e.cs.Failed? then Fail(m)
      else m.(bcs := e.cs, unit := e.unit, conv := Buf(e.out, None))
  }

  /** The states inside an encoded word. */
  function ActEncoded(m: Header, c: char): Header
  {
    match m.cs
    case CharsetStart =>
      if c == '*' then m.(cs := LanguageSuffix)
      else if TokenChar(c) then m.(cs := InCharset, charset := Start()) else Fail(m)
    case InCharset =>
      if c == '?' then m.(cs := AtEncoding, charset := Stop(m.charset))
      else if c == '*' then m.(cs := LanguageSuffix)
      else if TokenChar(c) then m else Fail(m)
    case AtEncoding =>
      if c == 'Q' || c == 'q' then m.(cs := AtQ) else if c == 'B' || c == 'b' then m.(cs := AtB) else Fail(m)
    case AtQ => if c == '?' then m.(cs := InQ, qcs := QDecoder.Start) else Fail(m)
    case AtB => if c == '?' then m.(cs := InB, bcs := Base64.Start) else Fail(m)
    case InQ => ActQ(m, c)
    case InB => ActB(m, c)
    case EndMark =>
      if c == '='
      then m.(cs := AfterEncoded, buffer := AddText(m.buffer, m.convert(m.charset.data, m.conv.data)), conv := EMPTY)
      else Fail(m)
    case _ => m
  }

  /** The state chart of a field body, outside encoded words. */
  function ActBody(m: Header, c: char): Header
  {
    match m.cs
    case BodyStart =>
      if Wsp(c) then m.(cs := InSpace, space := Start())
      else if BodyChar(c) then m.(cs := InWord, buffer := Cont(m.buffer))
      else if c == '=' then m.(cs := AtEquals)
      else LineEnd(m, c)
    case InSpace =>
      if Wsp(c) then m
      else if c == '=' then FinishSpace(m).(cs := AtEquals)
      else if BodyChar(c) then var m1 := FinishSpace(m); m1.(cs := InWord, buffer := Cont(m1.buffer))
      else LineEnd(m.(space := Stop(m.space)), c)
    case InWord =>
      if Wsp(c) then m.(cs := InSpace, buffer := Stop(m.buffer), space := Start())
      else if c == '=' then m.(cs := AtEquals, buffer := Stop(m.buffer))
      else if BodyChar(c) then m
      else LineEnd(m.(buffer := Stop(m.buffer)), c)
    case AtEquals =>
      if c == '?' then m.(cs := CharsetStart, space := EMPTY)
      else if BodyChar(c) then m.(cs := InWord, buffer := Cont(AddOctet(m.buffer, '=')))
      else if Wsp(c) then m.(cs := InSpace, buffer := AddOctet(m.buffer, '='), space := Start())
      else LineEnd(m.(buffer := AddOctet(m.buffer, '=')), c)
    case AfterEncoded =>
      if c == '=' then m.(cs := AtEquals)
      else if Wsp(c) then m.(cs := SpaceAfterEncoded, space := Start())
      else if BodyChar(c) then m.(cs := InWord, buffer := Cont(m.buffer))
      else LineEnd(m, c)
    case SpaceAfterEncoded =>
      if Wsp(c) then m
      else if c == '=' then m.(cs := AtEquals)
      else if BodyChar(c) then var m1 := FinishSpace(m); m1.(cs := InWord, buffer := Cont(m1.buffer))
      else LineEnd(m, c)
    case _ => m
  }

  predicate LineState(cs: State)
  {
    cs.NameStart? || cs.InName? || cs.AfterColon? || cs.AtCr? || cs.AtLf? || cs.InFold? || cs.Final?
  }

  predicate BodyState(cs: State)
  {
    cs.BodyStart? || cs.InSpace? || cs.InWord? || cs.AtEquals? || cs.AfterEncoded? || cs.SpaceAfterEncoded?
  }

  /** Field names, line endings and folds. */
  function ActLine(m: Header, c: char): Header
  {
    match m.cs
    case NameStart => StartName(m, c)
    case InName =>
      if NameChar(c) then m else if c == ':' then m.(cs := AfterColon, field := Stop(m.field)) else Fail(m)
    case AfterColon => if c == ' ' then m.(cs := BodyStart, buffer := EMPTY) else Fail(m)
    case AtCr => if c == LF then m.(cs := AtLf) else Fail(m)
    case AtLf =>
      if Wsp(c) then var m1 := InsertSpace(m); m1.(cs := InFold, space := Start())
      else if NameChar(c) then StartName(Emit(m), c)
      else if c == NUL || c == LF then Emit(m).(cs := Final)
      else Fail(m)
    case InFold =>
      if Wsp(c) then m
      else if BodyChar(c) then var m1 := FinishSpace(m); m1.(cs := InWord, buffer := Cont(m1.buffer))
      else if c == '=' then m.(cs := AtEquals) else Fail(m)
    case Final => Fail(m)
    case _ => m
  }

  function Act(m: Header, c: char): Header
  {
    if m.cs.Failed? || m.cs.LanguageSuffix? then m
    else if LineState(m.cs) then ActLine(m, c)
    else if BodyState(m.cs) then ActBody(m, c)
    else ActEncoded(m, c)
  }

  /** The actions of one octet, after which every open run covers it. */
  function Step(m: Header, c: char): Header
  {
    var m1 := Act(m, c);
    m1.(field := Advance(m1.field, c), buffer := Advance(m1.buffer, c),
        space := Advance(m1.space, c), charset := Advance(m1.charset, c))
  }

  // ---------------------------------------------------------------- headers as RFC 2047 sees them

  /** A plain word, or an encoded word in either encoding; the encoding letter is case-insensitive. */
  datatype Item =
    | Plain(word: string)
    | QEncoded(charset: string, upper: bool, elements: seq<QDecoder.Element>)
    | BEncoded(charset: string, upper: bool, octets: string)

  /** Whether an item stands on the same line as the one before it; the white space at the end of the line before is
      `trail`. */
  datatype Break = SameLine | NextLine(trail: string, crlf: bool)

  /** White space, possibly none, on the line of the item behind it. */
  datatype Piece = Piece(line: Break, gap: string, item: Item)

  datatype Field = Field(name: string, body: seq<Piece>, trail: string, crlf: bool)

  ghost predicate All(s: string, p: char -> bool) { forall i | 0 <= i < |s| :: p(s[i]) }

  ghost predicate ValidCharset(s: string) { s != "" && All(s, c => TokenChar(c) && c != '*') }

  predicate WordChar(c: char) { BodyChar(c) || c == '=' }

  /** No `=` stands before a `?`, which would open an encoded word, or before another `=`, which the decoder refuses. */
  ghost predicate EqualsApart(w: string) { forall i | 0 <= i < |w| - 1 && w[i] == '=' :: w[i + 1] != '?' && w[i + 1] != '=' }

  ghost predicate ValidItem(x: Item)
  {
    match x
    case Plain(w) => w != "" && All(w, WordChar) && EqualsApart(w)
    case QEncoded(cs, _, es) => ValidCharset(cs) && es != [] && QDecoder.AllLegal(es)
    case BEncoded(cs, _, s) => ValidCharset(cs) && s != "" && Base64.Octets(s)
  }

  predicate EndsInEquals(x: Item) { x.Plain? && x.word != "" && x.word[|x.word| - 1] == '=' }

  /** The item may follow `x` without white space. */
  predicate MayTouch(x: Item, y: Item) { x.Plain? ==> !y.Plain? && !EndsInEquals(x) }

  ghost predicate ValidBreak(p: Piece)
  {
    All(p.gap, Wsp) && (p.line.NextLine? ==> p.gap != "" && All(p.line.trail, Wsp))
  }

  /** Two plain words need white space or a line end between them, and so does a `=` at the end of a word. */
  ghost predicate ValidBody(b: seq<Piece>)
  {
    forall i | 0 <= i < |b| ::
      ValidBreak(b[i]) && ValidItem(b[i].item) && (i > 0 && b[i].gap == "" ==> MayTouch(b[i - 1].item, b[i].item))
  }

  predicate EndingFits(crlf: bool, ending: Ending) { if crlf then !ending.OnlyLf? else !ending.OnlyCrlf? }

  ghost predicate BreaksFit(b: seq<Piece>, ending: Ending)
  {
    forall i | 0 <= i < |b| && b[i].line.NextLine? :: EndingFits(b[i].line.crlf, ending)
  }

  ghost predicate ValidField(f: Field, ending: Ending)
  {
    && f.name != "" && All(f.name, NameChar) && ValidBody(f.body) && All(f.trail, Wsp)
    && BreaksFit(f.body, ending) && EndingFits(f.crlf, ending)
  }

  function EncodedWord(charset: string, letter: char, text: string): string
  {
    "?" + charset + "?" + [letter] + "?" + text + "?="
  }

  function ItemTail(x: Item): string
    requires ValidItem(x) && !x.Plain?
  {
    match x
    case QEncoded(cs, up, es) => EncodedWord(cs, if up then 'Q' else 'q', QDecoder.EncodedText(es))
    case BEncoded(cs, up, s) => EncodedWord(cs, if up then 'B' else 'b', Base64.Encode(s))
  }

  function ItemText(x: Item): string
    requires ValidItem(x)
  {
    if x.Plain? then x.word else "=" + ItemTail(x)
  }

  function LineEnding(crlf: bool): string { if crlf then [CR, LF] else [LF] }

  /** What stands between an item and the one before it. */
  function GapText(p: Piece): string
  {
    (if p.line.NextLine? then p.line.trail + LineEnding(p.line.crlf) else "") + p.gap
  }

  /** The first `k` pieces of a body as text. */
  function BodyText(b: seq<Piece>, k: nat): string
    requires k <= |b| && ValidBody(b)
  {
    if k == 0 then "" else BodyText(b, k - 1) + (GapText(b[k - 1]) + ItemText(b[k - 1].item))
  }

  function FieldText(f: Field, ending: Ending): string
    requires ValidField(f, ending)
  {
    f.name + ": " + BodyText(f.body, |f.body|) + f.trail + LineEnding(f.crlf)
  }

  /** The text that an item stands for. */
  function Meaning(convert: (string, string) -> string, x: Item): string
    requires ValidItem(x)
  {
    match x
    case Plain(w) => w
    case QEncoded(cs, _, es) => convert(cs, QDecoder.Decoded(es))
    case BEncoded(cs, _, s) => convert(cs, s)
  }

  /** Whether the item before position `k` is an encoded word. */
  predicate AfterEnc(b: seq<Piece>, k: nat) requires k <= |b| { k > 0 && !b[k - 1].item.Plain? }

  predicate StartsWithEquals(x: Item) { x.Plain? ==> x.word != "" && x.word[0] == '=' }

  /** What the decoder keeps of the white space before an item; `eq` says that the item starts with `=`. */
  function KeptBefore(afterEnc: bool, line: Break, gap: string, eq: bool): string
  {
    match line
    case SameLine => if afterEnc && eq then "" else gap
    case NextLine(trail, _) => (if afterEnc then "" else trail) + (if eq then "" else gap)
  }

  function Kept(afterEnc: bool, p: Piece): string { KeptBefore(afterEnc, p.line, p.gap, StartsWithEquals(p.item)) }

  function Rendered(convert: (string, string) -> string, b: seq<Piece>, k: nat): string
    requires k <= |b| && ValidBody(b)
  {
    if k == 0 then ""
    else Rendered(convert, b, k - 1) + Kept(AfterEnc(b, k - 1), b[k - 1]) + Meaning(convert, b[k - 1].item)
  }

  /** White space at the end is kept behind a plain word or an empty body, and dropped behind an encoded word. */
  function RenderedField(convert: (string, string) -> string, f: Field, ending: Ending): string
    requires ValidField(f, ending)
  {
    Rendered(convert, f.body, |f.body|) + if AfterEnc(f.body, |f.body|) then "" else f.trail
  }

  // ---------------------------------------------------------------- the rule of section 6.2

  /** White space between two encoded words is ignored, across line ends too; all other white space is kept, and a line
      end before white space is taken out. */
  function Ruled(afterEnc: bool, p: Piece): string
  {
    if afterEnc && !p.item.Plain? then "" else (if p.line.NextLine? then p.line.trail else "") + p.gap
  }

  /** The places where the decoder follows the rule: on the same line, all but white space between an encoded word and a
      plain word that starts with `=`; across a line end, between encoded words, and before a plain word that does not
      start with `=` if there is no white space between an encoded word and the line end. */
  predicate Regular(afterEnc: bool, p: Piece)
  {
    match p.line
    case SameLine => !(afterEnc && p.item.Plain? && StartsWithEquals(p.item) && p.gap != "")
    case NextLine(trail, _) =>
      if afterEnc then !p.item.Plain? || (trail == "" && !StartsWithEquals(p.item)) else !StartsWithEquals(p.item)
  }

  /** The white space before an item is treated as the rule says exactly in the regular places. */
  lemma KeptExact(afterEnc: bool, p: Piece)
    requires ValidBreak(p)
    ensures Kept(afterEnc, p) == Ruled(afterEnc, p) <==> Regular(afterEnc, p)
  {
    if p.line.NextLine? {
      assert |Ruled(afterEnc, p)| == if afterEnc && !p.item.Plain? then 0 else |p.line.trail| + |p.gap|;
      assert |Kept(afterEnc, p)|
        == (if afterEnc then 0 else |p.line.trail|) + (if StartsWithEquals(p.item) then 0 else |p.gap|);
      if afterEnc && p.line.trail == "" { assert p.line.trail + p.gap == p.gap && "" + p.gap == p.gap; }
    } else {
      assert "" + p.gap == p.gap;
    }
  }

  function RuledBody(convert: (string, string) -> string, b: seq<Piece>, k: nat): string
    requires k <= |b| && ValidBody(b)
  {
    if k == 0 then ""
    else RuledBody(convert, b, k - 1) + Ruled(AfterEnc(b, k - 1), b[k - 1]) + Meaning(convert, b[k - 1].item)
  }

  ghost predicate RegularField(f: Field)
  {
    && (forall i | 0 <= i < |f.body| :: Regular(AfterEnc(f.body, i), f.body[i]))
    && (AfterEnc(f.body, |f.body|) ==> f.trail == "")
  }

  lemma {:induction false} RegularBody(convert: (string, string) -> string, b: seq<Piece>, k: nat)
    requires k <= |b| && ValidBody(b) && forall i | 0 <= i < k :: Regular(AfterEnc(b, i), b[i])
    ensures Rendered(convert, b, k) == RuledBody(convert, b, k)
  {
    if k > 0 {
      RegularBody(convert, b, k - 1);
      RegularNext(convert, b, k - 1);
    }
  }

  lemma RegularNext(convert: (string, string) -> string, b: seq<Piece>, k: nat)
    requires k < |b| && ValidBody(b) && Regular(AfterEnc(b, k), b[k]) && Rendered(convert, b, k) == RuledBody(convert, b, k)
    ensures Rendered(convert, b, k + 1) == RuledBody(convert, b, k + 1)
  {
    hide Meaning;
    hide AfterEnc;
    hide ValidItem;
    hide MayTouch;
    assert ValidBreak(b[k]);
    KeptExact(AfterEnc(b, k), b[k]);
    hide Kept;
    hide Ruled;
    hide Regular;
    hide ValidBreak;
  }

  // ---------------------------------------------------------------- between the pieces of a body

  datatype Last = AtStart | AfterWord | AfterEquals | AfterEncodedWord

  /** What no octet of a body changes. */
  ghost predicate SameField(m: Header, m': Header)
  {
    m'.field == m.field && m'.field.run.None? && m'.calls == m.calls && m'.convert == m.convert && m'.ending == m.ending
  }

  /** Behind an item, with `r` rendered so far. */
  ghost predicate Behind(m: Header, last: Last, r: string)
  {
    && m.field.run.None? && m.conv == EMPTY && m.space.data == "" && m.charset.run.None? && m.unit < Base64.WORD
    && match last
       case AtStart => m.cs.BodyStart? && m.buffer == Buf(r, None)
       case AfterWord => m.cs.InWord? && m.buffer.run.Some? && Pending(m.buffer) == r
       case AfterEquals => m.cs.AtEquals? && r != "" && r[|r| - 1] == '=' && m.buffer == Buf(r[..|r| - 1], None)
       case AfterEncodedWord => m.cs.AfterEncoded? && m.buffer == Buf(r, None)
  }

  /** Inside the white space `g` behind an item. */
  ghost predicate InGap(m: Header, last: Last, r: string, g: string)
  {
    && m.field.run.None? && m.conv == EMPTY && m.charset.run.None? && m.unit < Base64.WORD
    && m.buffer == Buf(r, None) && m.space == Buf("", Some(g))
    && m.cs == if last.AfterEncodedWord? then SpaceAfterEncoded else InSpace
  }

  /** Inside the white space `g` at the start of a further line. */
  ghost predicate InFolded(m: Header, r: string, g: string)
  {
    && m.field.run.None? && m.conv == EMPTY && m.charset.run.None? && m.unit < Base64.WORD
    && m.buffer == Buf(r, None) && m.space == Buf("", Some(g)) && m.cs.InFold?
  }

  /** Behind the `=` that opens an encoded word, with `r` rendered so far. */
  ghost predicate Opened(m: Header, r: string)
  {
    && m.cs.AtEquals? && m.field.run.None? && m.conv == EMPTY && m.charset.run.None? && m.unit < Base64.WORD
    && m.buffer == Buf(r, None)
  }

  lemma {:induction false} ReadGap(m: Header, last: Last, r: string, g: string)
    requires Behind(m, last, r) && g != "" && All(g, Wsp)
    ensures var m' := Fold(Step, m, g); InGap(m', last, r, g) && SameField(m, m')
  {
    hide Step;
    var init, c := g[..|g| - 1], g[|g| - 1];
    assert init + [c] == g;
    if init == "" {
      FoldOne(Step, m, c);
      GapFirst(m, last, r, c);
    } else {
      ReadGap(m, last, r, init);
      GapNext(Fold(Step, m, init), last, r, init, c);
    }
  }

  lemma GapFirst(m: Header, last: Last, r: string, c: char)
    requires Behind(m, last, r) && Wsp(c)
    ensures InGap(Step(m, c), last, r, [c]) && SameField(m, Step(m, c))
  {
    hide ActEncoded;
    hide ActLine;
    hide BodyChar;
    assert "" + [c] == [c];
    if last.AfterEquals? { GapBehindEquals(m, r, c); }
  }

  lemma GapBehindEquals(m: Header, r: string, c: char)
    requires Behind(m, AfterEquals, r) && Wsp(c)
    ensures InGap(Step(m, c), AfterEquals, r, [c]) && SameField(m, Step(m, c))
  {
    hide ActEncoded;
    hide ActLine;
    assert !BodyChar(c) && "" + [c] == [c] && r[..|r| - 1] + ['='] == r;
    hide BodyChar;
  }

  lemma GapNext(m: Header, last: Last, r: string, g: string, c: char)
    requires InGap(m, last, r, g) && Wsp(c)
    ensures InGap(Step(m, c), last, r, g + [c]) && SameField(m, Step(m, c))
  {
  }

  // ---------------------------------------------------------------- plain words

  function Ends(last: Last, w: string): Last
  {
    if w == "" then last else if w[|w| - 1] == '=' then AfterEquals else AfterWord
  }

  lemma BehindStill(m: Header, last: Last, r: string)
    requires Behind(m, last, r)
    ensures m.field.run.None?
  {
  }

  lemma WordStep(m: Header, last: Last, r: string, c: char)
    requires Behind(m, last, r) && (last.AfterWord? || last.AfterEquals?) && WordChar(c)
    requires last.AfterEquals? ==> c != '=' && c != '?'
    ensures Behind(Step(m, c), Ends(last, [c]), r + [c]) && SameField(m, Step(m, c))
  {
    if last.AfterEquals? {
      LetterBehindEquals(m, r, c);
    } else if c == '=' {
      EqualsBehindWord(m, r);
    } else {
      LetterBehindWord(m, r, c);
    }
  }

  lemma LetterBehindWord(m: Header, r: string, c: char)
    requires Behind(m, AfterWord, r) && BodyChar(c)
    ensures Behind(Step(m, c), AfterWord, r + [c]) && SameField(m, Step(m, c))
  {
    hide ActEncoded;
    hide ActLine;
    assert m.buffer.data + (m.buffer.run.value + [c]) == r + [c];
  }

  lemma EqualsBehindWord(m: Header, r: string)
    requires Behind(m, AfterWord, r)
    ensures Behind(Step(m, '='), AfterEquals, r + "=") && SameField(m, Step(m, '='))
  {
    hide ActEncoded;
    hide ActLine;
    assert (r + "=")[..|r|] == r;
  }

  lemma LetterBehindEquals(m: Header, r: string, c: char)
    requires Behind(m, AfterEquals, r) && BodyChar(c) && c != '?'
    ensures Behind(Step(m, c), AfterWord, r + [c]) && SameField(m, Step(m, c))
  {
    hide ActEncoded;
    hide ActLine;
    assert r[..|r| - 1] + ['='] == r && "" + [c] == [c];
  }

  lemma {:induction false} ReadWord(m: Header, last: Last, r: string, w: string)
    requires Behind(m, last, r) && (last.AfterWord? || last.AfterEquals?) && All(w, WordChar) && EqualsApart(w)
    requires last.AfterEquals? && w != "" ==> w[0] != '=' && w[0] != '?'
    ensures var m' := Fold(Step, m, w); Behind(m', Ends(last, w), r + w) && SameField(m, m')
  {
    hide Step;
    hide Behind;
    hide WordChar;
    if w == "" {
      assert r + w == r && m.field.run.None? by { BehindStill(m, last, r); }
    } else {
      var init, c := w[..|w| - 1], w[|w| - 1];
      ReadWord(m, last, r, init);
      if init != "" { assert init[|init| - 1] == w[|w| - 2]; }
      WordStep(Fold(Step, m, init), Ends(last, init), r + init, c);
      assert r + init + [c] == r + w;
    }
  }

  /** The first octet of an item, right behind another one or at the start. */
  lemma StartAtOnce(m: Header, last: Last, r: string, c: char)
    requires Behind(m, last, r) && !last.AfterEquals? && WordChar(c) && (last.AfterWord? ==> c == '=')
    ensures Behind(Step(m, c), Ends(last, [c]), r + [c]) && SameField(m, Step(m, c))
  {
    hide ActEncoded;
    hide ActLine;
    assert (r + [c])[..|r|] == r;
  }

  /** The first octet of an item, behind white space. */
  lemma StartAfterGap(m: Header, last: Last, r: string, g: string, c: char)
    requires InGap(m, last, r, g) && WordChar(c)
    ensures var kept := if last.AfterEncodedWord? && c == '=' then "" else g;
            Behind(Step(m, c), Ends(last, [c]), r + kept + [c]) && SameField(m, Step(m, c))
  {
    hide ActEncoded;
    hide ActLine;
    var kept := if last.AfterEncodedWord? && c == '=' then "" else g;
    assert "" + g == g && r + "" == r && (r + kept + [c])[..|r + kept|] == r + kept;
  }

  /** The first octet of an item, behind the white space of a further line. */
  lemma StartAfterFold(m: Header, r: string, g: string, c: char)
    requires InFolded(m, r, g) && WordChar(c)
    ensures var kept := if c == '=' then "" else g;
            Behind(Step(m, c), Ends(AtStart, [c]), r + kept + [c]) && SameField(m, Step(m, c))
  {
    hide ActEncoded;
    hide ActBody;
    var kept := if c == '=' then "" else g;
    assert "" + g == g && r + "" == r && (r + kept + [c])[..|r + kept|] == r + kept;
  }

  lemma {:induction false} ReadFoldGap(m: Header, r: string, g: string)
    requires Ended(m, m.field.data, r) && g != "" && All(g, Wsp)
    ensures var m' := Fold(Step, m, g); InFolded(m', r, g) && SameField(m, m')
  {
    hide Step;
    var init, c := g[..|g| - 1], g[|g| - 1];
    assert init + [c] == g;
    if init == "" {
      FoldOne(Step, m, c);
      FoldGapFirst(m, r, c);
    } else {
      ReadFoldGap(m, r, init);
      FoldGapNext(Fold(Step, m, init), r, init, c);
    }
  }

  lemma FoldGapFirst(m: Header, r: string, c: char)
    requires Ended(m, m.field.data, r) && Wsp(c)
    ensures InFolded(Step(m, c), r, [c]) && SameField(m, Step(m, c))
  {
    hide ActEncoded;
    hide ActBody;
    assert "" + [c] == [c];
  }

  lemma FoldGapNext(m: Header, r: string, g: string, c: char)
    requires InFolded(m, r, g) && Wsp(c)
    ensures InFolded(Step(m, c), r, g + [c]) && SameField(m, Step(m, c))
  {
    hide ActEncoded;
    hide ActBody;
  }

  /** A line end and the white space behind it. */
  lemma ReadFold(m: Header, last: Last, r: string, p: Piece)
    requires Behind(m, last, r) && ValidBreak(p) && p.line.NextLine? && EndingFits(p.line.crlf, m.ending)
    ensures var m' := Fold(Step, m, GapText(p));
            InFolded(m', r + (if last.AfterEncodedWord? then "" else p.line.trail), p.gap) && SameField(m, m')
  {
    hide Step;
    hide Behind;
    hide InFolded;
    hide Ended;
    var lineEnd := p.line.trail + LineEnding(p.line.crlf);
    ReadEnd(m, last, r, p.line.trail, p.line.crlf);
    FoldConcat(Step, m, lineEnd, p.gap);
    ReadFoldGap(Fold(Step, m, lineEnd), r + (if last.AfterEncodedWord? then "" else p.line.trail), p.gap);
  }

  /** What stands before an item, and the item's first octet. */
  lemma ReadStart(m: Header, last: Last, r: string, p: Piece, c: char)
    requires Behind(m, last, r) && ValidBreak(p) && WordChar(c)
    requires p.line.NextLine? ==> EndingFits(p.line.crlf, m.ending)
    requires p.gap == "" ==> !last.AfterEquals? && (last.AfterWord? ==> c == '=')
    ensures var m' := Fold(Step, m, GapText(p) + [c]);
            Behind(m', Ends(AtStart, [c]), r + KeptBefore(last.AfterEncodedWord?, p.line, p.gap, c == '=') + [c])
            && SameField(m, m')
  {
    hide Step;
    hide Behind;
    hide InGap;
    hide InFolded;
    hide Ended;
    hide WordChar;
    FoldConcat(Step, m, GapText(p), [c]);
    var m1 := Fold(Step, m, GapText(p));
    FoldOne(Step, m1, c);
    if p.line.NextLine? {
      ReadFold(m, last, r, p);
      var text, kept := r + (if last.AfterEncodedWord? then "" else p.line.trail), if c == '=' then "" else p.gap;
      StartAfterFold(m1, text, p.gap, c);
      assert text + kept == r + KeptBefore(last.AfterEncodedWord?, p.line, p.gap, c == '=');
    } else {
      assert "" + p.gap == p.gap;
      if p.gap == "" {
        StartAtOnce(m, last, r, c);
        assert r + KeptBefore(last.AfterEncodedWord?, p.line, p.gap, c == '=') == r;
      } else {
        ReadGap(m, last, r, p.gap);
        StartAfterGap(m1, last, r, p.gap, c);
      }
    }
  }

  lemma EqualsOpens(m: Header, r: string)
    requires Behind(m, AfterEquals, r + "=")
    ensures Opened(m, r)
  {
    assert (r + "=")[..|r|] == r;
  }

  // ---------------------------------------------------------------- inside an encoded word

  /** Inside an encoded word: nothing but the charset and conversion buffers changes. */
  ghost predicate Inside(m: Header, r: string)
  {
    && m.field.run.None? && m.unit < Base64.WORD && m.buffer == Buf(r, None) && m.space == EMPTY
  }

  lemma {:induction false} ReadCharset(m: Header, r: string, s: string)
    requires Inside(m, r) && m.cs.CharsetStart? && m.conv == EMPTY && ValidCharset(s)
    ensures var m' := Fold(Step, m, s);
            Inside(m', r) && m'.cs.InCharset? && m'.conv == EMPTY && m'.charset == Buf("", Some(s)) && SameField(m, m')
  {
    hide Step;
    hide Inside;
    hide TokenChar;
    var init, c := s[..|s| - 1], s[|s| - 1];
    assert init + [c] == s;
    if init == "" {
      FoldOne(Step, m, c);
      CharsetFirst(m, r, c);
    } else {
      ReadCharset(m, r, init);
      CharsetNext(Fold(Step, m, init), r, init, c);
    }
  }

  lemma CharsetFirst(m: Header, r: string, c: char)
    requires Inside(m, r) && m.cs.CharsetStart? && m.conv == EMPTY && TokenChar(c) && c != '*'
    ensures var m' := Step(m, c);
            Inside(m', r) && m'.cs.InCharset? && m'.conv == EMPTY && m'.charset == Buf("", Some([c])) && SameField(m, m')
  {
    hide ActBody;
    hide ActLine;
    assert "" + [c] == [c];
  }

  lemma CharsetNext(m: Header, r: string, s: string, c: char)
    requires Inside(m, r) && m.cs.InCharset? && m.conv == EMPTY && m.charset == Buf("", Some(s)) && TokenChar(c) && c != '*'
    ensures var m' := Step(m, c);
            Inside(m', r) && m'.cs.InCharset? && m'.conv == EMPTY && m'.charset == Buf("", Some(s + [c])) && SameField(m, m')
  {
    hide ActBody;
    hide ActLine;
    assert c != '?';
  }

  lemma OpenCharset(m: Header, r: string)
    requires Opened(m, r)
    ensures var m' := Step(m, '?'); Inside(m', r) && m'.cs.CharsetStart? && m'.conv == EMPTY && SameField(m, m')
  {
  }

  lemma CloseCharset(m: Header, r: string, s: string)
    requires Inside(m, r) && m.cs.InCharset? && m.conv == EMPTY && m.charset == Buf("", Some(s))
    ensures var m' := Step(m, '?');
            Inside(m', r) && m'.cs.AtEncoding? && m'.conv == EMPTY && m'.charset == Buf(s, None) && SameField(m, m')
  {
    assert "" + s == s;
  }

  lemma ReadLetter(m: Header, r: string, letter: char)
    requires Inside(m, r) && m.cs.AtEncoding? && m.conv == EMPTY && m.charset.run.None? && letter in "QqBb"
    ensures var m' := Step(Step(m, letter), '?');
            && Inside(m', r) && m'.charset == m.charset && m'.conv == EMPTY && SameField(m, m')
            && (if letter in "Qq" then m'.cs.InQ? && m'.qcs.Start? else m'.cs.InB? && m'.bcs.Start?)
  {
    hide ActBody;
    hide ActLine;
    var m1 := Step(m, letter);
    assert m1.cs == if letter in "Qq" then AtQ else AtB;
  }

  /** `?` charset `?` letter `?`. */
  lemma ReadIntro(m: Header, r: string, s: string, letter: char)
    requires Opened(m, r) && ValidCharset(s) && letter in "QqBb"
    ensures var m' := Fold(Step, m, "?" + s + "?" + [letter] + "?");
            && Inside(m', r) && m'.charset == Buf(s, None) && m'.conv == EMPTY && SameField(m, m')
            && (if letter in "Qq" then m'.cs.InQ? && m'.qcs.Start? else m'.cs.InB? && m'.bcs.Start?)
  {
    hide Step;
    FoldOne(Step, m, '?');
    OpenCharset(m, r);
    FoldConcat(Step, m, "?", s);
    ReadCharset(Step(m, '?'), r, s);
    var m2 := Fold(Step, m, "?" + s);
    FoldConcat(Step, m, "?" + s, "?");
    FoldOne(Step, m2, '?');
    CloseCharset(m2, r, s);
    var m3 := Step(m2, '?');
    ReadLetter(m3, r, letter);
    FoldConcat(Step, m, "?" + s + "?", [letter]);
    FoldOne(Step, m3, letter);
    FoldConcat(Step, m, "?" + s + "?" + [letter], "?");
    FoldOne(Step, Step(m3, letter), '?');
  }

  /** No run is open outside the conversion buffer. */
  predicate Still(m: Header)
  {
    m.field.run.None? && m.buffer.run.None? && m.space.run.None? && m.charset.run.None?
  }

  lemma StepQ(m: Header, c: char)
    requires Still(m) && m.cs.InQ? && c != '?'
    ensures var d := QDecoder.Step(QDecoder.Decoder(m.qcs, m.qvalue, m.conv), c);
            !d.cs.Failed? ==> Step(m, c) == m.(qcs := d.cs, qvalue := d.value, conv := d.conv)
  {
    hide QDecoder.Step;
  }

  lemma StepB(m: Header, c: char)
    requires Still(m) && m.cs.InB? && m.conv.run.None? && c != '?'
    ensures var d := Base64.Step(Base64.Decoder(m.bcs, m.unit, m.conv.data), c);
            !d.cs.Failed? && !d.cs.Held? ==> Step(m, c) == m.(bcs := d.cs, unit := d.unit, conv := Buf(d.out, None))
  {
    assert m.bcs.Final? ==> Base64.Step(Base64.Decoder(m.bcs, m.unit, m.conv.data), c).cs.Failed?;
    hide Base64.Step;
  }

  lemma FailureStays(q: QDecoder.Decoder, b: Base64.Decoder, c: char)
    ensures q.cs.Failed? ==> QDecoder.Step(q, c).cs.Failed?
    ensures b.cs.Failed? || b.cs.Held? ==> Base64.Step(b, c).cs.Failed?
  {
  }

  /** The header decoder follows the Q decoder as long as that does not fail. */
  lemma {:induction false} FollowQ(m: Header, r: string, t: string)
    requires Inside(m, r) && m.cs.InQ? && m.charset.run.None? && '?' !in t
    requires !Fold(QDecoder.Step, QDecoder.Decoder(m.qcs, m.qvalue, m.conv), t).cs.Failed?
    ensures var d := Fold(QDecoder.Step, QDecoder.Decoder(m.qcs, m.qvalue, m.conv), t);
            Fold(Step, m, t) == m.(qcs := d.cs, qvalue := d.value, conv := d.conv)
  {
    hide Step;
    hide QDecoder.Step;
    if t != "" {
      var init, c := t[..|t| - 1], t[|t| - 1];
      FailureStays(Fold(QDecoder.Step, QDecoder.Decoder(m.qcs, m.qvalue, m.conv), init), Base64.Decoder(Base64.Start, 0, ""), c);
      FollowQ(m, r, init);
      StepQ(Fold(Step, m, init), c);
    }
  }

  /** The header decoder follows the base64 decoder as long as that neither fails nor holds an octet. */
  lemma {:induction false} FollowB(m: Header, r: string, t: string)
    requires Inside(m, r) && m.cs.InB? && m.charset.run.None? && m.conv.run.None? && '?' !in t
    requires var d := Fold(Base64.Step, Base64.Decoder(m.bcs, m.unit, m.conv.data), t); !d.cs.Failed? && !d.cs.Held?
    ensures var d := Fold(Base64.Step, Base64.Decoder(m.bcs, m.unit, m.conv.data), t);
            Fold(Step, m, t) == m.(bcs := d.cs, unit := d.unit, conv := Buf(d.out, None))
  {
    hide Step;
    hide Base64.Step;
    if t != "" {
      var init, c := t[..|t| - 1], t[|t| - 1];
      FailureStays(QDecoder.Decoder(QDecoder.Start, 0, EMPTY), Fold(Base64.Step, Base64.Decoder(m.bcs, m.unit, m.conv.data), init), c);
      FollowB(m, r, init);
      StepB(Fold(Step, m, init), c);
    }
  }

  /** The end mark converts and appends. */
  lemma ReadEndMark(m: Header, r: string)
    requires Inside(m, r) && m.charset.run.None?
    requires (m.cs.InQ? && QDecoder.Accepting(QDecoder.Decoder(m.qcs, m.qvalue, m.conv))
              && (m.qcs.AfterOctet? ==> m.conv.run.None?))
             || (m.cs.InB? && (m.bcs.Final? || m.bcs.Boundary?) && m.conv.run.None?)
    ensures var m' := Fold(Step, m, "?=");
            Behind(m', AfterEncodedWord, r + m.convert(m.charset.data, Pending(m.conv))) && SameField(m, m')
  {
    hide Step;
    var m1 := Step(m, '?');
    assert "?=" == "?" + "=";
    FoldConcat(Step, m, "?", "=");
    FoldOne(Step, m, '?');
    FoldOne(Step, m1, '=');
    MarkFirst(m, r);
    MarkSecond(m1, r);
  }

  lemma MarkFirst(m: Header, r: string)
    requires Inside(m, r) && m.charset.run.None?
    requires (m.cs.InQ? && QDecoder.Accepting(QDecoder.Decoder(m.qcs, m.qvalue, m.conv))
              && (m.qcs.AfterOctet? ==> m.conv.run.None?))
             || (m.cs.InB? && (m.bcs.Final? || m.bcs.Boundary?) && m.conv.run.None?)
    ensures var m1 := Step(m, '?');
            m1 == m.(cs := EndMark, conv := m1.conv) && m1.conv == Buf(Pending(m.conv), None)
  {
  }

  lemma MarkSecond(m: Header, r: string)
    requires Inside(m, r) && m.cs.EndMark? && m.charset.run.None? && m.conv.run.None?
    ensures var m' := Step(m, '=');
            Behind(m', AfterEncodedWord, r + m.convert(m.charset.data, m.conv.data)) && SameField(m, m')
  {
  }

  lemma {:induction false} NoMarkInQ(es: seq<QDecoder.Element>)
    requires QDecoder.AllLegal(es)
    ensures '?' !in QDecoder.EncodedText(es)
  {
    if es != [] {
      NoMarkInQ(es[..|es| - 1]);
      assert QDecoder.Legal(es[|es| - 1]);
    }
  }

  lemma {:induction false} NoMarkInB(s: string)
    requires Base64.Octets(s)
    ensures '?' !in Base64.Encode(s)
  {
    if |s| > 2 { NoMarkInB(s[3..]); }
  }

  lemma ReadQ(m: Header, r: string, es: seq<QDecoder.Element>)
    requires Inside(m, r) && m.cs.InQ? && m.qcs.Start? && m.charset.run.None?
    requires QDecoder.AllLegal(es) && es != []
    ensures var m' := Fold(Step, m, QDecoder.EncodedText(es) + "?=");
            Behind(m', AfterEncodedWord, r + m.convert(m.charset.data, QDecoder.Decoded(es))) && SameField(m, m')
  {
    hide Step;
    var t := QDecoder.EncodedText(es);
    QDecoder.Decodes(QDecoder.Decoder(m.qcs, m.qvalue, m.conv), es);
    NoMarkInQ(es);
    FollowQ(m, r, t);
    FoldConcat(Step, m, t, "?=");
    ReadEndMark(Fold(Step, m, t), r);
  }

  lemma ReadB(m: Header, r: string, s: string)
    requires Inside(m, r) && m.cs.InB? && m.bcs.Start? && m.charset.run.None? && m.conv == EMPTY
    requires Base64.Octets(s) && s != ""
    ensures var m' := Fold(Step, m, Base64.Encode(s) + "?=");
            Behind(m', AfterEncodedWord, r + m.convert(m.charset.data, s)) && SameField(m, m')
  {
    hide Step;
    hide Base64.Step;
    hide Base64.Encode;
    var t := Base64.Encode(s);
    var d := Base64.Decoder(m.bcs, m.unit, m.conv.data);
    Base64.DecodesEncoded(s);
    assert Base64.Yields(s, Base64.EndOf(s))(d, Fold(Base64.Step, d, t));
    assert "" + s == s;
    NoMarkInB(s);
    FollowB(m, r, t);
    FoldConcat(Step, m, t, "?=");
    ReadEndMark(Fold(Step, m, t), r);
  }

  /** A whole encoded word, behind its first `=`. */
  lemma ReadEncoded(m: Header, r: string, x: Item)
    requires Opened(m, r) && ValidItem(x) && !x.Plain?
    ensures var m' := Fold(Step, m, ItemTail(x));
            Behind(m', AfterEncodedWord, r + Meaning(m.convert, x)) && SameField(m, m')
  {
    hide Step;
    hide Base64.Encode;
    hide QDecoder.EncodedText;
    var letter := if x.QEncoded? then if x.upper then 'Q' else 'q' else if x.upper then 'B' else 'b';
    var text := if x.QEncoded? then QDecoder.EncodedText(x.elements) else Base64.Encode(x.octets);
    var intro := "?" + x.charset + "?" + [letter] + "?";
    ReadIntro(m, r, x.charset, letter);
    var m1 := Fold(Step, m, intro);
    FoldConcat(Step, m, intro, text + "?=");
    assert intro + (text + "?=") == EncodedWord(x.charset, letter, text);
    if x.QEncoded? { ReadQ(m1, r, x.elements); } else { ReadB(m1, r, x.octets); }
  }

  // ---------------------------------------------------------------- bodies, fields, headers

  function LastAt(b: seq<Piece>, k: nat): Last
    requires k <= |b|
  {
    if k == 0 then AtStart
    else if !b[k - 1].item.Plain? then AfterEncodedWord
    else if EndsInEquals(b[k - 1].item) then AfterEquals else AfterWord
  }

  lemma RenderedNext(convert: (string, string) -> string, b: seq<Piece>, k: nat)
    requires k < |b| && ValidBody(b)
    ensures Rendered(convert, b, k + 1)
            == Rendered(convert, b, k) + Kept(LastAt(b, k).AfterEncodedWord?, b[k]) + Meaning(convert, b[k].item)
  {
    hide Meaning;
    hide Kept;
  }

  lemma ReadPlain(m: Header, last: Last, r: string, p: Piece)
    requires Behind(m, last, r) && ValidBreak(p) && ValidItem(p.item) && p.item.Plain?
    requires p.line.NextLine? ==> EndingFits(p.line.crlf, m.ending)
    requires p.gap == "" ==> !last.AfterEquals? && !last.AfterWord?
    ensures var m' := Fold(Step, m, GapText(p) + p.item.word);
            Behind(m', if EndsInEquals(p.item) then AfterEquals else AfterWord, r + Kept(last.AfterEncodedWord?, p) + p.item.word)
            && SameField(m, m')
  {
    hide Step;
    hide Behind;
    hide WordChar;
    hide KeptBefore;
    hide GapText;
    hide ValidBreak;
    var w := p.item.word;
    var c, rest := w[0], w[1..];
    PlainParts(w);
    ReadStart(m, last, r, p, c);
    var m1 := Fold(Step, m, GapText(p) + [c]);
    FoldConcat(Step, m, GapText(p) + [c], rest);
    Joined(GapText(p), [c], rest);
    var kept := Kept(last.AfterEncodedWord?, p);
    hide Kept;
    hide EqualsApart;
    hide All;
    hide Ends;
    hide ValidItem;
    hide StartsWithEquals;
    ReadWord(m1, Ends(AtStart, [c]), r + kept + [c], rest);
    Joined(r + kept, [c], rest);
  }

  lemma Joined(a: string, b: string, c: string)
    ensures a + b + c == a + (b + c)
  {
  }

  lemma PlainParts(w: string)
    requires w != "" && All(w, WordChar) && EqualsApart(w)
    ensures var c, rest := w[0], w[1..];
            && w == [c] + rest && WordChar(c) && All(rest, WordChar) && EqualsApart(rest)
            && (c == '=' && rest != "" ==> rest[0] != '=' && rest[0] != '?')
            && Ends(Ends(AtStart, [c]), rest) == if w[|w| - 1] == '=' then AfterEquals else AfterWord
  {
    hide WordChar;
    var rest := w[1..];
    forall i | 0 <= i < |rest| - 1 && rest[i] == '=' ensures rest[i + 1] != '?' && rest[i + 1] != '=' {
      assert w[i + 1] == rest[i] && w[i + 2] == rest[i + 1];
    }
  }

  lemma ReadPiece(m: Header, b: seq<Piece>, k: nat)
    requires k < |b| && ValidBody(b) && BreaksFit(b, m.ending) && Behind(m, LastAt(b, k), Rendered(m.convert, b, k))
    ensures var m' := Fold(Step, m, GapText(b[k]) + ItemText(b[k].item));
            Behind(m', LastAt(b, k + 1), Rendered(m.convert, b, k + 1)) && SameField(m, m')
  {
    hide Step;
    hide ItemText;
    hide Meaning;
    hide Behind;
    hide GapText;
    hide Kept;
    RenderedNext(m.convert, b, k);
    hide Rendered;
    hide AfterEnc;
    var p, r, last := b[k], Rendered(m.convert, b, k), LastAt(b, k);
    if p.item.Plain? {
      ReadPlain(m, last, r, p);
      PlainMeaning(m.convert, p.item);
    } else {
      ReadEncodedPiece(m, last, r, p);
    }
  }

  lemma ReadEncodedPiece(m: Header, last: Last, r: string, p: Piece)
    requires Behind(m, last, r) && ValidBreak(p) && ValidItem(p.item) && !p.item.Plain?
    requires p.line.NextLine? ==> EndingFits(p.line.crlf, m.ending)
    requires p.gap == "" ==> !last.AfterEquals?
    ensures var m' := Fold(Step, m, GapText(p) + ItemText(p.item));
            Behind(m', AfterEncodedWord, r + Kept(last.AfterEncodedWord?, p) + Meaning(m.convert, p.item)) && SameField(m, m')
  {
    hide Step;
    hide ItemTail;
    hide Meaning;
    hide Behind;
    hide Opened;
    hide GapText;
    hide KeptBefore;
    hide ValidItem;
    ReadStart(m, last, r, p, '=');
    var m1 := Fold(Step, m, GapText(p) + "=");
    FoldConcat(Step, m, GapText(p) + "=", ItemTail(p.item));
    assert GapText(p) + "=" + ItemTail(p.item) == GapText(p) + ItemText(p.item);
    var kept := Kept(last.AfterEncodedWord?, p);
    EqualsOpens(m1, r + kept);
    ReadEncoded(m1, r + kept, p.item);
  }

  lemma PlainMeaning(convert: (string, string) -> string, x: Item)
    requires ValidItem(x) && x.Plain?
    ensures Meaning(convert, x) == x.word && ItemText(x) == x.word
  {
  }

  lemma {:induction false} ReadBody(m: Header, b: seq<Piece>, k: nat)
    requires k <= |b| && ValidBody(b) && BreaksFit(b, m.ending) && Behind(m, AtStart, "")
    ensures var m' := Fold(Step, m, BodyText(b, k));
            Behind(m', LastAt(b, k), Rendered(m.convert, b, k)) && (k > 0 ==> SameField(m, m')) && (k == 0 ==> m' == m)
  {
    hide Step;
    hide ItemText;
    hide GapText;
    hide Behind;
    hide Meaning;
    hide Kept;
    if k > 0 {
      ReadBody(m, b, k - 1);
      var t, p := BodyText(b, k - 1), GapText(b[k - 1]) + ItemText(b[k - 1].item);
      FoldConcat(Step, m, t, p);
      ReadPiece(Fold(Step, m, t), b, k - 1);
    }
  }

  /** Behind the line ending of a field whose decoded body is `text`; a kept trailing space is still in its buffer. */
  ghost predicate Ended(m: Header, name: string, text: string)
  {
    && m.cs.AtLf? && m.field == Buf(name, None) && m.buffer.run.None? && m.conv == EMPTY && m.charset.run.None?
    && m.unit < Base64.WORD && InsertSpace(m).buffer.data == text
  }

  /** In the line ending, with the same meaning. */
  lemma LeaveBody(m: Header, last: Last, r: string, c: char)
    requires Behind(m, last, r) && (if c == CR then !m.ending.OnlyLf? else c == LF && !m.ending.OnlyCrlf?)
    ensures var m' := Step(m, c);
            Ended(m'.(cs := AtLf), m.field.data, r) && m'.cs == (if c == CR then AtCr else AtLf) && SameField(m, m')
            && m'.space.data == ""
  {
    hide ActEncoded;
    hide ActLine;
    assert !BodyChar(c) && !Wsp(c);
    hide BodyChar;
    hide Wsp;
    if last.AfterEquals? { LeaveEquals(m, r, c); }
  }

  lemma LeaveEquals(m: Header, r: string, c: char)
    requires Behind(m, AfterEquals, r) && (if c == CR then !m.ending.OnlyLf? else c == LF && !m.ending.OnlyCrlf?)
    ensures var m' := Step(m, c);
            Ended(m'.(cs := AtLf), m.field.data, r) && m'.cs == (if c == CR then AtCr else AtLf) && SameField(m, m')
            && m'.space.data == ""
  {
    hide ActEncoded;
    hide ActLine;
    assert !BodyChar(c) && !Wsp(c) && r[..|r| - 1] + ['='] == r;
    hide BodyChar;
    hide Wsp;
  }

  lemma LeaveGap(m: Header, last: Last, r: string, g: string, c: char)
    requires InGap(m, last, r, g) && (if c == CR then !m.ending.OnlyLf? else c == LF && !m.ending.OnlyCrlf?)
    requires g != ""
    ensures var m' := Step(m, c);
            Ended(m'.(cs := AtLf), m.field.data, r + if last.AfterEncodedWord? then "" else g)
            && m'.cs == (if c == CR then AtCr else AtLf) && SameField(m, m') && (m'.space.run.None? || m'.space.data == "")
  {
    hide ActEncoded;
    hide ActLine;
    assert !BodyChar(c) && !Wsp(c) && "" + g == g;
    hide BodyChar;
    hide Wsp;
    if last.AfterEncodedWord? {
      assert r + "" == r;
    } else {
      assert Step(m, c).space == Buf(g, None);
    }
  }

  lemma CrThenLf(m: Header, name: string, text: string)
    requires m.cs.AtCr? && Ended(m.(cs := AtLf), name, text)
    ensures var m' := Step(m, LF); Ended(m', name, text) && SameField(m, m')
  {
  }

  lemma ReadEnd(m: Header, last: Last, r: string, trail: string, crlf: bool)
    requires Behind(m, last, r) && All(trail, Wsp) && (if crlf then !m.ending.OnlyLf? else !m.ending.OnlyCrlf?)
    ensures var m' := Fold(Step, m, trail + LineEnding(crlf));
            Ended(m', m.field.data, r + if last.AfterEncodedWord? then "" else trail) && SameField(m, m')
  {
    hide Step;
    hide Ended;
    FoldConcat(Step, m, trail, LineEnding(crlf));
    var m1 := Fold(Step, m, trail);
    var c := if crlf then CR else LF;
    var text := r + if last.AfterEncodedWord? then "" else trail;
    if trail == "" {
      LeaveBody(m, last, r, c);
      assert text == r;
    } else {
      ReadGap(m, last, r, trail);
      LeaveGap(m1, last, r, trail, c);
    }
    var m2 := Step(m1, c);
    FoldOne(Step, m1, c);
    if crlf {
      assert LineEnding(crlf) == [CR] + [LF];
      FoldConcat(Step, m1, [CR], [LF]);
      FoldOne(Step, m2, LF);
      CrThenLf(m2, m.field.data, text);
    } else {
      EndedAtLf(m2, m.field.data, text);
    }
  }

  lemma EndedAtLf(m: Header, name: string, text: string)
    requires m.cs.AtLf? && Ended(m.(cs := AtLf), name, text)
    ensures Ended(m, name, text)
  {
    assert m.(cs := AtLf) == m;
  }

  /** Ready for a field name. */
  ghost predicate Fresh(m: Header)
  {
    && m.cs.NameStart? && m.buffer.run.None? && m.conv == EMPTY && m.charset.run.None? && m.space.data == ""
    && m.unit < Base64.WORD
  }

  ghost predicate InNameOf(m: Header, name: string)
  {
    && m.cs.InName? && m.buffer.run.None? && m.conv == EMPTY && m.charset.run.None? && m.space.data == ""
    && m.unit < Base64.WORD && m.field == Buf("", Some(name))
  }

  ghost predicate SameCalls(m: Header, m': Header)
  {
    m'.calls == m.calls && m'.convert == m.convert && m'.ending == m.ending
  }

  lemma {:induction false} ReadName(m: Header, name: string)
    requires Fresh(m) && name != "" && All(name, NameChar)
    ensures var m' := Fold(Step, m, name); InNameOf(m', name) && SameCalls(m, m')
  {
    hide Step;
    hide Fresh;
    hide InNameOf;
    hide NameChar;
    var init, c := name[..|name| - 1], name[|name| - 1];
    assert init + [c] == name;
    if init == "" {
      FoldOne(Step, m, c);
      NameFirst(m, c);
    } else {
      ReadName(m, init);
      NameNext(Fold(Step, m, init), init, c);
    }
  }

  lemma NameFirst(m: Header, c: char)
    requires Fresh(m) && NameChar(c)
    ensures InNameOf(Step(m, c), [c]) && SameCalls(m, Step(m, c))
  {
    hide ActBody;
    hide ActEncoded;
    assert "" + [c] == [c];
  }

  lemma NameNext(m: Header, name: string, c: char)
    requires InNameOf(m, name) && NameChar(c)
    ensures InNameOf(Step(m, c), name + [c]) && SameCalls(m, Step(m, c))
  {
    hide ActBody;
    hide ActEncoded;
  }

  lemma ReadColon(m: Header, name: string)
    requires InNameOf(m, name)
    ensures var m' := Fold(Step, m, ": "); Behind(m', AtStart, "") && SameCalls(m, m') && m'.field == Buf(name, None)
  {
    assert ": " == ":" + " ";
    FoldConcat(Step, m, ":", " ");
    FoldOne(Step, m, ':');
    FoldOne(Step, Step(m, ':'), ' ');
    assert "" + name == name;
  }

  /** The beginning of a field, up to the end of its last item. */
  function Beginning(f: Field, ending: Ending): string
    requires ValidField(f, ending)
  {
    f.name + ": " + BodyText(f.body, |f.body|)
  }

  lemma ReadBeginning(m: Header, f: Field)
    requires Fresh(m) && ValidField(f, m.ending)
    ensures var m' := Fold(Step, m, Beginning(f, m.ending));
            && Behind(m', LastAt(f.body, |f.body|), Rendered(m.convert, f.body, |f.body|))
            && SameCalls(m, m') && m'.field == Buf(f.name, None)
  {
    hide Step;
    hide BodyText;
    hide Rendered;
    hide Behind;
    hide Fresh;
    hide InNameOf;
    hide LastAt;
    ReadName(m, f.name);
    FoldConcat(Step, m, f.name, ": ");
    var m1 := Fold(Step, m, f.name);
    ReadColon(m1, f.name);
    FoldConcat(Step, m, f.name + ": ", BodyText(f.body, |f.body|));
    ReadBody(Fold(Step, m1, ": "), f.body, |f.body|);
  }

  lemma ReadField(m: Header, f: Field)
    requires Fresh(m) && ValidField(f, m.ending)
    ensures var m' := Fold(Step, m, FieldText(f, m.ending));
            Ended(m', f.name, RenderedField(m.convert, f, m.ending)) && SameCalls(m, m')
  {
    hide Step;
    hide Ended;
    hide Fresh;
    hide Behind;
    hide Rendered;
    hide BodyText;
    hide ValidBody;
    var begin, end := Beginning(f, m.ending), f.trail + LineEnding(f.crlf);
    ReadBeginning(m, f);
    FoldConcat(Step, m, begin, end);
    var last := LastAt(f.body, |f.body|);
    ReadEnd(Fold(Step, m, begin), last, Rendered(m.convert, f.body, |f.body|), f.trail, f.crlf);
    Joined(begin, f.trail, LineEnding(f.crlf));
    assert last.AfterEncodedWord? <==> AfterEnc(f.body, |f.body|);
  }

  /** The callback runs when the line behind a field starts with a field name. */
  lemma NextField(m: Header, name: string, text: string, t: string)
    requires Ended(m, name, text) && t != "" && NameChar(t[0])
    ensures var e := Emit(m).(cs := NameStart);
            Fresh(e) && e.calls == m.calls + [(name, text)] && e.convert == m.convert && e.ending == m.ending
            && Fold(Step, m, t) == Fold(Step, e, t)
  {
    var e := Emit(m).(cs := NameStart);
    SameStart(m, name, text, t[0]);
    hide Step;
    FoldHead(Step, m, t);
    FoldHead(Step, e, t);
  }

  lemma SameStart(m: Header, name: string, text: string, c: char)
    requires Ended(m, name, text) && NameChar(c)
    ensures Step(m, c) == Step(Emit(m).(cs := NameStart), c)
  {
    hide ActBody;
    hide ActEncoded;
    hide Emit;
    hide Advance;
    assert Emit(m).cs == m.cs by { EmitKeeps(m); }
  }

  lemma EmitKeeps(m: Header)
    ensures Emit(m).cs == m.cs
  {
  }

  lemma LastField(m: Header, name: string, text: string, c: char)
    requires Ended(m, name, text) && (c == NUL || c == LF)
    ensures Step(m, c).cs.Final? && Step(m, c).calls == m.calls + [(name, text)]
  {
  }

  ghost predicate ValidHeader(fs: seq<Field>, ending: Ending) { fs != [] && forall i | 0 <= i < |fs| :: ValidField(fs[i], ending) }

  function HeaderText(fs: seq<Field>, ending: Ending, k: nat): string
    requires ValidHeader(fs, ending) && k <= |fs|
  {
    if k == 0 then "" else HeaderText(fs, ending, k - 1) + FieldText(fs[k - 1], ending)
  }

  function Entry(convert: (string, string) -> string, ending: Ending, f: Field): (string, string)
    requires ValidField(f, ending)
  {
    (f.name, RenderedField(convert, f, ending))
  }

  /** What the callback must see: once per field, in order. */
  function Entries(convert: (string, string) -> string, ending: Ending, fs: seq<Field>, k: nat): seq<(string, string)>
    requires ValidHeader(fs, ending) && k <= |fs|
  {
    if k == 0 then [] else Entries(convert, ending, fs, k - 1) + [Entry(convert, ending, fs[k - 1])]
  }

  lemma {:induction false} ReadFields(convert: (string, string) -> string, ending: Ending, fs: seq<Field>, k: nat)
    requires ValidHeader(fs, ending) && 0 < k <= |fs|
    ensures var m := Fold(Step, Init(convert, ending), HeaderText(fs, ending, k));
            && Ended(m, fs[k - 1].name, RenderedField(convert, fs[k - 1], ending))
            && m.calls == Entries(convert, ending, fs, k - 1) && m.convert == convert && m.ending == ending
  {
    hide Step;
    hide Ended;
    hide RenderedField;
    hide FieldText;
    hide Emit;
    var m0, f := Init(convert, ending), fs[k - 1];
    var before, text := HeaderText(fs, ending, k - 1), FieldText(f, ending);
    FoldConcat(Step, m0, before, text);
    if k == 1 {
      ReadField(m0, f);
    } else {
      ReadFields(convert, ending, fs, k - 1);
      var m := Fold(Step, m0, before);
      FieldStart(f, ending);
      NextField(m, fs[k - 2].name, RenderedField(convert, fs[k - 2], ending), text);
      ReadField(Emit(m).(cs := NameStart), f);
    }
  }

  lemma FieldStart(f: Field, ending: Ending)
    requires ValidField(f, ending)
    ensures FieldText(f, ending) != "" && NameChar(FieldText(f, ending)[0])
  {
    assert FieldText(f, ending)[0] == f.name[0];
  }

  lemma EntriesLast(convert: (string, string) -> string, ending: Ending, fs: seq<Field>)
    requires ValidHeader(fs, ending)
    ensures var n := |fs| - 1;
            Entries(convert, ending, fs, n + 1)
            == Entries(convert, ending, fs, n) + [(fs[n].name, RenderedField(convert, fs[n], ending))]
  {
    hide RenderedField;
  }

  /** Header decoding: for every header whose bodies mix plain words with encoded words, folded or not, for every charset
      conversion and ending policy, the callback runs once per field, in order, with the field's name and its rendered
      body. */
  lemma HeaderRefines(convert: (string, string) -> string, ending: Ending, fs: seq<Field>, stop: char)
    requires ValidHeader(fs, ending) && (stop == NUL || stop == LF)
    ensures var m := Fold(Step, Init(convert, ending), HeaderText(fs, ending, |fs|) + [stop]);
            m.cs.Final? && m.calls == Entries(convert, ending, fs, |fs|)
  {
    hide Step;
    hide Ended;
    hide RenderedField;
    hide HeaderText;
    var m0, t := Init(convert, ending), HeaderText(fs, ending, |fs|);
    ReadFields(convert, ending, fs, |fs|);
    EntriesLast(convert, ending, fs);
    hide Entries;
    hide Entry;
    FoldConcat(Step, m0, t, [stop]);
    var m := Fold(Step, m0, t);
    FoldOne(Step, m, stop);
    var f := fs[|fs| - 1];
    LastField(m, f.name, RenderedField(convert, f, ending), stop);
  }

  /** What the rule of section 6.2 asks the callback to see. */
  function RuledEntries(convert: (string, string) -> string, ending: Ending, fs: seq<Field>, k: nat): seq<(string, string)>
    requires ValidHeader(fs, ending) && k <= |fs|
  {
    if k == 0 then []
    else
      var f := fs[k - 1];
      RuledEntries(convert, ending, fs, k - 1) + [(f.name, RuledBody(convert, f.body, |f.body|) + f.trail)]
  }

  lemma {:induction false} RegularEntries(convert: (string, string) -> string, ending: Ending, fs: seq<Field>, k: nat)
    requires ValidHeader(fs, ending) && k <= |fs| && forall i | 0 <= i < k :: RegularField(fs[i])
    ensures Entries(convert, ending, fs, k) == RuledEntries(convert, ending, fs, k)
  {
    hide Rendered;
    hide RuledBody;
    if k > 0 {
      RegularEntries(convert, ending, fs, k - 1);
      var f := fs[k - 1];
      RegularBody(convert, f.body, |f.body|);
      assert (if AfterEnc(f.body, |f.body|) then "" else f.trail) == f.trail;
    }
  }

  /** Header decoding follows section 6.2 of RFC 2047: if all fields are regular, the callback sees each body with the white
      space between encoded words taken out, folded lines joined, and everything else kept. Single-line fields are
      regular but for white space between an encoded word and a word that starts with `=`, and behind a last encoded word;
      folded fields of plain words are regular if no line starts with `=`. */
  lemma HeaderFollowsRule(convert: (string, string) -> string, ending: Ending, fs: seq<Field>, stop: char)
    requires ValidHeader(fs, ending) && (stop == NUL || stop == LF) && forall i | 0 <= i < |fs| :: RegularField(fs[i])
    ensures var m := Fold(Step, Init(convert, ending), HeaderText(fs, ending, |fs|) + [stop]);
            m.cs.Final? && m.calls == RuledEntries(convert, ending, fs, |fs|)
  {
    hide Step;
    hide HeaderText;
    HeaderRefines(convert, ending, fs, stop);
    RegularEntries(convert, ending, fs, |fs|);
  }

  // ---------------------------------------------------------------- what is refused

  /** A run that has failed stays failed. */
  lemma {:induction false} FailedStays(m: Header, text: string)
    requires m.cs.Failed?
    ensures Fold(Step, m, text).cs.Failed?
  {
    if text != [] { FailedStays(m, text[..|text| - 1]); }
  }

  /** The header is refused if a word holds two `=` in a row, whatever stands before and behind it. */
  lemma DoubleEqualsRefused(convert: (string, string) -> string, ending: Ending, f: Field, rest: string)
    requires ValidField(f, ending) && f.body != [] && EndsInEquals(f.body[|f.body| - 1].item)
    ensures Fold(Step, Init(convert, ending), Beginning(f, ending) + "=" + rest).cs.Failed?
  {
    hide BodyText;
    hide Rendered;
    var m := Init(convert, ending);
    ReadBeginning(m, f);
    var m1 := Fold(Step, m, Beginning(f, ending));
    FoldConcat(Step, m, Beginning(f, ending), "=");
    FoldOne(Step, m1, '=');
    assert Step(m1, '=').cs.Failed?;
    hide Step;
    FoldConcat(Step, m, Beginning(f, ending) + "=", rest);
    FailedStays(Step(m1, '='), rest);
  }

  /** No `=` stands before a `?`. */
  ghost predicate OpensNothing(w: string) { forall i | 0 <= i < |w| - 1 && w[i] == '=' :: w[i + 1] != '?' }

  ghost predicate DoubleEquals(w: string) { exists i :: 0 <= i < |w| - 1 && w[i] == '=' && w[i + 1] == '=' }

  /** A word of letters and `=`, in which no encoded word is opened, is called back as it stands if and only if it holds no
      two `=` in a row; with them, the header is refused. */
  lemma PlainWordExact(convert: (string, string) -> string, ending: Ending, name: string, w: string, crlf: bool, stop: char)
    requires name != "" && All(name, NameChar) && EndingFits(crlf, ending) && (stop == NUL || stop == LF)
    requires w != "" && All(w, WordChar) && OpensNothing(w)
    ensures var m := Fold(Step, Init(convert, ending), name + ": " + w + LineEnding(crlf) + [stop]);
            if DoubleEquals(w) then m.cs.Failed? else m.cs.Final? && m.calls == [(name, w)]
  {
    if DoubleEquals(w) {
      WordRefused(convert, ending, name, w, LineEnding(crlf) + [stop], crlf);
      assert name + ": " + w + LineEnding(crlf) + [stop] == name + ": " + w + (LineEnding(crlf) + [stop]);
    } else {
      WordAccepted(convert, ending, name, w, crlf, stop);
    }
  }

  lemma WordAccepted(convert: (string, string) -> string, ending: Ending, name: string, w: string, crlf: bool, stop: char)
    requires name != "" && All(name, NameChar) && EndingFits(crlf, ending) && (stop == NUL || stop == LF)
    requires w != "" && All(w, WordChar) && OpensNothing(w) && !DoubleEquals(w)
    ensures var m := Fold(Step, Init(convert, ending), name + ": " + w + LineEnding(crlf) + [stop]);
            m.cs.Final? && m.calls == [(name, w)]
  {
    assert EqualsApart(w);
    hide Step;
    hide WordChar;
    hide NameChar;
    hide HeaderText;
    var f := OneWord(name, w, crlf, ending);
    hide ValidField;
    hide EqualsApart;
    OneCall(convert, ending, f, w);
    HeaderRefines(convert, ending, [f], stop);
  }

  lemma WordRefused(convert: (string, string) -> string, ending: Ending, name: string, w: string, tail: string, crlf: bool)
    requires name != "" && All(name, NameChar) && EndingFits(crlf, ending)
    requires w != "" && All(w, WordChar) && OpensNothing(w) && DoubleEquals(w)
    ensures Fold(Step, Init(convert, ending), name + ": " + w + tail).cs.Failed?
  {
    hide Step;
    hide WordChar;
    hide NameChar;
    var head, rest := CutDouble(w);
    hide DoubleEquals;
    hide OpensNothing;
    var f := OneWord(name, head, crlf, ending);
    hide ValidField;
    hide EqualsApart;
    hide Beginning;
    hide All;
    DoubleEqualsRefused(convert, ending, f, rest + tail);
    Rearranged(name + ": ", head, rest, tail);
  }

  lemma Rearranged(a: string, b: string, c: string, d: string)
    ensures a + (b + "=" + c) + d == a + b + "=" + (c + d)
  {
  }

  lemma CutDouble(w: string) returns (head: string, rest: string)
    requires All(w, WordChar) && OpensNothing(w) && DoubleEquals(w)
    ensures w == head + "=" + rest && head != "" && All(head, WordChar) && EqualsApart(head) && head[|head| - 1] == '='
  {
    hide WordChar;
    var i := FirstDouble(w);
    head, rest := w[..i + 1], w[i + 2..];
  }

  lemma FirstDouble(w: string) returns (i: nat)
    requires DoubleEquals(w)
    ensures i < |w| - 1 && w[i] == '=' && w[i + 1] == '=' && forall j | 0 <= j < i :: !(w[j] == '=' && w[j + 1] == '=')
  {
    i := 0;
    while !(w[i] == '=' && w[i + 1] == '=')
      invariant i < |w| - 1 && forall j | 0 <= j < i :: !(w[j] == '=' && w[j + 1] == '=')
      invariant exists k :: i <= k < |w| - 1 && w[k] == '=' && w[k + 1] == '='
      decreases |w| - i
    {
      i := i + 1;
    }
  }

  lemma OneWord(name: string, w: string, crlf: bool, ending: Ending) returns (f: Field)
    requires name != "" && All(name, NameChar) && EndingFits(crlf, ending) && w != "" && All(w, WordChar) && EqualsApart(w)
    ensures f == Field(name, [Piece(SameLine, "", Plain(w))], "", crlf) && ValidField(f, ending)
    ensures Beginning(f, ending) == name + ": " + w
    ensures HeaderText([f], ending, 1) == name + ": " + w + LineEnding(crlf)
  {
    hide BodyChar;
    f := Field(name, [Piece(SameLine, "", Plain(w))], "", crlf);
    assert BodyText(f.body, 1) == w;
    assert HeaderText([f], ending, 0) == "";
  }

  lemma OneCall(convert: (string, string) -> string, ending: Ending, f: Field, w: string)
    requires ValidField(f, ending) && f == Field(f.name, [Piece(SameLine, "", Plain(w))], "", f.crlf) && w != ""
    ensures ValidHeader([f], ending) && Entries(convert, ending, [f], 1) == [(f.name, w)]
  {
    assert Rendered(convert, f.body, 0) == "";
    assert Rendered(convert, f.body, 1) == "" + "" + w == w;
    assert w + "" == w;
    assert Entries(convert, ending, [f], 0) == [];
  }

  /** The header is refused if a further line of a field is blank. */
  lemma BlankLineRefused(convert: (string, string) -> string, ending: Ending, f: Field, gap: string, c: char, rest: string)
    requires ValidField(f, ending) && gap != "" && All(gap, Wsp) && (c == CR || c == LF)
    ensures Fold(Step, Init(convert, ending), Beginning(f, ending) + (f.trail + LineEnding(f.crlf)) + gap + [c] + rest).cs.Failed?
  {
    hide Step;
    hide Rendered;
    hide BodyText;
    var m, begin, end := Init(convert, ending), Beginning(f, ending), f.trail + LineEnding(f.crlf);
    ReadBeginning(m, f);
    var m1 := Fold(Step, m, begin);
    var last, r := LastAt(f.body, |f.body|), Rendered(convert, f.body, |f.body|);
    SameConvert(m, begin);
    FoldConcat(Step, m, begin, end);
    ReadEnd(m1, last, r, f.trail, f.crlf);
    var text := r + if last.AfterEncodedWord? then "" else f.trail;
    var m2 := Fold(Step, m1, end);
    FoldConcat(Step, m, begin + end, gap);
    ReadFoldGap(m2, text, gap);
    var m3 := Fold(Step, m2, gap);
    FoldConcat(Step, m, begin + end + gap, [c]);
    FoldOne(Step, m3, c);
    BlankFails(m3, text, gap, c);
    FoldConcat(Step, m, begin + end + gap + [c], rest);
    FailedStays(Step(m3, c), rest);
  }

  lemma BlankFails(m: Header, r: string, g: string, c: char)
    requires InFolded(m, r, g) && (c == CR || c == LF)
    ensures Step(m, c).cs.Failed?
  {
    hide ActBody;
    hide ActEncoded;
  }

  lemma {:induction false} SameConvert(m: Header, text: string)
    ensures Fold(Step, m, text).convert == m.convert && Fold(Step, m, text).ending == m.ending
  {
    hide Step;
    if text != "" {
      SameConvert(m, text[..|text| - 1]);
      StepConvert(Fold(Step, m, text[..|text| - 1]), text[|text| - 1]);
    }
  }

  lemma StepConvert(m: Header, c: char)
    ensures Step(m, c).convert == m.convert && Step(m, c).ending == m.ending
  {
    if LineState(m.cs) {
      hide ActBody;
      hide ActEncoded;
    } else if BodyState(m.cs) {
      hide ActLine;
      hide ActEncoded;
    } else {
      hide ActLine;
      hide ActBody;
      hide Base64.Step;
      hide QDecoder.Step;
    }
  }

  // ---------------------------------------------------------------- which encoded words are accepted

  /** What may stand between the second and the third `?`-separated part and the end mark: text that the named decoder
      accepts. */
  ghost predicate ValidText(letter: char, text: string)
  {
    if letter == 'Q' || letter == 'q'
    then exists es: seq<QDecoder.Element> :: QDecoder.AllLegal(es) && es != [] && QDecoder.EncodedText(es) == text
    else (letter == 'B' || letter == 'b') && Base64.Grouped(text)
  }

  lemma {:induction false} BadCharset(m: Header, r: string, s: string)
    requires Inside(m, r) && m.cs.CharsetStart? && m.conv == EMPTY && s != "" && '?' !in s && '*' !in s && !ValidCharset(s)
    ensures Fold(Step, m, s).cs.Failed?
  {
    hide Step;
    var init, c := s[..|s| - 1], s[|s| - 1];
    if init == "" {
      assert s == [c];
      FoldOne(Step, m, c);
      CharsetFails(m, r, c);
    } else if ValidCharset(init) {
      ReadCharset(m, r, init);
      assert c in s;
      CharsetFails(Fold(Step, m, init), r, c);
    } else {
      BadCharset(m, r, init);
      assert Fold(Step, m, s) == Step(Fold(Step, m, init), c);
      FailedOnce(Fold(Step, m, init), c);
    }
  }

  lemma CharsetFails(m: Header, r: string, c: char)
    requires Inside(m, r) && (m.cs.CharsetStart? || m.cs.InCharset?) && !TokenChar(c) && c != '?' && c != '*'
    ensures Step(m, c).cs.Failed?
  {
    hide ActLine;
    hide ActBody;
  }

  lemma FailedOnce(m: Header, c: char)
    ensures m.cs.Failed? ==> Step(m, c).cs.Failed?
  {
    hide ActLine;
    hide ActBody;
    hide ActEncoded;
  }

  lemma EmptyCharset(m: Header)
    requires m.cs.CharsetStart?
    ensures Step(m, '?').cs.Failed?
  {
    hide ActLine;
    hide ActBody;
  }

  /** The charset and the `?` behind it. */
  lemma CharsetExact(m: Header, r: string, s: string)
    requires Inside(m, r) && m.cs.CharsetStart? && m.conv == EMPTY && '?' !in s && '*' !in s
    ensures var m' := Fold(Step, m, s + "?");
            if ValidCharset(s) then Inside(m', r) && m'.cs.AtEncoding? && m'.conv == EMPTY && m'.charset == Buf(s, None)
            else m'.cs.Failed?
  {
    hide Step;
    FoldConcat(Step, m, s, "?");
    var m1 := Fold(Step, m, s);
    FoldOne(Step, m1, '?');
    if ValidCharset(s) {
      ReadCharset(m, r, s);
      CloseCharset(m1, r, s);
    } else if s == "" {
      EmptyCharset(m);
    } else {
      BadCharset(m, r, s);
      FailedOnce(m1, '?');
    }
  }

  lemma BadLetter(m: Header, letter: char)
    requires m.cs.AtEncoding? && letter !in "QqBb"
    ensures Step(m, letter).cs.Failed?
  {
    hide ActLine;
    hide ActBody;
  }

  lemma {:induction false} BadQ(m: Header, r: string, t: string)
    requires Inside(m, r) && m.cs.InQ? && m.charset.run.None? && '?' !in t
    requires Fold(QDecoder.Step, QDecoder.Decoder(m.qcs, m.qvalue, m.conv), t).cs.Failed? && !m.qcs.Failed?
    ensures Fold(Step, m, t).cs.Failed?
  {
    hide Step;
    hide QDecoder.Step;
    var d := QDecoder.Decoder(m.qcs, m.qvalue, m.conv);
    var init, c := t[..|t| - 1], t[|t| - 1];
    var m1 := Fold(Step, m, init);
    if Fold(QDecoder.Step, d, init).cs.Failed? {
      BadQ(m, r, init);
      FailedOnce(m1, c);
    } else {
      FollowQ(m, r, init);
      QFails(m1, c);
    }
  }

  lemma QFails(m: Header, c: char)
    requires m.cs.InQ? && c != '?' && QDecoder.Step(QDecoder.Decoder(m.qcs, m.qvalue, m.conv), c).cs.Failed?
    ensures Step(m, c).cs.Failed?
  {
    hide QDecoder.Step;
    hide ActLine;
    hide ActBody;
  }

  /** The `?` behind a text in the Q encoding. */
  lemma CloseQ(m: Header)
    requires m.cs.InQ? && !m.qcs.Failed?
    ensures if QDecoder.Accepting(QDecoder.Decoder(m.qcs, m.qvalue, m.conv)) then Step(m, '?').cs.EndMark? else Step(m, '?').cs.Failed?
  {
    hide ActLine;
    hide ActBody;
  }

  lemma {:induction false} BadB(m: Header, r: string, t: string)
    requires Inside(m, r) && m.cs.InB? && m.charset.run.None? && m.conv.run.None? && '?' !in t && m.bcs.Start?
    requires var cs := Fold(Base64.Step, Base64.Decoder(m.bcs, m.unit, m.conv.data), t).cs; cs.Failed? || cs.Held?
    ensures Fold(Step, m, t).cs.Failed?
  {
    hide Step;
    hide Base64.Step;
    var d := Base64.Decoder(m.bcs, m.unit, m.conv.data);
    var init, c := t[..|t| - 1], t[|t| - 1];
    var m1, d1 := Fold(Step, m, init), Fold(Base64.Step, d, init);
    if d1.cs.Failed? || d1.cs.Held? {
      BadB(m, r, init);
      FailedOnce(m1, c);
    } else {
      FollowB(m, r, init);
      BFails(m1, c);
    }
  }

  lemma BFails(m: Header, c: char)
    requires m.cs.InB? && c != '?'
    requires var cs := Base64.Step(Base64.Decoder(m.bcs, m.unit, m.conv.data), c).cs; cs.Failed? || cs.Held?
    ensures Step(m, c).cs.Failed?
  {
    hide ActLine;
    hide ActBody;
    hide Base64.Step;
  }

  /** The `?` behind a text in the B encoding. */
  lemma CloseB(m: Header)
    requires m.cs.InB? && !m.bcs.Failed? && !m.bcs.Held?
    ensures if m.bcs.Boundary? || m.bcs.Final? then Step(m, '?').cs.EndMark? else Step(m, '?').cs.Failed?
  {
    hide ActLine;
    hide ActBody;
  }

  lemma EndMarkEquals(m: Header)
    requires m.cs.EndMark?
    ensures Step(m, '=').cs.AfterEncoded?
  {
    hide ActLine;
    hide ActBody;
  }

  lemma TextQ(m: Header, r: string, t: string)
    requires Inside(m, r) && m.charset.run.None? && m.cs.InQ? && m.qcs.Start? && '?' !in t
    ensures var m' := Fold(Step, m, t + "?"); if ValidText('Q', t) then m'.cs.EndMark? else m'.cs.Failed?
  {
    hide Step;
    hide QDecoder.Step;
    hide QDecoder.EncodedText;
    var d := QDecoder.Decoder(m.qcs, m.qvalue, m.conv);
    FoldConcat(Step, m, t, "?");
    var m1 := Fold(Step, m, t);
    FoldOne(Step, m1, '?');
    QDecoder.QAccepts(m.qvalue, m.conv, t);
    var e := Fold(QDecoder.Step, d, t);
    assert ValidText('Q', t) <==> QDecoder.Accepting(e);
    hide ValidText;
    if e.cs.Failed? {
      BadQ(m, r, t);
      FailedOnce(m1, '?');
    } else {
      FollowQ(m, r, t);
      CloseQ(m1);
    }
  }

  lemma TextB(m: Header, r: string, t: string)
    requires Inside(m, r) && m.charset.run.None? && m.conv == EMPTY && m.cs.InB? && m.bcs.Start? && '?' !in t
    ensures var m' := Fold(Step, m, t + "?"); if ValidText('B', t) then m'.cs.EndMark? else m'.cs.Failed?
  {
    hide Step;
    hide Base64.Step;
    hide Base64.Grouped;
    var d := Base64.Decoder(m.bcs, m.unit, m.conv.data);
    FoldConcat(Step, m, t, "?");
    var m1 := Fold(Step, m, t);
    FoldOne(Step, m1, '?');
    Base64.Base64Accepts(m.unit, m.conv.data, t);
    var cs := Fold(Base64.Step, d, t).cs;
    assert ValidText('B', t) <==> cs.Boundary? || cs.Final?;
    hide ValidText;
    if cs.Failed? || cs.Held? {
      BadB(m, r, t);
      FailedOnce(m1, '?');
    } else {
      FollowB(m, r, t);
      CloseB(m1);
    }
  }

  lemma LetterCase(letter: char, t: string)
    requires letter in "QqBb"
    ensures ValidText(letter, t) <==> ValidText(if letter in "Qq" then 'Q' else 'B', t)
  {
  }

  /** The text of an encoded word and its end mark. */
  lemma TextExact(m: Header, r: string, letter: char, t: string)
    requires Inside(m, r) && m.conv == EMPTY && m.charset.run.None? && '?' !in t && letter in "QqBb"
    requires if letter in "Qq" then m.cs.InQ? && m.qcs.Start? else m.cs.InB? && m.bcs.Start?
    ensures var m' := Fold(Step, m, t + "?="); if ValidText(letter, t) then m'.cs.AfterEncoded? else m'.cs.Failed?
  {
    hide Step;
    LetterCase(letter, t);
    hide ValidText;
    assert t + "?=" == t + "?" + "=";
    FoldConcat(Step, m, t + "?", "=");
    var m2 := Fold(Step, m, t + "?");
    FoldOne(Step, m2, '=');
    if letter in "Qq" { TextQ(m, r, t); } else { TextB(m, r, t); }
    if m2.cs.EndMark? { EndMarkEquals(m2); } else { FailedOnce(m2, '='); }
  }

  /** Behind its `=`, an encoded word without a language is accepted if and only if its charset is a token, its encoding is Q
      or B in either case, and its text is one that the decoder of that encoding accepts; otherwise the header is refused. */
  lemma EncodedWordExact(m: Header, r: string, charset: string, letter: char, text: string)
    requires Opened(m, r) && '?' !in charset && '*' !in charset && letter != '?' && '?' !in text
    ensures var m' := Fold(Step, m, EncodedWord(charset, letter, text));
            if ValidCharset(charset) && letter in "QqBb" && ValidText(letter, text) then m'.cs.AfterEncoded? else m'.cs.Failed?
  {
    hide Step;
    hide ValidText;
    hide ValidCharset;
    var head, tail := charset + "?", text + "?=";
    var all := EncodedWord(charset, letter, text);
    assert all == "?" + head + ([letter] + "?") + tail;
    FoldConcat(Step, m, "?", head);
    FoldOne(Step, m, '?');
    OpenCharset(m, r);
    var m1 := Step(m, '?');
    CharsetExact(m1, r, charset);
    var m2 := Fold(Step, m1, head);
    FoldConcat(Step, m, "?" + head, [letter] + "?");
    FoldConcat(Step, m2, [letter], "?");
    FoldOne(Step, m2, letter);
    FoldOne(Step, Step(m2, letter), '?');
    var m3 := Step(Step(m2, letter), '?');
    FoldConcat(Step, m, "?" + head + ([letter] + "?"), tail);
    if ValidCharset(charset) && letter in "QqBb" {
      ReadLetter(m2, r, letter);
      TextExact(m3, r, letter, text);
    } else {
      if ValidCharset(charset) { BadLetter(m2, letter); } else { FailedOnce(m2, letter); }
      FailedOnce(Step(m2, letter), '?');
      FailedStays(m3, tail);
    }
  }

  lemma NameFails(m: Header, c: char)
    requires (m.cs.NameStart? && !NameChar(c)) || (m.cs.InName? && !NameChar(c) && c != ':') || (m.cs.AfterColon? && c != ' ')
    ensures Step(m, c).cs.Failed?
  {
    hide ActBody;
    hide ActEncoded;
  }

  lemma {:induction false} BadName(m: Header, name: string)
    requires Fresh(m) && name != "" && ':' !in name && !All(name, NameChar)
    ensures Fold(Step, m, name).cs.Failed?
  {
    hide Step;
    var init, c := name[..|name| - 1], name[|name| - 1];
    if init == "" {
      assert name == [c];
      FoldOne(Step, m, c);
      NameFails(m, c);
    } else if All(init, NameChar) {
      ReadName(m, init);
      assert c in name;
      NameFails(Fold(Step, m, init), c);
    } else {
      BadName(m, init);
      FailedOnce(Fold(Step, m, init), c);
    }
  }

  lemma ColonLeadsOn(m: Header, name: string)
    requires InNameOf(m, name)
    ensures Step(m, ':').cs.AfterColon?
  {
    hide ActBody;
    hide ActEncoded;
  }

  /** A field is accepted up to its body if and only if it begins with a name of printable letters and `: `. */
  lemma NameExact(m: Header, name: string, c: char)
    requires Fresh(m) && ':' !in name
    ensures var m' := Fold(Step, m, name + ":" + [c]);
            if name != "" && All(name, NameChar) && c == ' ' then m'.cs.BodyStart? else m'.cs.Failed?
  {
    hide Step;
    FoldConcat(Step, m, name + ":", [c]);
    FoldConcat(Step, m, name, ":");
    var m1 := Fold(Step, m, name);
    var m2 := Step(m1, ':');
    FoldOne(Step, m1, ':');
    FoldOne(Step, m2, c);
    if name == "" {
      NameFails(m, ':');
      FailedOnce(m2, c);
    } else if All(name, NameChar) {
      ReadName(m, name);
      ColonLeadsOn(m1, name);
      if c == ' ' {
        ReadColon(m1, name);
        assert name + ":" + " " == name + ": ";
        assert ": " == ":" + " ";
        FoldConcat(Step, m1, ":", " ");
      } else {
        NameFails(m2, c);
      }
    } else {
      BadName(m, name);
      FailedOnce(m1, ':');
      FailedOnce(m2, c);
    }
  }

  /** Whether the machine has not given up; a language suffix is not modelled further. */
  predicate Alive(m: Header) { !m.cs.Failed? && !m.cs.LanguageSuffix? }

  /** What one octet must be. */
  lemma StepOctet(m: Header, c: char)
    requires Alive(Step(m, c))
    ensures Alive(m) && !m.cs.Final? && c <= '\U{7F}'
    ensures c == NUL ==> Step(m, c).cs.Final?
    ensures c == CR ==> !m.ending.OnlyLf? && Step(m, c).cs.AtCr?
    ensures c == LF ==> m.cs.AtCr? || !m.ending.OnlyCrlf? || Step(m, c).cs.Final?
    ensures m.cs.AtCr? ==> c == LF
  {
    if LineState(m.cs) {
      hide ActBody;
      hide ActEncoded;
    } else if BodyState(m.cs) {
      hide ActLine;
      hide ActEncoded;
      BodyOctet(m, c);
      hide ActBody;
    } else {
      hide ActLine;
      hide ActBody;
      EncodedOctet(m, c);
      hide ActEncoded;
    }
  }

  lemma BodyOctet(m: Header, c: char)
    requires BodyState(m.cs) && Alive(ActBody(m, c))
    ensures c <= '\U{7F}' && c != NUL
    ensures c == CR ==> !m.ending.OnlyLf? && ActBody(m, c).cs.AtCr?
    ensures c == LF ==> !m.ending.OnlyCrlf?
  {
  }

  lemma EncodedOctet(m: Header, c: char)
    requires !LineState(m.cs) && !BodyState(m.cs) && Alive(m) && Alive(ActEncoded(m, c))
    ensures ' ' < c <= '~'
  {
  }

  /** In every text that the decoder accepts so far: all octets are below 128, NUL can only be the last octet and ends the
      header, every CR stands before an LF or is the last octet, no CR stands anywhere under the LF policy, and under the
      CRLF policy every LF but a closing one stands behind a CR. */
  lemma {:induction false} AcceptedOctets(convert: (string, string) -> string, ending: Ending, text: string, i: nat)
    requires i < |text| && Alive(Fold(Step, Init(convert, ending), text))
    ensures text[i] <= '\U{7F}' && (text[i] == NUL ==> i == |text| - 1 && Fold(Step, Init(convert, ending), text).cs.Final?)
    ensures text[i] == CR ==> !ending.OnlyLf? && (i + 1 < |text| ==> text[i + 1] == LF)
    ensures text[i] == LF && ending.OnlyCrlf? ==>
              (i > 0 && text[i - 1] == CR) || (i == |text| - 1 && Fold(Step, Init(convert, ending), text).cs.Final?)
    ensures i < |text| - 1 ==> !Fold(Step, Init(convert, ending), text[..i + 1]).cs.Final?
    ensures text[|text| - 1] == CR <==> Fold(Step, Init(convert, ending), text).cs.AtCr?
  {
    hide Step;
    var n := |text| - 1;
    var init, c := text[..n], text[n];
    var m := Fold(Step, Init(convert, ending), init);
    SameConvert(Init(convert, ending), init);
    StepOctet(m, c);
    StepAtCr(m, c);
    if init != "" {
      AcceptedOctets(convert, ending, init, if i < n then i else n - 1);
      AcceptedOctets(convert, ending, init, n - 1);
      if i < n {
        assert text[..i + 1] == init[..i + 1];
        assert i == n - 1 ==> init[..i + 1] == init;
      }
    }
  }

  lemma StepAtCr(m: Header, c: char)
    requires Alive(Step(m, c))
    ensures Step(m, c).cs.AtCr? ==> c == CR
  {
    hide Advance;
    if LineState(m.cs) {
      hide ActBody;
      hide ActEncoded;
    } else if BodyState(m.cs) {
      hide ActLine;
      hide ActEncoded;
    } else {
      hide ActLine;
      hide ActBody;
      hide Base64.Step;
      hide QDecoder.Step;
    }
  }

  // ---------------------------------------------------------------- the decoder object

  class DecoderObject {
    const convert: (string, string) -> string
    var cs: State
    var ending: Ending
    var field: Buf
    var buffer: Buf
    var space: Buf
    var charset: Buf
    var conv: Buf
    var qcs: QDecoder.State
    var qvalue: nat
    var bcs: Base64.State
    var unit: nat
    var calls: seq<(string, string)>

    ghost function Now(): Header
      reads this
    {
      Header(cs, convert, ending, field, buffer, space, charset, conv, qcs, qvalue, bcs, unit, calls)
    }

    constructor (convert: (string, string) -> string, ending: Ending)
      ensures Now() == Init(convert, ending)
    {
      this.convert, this.ending, cs := convert, ending, NameStart;
      field, buffer, space, charset, conv := EMPTY, EMPTY, EMPTY, EMPTY, EMPTY;
      qcs, qvalue, bcs, unit, calls := QDecoder.Start, 0, Base64.Start, 0, [];
    }

    method InsertTrailSpace()
      modifies this`buffer, this`space
      ensures Now() == InsertSpace(old(Now()))
    {
      if space.data != "" {
        buffer := AddText(buffer, space.data);
        space := EMPTY;
      }
    }

    method CloseSpace()
      modifies this`buffer, this`space
      ensures Now() == FinishSpace(old(Now()))
    {
      space := Stop(space);
      InsertTrailSpace();
    }

    method CallBack()
      modifies this`buffer, this`space, this`calls
      ensures Now() == Emit(old(Now()))
    {
      InsertTrailSpace();
      calls := calls + [(field.data, buffer.data)];
    }

    method EndLine(c: char)
      modifies this`cs
      ensures Now() == LineEnd(old(Now()), c)
    {
      if c == CR && ending != OnlyLf {
        cs := AtCr;
      } else if c == LF && ending != OnlyCrlf {
        cs := AtLf;
      } else {
        cs := Failed;
      }
    }

    method BeginName(c: char)
      modifies this`cs, this`field
      ensures Now() == StartName(old(Now()), c)
    {
      if NameChar(c) { cs, field := InName, Start(); } else { cs := Failed; }
    }

    method BeginWord()
      modifies this`cs, this`buffer
      ensures Now() == old(Now()).(cs := InWord, buffer := Cont(old(buffer)))
    {
      cs := InWord;
      buffer := Cont(buffer);
    }

    method BeginSpace(to: State)
      modifies this`cs, this`space
      ensures Now() == old(Now()).(cs := to, space := Start())
    {
      cs := to;
      space := Start();
    }

    method OctetQ(c: char)
      modifies this
      ensures Now() == ActQ(old(Now()), c)
    {
      var d := QDecoder.Decoder(qcs, qvalue, conv);
      if c == '?' && QDecoder.Accepting(d) {
        conv := QDecoder.Leave(d).conv;
        cs := EndMark;
      } else {
        d := QDecoder.Step(d, c);
        if d.cs.Failed? { cs := Failed; } else { qcs, qvalue, conv := d.cs, d.value, d.conv; }
      }
    }

    method OctetB(c: char)
      modifies this
      ensures Now() == ActB(old(Now()), c)
    {
      var d := Base64.Step(Base64.Decoder(bcs, unit, conv.data), c);
      if bcs == Base64.Final || d.cs == Base64.Held {
        cs := if c == '?' then EndMark else Failed;
      } else if d.cs == Base64.Failed {
        cs := Failed;
      } else {
        bcs, unit, conv := d.cs, d.unit, Buf(d.out, None);
      }
    }

    method OctetCharset(c: char)
      requires cs.CharsetStart? || cs.InCharset?
      modifies this
      ensures Now() == ActEncoded(old(Now()), c)
    {
      hide ActQ;
      hide ActB;
      hide TokenChar;
      if cs == CharsetStart {
        if c == '*' {
          cs := LanguageSuffix;
        } else if TokenChar(c) {
          cs, charset := InCharset, Start();
        } else {
          cs := Failed;
        }
      } else {
        if c == '?' {
          cs, charset := AtEncoding, Stop(charset);
        } else if c == '*' {
          cs := LanguageSuffix;
        } else if !TokenChar(c) {
          cs := Failed;
        }
      }
    }

    method OctetEncoded(c: char)
      modifies this
      ensures Now() == ActEncoded(old(Now()), c)
    {
      hide ActQ;
      hide ActB;
      hide TokenChar;
      if cs == CharsetStart || cs == InCharset {
        OctetCharset(c);
      } else if cs == AtEncoding {
        cs := if c == 'Q' || c == 'q' then AtQ else if c == 'B' || c == 'b' then AtB else Failed;
      } else if cs == AtQ {
        if c == '?' { cs, qcs := InQ, QDecoder.Start; } else { cs := Failed; }
      } else if cs == AtB {
        if c == '?' { cs, bcs := InB, Base64.Start; } else { cs := Failed; }
      } else if cs == InQ {
        OctetQ(c);
      } else if cs == InB {
        OctetB(c);
      } else if cs == EndMark {
        if c == '=' {
          cs := AfterEncoded;
          buffer := AddText(buffer, convert(charset.data, conv.data));
          conv := EMPTY;
        } else {
          cs := Failed;
        }
      }
    }

    method OctetAfterEquals(c: char)
      requires cs.AtEquals?
      modifies this
      ensures Now() == ActBody(old(Now()), c)
    {
      hide LineEnd;
      hide FinishSpace;
      if c == '?' {
        space := EMPTY;
        cs := CharsetStart;
      } else {
        buffer := AddOctet(buffer, '=');
        if BodyChar(c) {
          BeginWord();
        } else if Wsp(c) {
          BeginSpace(InSpace);
        } else {
          EndLine(c);
        }
      }
    }

    method OctetBehindWord(c: char)
      requires cs.InWord? && !BodyChar(c)
      modifies this
      ensures Now() == ActBody(old(Now()), c)
    {
      hide LineEnd;
      hide FinishSpace;
      buffer := Stop(buffer);
      if Wsp(c) {
        BeginSpace(InSpace);
      } else if c == '=' {
        cs := AtEquals;
      } else {
        EndLine(c);
      }
    }

    method OctetBody(c: char)
      modifies this
      ensures Now() == ActBody(old(Now()), c)
    {
      hide LineEnd;
      hide FinishSpace;
      if cs == BodyStart || cs == AfterEncoded {
        if Wsp(c) {
          BeginSpace(if cs == BodyStart then InSpace else SpaceAfterEncoded);
        } else if BodyChar(c) {
          BeginWord();
        } else if c == '=' {
          cs := AtEquals;
        } else {
          EndLine(c);
        }
      } else if cs == InSpace && !Wsp(c) {
        if c == '=' {
          CloseSpace();
          cs := AtEquals;
        } else if BodyChar(c) {
          CloseSpace();
          BeginWord();
        } else {
          space := Stop(space);
          EndLine(c);
        }
      } else if cs == InWord && !BodyChar(c) {
        OctetBehindWord(c);
      } else if cs == AtEquals {
        OctetAfterEquals(c);
      } else if cs == SpaceAfterEncoded && !Wsp(c) {
        if c == '=' {
          cs := AtEquals;
        } else if BodyChar(c) {
          CloseSpace();
          BeginWord();
        } else {
          EndLine(c);
        }
      }
    }

    method OctetAfterLine(c: char)
      requires cs.AtLf?
      modifies this
      ensures Now() == ActLine(old(Now()), c)
    {
      hide InsertSpace;
      hide Emit;
      hide StartName;
      if Wsp(c) {
        InsertTrailSpace();
        BeginSpace(InFold);
      } else if NameChar(c) {
        CallBack();
        BeginName(c);
      } else if c == NUL || c == LF {
        CallBack();
        cs := Final;
      } else {
        cs := Failed;
      }
    }

    method OctetName(c: char)
      requires cs.NameStart? || cs.InName? || cs.AfterColon?
      modifies this
      ensures Now() == ActLine(old(Now()), c)
    {
      hide InsertSpace;
      hide FinishSpace;
      hide Emit;
      hide StartName;
      if cs == NameStart {
        BeginName(c);
      } else if cs == InName {
        if c == ':' {
          cs, field := AfterColon, Stop(field);
        } else if !NameChar(c) {
          cs := Failed;
        }
      } else if c == ' ' {
        cs, buffer := BodyStart, EMPTY;
      } else {
        cs := Failed;
      }
    }

    /** The line ends and what comes behind them. */
    method OctetLines(c: char)
      requires LineState(cs)
      modifies this
      ensures Now() == ActLine(old(Now()), c)
    {
      hide InsertSpace;
      hide FinishSpace;
      hide Emit;
      hide StartName;
      if cs == NameStart || cs == InName || cs == AfterColon {
        OctetName(c);
      } else if cs == AtCr {
        cs := if c == LF then AtLf else Failed;
      } else if cs == AtLf {
        OctetAfterLine(c);
      } else if cs == InFold {
        if BodyChar(c) {
          CloseSpace();
          BeginWord();
        } else if !Wsp(c) {
          cs := if c == '=' then AtEquals else Failed;
        }
      } else {
        cs := Failed;
      }
    }

    method Actions(c: char)
      modifies this
      ensures Now() == Act(old(Now()), c)
    {
      hide ActLine;
      hide ActBody;
      hide ActEncoded;
      hide LineState;
      hide BodyState;
      if cs != Failed && cs != LanguageSuffix {
        if LineState(cs) {
          OctetLines(c);
        } else if BodyState(cs) {
          OctetBody(c);
        } else {
          OctetEncoded(c);
        }
      }
    }

    method Octet(c: char)
      modifies this
      ensures Now() == Step(old(Now()), c)
    {
      hide Act;
      Actions(c);
      field, buffer := Advance(field, c), Advance(buffer, c);
      space, charset := Advance(space, c), Advance(charset, c);
    }

    /** Reads a whole text; the loop stops at an octet that the machine refuses, and `read` throws. */
    method Read(text: string) returns (ok: bool)
      requires !cs.Failed?
      modifies this
      ensures ok <==> !Fold(Step, old(Now()), text).cs.Failed?
      ensures ok ==> Now() == Fold(Step, old(Now()), text)
    {
      hide Step;
      ghost var m := Now();
      var p := 0;
      while p < |text| && cs != Failed
        invariant 0 <= p <= |text| && Now() == Fold(Step, m, text[..p])
      {
        assert text[..p + 1][..p] == text[..p];
        Octet(text[p]);
        p := p + 1;
      }
      ok := cs != Failed;
      assert text[..p] + text[p..] == text;
      FoldConcat(Step, m, text[..p], text[p..]);
      if !ok { FailedStays(Now(), text[p..]); } else { assert text[..p] == text; }
    }
  }
}
