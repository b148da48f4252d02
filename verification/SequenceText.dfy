/** The text of an IMAP sequence-set: what the client writes (imap/client_writer.cc) and how the grammar of the
    server side reads it back (imap/server_parser.rl, imap/common.rl). */
module SequenceText {
  import opened Text
  import opened SequenceSet

  // ---------------------------------------------------------------- writing

  function NumberText(n: nat): string { if n == MAX32 then "*" else Decimal(n) }

  function ItemText(x: Interval): string
  {
    if x.first == x.last then NumberText(x.first) else NumberText(x.first) + ":" + NumberText(x.last)
  }

  /** The first `n` items, separated by commas. */
  function SetTextTo(v: seq<Interval>, n: nat): string
    requires 1 <= n <= |v|
  {
    if n == 1 then ItemText(v[0]) else SetTextTo(v, n - 1) + "," + ItemText(v[n - 1])
  }

  function SetText(v: seq<Interval>): string
    requires v != []
  {
    SetTextTo(v, |v|)
  }

  predicate NonZero(x: Interval) { x.first != 0 && x.last != 0 }

  lemma Associative(a: string, b: string, c: string, d: string)
    ensures a + b + c + d == a + (b + c + d)
  {}

  class Writer {
    var stream: string

    constructor ()
      ensures stream == ""
    {
      stream := "";
    }

    method WriteSequenceNr(nz: nat) returns (r: Result<()>)
      modifies this
      ensures r.Ok? <==> nz != 0
      ensures stream == old(stream) + if r.Ok? then NumberText(nz) else ""
    {
      if nz == 0 { return Err("zero sequence number not allowed"); }
      if nz == MAX32 { stream := stream + "*"; } else { stream := stream + Decimal(nz); }
      r := Ok(());
    }

    method WriteSequence(x: Interval) returns (r: Result<()>)
      modifies this
      ensures r.Ok? <==> NonZero(x)
      ensures r.Ok? ==> stream == old(stream) + ItemText(x)
    {
      r := WriteSequenceNr(x.first);
      if r.Err? || x.first == x.last { return; }
      stream := stream + ":";
      r := WriteSequenceNr(x.last);
    }

    method WriteNext(x: Interval) returns (r: Result<()>)
      modifies this
      ensures r.Ok? <==> NonZero(x)
      ensures r.Ok? ==> stream == old(stream) + "," + ItemText(x)
    {
      stream := stream + ",";
      r := WriteSequence(x);
    }

    /** Throws on an empty set and on the number zero. */
    method WriteSequenceSet(v: seq<Interval>) returns (r: Result<()>)
      modifies this
      ensures r.Ok? <==> v != [] && forall i | 0 <= i < |v| :: NonZero(v[i])
      ensures r.Ok? ==> v != [] && stream == old(stream) + SetText(v)
    {
      hide ItemText;
      if v == [] { return Err("sequence must not be empty"); }
      ghost var before, text := stream, ItemText(v[0]);
      r := WriteSequence(v[0]);
      var i := 1;
      while i < |v| && r.Ok?
        invariant 1 <= i <= |v|
        invariant if r.Ok? then forall k | 0 <= k < i :: NonZero(v[k]) else !NonZero(v[i - 1])
        invariant text == SetTextTo(v, i) && (r.Ok? ==> stream == before + text)
      {
        r := WriteNext(v[i]);
        Associative(before, text, ",", ItemText(v[i]));
        text := text + "," + ItemText(v[i]);
        i := i + 1;
      }
    }
  }

  // ---------------------------------------------------------------- reading

  datatype SeqNumber = Number(n: nat) | Star
  datatype SeqItem = One(a: SeqNumber) | Span(a: SeqNumber, b: SeqNumber)

  datatype ReaderState = ExpectFirst | InFirst | AtFirstStar | ExpectSecond | InSecond | AtSecondStar | Rejected

  /** `digits` is the number buffer, `first` the left end of an open range, `items` what was read so far. */
  datatype Reader = Reader(cs: ReaderState, digits: string, first: SeqNumber, items: seq<SeqItem>)

  const START := Reader(ExpectFirst, "", Star, [])

  function Reject(r: Reader): Reader { r.(cs := Rejected) }

  /** Leaving a number converts the buffered digits to 32 bits, which throws on overflow. */
  function Close(r: Reader): Reader
  {
    match r.cs
    case InFirst => if Value(r.digits) <= MAX32
                    then r.(cs := ExpectFirst, items := r.items + [One(Number(Value(r.digits)))]) else Reject(r)
    case AtFirstStar => r.(cs := ExpectFirst, items := r.items + [One(Star)])
    case InSecond => if Value(r.digits) <= MAX32
                     then r.(cs := ExpectFirst, items := r.items + [Span(r.first, Number(Value(r.digits)))]) else Reject(r)
    case AtSecondStar => r.(cs := ExpectFirst, items := r.items + [Span(r.first, Star)])
    case _ => Reject(r)
  }

  function Colon(r: Reader): Reader
  {
    match r.cs
    case InFirst => if Value(r.digits) <= MAX32
                    then r.(cs := ExpectSecond, first := Number(Value(r.digits))) else Reject(r)
    case AtFirstStar => r.(cs := ExpectSecond, first := Star)
    case _ => Reject(r)
  }

  /** sequence-set: comma-separated numbers or ranges; a number is one non-zero digit and up to ten digits, or `*`. */
  function Step(r: Reader, c: char): Reader
  {
    if c == ',' then Close(r)
    else if c == ':' then Colon(r)
    else match r.cs
      case ExpectFirst =>
        if c == '*' then r.(cs := AtFirstStar)
        else if '1' <= c <= '9' then r.(cs := InFirst, digits := [c]) else Reject(r)
      case ExpectSecond =>
        if c == '*' then r.(cs := AtSecondStar)
        else if '1' <= c <= '9' then r.(cs := InSecond, digits := [c]) else Reject(r)
      case InFirst => if IsDigit(c) && |r.digits| < 11 then r.(digits := r.digits + [c]) else Reject(r)
      case InSecond => if IsDigit(c) && |r.digits| < 11 then r.(digits := r.digits + [c]) else Reject(r)
      case _ => Reject(r)
  }

  /** The items of a sequence-set text, or nothing when the grammar refuses it. */
  function Read(text: string): Option<seq<SeqItem>>
  {
    var r := Close(Fold(Step, START, text));
    if r.cs.ExpectFirst? then Some(r.items) else None
  }

  /** What an item stands for in a mailbox whose largest UID is `top`; the two ends of a range may come in any order. */
  function Resolve(s: SeqNumber, top: nat): nat { if s.Star? then top else s.n }

  function ItemMembers(x: SeqItem, top: nat): set<nat>
  {
    match x
    case One(a) => {Resolve(a, top)}
    case Span(a, b) =>
      Range(Interval(Min(Resolve(a, top), Resolve(b, top)), Max(Resolve(a, top), Resolve(b, top))))
  }

  function SetMembers(xs: seq<SeqItem>, top: nat): set<nat>
  {
    if xs == [] then {} else ItemMembers(xs[0], top) + SetMembers(xs[1..], top)
  }

  // ---------------------------------------------------------------- reading back what was written

  function NumberItem(n: nat): SeqNumber { if n == MAX32 then Star else Number(n) }

  function Item(x: Interval): SeqItem
  {
    if x.first == x.last then One(NumberItem(x.first)) else Span(NumberItem(x.first), NumberItem(x.last))
  }

  function Items(v: seq<Interval>): seq<SeqItem> { seq(|v|, i requires 0 <= i < |v| => Item(v[i])) }

  lemma ItemsPrefix(v: seq<Interval>, n: nat)
    requires 1 <= n <= |v|
    ensures Items(v)[..n] == Items(v)[..n - 1] + [Item(v[n - 1])]
    ensures Items(v)[..0] == []
  {}

  /** A run over digits collects them in the number buffer. */
  lemma {:induction false} FeedDigits(r: Reader, s: string)
    requires r.cs.ExpectFirst? || r.cs.ExpectSecond?
    requires s != [] && AllDigits(s) && s[0] != '0' && |s| <= 11
    ensures Fold(Step, r, s) == r.(cs := if r.cs.ExpectFirst? then InFirst else InSecond, digits := s)
  {
    var init := s[..|s| - 1];
    if init == [] {
      assert s == [s[0]];
      FoldOne(Step, r, s[0]);
    } else {
      assert AllDigits(init);
      FeedDigits(r, init);
      assert s == init + [s[|s| - 1]];
    }
  }

  /** A run over a written number ends in a state that converts back to that number. */
  lemma FeedNumber(r: Reader, n: nat)
    requires r.cs.ExpectFirst? || r.cs.ExpectSecond?
    requires 0 < n <= MAX32
    ensures var e := Fold(Step, r, NumberText(n));
            && e.first == r.first && e.items == r.items
            && Close(e) == r.(cs := ExpectFirst, digits := e.digits, items := r.items +
                 [if r.cs.ExpectFirst? then One(NumberItem(n)) else Span(r.first, NumberItem(n))])
            && (r.cs.ExpectFirst? ==> Colon(e) == r.(cs := ExpectSecond, digits := e.digits, first := NumberItem(n)))
  {
    if n == MAX32 {
      FoldOne(Step, r, '*');
    } else {
      DecimalDigits(n);
      ValueOfDecimal(n);
      Width32(n);
      FeedDigits(r, Decimal(n));
    }
  }

  lemma FeedItem(r: Reader, x: Interval)
    requires r.cs.ExpectFirst? && 0 < x.first <= x.last <= MAX32
    ensures var e := Close(Fold(Step, r, ItemText(x)));
            e.cs.ExpectFirst? && e.items == r.items + [Item(x)]
  {
    FeedNumber(r, x.first);
    if x.first != x.last {
      var a, b := NumberText(x.first), NumberText(x.last);
      var e1 := Fold(Step, r, a);
      FoldConcat(Step, r, a, ":");
      FoldOne(Step, e1, ':');
      FoldConcat(Step, r, a + ":", b);
      FeedNumber(Colon(e1), x.last);
    }
  }

  lemma FeedMore(text: string, x: Interval)
    requires Close(Fold(Step, START, text)).cs.ExpectFirst? && 0 < x.first <= x.last <= MAX32
    ensures var e := Close(Fold(Step, START, text + "," + ItemText(x)));
            e.cs.ExpectFirst? && e.items == Close(Fold(Step, START, text)).items + [Item(x)]
  {
    hide ItemText;
    var e := Fold(Step, START, text);
    FoldConcat(Step, START, text, ",");
    FoldOne(Step, e, ',');
    FoldConcat(Step, START, text + ",", ItemText(x));
    FeedItem(Close(e), x);
  }

  ghost predicate Printable(v: seq<Interval>)
  {
    v != [] && forall i | 0 <= i < |v| :: 0 < v[i].first <= v[i].last <= MAX32
  }

  lemma {:induction false} FeedSet(v: seq<Interval>, n: nat)
    requires Printable(v) && 1 <= n <= |v|
    ensures var e := Close(Fold(Step, START, SetTextTo(v, n)));
            e.cs.ExpectFirst? && e.items == Items(v)[..n]
  {
    hide Step;
    hide Close;
    hide ItemText;
    ItemsPrefix(v, n);
    if n == 1 {
      FeedItem(START, v[0]);
    } else {
      FeedSet(v, n - 1);
      FeedMore(SetTextTo(v, n - 1), v[n - 1]);
    }
  }

  /** When no written number is 2^32-1, or the mailbox really has that UID, items mean what the intervals mean. */
  lemma {:induction false} ItemsExact(v: seq<Interval>, top: nat)
    requires forall i | 0 <= i < |v| :: v[i].first <= v[i].last
    requires forall i | 0 <= i < |v| :: v[i].last < MAX32 || (v[i].last == MAX32 == top)
    ensures SetMembers(Items(v), top) == Members(v)
  {
    if v != [] {
      assert Items(v)[1..] == Items(v[1..]);
      ItemsExact(v[1..], top);
    }
  }

  /** In a mailbox whose largest UID is below 2^32-1, no written text can stand for 2^32-1. */
  lemma {:induction false} ItemsBelow(v: seq<Interval>, top: nat)
    requires top < MAX32
    requires forall i | 0 <= i < |v| :: v[i].first <= v[i].last <= MAX32
    ensures MAX32 !in SetMembers(Items(v), top)
  {
    if v != [] {
      assert Items(v)[1..] == Items(v[1..]);
      ItemsBelow(v[1..], top);
    }
  }

  lemma PushedPrintable(ids: seq<nat>)
    requires ids != [] && forall i | 0 <= i < |ids| :: 0 < ids[i] <= MAX32
    ensures Printable(PushAll([], Singles(ids)))
  {
    var v := PushAll([], Singles(ids));
    PushedSet(ids);
    assert ids[0] in Members(v);
    forall i | 0 <= i < |v| ensures 0 < v[i].first <= v[i].last <= MAX32 {
      EndsAreMembers(v, i);
    }
  }

  /** Round trip: the text of any pushed UIDs is a sequence-set, and it denotes exactly the pushed UIDs if and only
      if 2^32-1 was not pushed or is the largest UID in use; the writer prints that one number as `*`. */
  lemma SequenceSetRoundTrip(ids: seq<nat>, top: nat)
    requires ids != [] && forall i | 0 <= i < |ids| :: 0 < ids[i] <= MAX32
    requires 0 < top <= MAX32
    ensures var v := PushAll([], Singles(ids));
            v != [] && var r := Read(SetText(v));
            r.Some? && (SetMembers(r.value, top) == (set n | n in ids) <==> MAX32 !in ids || top == MAX32)
  {
    var v := PushAll([], Singles(ids));
    PushedSet(ids);
    PushedPrintable(ids);
    FeedSet(v, |v|);
    assert Items(v)[..|v|] == Items(v);
    if MAX32 !in ids || top == MAX32 {
      forall i | 0 <= i < |v| ensures v[i].last < MAX32 || (v[i].last == MAX32 == top) {
        EndsAreMembers(v, i);
      }
      ItemsExact(v, top);
    } else {
      ItemsBelow(v, top);
      assert MAX32 in (set n | n in ids);
    }
  }

  // ---------------------------------------------------------------- what the grammar accepts

  /** A number is not zero and fits 32 bits. */
  predicate ValidNumber(a: SeqNumber) { a.Number? ==> 0 < a.n <= MAX32 }

  predicate ValidSeqItem(x: SeqItem)
  {
    match x case One(a) => ValidNumber(a) case Span(a, b) => ValidNumber(a) && ValidNumber(b)
  }

  ghost predicate ValidItems(xs: seq<SeqItem>) { forall i | 0 <= i < |xs| :: ValidSeqItem(xs[i]) }

  function Spelled(a: SeqNumber): string { if a.Star? then "*" else Decimal(a.n) }

  function SpelledItem(x: SeqItem): string
  {
    match x case One(a) => Spelled(a) case Span(a, b) => Spelled(a) + ":" + Spelled(b)
  }

  /** The items, each with a comma behind it. */
  function Before(xs: seq<SeqItem>): string
  {
    if xs == [] then "" else Before(xs[..|xs| - 1]) + SpelledItem(xs[|xs| - 1]) + ","
  }

  /** The items, with commas between them. */
  function Spelling(xs: seq<SeqItem>): string
    requires xs != []
  {
    Before(xs[..|xs| - 1]) + SpelledItem(xs[|xs| - 1])
  }

  ghost predicate Digits(s: string) { s != "" && |s| <= 11 && AllDigits(s) && s[0] != '0' }

  /** Digits without a leading zero are the decimal form of their value. */
  lemma {:induction false} DecimalOfValue(s: string)
    requires s != "" && AllDigits(s) && s[0] != '0'
    ensures Value(s) > 0 && Decimal(Value(s)) == s
  {
    var init, c := s[..|s| - 1], s[|s| - 1];
    assert s == init + [c];
    if init != "" {
      DecimalOfValue(init);
      LastDigit(Value(init), c);
    }
  }

  lemma LastDigit(n: nat, c: char)
    requires n > 0 && IsDigit(c)
    ensures Decimal(n * 10 + DigitValue(c)) == Decimal(n) + [c]
  {
    var d := DigitValue(c);
    assert (n * 10 + d) / 10 == n && (n * 10 + d) % 10 == d && Digit(d) == c;
  }

  /** The text that brings a reader to its state. */
  ghost predicate Spells(r: Reader, t: string)
  {
    ValidItems(r.items) &&
    match r.cs
    case ExpectFirst => t == Before(r.items)
    case InFirst => Digits(r.digits) && t == Before(r.items) + r.digits
    case AtFirstStar => t == Before(r.items) + "*"
    case ExpectSecond => ValidNumber(r.first) && t == Before(r.items) + Spelled(r.first) + ":"
    case InSecond => ValidNumber(r.first) && Digits(r.digits) && t == Before(r.items) + Spelled(r.first) + ":" + r.digits
    case AtSecondStar => ValidNumber(r.first) && t == Before(r.items) + Spelled(r.first) + ":" + "*"
    case Rejected => true
  }

  lemma BeforeAppend(xs: seq<SeqItem>, x: SeqItem)
    requires ValidItems(xs) && ValidSeqItem(x)
    ensures ValidItems(xs + [x]) && Before(xs + [x]) == Before(xs) + SpelledItem(x) + ","
    ensures Spelling(xs + [x]) == Before(xs) + SpelledItem(x)
  {
    assert (xs + [x])[..|xs|] == xs;
  }

  /** At a comma or at the end, the item is complete. */
  lemma CloseSpells(r: Reader, t: string)
    requires Spells(r, t) && !Close(r).cs.Rejected?
    ensures Close(r).cs.ExpectFirst? && Close(r).items != [] && ValidItems(Close(r).items)
    ensures t == Spelling(Close(r).items) && Before(Close(r).items) == t + ","
  {
    hide Before;
    hide Spelling;
    if r.cs.InFirst? || r.cs.InSecond? { DecimalOfValue(r.digits); }
    var number := if r.cs.InFirst? || r.cs.InSecond? then Number(Value(r.digits)) else Star;
    var x := if r.cs.InFirst? || r.cs.AtFirstStar? then One(number) else Span(r.first, number);
    assert Close(r).items == r.items + [x];
    BeforeAppend(r.items, x);
    assert Before(r.items) + Spelled(r.first) + ":" + Spelled(number) == Before(r.items) + (Spelled(r.first) + ":" + Spelled(number));
  }

  lemma ColonSpells(r: Reader, t: string)
    requires Spells(r, t)
    ensures Spells(Colon(r), t + ":")
  {
    hide Before;
    if r.cs.InFirst? { DecimalOfValue(r.digits); }
  }

  lemma DigitSpells(r: Reader, t: string, c: char)
    requires Spells(r, t) && c != ',' && c != ':'
    ensures Spells(Step(r, c), t + [c])
  {
    hide Before;
    hide Spelled;
    hide Close;
    hide Colon;
    if r.cs.InFirst? || r.cs.InSecond? {
      assert t + [c] == t[..|t| - |r.digits|] + (r.digits + [c]);
      assert (r.digits + [c])[0] == r.digits[0];
    }
  }

  lemma NextSpells(r: Reader, t: string, c: char)
    requires Spells(r, t)
    ensures Spells(Step(r, c), t + [c])
  {
    if c == ',' {
      if !Close(r).cs.Rejected? { CloseSpells(r, t); }
      CloseValid(r);
    } else if c == ':' {
      ColonSpells(r, t);
    } else {
      DigitSpells(r, t, c);
    }
  }

  lemma CloseValid(r: Reader)
    ensures Close(r).cs.Rejected? ==> Close(r).items == r.items
  {
  }

  lemma {:induction false} ReadSpells(t: string)
    ensures Spells(Fold(Step, START, t), t)
  {
    hide Step;
    hide Spells;
    if t == "" {
      StartSpells();
    } else {
      var init, c := t[..|t| - 1], t[|t| - 1];
      ReadSpells(init);
      NextSpells(Fold(Step, START, init), init, c);
      assert init + [c] == t;
    }
  }

  lemma StartSpells()
    ensures Spells(START, "")
  {
  }

  // the other direction: every spelling is read

  lemma ReadsNumber(r: Reader, a: SeqNumber)
    requires (r.cs.ExpectFirst? || r.cs.ExpectSecond?) && ValidNumber(a)
    ensures var e := Fold(Step, r, Spelled(a));
            && e.first == r.first && e.items == r.items
            && Close(e) == r.(cs := ExpectFirst, digits := e.digits, items := r.items +
                 [if r.cs.ExpectFirst? then One(a) else Span(r.first, a)])
            && (r.cs.ExpectFirst? ==> Colon(e) == r.(cs := ExpectSecond, digits := e.digits, first := a))
  {
    if a.Star? {
      FoldOne(Step, r, '*');
    } else {
      DecimalDigits(a.n);
      ValueOfDecimal(a.n);
      Width32(a.n);
      FeedDigits(r, Decimal(a.n));
    }
  }

  lemma ReadsItem(r: Reader, x: SeqItem)
    requires r.cs.ExpectFirst? && ValidSeqItem(x)
    ensures var e := Close(Fold(Step, r, SpelledItem(x))); e.cs.ExpectFirst? && e.items == r.items + [x]
  {
    if x.One? {
      ReadsNumber(r, x.a);
    } else {
      ReadsNumber(r, x.a);
      var e1 := Fold(Step, r, Spelled(x.a));
      FoldConcat(Step, r, Spelled(x.a), ":");
      FoldOne(Step, e1, ':');
      FoldConcat(Step, r, Spelled(x.a) + ":", Spelled(x.b));
      ReadsNumber(Colon(e1), x.b);
    }
  }

  lemma {:induction false} ReadsBefore(xs: seq<SeqItem>)
    requires ValidItems(xs)
    ensures var e := Fold(Step, START, Before(xs)); e.cs.ExpectFirst? && e.items == xs
  {
    hide SpelledItem;
    hide Close;
    hide Step;
    hide ValidSeqItem;
    if xs != [] {
      var init, x := xs[..|xs| - 1], xs[|xs| - 1];
      ReadsBefore(init);
      var e := Fold(Step, START, Before(init));
      ReadsMore(Before(init), x);
      assert init + [x] == xs;
    }
  }

  lemma ReadsMore(t: string, x: SeqItem)
    requires Fold(Step, START, t).cs.ExpectFirst? && ValidSeqItem(x)
    ensures var e := Fold(Step, START, t + SpelledItem(x) + ",");
            e.cs.ExpectFirst? && e.items == Fold(Step, START, t).items + [x]
    ensures var e := Close(Fold(Step, START, t + SpelledItem(x)));
            e.cs.ExpectFirst? && e.items == Fold(Step, START, t).items + [x]
  {
    hide SpelledItem;
    hide Close;
    hide Step;
    var e := Fold(Step, START, t);
    FoldConcat(Step, START, t, SpelledItem(x));
    ReadsItem(e, x);
    var e1 := Fold(Step, e, SpelledItem(x));
    FoldConcat(Step, START, t + SpelledItem(x), ",");
    FoldOne(Step, e1, ',');
    CommaCloses(e1);
  }

  lemma CommaCloses(r: Reader)
    ensures Step(r, ',') == Close(r)
  {
  }

  /** The grammar accepts a text as a list of items if and only if the text is their spelling: the numbers in decimal form,
      not zero and in 32 bits, or `*`, with `:` inside ranges and `,` between items. */
  lemma ReadExact(t: string, xs: seq<SeqItem>)
    ensures Read(t) == Some(xs) <==> xs != [] && ValidItems(xs) && t == Spelling(xs)
  {
    hide Step;
    hide Close;
    hide Spells;
    hide Before;
    hide SpelledItem;
    hide Spelling;
    ReadSpells(t);
    var r := Fold(Step, START, t);
    CloseKinds(r);
    if Read(t) == Some(xs) { CloseSpells(r, t); }
    if xs != [] && ValidItems(xs) && t == Spelling(xs) { ReadsSpelling(xs); }
  }

  lemma ReadsSpelling(xs: seq<SeqItem>)
    requires xs != [] && ValidItems(xs)
    ensures Read(Spelling(xs)) == Some(xs)
  {
    hide Step;
    hide Close;
    hide Before;
    hide SpelledItem;
    hide ValidSeqItem;
    var init, x := xs[..|xs| - 1], xs[|xs| - 1];
    ReadsBefore(init);
    ReadsMore(Before(init), x);
    assert init + [x] == xs;
  }

  lemma CloseKinds(r: Reader)
    ensures Close(r).cs.ExpectFirst? || Close(r).cs.Rejected?
  {
  }
}
