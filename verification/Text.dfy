/** Octets, decimal numbers and octet-at-a-time machines, shared by all parsers and writers. An octet is a `char`. */
module Text {

  datatype Option<+T> = None | Some(value: T)

  datatype Result<+T> = Ok(value: T) | Err(error: string)

  /** The largest value of a `uint32_t`. */
  const MAX32: nat := 0xFFFF_FFFF

  // ---------------------------------------------------------------- machines

  /** Runs a machine over a text, one octet after the other. */
  function Fold<S>(step: (S, char) -> S, s: S, text: string): S
  {
    if text == [] then s else step(Fold(step, s, text[..|text| - 1]), text[|text| - 1])
  }

  lemma {:induction false} FoldConcat<S>(step: (S, char) -> S, s: S, a: string, b: string)
    ensures Fold(step, s, a + b) == Fold(step, Fold(step, s, a), b)
  {
    if b == [] {
      assert a + b == a;
    } else {
      var init := b[..|b| - 1];
      assert (a + b)[..|a + b| - 1] == a + init;
      FoldConcat(step, s, a, init);
    }
  }

  /** Head-first unfolding of a run. */
  lemma FoldHead<S>(step: (S, char) -> S, s: S, text: string)
    requires text != []
    ensures Fold(step, s, text) == Fold(step, step(s, text[0]), text[1..])
  {
    assert text == [text[0]] + text[1..];
    FoldConcat(step, s, [text[0]], text[1..]);
    assert [text[0]][..0] == [];
    assert Fold(step, s, []) == s;
    assert Fold(step, s, [text[0]]) == step(s, text[0]);
  }

  /** A run over a one-octet text is one step. */
  lemma FoldOne<S>(step: (S, char) -> S, s: S, c: char)
    ensures Fold(step, s, [c]) == step(s, c)
  {
    FoldHead(step, s, [c]);
  }

  /** `inv(s, k)` is meant to hold of a machine after `k` octets of `text`; one step keeps it. */
  ghost predicate StepKeeps<S(!new)>(step: (S, char) -> S, inv: (S, nat) -> bool, text: string)
  {
    forall s: S, k: nat | k < |text| && inv(s, k) :: inv(step(s, text[k]), k + 1)
  }

  lemma {:induction false} FoldInduction<S(!new)>(
    step: (S, char) -> S, inv: (S, nat) -> bool, text: string, s: S, k: nat, part: string)
    requires StepKeeps(step, inv, text) && inv(s, k)
    requires k + |part| <= |text| && part == text[k..k + |part|]
    ensures inv(Fold(step, s, part), k + |part|)
  {
    if part != [] {
      var n := |part| - 1;
      FoldInduction(step, inv, text, s, k, part[..n]);
      assert part[n] == text[k + n];
    }
  }

  /** Reading `t` relates every state to the state after it by `rel`. */
  ghost predicate Takes<S(!new)>(step: (S, char) -> S, rel: (S, S) -> bool, t: string)
  {
    forall s: S :: rel(s, Fold(step, s, t))
  }

  lemma TakesConcat<S(!new)>(
    step: (S, char) -> S, r1: (S, S) -> bool, t1: string, r2: (S, S) -> bool, t2: string, r: (S, S) -> bool)
    requires Takes(step, r1, t1) && Takes(step, r2, t2)
    requires forall a, b, c | r1(a, b) && r2(b, c) :: r(a, c)
    ensures Takes(step, r, t1 + t2)
  {
    forall s: S ensures r(s, Fold(step, s, t1 + t2)) {
      FoldConcat(step, s, t1, t2);
    }
  }

  // ---------------------------------------------------------------- chunked input

  function Flatten(chunks: seq<string>): string
  {
    if chunks == [] then "" else Flatten(chunks[..|chunks| - 1]) + chunks[|chunks| - 1]
  }

  /** Reading a list of chunks, one call per chunk; `pause` is what happens at the end of a call. */
  function Feed<S>(step: (S, char) -> S, pause: S -> S, s: S, chunks: seq<string>): S
  {
    if chunks == [] then s
    else pause(Fold(step, Feed(step, pause, s, chunks[..|chunks| - 1]), chunks[|chunks| - 1]))
  }

  /** What every step and every end of a chunk keeps, every chunking keeps. */
  lemma {:induction false} FeedInduction<S(!new)>(
    step: (S, char) -> S, pause: S -> S, inv: (S, nat) -> bool, text: string, s: S, chunks: seq<string>)
    requires StepKeeps(step, inv, text) && inv(s, 0)
    requires forall s: S, k: nat | k <= |text| && inv(s, k) :: inv(pause(s), k)
    requires Flatten(chunks) <= text
    ensures inv(Feed(step, pause, s, chunks), |Flatten(chunks)|)
  {
    if chunks != [] {
      var init, last := chunks[..|chunks| - 1], chunks[|chunks| - 1];
      var k := |Flatten(init)|;
      assert Flatten(chunks) == text[..|Flatten(chunks)|];
      assert Flatten(init) == text[..k] && last == text[k..k + |last|];
      FeedInduction(step, pause, inv, text, s, init);
      FoldInduction(step, inv, text, Feed(step, pause, s, init), k, last);
    }
  }

  /** A machine that does nothing at the end of a chunk does not see the chunks. */
  lemma {:induction false} ChunksIrrelevant<S(!new)>(step: (S, char) -> S, pause: S -> S, s: S, chunks: seq<string>)
    requires forall s: S :: pause(s) == s
    ensures Feed(step, pause, s, chunks) == Fold(step, s, Flatten(chunks))
  {
    if chunks != [] {
      var init, last := chunks[..|chunks| - 1], chunks[|chunks| - 1];
      ChunksIrrelevant(step, pause, s, init);
      FoldConcat(step, s, Flatten(init), last);
    }
  }

  // ---------------------------------------------------------------- decimal numbers

  predicate IsDigit(c: char) { '0' <= c <= '9' }

  ghost predicate AllDigits(s: string) { forall i | 0 <= i < |s| :: IsDigit(s[i]) }

  function Digit(d: nat): (c: char)
    requires d < 10
    ensures IsDigit(c)
  {
    ('0' as int + d) as char
  }

  /** What an output stream prints for an unsigned number. */
  function Decimal(n: nat): string
  {
    if n < 10 then [Digit(n)] else Decimal(n / 10) + [Digit(n % 10)]
  }

  function DigitValue(c: char): nat { if IsDigit(c) then c as int - '0' as int else 0 }

  /** The number that a digit string denotes. */
  function Value(s: string): nat
  {
    if s == [] then 0 else Value(s[..|s| - 1]) * 10 + DigitValue(s[|s| - 1])
  }

  lemma {:induction false} DecimalDigits(n: nat)
    ensures Decimal(n) != [] && AllDigits(Decimal(n))
  {
    if n >= 10 { DecimalDigits(n / 10); }
  }

  lemma {:induction false} ValueOfDecimal(n: nat)
    ensures Value(Decimal(n)) == n
    ensures Decimal(n) != [] && (n > 0 ==> Decimal(n)[0] != '0')
  {
    DecimalDigits(n);
    if n >= 10 {
      DecimalDigits(n / 10);
      ValueOfDecimal(n / 10);
      assert Decimal(n)[..|Decimal(n)| - 1] == Decimal(n / 10);
    } else {
      assert Decimal(n) == [Digit(n)];
      assert Decimal(n)[..0] == [];
    }
  }

  /** Decimal width never shrinks. */
  lemma {:induction false} WidthMonotone(a: nat, b: nat)
    requires a <= b
    ensures |Decimal(a)| <= |Decimal(b)|
  {
    DecimalDigits(b / 10);
    if b >= 10 {
      if a >= 10 { WidthMonotone(a / 10, b / 10); }
    }
  }

  /** A 32-bit number has at most ten digits. */
  lemma Width32(n: nat)
    requires n <= MAX32
    ensures |Decimal(n)| <= 10
  {
    WidthMonotone(n, MAX32);
    assert |Decimal(4)| == 1;
    assert |Decimal(42)| == 2;
    assert |Decimal(429)| == 3;
    assert |Decimal(4294)| == 4;
    assert |Decimal(42949)| == 5;
    assert |Decimal(429496)| == 6;
    assert |Decimal(4294967)| == 7;
    assert |Decimal(42949672)| == 8;
    assert |Decimal(429496729)| == 9;
  }

  /** A digit string that is followed by the same non-digit in two equal texts is the same digit string. */
  lemma DigitsDelimited(d1: string, r1: string, d2: string, r2: string, mark: char)
    requires AllDigits(d1) && AllDigits(d2) && !IsDigit(mark)
    requires d1 + [mark] + r1 == d2 + [mark] + r2
    ensures d1 == d2 && r1 == r2
  {
    var t1, t2 := d1 + [mark] + r1, d2 + [mark] + r2;
    assert t1[|d1|] == mark && t2[|d2|] == mark;
    assert forall i | 0 <= i < |d1| :: t1[i] == d1[i];
    assert forall i | 0 <= i < |d2| :: t2[i] == d2[i];
    assert d1 == t1[..|d1|] && d2 == t2[..|d2|];
    assert r1 == t1[|d1| + 1..] && r2 == t2[|d2| + 1..];
  }
}
