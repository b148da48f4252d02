/** Delivery into a maildir (maildir/maildir.cc): unique names, the flag suffix and the move out of `tmp`. */
module Maildir {
  import opened Text

  // ---------------------------------------------------------------- names

  const HEXDIGITS: string := "0123456789abcdef"

  function Hex(n: nat): string { if n < 16 then [HEXDIGITS[n]] else Hex(n / 16) + [HEXDIGITS[n % 16]] }

  /** The host name with the two letters replaced that a file name must not contain. */
  function EscapedHost(host: string): string
  {
    if host == [] then ""
    else (if host[0] == '/' then "\\057" else if host[0] == ':' then "\\072" else [host[0]]) + EscapedHost(host[1..])
  }

  function TmpName(time: nat, pid: nat, delivery: nat, random: nat, host: string): string
  {
    Decimal(time) + "." + "P" + Decimal(pid) + "Q" + Decimal(delivery) + "R" + Hex(random) + "." + EscapedHost(host)
  }

  ghost predicate Clean(s: string) { forall c | c in s :: c != '/' && c != ':' }

  lemma {:induction false} HexClean(n: nat)
    ensures Clean(Hex(n))
    decreases n
  {
    if n >= 16 { HexClean(n / 16); }
  }

  lemma {:induction false} HostClean(host: string)
    ensures Clean(EscapedHost(host))
  {
    if host != [] { HostClean(host[1..]); }
  }

  lemma DecimalClean(n: nat)
    ensures Clean(Decimal(n))
  {
    DecimalDigits(n);
  }

  /** A name has neither `/` nor `:`; it is one path component and the suffix behind `:` can be told from it. */
  lemma NameClean(time: nat, pid: nat, delivery: nat, random: nat, host: string)
    ensures Clean(TmpName(time, pid, delivery, random, host))
  {
    DecimalClean(time);
    DecimalClean(pid);
    DecimalClean(delivery);
    HexClean(random);
    HostClean(host);
  }

  /** Hexadecimal digits tell the number, and hold no dot. */
  lemma {:induction false} HexDigits(n: nat)
    ensures Hex(n) != "" && forall c | c in Hex(n) :: c in HEXDIGITS
    decreases n
  {
    if n >= 16 { HexDigits(n / 16); }
  }

  lemma HexDigitsDiffer(i: nat, j: nat)
    requires i < 16 && j < 16 && HEXDIGITS[i] == HEXDIGITS[j]
    ensures i == j
  {
  }

  lemma {:induction false} HexInjective(m: nat, n: nat)
    requires Hex(m) == Hex(n)
    ensures m == n
    decreases m
  {
    hide HEXDIGITS;
    HexDigitsDiffer(m % 16, n % 16) by { HexEnds(m); HexEnds(n); }
    HexEnds(m);
    HexEnds(n);
    HexDigits(m / 16);
    HexDigits(n / 16);
    if m >= 16 {
      assert |Hex(m)| > 1;
      assert n >= 16;
      HexInjective(m / 16, n / 16);
    }
  }

  lemma HexEnds(n: nat)
    ensures Hex(n) != "" && Hex(n)[|Hex(n)| - 1] == HEXDIGITS[n % 16]
    ensures n >= 16 ==> Hex(n)[..|Hex(n)| - 1] == Hex(n / 16) && Hex(n / 16) != ""
    ensures n < 16 ==> |Hex(n)| == 1
  {
  }

  /** A host name without the two letters stands as it is; each of them is replaced where it stands. */
  lemma {:induction false} HostPlain(host: string)
    requires Clean(host)
    ensures EscapedHost(host) == host
  {
    if host != [] {
      assert host[0] in host && forall c | c in host[1..] :: c in host;
      assert host == [host[0]] + host[1..];
      HostPlain(host[1..]);
    }
  }

  lemma {:induction false} HostConcat(a: string, b: string)
    ensures EscapedHost(a + b) == EscapedHost(a) + EscapedHost(b)
    ensures EscapedHost("/") == "\\057" && EscapedHost(":") == "\\072"
  {
    if a == [] {
      assert a + b == b;
    } else {
      assert (a + b)[1..] == a[1..] + b;
      HostConcat(a[1..], b);
    }
    assert "/"[1..] == [] && ":"[1..] == [];
  }

  /** Time, process, delivery number, random number and the replaced host name can be read off a name. */
  lemma NameDetermines(t1: nat, t2: nat, p1: nat, p2: nat, d1: nat, d2: nat, r1: nat, r2: nat, h1: string, h2: string)
    requires TmpName(t1, p1, d1, r1, h1) == TmpName(t2, p2, d2, r2, h2)
    ensures t1 == t2 && p1 == p2 && d1 == d2 && r1 == r2 && EscapedHost(h1) == EscapedHost(h2)
  {
    hide TmpName;
    NameParts(t1, t2, p1, p2, d1, d2, r1, r2, h1, h2);
    HexDelimited(r1, EscapedHost(h1), r2, EscapedHost(h2));
  }

  lemma NameParts(t1: nat, t2: nat, p1: nat, p2: nat, d1: nat, d2: nat, r1: nat, r2: nat, h1: string, h2: string)
    requires TmpName(t1, p1, d1, r1, h1) == TmpName(t2, p2, d2, r2, h2)
    ensures t1 == t2 && p1 == p2 && d1 == d2 && Hex(r1) + "." + EscapedHost(h1) == Hex(r2) + "." + EscapedHost(h2)
  {
    var c1, c2 := Hex(r1) + "." + EscapedHost(h1), Hex(r2) + "." + EscapedHost(h2);
    var b1, b2 := Decimal(d1) + ['R'] + c1, Decimal(d2) + ['R'] + c2;
    var a1, a2 := Decimal(p1) + ['Q'] + b1, Decimal(p2) + ['Q'] + b2;
    NameShape(t1, p1, d1, r1, h1);
    NameShape(t2, p2, d2, r2, h2);
    hide TmpName;
    hide Decimal;
    hide Hex;
    hide EscapedHost;
    NumberDelimited(t1, ['P'] + a1, t2, ['P'] + a2, '.');
    assert (['P'] + a1)[1..] == a1 && (['P'] + a2)[1..] == a2;
    NumberDelimited(p1, b1, p2, b2, 'Q');
    NumberDelimited(d1, c1, d2, c2, 'R');
  }

  lemma NameShape(t: nat, p: nat, d: nat, r: nat, h: string)
    ensures TmpName(t, p, d, r, h)
            == Decimal(t) + ['.'] + (['P'] + (Decimal(p) + ['Q'] + (Decimal(d) + ['R'] + (Hex(r) + "." + EscapedHost(h)))))
  {
    hide Decimal;
    hide Hex;
    hide EscapedHost;
  }

  lemma HexDelimited(n1: nat, s1: string, n2: nat, s2: string)
    requires Hex(n1) + "." + s1 == Hex(n2) + "." + s2
    ensures n1 == n2 && s1 == s2
  {
    hide Hex;
    var x1, x2 := Hex(n1), Hex(n2);
    HexDigits(n1);
    HexDigits(n2);
    var t := x1 + "." + s1;
    assert t == x2 + "." + s2 && t[|x1|] == '.' && t[|x2|] == '.';
    assert forall i | 0 <= i < |x1| :: t[i] == x1[i] && x1[i] in x1;
    assert forall i | 0 <= i < |x2| :: t[i] == x2[i] && x2[i] in x2;
    assert |x1| == |x2|;
    assert x1 == t[..|x1|] && x2 == t[..|x2|] && s1 == t[|x1| + 1..] && s2 == t[|x2| + 1..];
    HexInjective(n1, n2);
  }

  lemma NumberDelimited(n1: nat, s1: string, n2: nat, s2: string, mark: char)
    requires Decimal(n1) + [mark] + s1 == Decimal(n2) + [mark] + s2 && !IsDigit(mark)
    ensures n1 == n2 && s1 == s2
  {
    DecimalDigits(n1);
    DecimalDigits(n2);
    DigitsDelimited(Decimal(n1), s1, Decimal(n2), s2, mark);
    ValueOfDecimal(n1);
    ValueOfDecimal(n2);
  }

  // ---------------------------------------------------------------- flags

  const FLAGS: string := "DFPRST"

  function Put(c: char, s: string): string
  {
    if s == [] || c <= s[0] then [c] + s else [s[0]] + Put(c, s[1..])
  }

  /** std::sort */
  function Sort(s: string): string { if s == [] then [] else Put(s[0], Sort(s[1..])) }

  /** std::unique: of equal neighbours the first stays. */
  function Unique(s: string): string
    decreases |s|
  {
    if |s| < 2 then s else if s[0] == s[1] then Unique([s[0]] + s[2..]) else [s[0]] + Unique(s[1..])
  }

  /** std::includes, on sorted ranges. */
  predicate Includes(all: string, s: string)
  {
    if s == [] then true
    else if all == [] || s[0] < all[0] then false
    else if all[0] < s[0] then Includes(all[1..], s)
    else Includes(all[1..], s[1..])
  }

  ghost predicate Ascending(s: string) { forall i, j | 0 <= i < j < |s| :: s[i] <= s[j] }

  ghost predicate Strict(s: string) { forall i, j | 0 <= i < j < |s| :: s[i] < s[j] }

  ghost predicate SameLetters(s: string, t: string) { forall c :: c in s <==> c in t }

  lemma {:induction false} PutSorts(c: char, s: string)
    requires Ascending(s)
    ensures Ascending(Put(c, s)) && SameLetters(Put(c, s), [c] + s)
  {
    if s != [] && s[0] < c {
      PutSorts(c, s[1..]);
      var rest := Put(c, s[1..]);
      forall j | 0 <= j < |rest| ensures s[0] <= rest[j] {
        assert rest[j] in [c] + s[1..];
      }
      assert s == [s[0]] + s[1..];
    }
  }

  lemma {:induction false} SortSorts(s: string)
    ensures Ascending(Sort(s)) && SameLetters(Sort(s), s)
  {
    if s != [] {
      SortSorts(s[1..]);
      PutSorts(s[0], Sort(s[1..]));
      assert s == [s[0]] + s[1..];
    }
  }

  lemma {:induction false} UniqueStrict(s: string)
    requires Ascending(s)
    ensures Strict(Unique(s)) && SameLetters(Unique(s), s) && (s != [] ==> Unique(s) != [] && Unique(s)[0] == s[0])
    decreases |s|
  {
    if |s| >= 2 {
      if s[0] == s[1] {
        var t := [s[0]] + s[2..];
        assert t == s[1..];
        UniqueStrict(t);
        assert s == [s[0]] + s[1..];
      } else {
        UniqueStrict(s[1..]);
        var rest := Unique(s[1..]);
        forall j | 0 <= j < |rest| ensures s[0] < rest[j] {
          assert rest[j] in s[1..];
        }
        assert s == [s[0]] + s[1..];
      }
    }
  }

  lemma HeadTail(s: string)
    requires s != [] && Strict(s)
    ensures forall c :: c in s <==> c == s[0] || c in s[1..]
    ensures s[0] !in s[1..] && Strict(s[1..]) && forall c | c in s[1..] :: s[0] < c
  {
    assert s == [s[0]] + s[1..];
  }

  lemma {:induction false} IncludesMeans(all: string, s: string)
    requires Strict(all) && Strict(s)
    ensures Includes(all, s) <==> forall c | c in s :: c in all
  {
    if s != [] && all != [] {
      HeadTail(s);
      HeadTail(all);
      if s[0] < all[0] {
        assert s[0] in s && s[0] !in all;
      } else if all[0] < s[0] {
        IncludesMeans(all[1..], s);
        assert all[0] !in s;
      } else {
        IncludesMeans(all[1..], s[1..]);
      }
    } else if s != [] {
      assert s[0] in s;
    }
  }

  /** `set_flags`: the flags to store, or none if a letter is unknown. */
  function FlagSuffix(flags: string): Option<string>
  {
    var f := Unique(Sort(flags));
    if Includes(FLAGS, f) then Some(f) else None
  }

  /** A strictly ascending text is determined by its letters. */
  lemma {:induction false} StrictUnique(s: string, t: string)
    requires Strict(s) && Strict(t) && SameLetters(s, t)
    ensures s == t
  {
    assert t == [] || t[0] in t;
    if s != [] {
      assert s[0] in t && t[0] in s;
      HeadTail(s);
      HeadTail(t);
      StrictUnique(s[1..], t[1..]);
    }
  }

  /** The flags are accepted if and only if all are known; the suffix is then the only strictly ascending text with the
      same letters. */
  lemma FlagSuffixExact(flags: string, t: string)
    ensures FlagSuffix(flags).Some? <==> forall c | c in flags :: c in FLAGS
    ensures FlagSuffix(flags).Some? ==> (FlagSuffix(flags).value == t <==> Strict(t) && SameLetters(t, flags))
  {
    SortSorts(flags);
    UniqueStrict(Sort(flags));
    var f := Unique(Sort(flags));
    IncludesMeans(FLAGS, f);
    if Strict(t) && SameLetters(t, flags) { StrictUnique(f, t); }
  }

  /** Message flags of IMAP and the letters that the client collects for them (copy/client.cc). */
  datatype ImapFlag = ANSWERED | SEEN | FLAGGED | DRAFT | RECENT | DELETED

  function Letter(f: ImapFlag): string
  {
    match f
    case ANSWERED => "R"
    case SEEN => "S"
    case FLAGGED => "F"
    case DRAFT => "D"
    case RECENT => ""
    case DELETED => ""
  }

  function Letters(fs: seq<ImapFlag>): string
  {
    if fs == [] then "" else Letters(fs[..|fs| - 1]) + Letter(fs[|fs| - 1])
  }

  lemma {:induction false} LettersMean(fs: seq<ImapFlag>)
    ensures forall c :: c in Letters(fs) <==>
      (c == 'R' && ANSWERED in fs) || (c == 'S' && SEEN in fs) || (c == 'F' && FLAGGED in fs) || (c == 'D' && DRAFT in fs)
  {
    if fs != [] {
      LettersMean(fs[..|fs| - 1]);
      assert fs == fs[..|fs| - 1] + [fs[|fs| - 1]];
    }
  }

  /** The flags of a FETCH response are always accepted, in whatever order and however often the server sends them. */
  lemma ServerFlagsAccepted(fs: seq<ImapFlag>)
    ensures FlagSuffix(Letters(fs)).Some?
    ensures forall c :: c in FlagSuffix(Letters(fs)).value <==>
      (c == 'R' && ANSWERED in fs) || (c == 'S' && SEEN in fs) || (c == 'F' && FLAGGED in fs) || (c == 'D' && DRAFT in fs)
  {
    LettersMean(fs);
    FlagSuffixExact(Letters(fs), Unique(Sort(Letters(fs))));
  }

  // ---------------------------------------------------------------- the file system

  datatype Dir = Tmp | New | Cur

  datatype Entry = Entry(dir: Dir, name: string)

  /** Directory entries with the file each of them names: as processes see them, and as they are on the medium. */
  datatype Disk = Disk(seen: map<Entry, nat>, durable: map<Entry, nat>)

  predicate CanLink(d: Disk, a: Entry, b: Entry) { a in d.seen && b !in d.seen }

  function Linked(d: Disk, a: Entry, b: Entry): Disk
    requires a in d.seen
  {
    d.(seen := d.seen[b := d.seen[a]])
  }

  /** fsync of a directory: all its entries reach the medium. */
  function Synced(d: Disk, dir: Dir): Disk
  {
    d.(durable := (map e | e in d.durable && e.dir != dir :: d.durable[e]) + (map e | e in d.seen && e.dir == dir :: d.seen[e]))
  }

  function Unlinked(d: Disk, a: Entry): Disk { d.(seen := d.seen - {a}) }

  /** The entries that may be left when the power fails: of each entry, what was seen or what was on the medium. */
  ghost predicate MayRemain(d: Disk, left: map<Entry, nat>)
  {
    forall e: Entry ::
      (if e in left then Some(left[e]) else None) == (if e in d.seen then Some(d.seen[e]) else None)
      || (if e in left then Some(left[e]) else None) == (if e in d.durable then Some(d.durable[e]) else None)
  }

  /** The disk after the first `steps` of the three system calls of a move. */
  function MoveSteps(d: Disk, a: Entry, b: Entry, steps: nat): Disk
    requires CanLink(d, a, b)
  {
    if steps == 0 then d
    else if steps == 1 then Linked(d, a, b)
    else if steps == 2 then Synced(Linked(d, a, b), b.dir)
    else Unlinked(Synced(Linked(d, a, b), b.dir), a)
  }

  ghost predicate Reachable(entries: map<Entry, nat>, file: nat) { exists e :: e in entries && entries[e] == file }

  /** A cut behind any of the system calls leaves the message under its old or its new name, and all other entries as
      they were; a whole move leaves it under the new name alone. */
  lemma CutKeepsMessage(d: Disk, a: Entry, b: Entry, steps: nat)
    requires CanLink(d, a, b) && a.dir.Tmp? && !b.dir.Tmp?
    ensures var d' := MoveSteps(d, a, b, steps);
            && Reachable(d'.seen, d.seen[a])
            && (forall e | e != a && e != b :: (e in d'.seen <==> e in d.seen) && (e in d.seen ==> d'.seen[e] == d.seen[e]))
            && (steps >= 1 ==> b in d'.seen && d'.seen[b] == d.seen[a])
            && (a in d'.seen <==> steps < 3)
  {
    var d' := MoveSteps(d, a, b, steps);
    if steps == 0 { assert d'.seen[a] == d.seen[a]; } else { assert d'.seen[b] == d.seen[a]; }
  }

  /** If the power fails, the message is still there, provided that its name in `tmp` was on the medium before the
      move or the directory of the new name was synchronised. */
  lemma PowerCutKeepsMessage(d: Disk, a: Entry, b: Entry, steps: nat, left: map<Entry, nat>)
    requires CanLink(d, a, b) && a.dir.Tmp? && !b.dir.Tmp?
    requires MayRemain(MoveSteps(d, a, b, steps), left)
    requires steps >= 2 || (a in d.durable && d.durable[a] == d.seen[a])
    ensures Reachable(left, d.seen[a])
  {
    var d' := MoveSteps(d, a, b, steps);
    if steps >= 2 {
      assert b in d'.durable && d'.durable[b] == d.seen[a] && b in d'.seen;
      assert b in left && left[b] == d.seen[a];
    } else {
      assert a in d'.durable && d'.durable[a] == d.seen[a] && a in d'.seen;
      assert a in left && left[a] == d.seen[a];
    }
  }

  /** The order of the calls matters: without the fsync a message can be lost. */
  lemma FsyncNeeded(d: Disk, a: Entry, b: Entry)
    requires CanLink(d, a, b) && a.dir.Tmp? && !b.dir.Tmp? && b !in d.durable
    requires forall e | e in d.seen && e != a :: d.seen[e] != d.seen[a]
    ensures exists left: map<Entry, nat> :: MayRemain(Unlinked(Linked(d, a, b), a), left) && !Reachable(left, d.seen[a])
  {
    var d' := Unlinked(Linked(d, a, b), a);
    var left := d.seen - {a};
    assert MayRemain(d', left);
  }

  // ---------------------------------------------------------------- the maildir object

  datatype State = State(pid: nat, host: string, name: string, flags: string, delivery: nat, disk: Disk)

  datatype Outcome = Done | Created(name: string) | NotDelivered | NoTmpName | UnknownFlag | SystemError

  function CreateTmpName(s: State, time: nat, random: nat): (State, Outcome)
  {
    if s.name != "" then (s, NotDelivered)
    else
      var name := TmpName(time, s.pid, s.delivery, random, s.host);
      (s.(name := name, delivery := s.delivery + 1), Created(name))
  }

  function Target(s: State, dir: Dir): Entry
  {
    Entry(dir, if dir.Cur? then s.name + ":2," + s.flags else s.name)
  }

  /** `steps` says how many of the three system calls go through. */
  function Move(s: State, dir: Dir, steps: nat): (State, Outcome)
  {
    if s.name == "" then (s, NoTmpName)
    else
      var a, b := Entry(Tmp, s.name), Target(s, dir);
      if !CanLink(s.disk, a, b) then (s, SystemError)
      else if steps < 3 then (s.(disk := MoveSteps(s.disk, a, b, steps)), SystemError)
      else (s.(disk := MoveSteps(s.disk, a, b, 3), name := "", flags := ""), Done)
  }

  function MoveToCur(s: State, flags: string, steps: nat): (State, Outcome)
  {
    var f := FlagSuffix(flags);
    if f.None? then (s, UnknownFlag) else Move(s.(flags := f.value), Cur, steps)
  }

  class Maildir {
    const pid: nat
    const host: string
    var name: string
    var flags: string
    var delivery: nat
    var disk: Disk

    ghost function Now(): State reads this { State(pid, host, name, flags, delivery, disk) }

    constructor (pid: nat, host: string, disk: Disk)
      ensures Now() == State(pid, host, "", "", 0, disk)
    {
      this.pid, this.host, name, flags, delivery, this.disk := pid, host, "", "", 0, disk;
    }

    method CreateName(time: nat, random: nat) returns (r: Outcome)
      modifies this
      ensures (Now(), r) == CreateTmpName(old(Now()), time, random)
    {
      if name != "" { return NotDelivered; }
      name := TmpName(time, pid, delivery, random, host);
      delivery := delivery + 1;
      return Created(name);
    }

    method SetFlags(flags: string) returns (ok: bool)
      modifies this
      ensures ok == FlagSuffix(flags).Some?
      ensures Now() == if ok then old(Now()).(flags := FlagSuffix(flags).value) else old(Now())
    {
      var f := Sort(flags);
      f := Unique(f);
      ok := Includes(FLAGS, f);
      if ok { this.flags := f; }
    }

    method MoveOut(dir: Dir, steps: nat) returns (r: Outcome)
      modifies this
      ensures (Now(), r) == Move(old(Now()), dir, steps)
    {
      if name == "" { return NoTmpName; }
      var newName := name;
      if dir == Cur { newName := newName + ":2," + flags; }
      var a, b := Entry(Tmp, name), Entry(dir, newName);
      if steps == 0 || !CanLink(disk, a, b) { return SystemError; }
      disk := Linked(disk, a, b);
      if steps == 1 { return SystemError; }
      disk := Synced(disk, dir);
      if steps == 2 { return SystemError; }
      disk := Unlinked(disk, a);
      name, flags := "", "";
      return Done;
    }

    method ToNew(steps: nat) returns (r: Outcome)
      modifies this
      ensures (Now(), r) == Move(old(Now()), New, steps)
    {
      r := MoveOut(New, steps);
    }

    method ToCur(flags: string, steps: nat) returns (r: Outcome)
      modifies this
      ensures (Now(), r) == MoveToCur(old(Now()), flags, steps)
    {
      var ok := SetFlags(flags);
      if !ok { return UnknownFlag; }
      r := MoveOut(Cur, steps);
    }

    method Clear()
      modifies this
      ensures Now() == old(Now()).(name := "", flags := "")
    {
      name, flags := "", "";
    }
  }

  // ---------------------------------------------------------------- all calls of one process

  datatype Call = Create(time: nat, random: nat) | ToNew(steps: nat) | ToCur(flags: string, steps: nat) | Clear | Write(disk: Disk)

  /** One call; `Write` is anything that others do to the file system. */
  function Apply(s: State, c: Call): (State, Outcome)
  {
    match c
    case Create(time, random) => CreateTmpName(s, time, random)
    case ToNew(steps) => Move(s, New, steps)
    case ToCur(flags, steps) => MoveToCur(s, flags, steps)
    case Clear => (s.(name := "", flags := ""), Done)
    case Write(d) => (s.(disk := d), Done)
  }

  function Final(s: State, cs: seq<Call>): State
  {
    if cs == [] then s else Apply(Final(s, cs[..|cs| - 1]), cs[|cs| - 1]).0
  }

  function OutcomeAt(s: State, cs: seq<Call>, i: nat): Outcome
    requires i < |cs|
  {
    Apply(Final(s, cs[..i]), cs[i]).1
  }

  /** One call: a created name carries the delivery number, which only grows. */
  lemma ApplyFacts(s: State, c: Call)
    ensures var (s', r) := Apply(s, c);
            && s'.pid == s.pid && s'.host == s.host && s.delivery <= s'.delivery
            && (r.Created? ==> c.Create? && s.delivery < s'.delivery)
            && (r.Created? ==> r.name == TmpName(c.time, s.pid, s.delivery, c.random, s.host) && r.name == s'.name)
  {
    hide FlagSuffix;
    hide TmpName;
    hide MoveSteps;
  }

  lemma {:induction false} DeliveryGrows(s: State, cs: seq<Call>, i: nat)
    requires i <= |cs|
    ensures Final(s, cs[..i]).delivery <= Final(s, cs).delivery && Final(s, cs).pid == s.pid && Final(s, cs).host == s.host
  {
    if cs == [] {
    } else if i == |cs| {
      assert cs[..i] == cs;
      DeliveryGrows(s, cs[..|cs| - 1], 0);
      ApplyFacts(Final(s, cs[..|cs| - 1]), cs[|cs| - 1]);
    } else {
      var init := cs[..|cs| - 1];
      DeliveryGrows(s, init, i);
      assert init[..i] == cs[..i];
      ApplyFacts(Final(s, init), cs[|cs| - 1]);
    }
  }

  /** All names that one process makes are distinct, even with equal times and equal random numbers. */
  lemma NamesNeverRepeat(s: State, cs: seq<Call>, i: nat, j: nat)
    requires i < j < |cs| && OutcomeAt(s, cs, i).Created? && OutcomeAt(s, cs, j).Created?
    ensures OutcomeAt(s, cs, i).name != OutcomeAt(s, cs, j).name
  {
    hide Apply;
    hide TmpName;
    var a, b := Final(s, cs[..i]), Final(s, cs[..j]);
    DeliveryGrows(s, cs[..i], 0);
    DeliveryGrows(s, cs[..j], i + 1);
    assert cs[..j][..i + 1] == cs[..i + 1] && cs[..i + 1][..i] == cs[..i];
    ApplyFacts(a, cs[i]);
    ApplyFacts(b, cs[j]);
    if OutcomeAt(s, cs, i).name == OutcomeAt(s, cs, j).name {
      NameDetermines(cs[i].time, cs[j].time, a.pid, b.pid, a.delivery, b.delivery, cs[i].random, cs[j].random, a.host, b.host);
    }
  }

  lemma FirstColon(n: string, f: string)
    requires Clean(n)
    ensures var t := n + ":2," + f; t[|n|] == ':' && forall k | 0 <= k < |n| :: t[k] != ':'
  {
    forall k | 0 <= k < |n| ensures (n + ":2," + f)[k] != ':' {
      assert n[k] in n;
    }
  }

  // ---------------------------------------------------------------- the entry that a message gets

  /** Where a message with the unique name `name` and the flag letters `t` belongs. */
  function EntryFor(name: string, t: string): Entry
  {
    if t == "" then Entry(New, name) else Entry(Cur, name + ":2," + t)
  }

  /** The entry tells the unique name and the flags. */
  lemma EntriesInjective(n1: string, f1: string, n2: string, f2: string)
    requires Clean(n1) && Clean(n2) && EntryFor(n1, f1) == EntryFor(n2, f2)
    ensures n1 == n2 && f1 == f2
  {
    if f1 != "" {
      var t := n1 + ":2," + f1;
      assert t == n2 + ":2," + f2;
      FirstColon(n1, f1);
      FirstColon(n2, f2);
      assert t[..|n1|] == n1 && t[..|n2|] == n2;
      assert t[|n1| + 3..] == f1 && t[|n2| + 3..] == f2;
    }
  }

  /** `e` is the one new entry, and it names the file. */
  ghost predicate Adds(d: Disk, d': Disk, e: Entry, file: nat)
  {
    (forall x: Entry :: x in d'.seen && x !in d.seen <==> x == e) && d'.seen[e] == file
  }

  /** A message moved to `new` keeps its name. */
  lemma NewName(s: State, steps: nat)
    requires s.name != ""
    ensures var d, d' := s.disk, Move(s, New, steps).0.disk;
            var a, e := Entry(Tmp, s.name), Entry(New, s.name);
            if steps > 0 && CanLink(d, a, e) then Adds(d, d', e, d.seen[a]) else d'.seen == d.seen
  {
  }

  /** A message moved to `cur` gets `:2,` and its flags behind the name, in ascending order and each once; with an unknown
      flag it is not moved. */
  lemma CurName(s: State, flags: string, t: string, steps: nat)
    requires s.name != "" && Strict(t) && SameLetters(t, flags)
    ensures var (s', r) := MoveToCur(s, flags, steps);
            var d, d' := s.disk, s'.disk;
            var a, e := Entry(Tmp, s.name), Entry(Cur, s.name + ":2," + t);
            if forall c | c in flags :: c in FLAGS then
              if steps > 0 && CanLink(d, a, e) then Adds(d, d', e, d.seen[a]) else d'.seen == d.seen
            else r == UnknownFlag && s' == s
  {
    FlagSuffixExact(flags, t);
    hide FlagSuffix;
  }
}
