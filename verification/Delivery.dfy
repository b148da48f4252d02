/** The client on top of the maildir: what the handlers of a body do to names and files. */
module Delivery {
  import opened Text
  import C = Client
  import M = Maildir

  /** The client knows of a pending name exactly when the maildir has one. */
  predicate Coupled(c: C.Core, s: M.State) { c.body.tmpName <==> s.name != "" }

  /** The move of `imap_body_section_end`: to `new` without flags, else to `cur`. */
  function Deliver(s: M.State, flags: string, steps: nat): (M.State, M.Outcome)
  {
    if flags == "" then M.Move(s, M.New, steps) else M.MoveToCur(s, flags, steps)
  }

  function FlagsOf(flags: string): string
  {
    var f := M.FlagSuffix(flags);
    if f.Some? then f.value else ""
  }

  /** Where the message is to go. */
  function Destination(s: M.State, flags: string): M.Entry
  {
    if flags == "" then M.Target(s, M.New)
    else M.Target(s.(flags := FlagsOf(flags)), M.Cur)
  }

  /** How the move went, as the client sees it. */
  function Seen(s: M.State, s': M.State, r: M.Outcome): C.Move
  {
    if r == M.Done then C.Moved else if s'.disk.seen == s.disk.seen then C.NotLinked else C.LinkedOnly
  }

  lemma NameNotEmpty(time: nat, pid: nat, delivery: nat, random: nat, host: string)
    ensures M.TmpName(time, pid, delivery, random, host) != ""
  {
  }

  /** The start of a full body: the client throws exactly when the maildir does, and both know of the new name. */
  lemma BodyInner(c: C.Core, s: M.State, time: nat, random: nat)
    requires Coupled(c, s) && c.error.None? && c.state.FETCHING? && c.body.fullBody
    ensures var (s', r) := M.CreateTmpName(s, time, random);
            var c' := C.OnBodyInner(c);
            && (r.NotDelivered? <==> c'.error == Some(C.TmpNotDelivered)) && (r.Created? <==> c'.error.None?)
            && Coupled(c', s')
  {
    NameNotEmpty(time, s.pid, s.delivery, random, s.host);
  }

  /** The end of a full body, with the flags that the server sent: the maildir never refuses the flags, the client throws
      exactly when the maildir does, and unless nothing was linked, the file is at its destination, where there was none
      before. Nothing is linked if the first system call fails, as it does without the file or with the name taken. */
  lemma BodyEnd(c: C.Core, s: M.State, fs: seq<M.ImapFlag>, steps: nat)
    requires Coupled(c, s) && c.error.None? && c.state.FETCHING? && c.body.fullBody
    ensures var (s', r) := Deliver(s, M.Letters(fs), steps);
            var move := Seen(s, s', r);
            var c' := C.OnBodyEnd(c, move);
            var a, b := M.Entry(M.Tmp, s.name), Destination(s, M.Letters(fs));
            && !r.UnknownFlag? && (r.Done? <==> c'.error.None?) && (r.NoTmpName? <==> c'.error == Some(C.NoTmpName))
            && (r.SystemError? <==> c'.error == Some(C.DiskError))
            && Coupled(c', s') && !b.dir.Tmp? && s'.name == (if r.Done? then "" else s.name)
            && (s.name != "" ==> (!move.NotLinked? <==> steps > 0 && M.CanLink(s.disk, a, b)))
            && (s.name != "" && !move.NotLinked? ==>
                  b !in s.disk.seen && b in s'.disk.seen && s'.disk.seen[b] == s.disk.seen[a])
            && (forall e | e in s.disk.seen && !e.dir.Tmp? :: e in s'.disk.seen && s'.disk.seen[e] == s.disk.seen[e])
  {
    var flags := M.Letters(fs);
    M.ServerFlagsAccepted(fs);
    var s1, dir := if flags == "" then s else s.(flags := M.FlagSuffix(flags).value), if flags == "" then M.New else M.Cur;
    assert Deliver(s, flags, steps) == M.Move(s1, dir, steps) && M.Target(s1, dir) == Destination(s, flags);
    hide M.FlagSuffix;
    hide M.Letters;
    hide Deliver;
    hide Destination;
    MoveFacts(s1, dir, steps);
  }

  lemma MoveFacts(s: M.State, dir: M.Dir, steps: nat)
    requires !dir.Tmp?
    ensures var (s', r) := M.Move(s, dir, steps);
            var a, b := M.Entry(M.Tmp, s.name), M.Target(s, dir);
            && (r.NoTmpName? <==> s.name == "") && (r.Done? <==> s.name != "" && M.CanLink(s.disk, a, b) && steps >= 3)
            && (r.NoTmpName? || r.Done? || r.SystemError?)
            && (s'.name == if r.Done? then "" else s.name)
            && (s'.disk.seen == s.disk.seen <==> s.name == "" || steps == 0 || !M.CanLink(s.disk, a, b))
            && (s'.disk.seen != s.disk.seen ==> b in s'.disk.seen && s'.disk.seen[b] == s.disk.seen[a])
            && (forall e | e in s.disk.seen && !e.dir.Tmp? :: e in s'.disk.seen && s'.disk.seen[e] == s.disk.seen[e])
  {
    var a, b := M.Entry(M.Tmp, s.name), M.Target(s, dir);
    if s.name != "" && M.CanLink(s.disk, a, b) {
      M.CutKeepsMessage(s.disk, a, b, if steps < 3 then steps else 3);
    }
  }

  /** The letter stands for a flag that the server sent. */
  predicate LetterOf(fs: seq<M.ImapFlag>, c: char)
  {
    (c == 'R' && M.ANSWERED in fs) || (c == 'S' && M.SEEN in fs) || (c == 'F' && M.FLAGGED in fs) || (c == 'D' && M.DRAFT in fs)
  }

  /** The flags of a response as the suffix of a name: the letters that stand for them, ascending, each once. */
  ghost predicate Suffix(fs: seq<M.ImapFlag>, t: string) { M.Strict(t) && forall c :: c in t <==> LetterOf(fs, c) }

  /** The name that a message gets, written out: without flags that have a letter the one new entry is the unique name in
      `new`; otherwise it is, in `cur`, the unique name, `:2,` and the letters. */
  lemma DeliveredName(s: M.State, fs: seq<M.ImapFlag>, t: string, steps: nat)
    requires s.name != "" && Suffix(fs, t)
    ensures var d, d' := s.disk, Deliver(s, M.Letters(fs), steps).0.disk;
            var a, e := M.Entry(M.Tmp, s.name), if t == "" then M.Entry(M.New, s.name) else M.Entry(M.Cur, s.name + ":2," + t);
            if steps > 0 && M.CanLink(d, a, e) then M.Adds(d, d', e, d.seen[a]) else d'.seen == d.seen
  {
    var flags := M.Letters(fs);
    M.LettersMean(fs);
    hide M.Letters;
    assert t == "" || t[0] in t;
    assert flags == "" || flags[0] in flags;
    assert M.SameLetters(t, flags);
    if flags == "" {
      M.NewName(s, steps);
    } else {
      M.CurName(s, flags, t, steps);
    }
  }

  /** Two messages delivered under one entry have the same unique name and the same flags. */
  lemma DeliveredNamesInjective(s1: M.State, fs1: seq<M.ImapFlag>, s2: M.State, fs2: seq<M.ImapFlag>, f: M.ImapFlag)
    requires M.Clean(s1.name) && M.Clean(s2.name)
    requires Destination(s1, M.Letters(fs1)) == Destination(s2, M.Letters(fs2))
    ensures s1.name == s2.name && (f.RECENT? || f.DELETED? || (f in fs1 <==> f in fs2))
  {
    var t1 := SuffixOf(s1, fs1);
    var t2 := SuffixOf(s2, fs2);
    M.EntriesInjective(s1.name, t1, s2.name, t2);
    hide Destination;
    hide M.Letters;
    assert forall c :: LetterOf(fs1, c) <==> LetterOf(fs2, c);
    assert LetterOf(fs1, 'R') <==> LetterOf(fs2, 'R');
    assert LetterOf(fs1, 'S') <==> LetterOf(fs2, 'S');
    assert LetterOf(fs1, 'F') <==> LetterOf(fs2, 'F');
    assert LetterOf(fs1, 'D') <==> LetterOf(fs2, 'D');
  }

  lemma SuffixOf(s: M.State, fs: seq<M.ImapFlag>) returns (t: string)
    ensures Suffix(fs, t) && Destination(s, M.Letters(fs)) == M.EntryFor(s.name, t)
  {
    var flags := M.Letters(fs);
    M.LettersMean(fs);
    M.ServerFlagsAccepted(fs);
    t := FlagsOf(flags);
    M.FlagSuffixExact(flags, t);
    assert t == "" || t[0] in t;
    assert flags == "" || flags[0] in flags;
    hide M.Letters;
    hide M.FlagSuffix;
  }
}
