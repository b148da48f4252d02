/** The client on top of the tag table: its numbered commands are the tagged commands of imap/client_base.cc. */
module Session {
  import opened Text
  import C = Client
  import Commands
  import T = Tags

  /** The text of the tag with number `n`. */
  function TagOf(n: nat): string { T.TagText("A", 3, n) }

  function WrittenAs(cmd: C.Command): T.Command
  {
    match cmd
    case Capabilities => T.CAPABILITY
    case Login => T.LOGIN
    case Select(_) => T.SELECT
    case Fetch => T.FETCH
    case UidStore(_) => T.UID_STORE
    case UidExpunge(_) => T.UID_EXPUNGE
    case Expunge => T.EXPUNGE
    case List => T.LIST
    case Logout => T.LOGOUT
  }

  /** A number for each completion handler. */
  function HandlerId(k: C.Continuation): nat
  {
    match k
    case ToLogin => 0
    case ToCapabilities => 1
    case ToPostLogin => 2
    case ToCleanupStore => 3
    case ToCleanupExpunge => 4
    case ToCleanupFinish => 5
    case ToDownload => 6
    case ToFetchHeader => 7
    case ToList => 8
  }

  /** The calls of the base object that one event leads to: the answer first, then the command sent, if any. */
  function Calls(c: C.Core, e: Commands.Event): seq<T.BaseEvent>
  {
    var c' := Commands.Handle(c, e);
    (if e.Tagged? then [T.Tagged(e.ok, TagOf(e.tag))] else [])
    + (if |c'.line.sent| > |c.line.sent| && c'.line.nextTag > 0 && c'.line.nextTag - 1 in c'.line.pending
       then [SendOf(c'.line.pending[c'.line.nextTag - 1])] else [])
  }

  function SendOf(p: C.Pending): T.BaseEvent { T.Send(WrittenAs(p.command), HandlerId(p.handler)) }

  function Trace(c: C.Core, es: seq<Commands.Event>): seq<T.BaseEvent>
  {
    if es == [] then [] else Trace(c, es[..|es| - 1]) + Calls(Commands.Run(c, es[..|es| - 1]), es[|es| - 1])
  }

  /** The table of numbered commands is the table of tags with its continuations. */
  ghost predicate Coupled(line: C.Line, b: T.Base)
  {
    && !b.failed && T.TagInv(b.tags) && b.tags.prefix == "A" && b.tags.width == 3 && b.tags.value == line.nextTag
    && (forall n | n in line.pending ::
          && TagOf(n) in b.tags.table && b.tags.table[TagOf(n)] == WrittenAs(line.pending[n].command)
          && TagOf(n) in b.waiting && b.waiting[TagOf(n)] == HandlerId(line.pending[n].handler))
    && (forall t | t in b.tags.table || t in b.waiting :: T.Serial("A", t) in line.pending && t == TagOf(T.Serial("A", t)))
  }

  lemma SerialOf(n: nat)
    ensures T.Serial("A", TagOf(n)) == n
  {
    T.SerialOfTag("A", 3, n);
  }

  lemma AnswerStep(b: T.Base, tag: string)
    requires !b.failed && T.TagInv(b.tags) && tag in b.tags.table && tag in b.waiting
    ensures var b' := T.BaseStep(b, T.Tagged(true, tag));
            && !b'.failed && T.TagInv(b'.tags) && b'.tags.table == b.tags.table - {tag} && b'.waiting == b.waiting - {tag}
            && b'.tags.prefix == b.tags.prefix && b'.tags.width == b.tags.width && b'.tags.value == b.tags.value
            && b'.ran == b.ran + [(tag, b.waiting[tag])]
  {
    hide T.PopTag;
    hide T.TagInv;
    T.PopKeepsInv(b.tags, tag);
  }

  lemma TagsDiffer(n: nat)
    ensures forall m: nat | m != n :: TagOf(m) != TagOf(n)
  {
    hide TagOf;
    forall m: nat | m != n ensures TagOf(m) != TagOf(n) {
      SerialOf(m);
      SerialOf(n);
    }
  }

  /** The answer to a pending command runs its continuation and takes it off both tables. */
  lemma AnswerCoupled(line: C.Line, b: T.Base, n: nat)
    requires Coupled(line, b) && n in line.pending
    ensures var b' := T.BaseStep(b, T.Tagged(true, TagOf(n)));
            && Coupled(line.(pending := line.pending - {n}), b')
            && b'.ran == b.ran + [(TagOf(n), HandlerId(line.pending[n].handler))]
  {
    hide TagOf;
    hide T.TagInv;
    hide T.Serial;
    hide T.BaseStep;
    AnswerStep(b, TagOf(n));
    TagsDiffer(n);
    SerialOf(n);
  }

  /** With nothing outstanding, sending gives the next number and the next tag. */
  lemma SendCoupled(line: C.Line, b: T.Base, p: C.Pending)
    requires Coupled(line, b) && line.pending == map[]
    ensures var b' := T.BaseStep(b, SendOf(p));
            forall l: C.Line | l.nextTag == line.nextTag + 1 && l.pending == map[line.nextTag := p] :: Coupled(l, b')
  {
    hide TagOf;
    hide T.TagInv;
    hide T.Serial;
    var c := WrittenAs(p.command);
    T.NextKeepsInv(b.tags, c);
    NothingActive(b.tags);
    var tag := T.NextTag(b.tags, c).1.tag;
    IssuedText(b.tags, c);
    SerialOf(line.nextTag);
  }

  lemma NothingActive(s: T.TagState)
    requires T.TagInv(s) && forall t :: t !in s.table
    ensures s.active == {}
  {
  }

  lemma IssuedText(s: T.TagState, c: T.Command)
    requires T.TagInv(s) && c !in s.active && s.prefix == "A" && s.width == 3
    ensures T.NextTag(s, c).1 == T.Issued(TagOf(s.value))
  {
    T.NextText(s);
    T.NextKeepsInv(s, c);
  }

  // ---------------------------------------------------------------- whole runs

  function Steps(b: T.Base, bs: seq<T.BaseEvent>): T.Base
  {
    if bs == [] then b else T.BaseStep(Steps(b, bs[..|bs| - 1]), bs[|bs| - 1])
  }

  lemma StepsFew(b: T.Base, x: T.BaseEvent, y: T.BaseEvent)
    ensures Steps(b, []) == b && Steps(b, [x]) == T.BaseStep(b, x)
    ensures Steps(b, [x] + [y]) == T.BaseStep(T.BaseStep(b, x), y)
  {
    hide T.BaseStep;
    assert [x][..0] == [] && ([x] + [y])[..1] == [x];
    assert Steps(b, [x]) == T.BaseStep(Steps(b, []), x);
  }

  lemma {:induction false} StepsConcat(xs: seq<T.BaseEvent>, bs: seq<T.BaseEvent>)
    ensures T.BaseRun(xs + bs) == Steps(T.BaseRun(xs), bs)
  {
    hide T.BaseStep;
    if bs == [] {
      assert xs + bs == xs;
    } else {
      StepsConcat(xs, bs[..|bs| - 1]);
      assert (xs + bs)[..|xs + bs| - 1] == xs + bs[..|bs| - 1];
    }
  }

  /** The stage reached has its one command on the table. */
  lemma StageTable(c: C.Core, c': C.Core, st: Commands.Stage)
    requires Commands.Moved(c, c', st) && c'.error.None?
    ensures st.Over? ==> c'.line.pending == map[] && c'.line.nextTag == c.line.nextTag && c'.line.sent == c.line.sent
    ensures !st.Over? ==> c'.line.nextTag == c.line.nextTag + 1 && |c'.line.sent| == |c.line.sent| + 1
    ensures !st.Over? ==> c.line.nextTag in c'.line.pending && c'.line.pending == map[c.line.nextTag := c'.line.pending[c.line.nextTag]]
  {
    if !st.Over? {
      hide Commands.At;
      Commands.StageHandler(c', st, c.line.nextTag);
    }
  }

  lemma AnswerEvent(c: C.Core, st: Commands.Stage, tag: nat, b: T.Base)
    requires Commands.At(c, st) && c.error.None? && tag in c.line.pending && Coupled(c.line, b)
    requires Commands.Handle(c, Commands.Tagged(true, tag)).error.None?
    ensures Coupled(Commands.Handle(c, Commands.Tagged(true, tag)).line, Steps(b, Calls(c, Commands.Tagged(true, tag))))
  {
    hide Coupled;
    hide T.BaseStep;
    hide Commands.At;
    hide Commands.Moved;
    hide C.OnTagged;
    hide Commands.Following;
    hide TagOf;
    var e := Commands.Tagged(true, tag);
    var c' := Commands.Handle(c, e);
    assert c' == C.OnTagged(c, true, tag);
    Commands.TaggedStage(c, st, tag);
    StageTable(c, c', Commands.Following(c, st));
    OnlyOne(c, st, tag);
    var free := c.line.(pending := c.line.pending - {tag});
    assert free.pending == map[];
    AnswerCoupled(c.line, b, tag);
    var b1 := T.BaseStep(b, T.Tagged(true, TagOf(tag)));
    if Commands.Following(c, st).Over? {
      StepsFew(b, T.Tagged(true, TagOf(tag)), T.Tagged(true, TagOf(tag)));
      TableMatters(free, c'.line, b1);
    } else {
      var p := c'.line.pending[c.line.nextTag];
      StepsFew(b, T.Tagged(true, TagOf(tag)), SendOf(p));
      SendCoupled(free, b1, p);
    }
  }

  lemma OnlyOne(c: C.Core, st: Commands.Stage, tag: nat)
    requires Commands.At(c, st) && tag in c.line.pending
    ensures c.line.pending - {tag} == map[]
  {
    hide Commands.At;
    Commands.StageHandler(c, st, tag);
  }

  lemma TableMatters(l: C.Line, l': C.Line, b: T.Base)
    requires Coupled(l, b) && l'.pending == l.pending && l'.nextTag == l.nextTag
    ensures Coupled(l', b)
  {
  }

  lemma NothingYet(c: C.Core, st: Commands.Stage)
    requires Commands.At(c, st)
    ensures !c.line.timerFired ==> c.line.pending == map[]
  {
  }

  lemma TimerEvent(c: C.Core, st: Commands.Stage, b: T.Base)
    requires Commands.At(c, st) && c.error.None? && Coupled(c.line, b)
    requires Commands.Handle(c, Commands.Timer).error.None?
    ensures Coupled(Commands.Handle(c, Commands.Timer).line, Steps(b, Calls(c, Commands.Timer)))
  {
    hide Coupled;
    hide T.BaseStep;
    hide Commands.Moved;
    hide C.OnTimer;
    var c' := Commands.Handle(c, Commands.Timer);
    assert c' == C.OnTimer(c);
    Commands.TimerStage(c, st);
    NothingYet(c, st);
    hide Commands.At;
    hide Commands.Handle;
    if !c.line.timerFired {
      var st' := if c.caps == {} then Commands.FirstCapability else Commands.LoggingIn;
      StageTable(c, c', st');
      var p := c'.line.pending[c.line.nextTag];
      StepsFew(b, SendOf(p), SendOf(p));
      SendCoupled(c.line, b, p);
    }
  }

  /** What one event that does not throw does to both tables. */
  lemma EventCoupled(c: C.Core, st: Commands.Stage, e: Commands.Event, b: T.Base)
    requires Commands.At(c, st) && c.error.None? && Commands.Handle(c, e).error.None? && Coupled(c.line, b)
    ensures Coupled(Commands.Handle(c, e).line, Steps(b, Calls(c, e)))
  {
    hide Coupled;
    hide Commands.At;
    if e.Timer? {
      hide Commands.Handle;
      TimerEvent(c, st, b);
    } else if e.Tagged? {
      hide C.OnTagged;
      Commands.TaggedFails(c, e.ok, e.tag);
      assert Commands.Handle(c, e) == C.OnTagged(c, e.ok, e.tag);
      AnswerEvent(c, st, e.tag, b);
    } else {
      hide Commands.Handle;
      Commands.QuietSame(c, e);
    }
  }

  /** In every run, up to the first throw: the base object never throws, in particular no command is ever found still
      active and no tag unknown, and its table of tags and continuations is the client's. */
  lemma {:induction false} RunCoupled(opts: C.Options, journal: Option<C.Journal>, es: seq<Commands.Event>) returns (st: Commands.Stage)
    requires Commands.Run(C.Startup(opts, journal), es).error.None?
    ensures var c := Commands.Run(C.Startup(opts, journal), es);
            Commands.At(c, st) && Coupled(c.line, T.BaseRun(Trace(C.Startup(opts, journal), es)))
  {
    var c0 := C.Startup(opts, journal);
    if es == [] {
      st := Commands.Waiting;
    } else {
      hide Commands.At;
      hide Coupled;
      hide Calls;
      hide Commands.Handle;
      var init, e := es[..|es| - 1], es[|es| - 1];
      var c := Commands.Run(c0, init);
      if c.error.Some? { Commands.ThrownStays(c, e); }
      st := RunCoupled(opts, journal, init);
      EventCoupled(c, st, e, T.BaseRun(Trace(c0, init)));
      StepsConcat(Trace(c0, init), Calls(c, e));
      Commands.HandleStage(c, st, e);
      st := if Commands.At(Commands.Handle(c, e), st) then st else Commands.StageAfter(c, st, e);
      MovedAt(c, Commands.Handle(c, e));
    }
  }

  lemma MovedAt(c: C.Core, c': C.Core)
    ensures forall st :: Commands.Moved(c, c', st) && c'.error.None? ==> Commands.At(c', st)
  {
  }
}
