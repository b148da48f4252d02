/** What a run does next, as a table over its stages: which answers throw, which command follows, and what becomes of the
    fields. The source spreads this over completion handlers and coroutines (copy/client.cc). */
module Answers {
  import opened Text
  import opened Client
  import opened Commands

  // ---------------------------------------------------------------- one answer

  predicate MayLogin(caps: set<Capability>) { IMAP4rev1 in caps && LOGINDISABLED !in caps }

  /** The stages whose following command names the UIDs held. */
  predicate BeforeStore(c: Core, st: Stage)
  {
    st.CleanupSelect? || (st.Fetching? && c.opts.task.DOWNLOAD? && c.opts.del)
  }

  predicate BeforeExpunge(st: Stage) { st.CleanupStore? || st.Storing? }

  /** The only reasons for an OK to end a run: the login is not possible, or there are no UIDs to name. */
  function Obstacle(c: Core, st: Stage): Option<Error>
  {
    if st.FirstCapability? && IMAP4rev1 !in c.caps then Some(NoImap4rev1)
    else if st.FirstCapability? && LOGINDISABLED in c.caps then Some(LoginDisabled)
    else if BeforeStore(c, st) && c.uids == {} then Some(EmptySequence)
    else if BeforeExpunge(st) && UIDPLUS in c.caps && c.uids == {} then Some(EmptySequence)
    else None
  }

  /** The command of the following stage. */
  function NextCommand(c: Core, st: Stage): Command
  {
    match Following(c, st)
    case FirstCapability => Capabilities
    case LoggingIn => Login
    case SecondCapability => Capabilities
    case CleanupSelect => Select(c.mailbox)
    case CleanupStore => UidStore(c.uids)
    case CleanupExpunge => if UIDPLUS in c.caps then UidExpunge(c.uids) else Expunge
    case Selecting => Select(if st.CleanupExpunge? then c.opts.mailbox else c.mailbox)
    case Fetching => if c.opts.task.LIST? then List else Fetch
    case Storing => UidStore(c.uids)
    case Expunging => if UIDPLUS in c.caps then UidExpunge(c.uids) else Expunge
    case LoggingOut => Logout
    case _ => Logout
  }

  /** The fields behind an OK, but for the commands: a login forgets capabilities and the message count, the end of the
      cleanup and of the task forget the UIDs, the task works on the mailbox of the options, a fetch changes the state
      and so does the end. */
  ghost predicate FieldsFollow(c: Core, c': Core, st: Stage)
  {
    var st' := Following(c, st);
    && c'.opts == c.opts && c'.needCleanup == c.needCleanup && c'.uidvalidity == c.uidvalidity
    && c'.signaled == c.signaled && c'.body == c.body && c'.error == c.error
    && c'.caps == (if st'.LoggingIn? then {} else c.caps)
    && c'.existing == (if st'.LoggingIn? then 0 else c.existing)
    && c'.uids == (if st.CleanupExpunge? || st'.LoggingOut? then {} else c.uids)
    && c'.mailbox == (if st.CleanupExpunge? then c.opts.mailbox else c.mailbox)
    && c'.state == (if st'.Over? then LOGGED_OUT else if st'.Fetching? && !c.opts.task.LIST? then FETCHING else c.state)
  }

  /** A step to `st'` that sends `cmd`; the end of a run sends nothing. */
  ghost predicate Follows(c: Core, c': Core, st': Stage, cmd: Command)
  {
    At(c', st') && c'.line.sent == if st'.Over? then c.line.sent else c.line.sent + [cmd]
  }

  /** The OK throws exactly if there is an obstacle; otherwise the next command is sent and the fields follow. */
  ghost predicate Exactly(c: Core, c': Core, st: Stage)
  {
    && c'.error == Obstacle(c, st)
    && (c'.error.Some? ==> c'.line.sent == c.line.sent)
    && (c'.error.None? ==> FieldsFollow(c, c', st) && c'.line.sent == c.line.sent + Sent(c, st))
  }

  function Sent(c: Core, st: Stage): seq<Command> { if Following(c, st).Over? then [] else [NextCommand(c, st)] }

  lemma FirstAnswer(c: Core, tag: nat)
    requires At(c, FirstCapability) && c.error.None? && tag in c.line.pending
    ensures Exactly(c, OnTagged(c, true, tag), FirstCapability)
  {
    hide At;
    hide Only;
    StageHandler(c, FirstCapability, tag);
    OnlyMeans(c, c.line.pending[tag].command, ToLogin, tag);
    hide OnTagged;
    hide PostLogin;
  }

  lemma LoginAnswer(c: Core, st: Stage, tag: nat)
    requires At(c, st) && c.error.None? && tag in c.line.pending && (st.LoggingIn? || st.SecondCapability?)
    ensures Exactly(c, OnTagged(c, true, tag), st)
  {
    hide At;
    hide Only;
    StageHandler(c, st, tag);
    OnlyMeans(c, c.line.pending[tag].command, c.line.pending[tag].handler, tag);
    var c0 := Free(c);
    assert c0.line.point.Begin?;
    if c.needCleanup || (st.LoggingIn? && c.caps == {}) {
      hide DoTask;
    } else {
      TaskBegins(c0);
      hide DoTask;
    }
    hide OnTagged;
  }

  /** Every task begins with the SELECT. */
  lemma TaskBegins(c: Core)
    requires c.line.point.Begin?
    ensures DoTask(c) == Send(Goto(c, BehindSelect), Select(c.mailbox), HandlerOf(c.opts.task))
  {
    hide Send;
  }

  lemma CleanupAnswer(c: Core, st: Stage, tag: nat)
    requires At(c, st) && c.error.None? && tag in c.line.pending
    requires st.CleanupSelect? || st.CleanupStore? || st.CleanupExpunge?
    ensures Exactly(c, OnTagged(c, true, tag), st)
  {
    hide At;
    StageHandler(c, st, tag);
    AnswerOnly(c, c.line.pending[tag].command, c.line.pending[tag].handler, tag);
  }

  lemma DownloadAnswer(c: Core, st: Stage, tag: nat)
    requires At(c, st) && c.error.None? && tag in c.line.pending && c.opts.task.DOWNLOAD?
    requires st.Selecting? || st.Fetching? || st.LoggingOut?
    ensures Exactly(c, OnTagged(c, true, tag), st)
  {
    hide At;
    hide Only;
    StageHandler(c, st, tag);
    OnlyMeans(c, c.line.pending[tag].command, ToDownload, tag);
    hide OnTagged;
    hide DoFetchHeader;
    hide DoList;
  }

  lemma DeletionAnswer(c: Core, st: Stage, tag: nat)
    requires At(c, st) && c.error.None? && tag in c.line.pending && (st.Storing? || st.Expunging?)
    ensures Exactly(c, OnTagged(c, true, tag), st)
  {
    hide At;
    hide Only;
    StageHandler(c, st, tag);
    OnlyMeans(c, c.line.pending[tag].command, ToDownload, tag);
    hide OnTagged;
    hide DoFetchHeader;
    hide DoList;
  }

  lemma OtherAnswer(c: Core, st: Stage, tag: nat)
    requires At(c, st) && c.error.None? && tag in c.line.pending && !c.opts.task.DOWNLOAD?
    requires st.Selecting? || st.Fetching? || st.Storing? || st.Expunging? || st.LoggingOut?
    ensures Exactly(c, OnTagged(c, true, tag), st)
  {
    hide At;
    hide Only;
    StageHandler(c, st, tag);
    OnlyMeans(c, c.line.pending[tag].command, HandlerOf(c.opts.task), tag);
    hide OnTagged;
    hide DoDownload;
  }

  lemma OnlyMeans(c: Core, cmd: Command, k: Continuation, tag: nat)
    requires Only(c, cmd, k) && tag in c.line.pending
    ensures OnTagged(c, true, tag) == Continue(Free(c), k)
  {
    AnswerOnly(c, cmd, k, tag);
  }

  /** The OK for the outstanding command, in every stage of every task: it throws if and only if there is an obstacle, in
      terms of the fields before it; otherwise the run moves to the following stage, sending exactly the command listed for
      it, and the other fields are as listed. */
  lemma OkExactly(c: Core, st: Stage, tag: nat)
    requires At(c, st) && c.error.None? && tag in c.line.pending
    ensures var c' := OnTagged(c, true, tag);
            && (c'.error.Some? <==> Obstacle(c, st).Some?) && c'.error == Obstacle(c, st)
            && (c'.error.Some? ==> c'.line.sent == c.line.sent)
            && (c'.error.None? ==> At(c', Following(c, st)))
            && (c'.error.None? ==> FieldsFollow(c, c', st))
            && (c'.error.None? ==> c'.line.sent == c.line.sent + Sent(c, st))
  {
    hide Sent;
    hide Obstacle;
    hide FieldsFollow;
    TaggedStage(c, st, tag);
    StageHandler(c, st, tag);
    hide At;
    hide OnTagged;
    if st.FirstCapability? {
      FirstAnswer(c, tag);
    } else if st.LoggingIn? || st.SecondCapability? {
      LoginAnswer(c, st, tag);
    } else if st.CleanupSelect? || st.CleanupStore? || st.CleanupExpunge? {
      CleanupAnswer(c, st, tag);
    } else if st.Storing? || st.Expunging? {
      DeletionAnswer(c, st, tag);
    } else if c.opts.task.DOWNLOAD? {
      DownloadAnswer(c, st, tag);
    } else {
      OtherAnswer(c, st, tag);
    }
  }

  // ---------------------------------------------------------------- every event

  /** When an event throws, and why. */
  function ErrorOf(c: Core, st: Stage, e: Event): Option<Error>
  {
    match e
    case Timer =>
      if c.line.timerFired || c.caps == {} then None
      else if IMAP4rev1 !in c.caps then Some(NoImap4rev1)
      else if LOGINDISABLED in c.caps then Some(LoginDisabled) else None
    case Signal => if c.signaled then Some(SecondSignal) else None
    case Tagged(ok, tag) =>
      if !ok then Some(CommandFailed)
      else if st.Waiting? || st.Over? || tag + 1 != c.line.nextTag then Some(UnknownTag)
      else Obstacle(c, st)
    case SectionEmpty => if c.state.FETCHING? && c.opts.task.FETCH_HEADER? then Some(BodyInHeaderTask) else None
    case BodyInner => if c.state.FETCHING? && c.body.fullBody && c.body.tmpName then Some(TmpNotDelivered) else None
    case BodyEnd(move) =>
      if !c.state.FETCHING? || !c.body.fullBody then None
      else if !c.body.tmpName then Some(NoTmpName)
      else if !move.Moved? then Some(DiskError) else None
    case FetchEnd => if c.body.lastUid == 0 then Some(NoUid) else None
    case _ => None
  }

  lemma TagKnown(c: Core, st: Stage, tag: nat)
    requires At(c, st)
    ensures tag in c.line.pending <==> !st.Waiting? && !st.Over? && tag + 1 == c.line.nextTag
  {
  }

  /** In every stage, every event throws exactly if it is listed to, and for the listed reason. */
  lemma ThrowsExactly(c: Core, st: Stage, e: Event)
    requires At(c, st) && c.error.None?
    ensures Handle(c, e).error == ErrorOf(c, st, e)
  {
    if e.Tagged? {
      TagKnown(c, st, e.tag);
      if e.ok && e.tag in c.line.pending {
        OkExactly(c, st, e.tag);
        hide Obstacle;
      }
      hide At;
      hide Continue;
    } else {
      hide At;
      hide Obstacle;
    }
  }

  /** The first firing of the timer asks for capabilities if none were heard, and logs in otherwise, by what was heard. */
  lemma TimerExactly(c: Core, st: Stage)
    requires At(c, st) && c.error.None?
    ensures var c' := OnTimer(c);
            && (c.line.timerFired ==> c' == c)
            && (!c.line.timerFired && c'.error.None? ==>
                  && At(c', if c.caps == {} then FirstCapability else LoggingIn)
                  && c'.line.sent == c.line.sent + [if c.caps == {} then Capabilities else Login]
                  && c' == c.(line := c'.line, caps := {}, existing := if c.caps == {} then c.existing else 0))
  {
    hide At;
    TimerStage(c, st);
  }

  // ---------------------------------------------------------------- which mailbox is selected

  function Selections(cmds: seq<Command>): seq<string>
  {
    if cmds == [] then []
    else Selections(cmds[..|cmds| - 1]) + if cmds[|cmds| - 1].Select? then [cmds[|cmds| - 1].mailbox] else []
  }

  lemma SelectionsAppend(cmds: seq<Command>, cmd: Command)
    ensures Selections(cmds + [cmd]) == Selections(cmds) + if cmd.Select? then [cmd.mailbox] else []
  {
    assert (cmds + [cmd])[..|cmds|] == cmds;
  }

  predicate InTask(st: Stage)
  {
    st.Selecting? || st.Fetching? || st.Storing? || st.Expunging? || st.LoggingOut? || st.Over?
  }

  predicate BehindCleanupSelect(st: Stage)
  {
    st.CleanupSelect? || st.CleanupStore? || st.CleanupExpunge? || InTask(st)
  }

  /** The mailbox of the journal for the cleanup, if there is one. */
  function CleanupMailbox(journal: Option<Journal>): seq<string> { if journal.Some? then [journal.value.mailbox] else [] }

  /** What a run has selected in a stage. */
  function SelectedAt(opts: Options, journal: Option<Journal>, st: Stage): seq<string>
  {
    (if BehindCleanupSelect(st) then CleanupMailbox(journal) else []) + if InTask(st) then [opts.mailbox] else []
  }

  ghost predicate Where(opts: Options, journal: Option<Journal>, c: Core, st: Stage)
  {
    && At(c, st) && c.opts == opts && (c.needCleanup <==> journal.Some?)
    && c.mailbox == (if InTask(st) || journal.None? then opts.mailbox else journal.value.mailbox)
    && Selections(c.line.sent) == SelectedAt(opts, journal, st)
    && (st.Over? ==> c.state.LOGGED_OUT?)
  }

  lemma QuietState(c: Core, e: Event)
    requires !e.Timer? && !e.Tagged?
    ensures Handle(c, e).state == c.state || Handle(c, e).state.LOGGED_OUT?
  {
  }

  lemma StartWhere(opts: Options, journal: Option<Journal>)
    ensures Where(opts, journal, Startup(opts, journal), Waiting)
  {
  }

  lemma TaggedWhere(opts: Options, journal: Option<Journal>, c: Core, st: Stage, tag: nat)
    requires Where(opts, journal, c, st) && c.error.None? && tag in c.line.pending && OnTagged(c, true, tag).error.None?
    ensures Where(opts, journal, OnTagged(c, true, tag), Following(c, st))
  {
    StageHandler(c, st, tag);
    OkExactly(c, st, tag);
    CleanupOnly(c, st);
    FollowingTask(c, st);
    SelectedNext(opts, journal, c, st);
    hide At;
    hide Only;
    hide OnTagged;
    hide Selections;
    hide Obstacle;
    hide Following;
    hide NextCommand;
    hide SelectedAt;
  }

  lemma SelectedNext(opts: Options, journal: Option<Journal>, c: Core, st: Stage)
    requires !st.Waiting? && !st.Over? && c.opts == opts && (c.needCleanup <==> journal.Some?)
    requires c.mailbox == (if InTask(st) || journal.None? then opts.mailbox else journal.value.mailbox)
    requires st.CleanupSelect? || st.CleanupStore? || st.CleanupExpunge? ==> c.needCleanup
    requires Selections(c.line.sent) == SelectedAt(opts, journal, st)
    ensures Selections(c.line.sent + Sent(c, st)) == SelectedAt(opts, journal, Following(c, st))
  {
    var st' := Following(c, st);
    FollowingTask(c, st);
    NextSelect(c, st);
    var cmd, cmds := NextCommand(c, st), c.line.sent;
    assert Sent(c, st) == if st'.Over? then [] else [cmd];
    hide NextCommand;
    hide Following;
    hide Sent;
    SelectionsAppend(cmds, cmd);
    hide Selections;
    if st'.Over? {
      assert cmds + [] == cmds;
    } else if st'.CleanupSelect? {
      CleanupSelected(opts, journal, st, st', cmd.mailbox);
    } else if st'.Selecting? {
      TaskSelected(opts, journal, st, st');
    } else {
      assert Selections(cmds) + [] == Selections(cmds);
    }
  }

  lemma CleanupSelected(opts: Options, journal: Option<Journal>, st: Stage, st': Stage, mb: string)
    requires !BehindCleanupSelect(st) && st'.CleanupSelect? && journal.Some? && mb == journal.value.mailbox
    ensures SelectedAt(opts, journal, st) + [mb] == SelectedAt(opts, journal, st')
  {
    assert SelectedAt(opts, journal, st) == [] && SelectedAt(opts, journal, st') == [mb];
  }

  lemma TaskSelected(opts: Options, journal: Option<Journal>, st: Stage, st': Stage)
    requires !InTask(st) && st'.Selecting? && (BehindCleanupSelect(st) || journal.None?)
    ensures SelectedAt(opts, journal, st) + [opts.mailbox] == SelectedAt(opts, journal, st')
  {
    assert SelectedAt(opts, journal, st) == CleanupMailbox(journal);
  }

  lemma NextSelect(c: Core, st: Stage)
    requires !st.Waiting? && !st.Over?
    ensures NextCommand(c, st).Select? <==> Following(c, st).Selecting? || Following(c, st).CleanupSelect?
    ensures NextCommand(c, st).Select? ==>
              NextCommand(c, st).mailbox == if st.CleanupExpunge? then c.opts.mailbox else c.mailbox
  {
  }

  /** The task follows the login or the cleanup. */
  lemma FollowingTask(c: Core, st: Stage)
    requires !st.Waiting? && !st.Over?
    ensures InTask(Following(c, st)) <==>
      InTask(st) || st.CleanupExpunge? || (!c.needCleanup && (st.SecondCapability? || (st.LoggingIn? && c.caps != {})))
    ensures Following(c, st).Selecting? <==> InTask(Following(c, st)) && !InTask(st)
    ensures Following(c, st).CleanupSelect? <==> c.needCleanup && (st.SecondCapability? || (st.LoggingIn? && c.caps != {}))
    ensures BehindCleanupSelect(Following(c, st)) <==> BehindCleanupSelect(st) || Following(c, st).CleanupSelect? || Following(c, st).Selecting?
  {
  }

  /** Cleanup stages are for runs that read a journal. */
  lemma CleanupOnly(c: Core, st: Stage)
    requires At(c, st)
    ensures st.CleanupSelect? || st.CleanupStore? || st.CleanupExpunge? ==> c.needCleanup
  {
  }

  lemma TimedWhere(opts: Options, journal: Option<Journal>, c: Core, st: Stage) returns (st': Stage)
    requires Where(opts, journal, c, st) && c.error.None? && OnTimer(c).error.None?
    ensures Where(opts, journal, OnTimer(c), st')
  {
    TimerExactly(c, st);
    st' := if c.line.timerFired then st else if c.caps == {} then FirstCapability else LoggingIn;
    TimerWhere(c, st);
    hide At;
    hide OnTimer;
    hide Selections;
    SelectionsAppend(c.line.sent, if c.caps == {} then Capabilities else Login);
  }

  lemma QuietWhere(opts: Options, journal: Option<Journal>, c: Core, st: Stage, e: Event)
    requires Where(opts, journal, c, st) && !e.Timer? && !e.Tagged?
    ensures Where(opts, journal, Handle(c, e), st)
  {
    QuietSame(c, e);
    QuietState(c, e);
    hide Handle;
    StageKept(c, Handle(c, e), st);
    hide At;
    hide Selections;
  }

  lemma EventWhere(opts: Options, journal: Option<Journal>, c: Core, st: Stage, e: Event) returns (st': Stage)
    requires Where(opts, journal, c, st) && c.error.None? && Handle(c, e).error.None?
    ensures Where(opts, journal, Handle(c, e), st')
    ensures e.Tagged? ==> st' == Following(c, st)
  {
    hide Where;
    hide OnTimer;
    hide OnTagged;
    if e.Tagged? {
      TaggedFails(c, e.ok, e.tag);
      TaggedWhere(opts, journal, c, st, e.tag);
      st' := Following(c, st);
    } else if e.Timer? {
      st' := TimedWhere(opts, journal, c, st);
    } else {
      hide Handle;
      QuietWhere(opts, journal, c, st, e);
      st' := st;
    }
  }

  lemma TimerWhere(c: Core, st: Stage)
    requires At(c, st)
    ensures !c.line.timerFired ==> st.Waiting?
  {
  }

  /** The stage of every run of every task, up to its first throw. */
  lemma {:induction false} RunWhere(opts: Options, journal: Option<Journal>, es: seq<Event>) returns (st: Stage)
    requires Run(Startup(opts, journal), es).error.None?
    ensures Where(opts, journal, Run(Startup(opts, journal), es), st)
  {
    hide Handle;
    hide Where;
    if es == [] {
      st := Waiting;
      StartWhere(opts, journal);
    } else {
      var init, e := es[..|es| - 1], es[|es| - 1];
      var c := Run(Startup(opts, journal), init);
      if c.error.Some? { ThrownStays(c, e); }
      st := RunWhere(opts, journal, init);
      st := EventWhere(opts, journal, c, st, e);
    }
  }

  /** In every run of every task, whatever arrives: the mailboxes selected are that of the journal first, if one was read,
      and then that of the options, each at most once. */
  lemma {:induction false} SelectsNamed(opts: Options, journal: Option<Journal>, es: seq<Event>)
    ensures Selections(Run(Startup(opts, journal), es).line.sent) <= CleanupMailbox(journal) + [opts.mailbox]
  {
    var c := Run(Startup(opts, journal), es);
    if c.error.None? {
      var st := RunWhere(opts, journal, es);
    } else if es != [] {
      var init, e := es[..|es| - 1], es[|es| - 1];
      SelectsNamed(opts, journal, init);
      ThrowSendsNothing(opts, journal, init, e);
    }
  }

  lemma ThrowSendsNothing(opts: Options, journal: Option<Journal>, init: seq<Event>, e: Event)
    requires Handle(Run(Startup(opts, journal), init), e).error.Some?
    ensures Handle(Run(Startup(opts, journal), init), e).line.sent == Run(Startup(opts, journal), init).line.sent
  {
    hide Handle;
    hide At;
    var c := Run(Startup(opts, journal), init);
    if c.error.Some? {
      ThrownStays(c, e);
    } else {
      var st := RunWhere(opts, journal, init);
      HandleStage(c, st, e);
    }
  }

  /** In every run of every task, a command is sent for a mailbox of which the latest SELECT is: in the cleanup that of the
      journal, behind it that of the options. */
  lemma CleanupThenTask(opts: Options, journal: Option<Journal>, es: seq<Event>, st: Stage)
    requires var c := Run(Startup(opts, journal), es); c.error.None? && At(c, st) && !st.Waiting?
    ensures Selections(Run(Startup(opts, journal), es).line.sent) == SelectedAt(opts, journal, st)
  {
    var st' := RunWhere(opts, journal, es);
    StagesDiffer(Run(Startup(opts, journal), es), st, st');
  }

  lemma StagesDiffer(c: Core, st: Stage, st': Stage)
    requires At(c, st) && At(c, st')
    ensures BehindCleanupSelect(st) == BehindCleanupSelect(st') && InTask(st) == InTask(st')
  {
    StageShows(c, st);
    StageShows(c, st');
    hide At;
  }

  predicate CleaningUp(c: Core)
  {
    exists t :: t in c.line.pending
      && (c.line.pending[t].handler.ToCleanupStore? || c.line.pending[t].handler.ToCleanupExpunge?
          || c.line.pending[t].handler.ToCleanupFinish?)
  }

  /** The point and the continuation show how far a run is. */
  lemma StageShows(c: Core, st: Stage)
    requires At(c, st)
    ensures InTask(st) <==> !c.line.point.Begin?
    ensures BehindCleanupSelect(st) <==> !c.line.point.Begin? || CleaningUp(c)
  {
    if st.CleanupSelect? || st.CleanupStore? || st.CleanupExpunge? { assert c.line.nextTag - 1 in c.line.pending; }
  }

  /** A run whose LOGOUT was answered is logged out, and stays so. */
  lemma OverLoggedOut(opts: Options, journal: Option<Journal>, es: seq<Event>)
    requires var c := Run(Startup(opts, journal), es); c.error.None? && At(c, Over)
    ensures Run(Startup(opts, journal), es).state.LOGGED_OUT?
  {
    var st := RunWhere(opts, journal, es);
    assert st.Over?;
  }

  // ---------------------------------------------------------------- whether there is anything to fetch

  /** The message count announced at position `j`, behind the login, is the latest one. */
  ghost predicate CountInForce(c0: Core, es: seq<Event>, j: nat)
  {
    j < |es| && es[j].Exists? && LoggedIn(Run(c0, es[..j])) && forall k | j < k < |es| :: !es[k].Exists?
  }

  lemma QuietCount(c: Core, e: Event)
    requires !e.Timer? && !e.Tagged?
    ensures Handle(c, e).existing == if e.Exists? && c.error.None? then e.n else c.existing
    ensures Handle(c, e).line == c.line
  {
  }

  lemma TimerCount(c: Core)
    requires c.error.None? && OnTimer(c).error.None?
    ensures OnTimer(c).line.sent == c.line.sent + [Login] || OnTimer(c).existing == c.existing
    ensures c.line.sent <= OnTimer(c).line.sent
  {
  }

  /** The count changes only when it is announced, and at a login. */
  lemma CountKept(c: Core, st: Stage, e: Event)
    requires At(c, st) && c.error.None? && Handle(c, e).error.None? && !e.Exists?
    ensures Handle(c, e).line.sent == c.line.sent + [Login] || Handle(c, e).existing == c.existing
    ensures c.line.sent <= Handle(c, e).line.sent
  {
    if e.Timer? {
      TimerCount(c);
    } else if e.Tagged? {
      TaggedFails(c, e.ok, e.tag);
      OkExactly(c, st, e.tag);
      hide OnTagged;
      hide At;
    } else {
      QuietCount(c, e);
      hide Handle;
    }
  }

  /** Behind the login, the client goes by the latest count announced since, and by zero if there was none. */
  lemma {:induction false} CountHeard(opts: Options, journal: Option<Journal>, es: seq<Event>) returns (j: nat)
    requires var c := Run(Startup(opts, journal), es); opts.task.DOWNLOAD? && c.error.None? && LoggedIn(c)
    ensures var c0 := Startup(opts, journal);
            && (Run(c0, es).existing != 0 ==> CountInForce(c0, es, j))
            && (forall i: nat | CountInForce(c0, es, i) :: es[i].n == Run(c0, es).existing)
  {
    hide Handle;
    hide At;
    var c0 := Startup(opts, journal);
    var init, e := es[..|es| - 1], es[|es| - 1];
    var c := Run(c0, init);
    if c.error.Some? { ThrownStays(c, e); }
    var st := RunWhere(opts, journal, init);
    j := 0;
    assert es == init + [e];
    hide CountInForce;
    if e.Exists? {
      QuietCount(c, e);
      j := |init|;
      CountNew(c0, es);
    } else {
      CountKept(c, st, e);
      if LoggedIn(c) {
        CountPlace(c0, init);
        if Handle(c, e).line.sent == c.line.sent + [Login] { LoginOnce(opts, journal, init, e); }
        j := CountHeard(opts, journal, init);
        CountStays(c0, init, e);
      } else {
        NoCountYet(opts, journal, init, e);
      }
    }
  }

  lemma CountStays(c0: Core, init: seq<Event>, e: Event)
    requires !e.Exists?
    ensures forall i: nat :: CountInForce(c0, init + [e], i) <==> CountInForce(c0, init, i)
  {
    hide LoggedIn;
    hide Run;
    var es := init + [e];
    forall i: nat ensures CountInForce(c0, es, i) <==> CountInForce(c0, init, i) {
      if i < |init| {
        assert es[..i] == init[..i] && es[i] == init[i];
        if CountInForce(c0, es, i) {
          forall k | i < k < |init| ensures !init[k].Exists? { assert es[k] == init[k]; }
        }
        if CountInForce(c0, init, i) {
          forall k | i < k < |es| ensures !es[k].Exists? { if k < |init| { assert es[k] == init[k]; } }
        }
      }
    }
  }

  lemma CountPlace(c0: Core, es: seq<Event>)
    ensures forall i: nat | CountInForce(c0, es, i) :: i < |es|
  {
  }

  /** A count announced now is the only one in force. */
  lemma CountNew(c0: Core, es: seq<Event>)
    requires es != [] && es[|es| - 1].Exists?
    ensures forall i: nat | CountInForce(c0, es, i) :: i == |es| - 1
    ensures LoggedIn(Run(c0, es[..|es| - 1])) ==> CountInForce(c0, es, |es| - 1)
  {
  }

  /** Nothing was announced behind a login that is sent only now. */
  lemma NoCountYet(opts: Options, journal: Option<Journal>, init: seq<Event>, e: Event)
    requires var c := Run(Startup(opts, journal), init);
             c.error.None? && !LoggedIn(c) && !e.Exists? && Handle(c, e).error.None? && LoggedIn(Handle(c, e))
    ensures Handle(Run(Startup(opts, journal), init), e).existing == 0
    ensures forall i: nat :: !CountInForce(Startup(opts, journal), init + [e], i)
  {
    hide Handle;
    hide At;
    var c0 := Startup(opts, journal);
    var c := Run(c0, init);
    var st := RunWhere(opts, journal, init);
    LoginZero(c, st, e);
    forall i: nat ensures !CountInForce(c0, init + [e], i) {
      if i <= |init| {
        assert (init + [e])[..i] == init[..i] && init[..|init|] == init;
        SentGrows(opts, journal, init, i);
      }
    }
  }

  lemma LoginZero(c: Core, st: Stage, e: Event)
    requires At(c, st) && c.error.None? && Handle(c, e).error.None? && !LoggedIn(c) && LoggedIn(Handle(c, e))
    ensures Handle(c, e).existing == 0
  {
    if e.Timer? {
      TimerExactly(c, st);
    } else if e.Tagged? {
      TaggedFails(c, e.ok, e.tag);
      OkExactly(c, st, e.tag);
      hide OnTagged;
      hide At;
    } else {
      QuietCount(c, e);
      hide Handle;
    }
  }

  lemma {:induction false} SentGrows(opts: Options, journal: Option<Journal>, es: seq<Event>, i: nat)
    requires i <= |es| && Run(Startup(opts, journal), es).error.None?
    ensures LoggedIn(Run(Startup(opts, journal), es[..i])) ==> LoggedIn(Run(Startup(opts, journal), es))
  {
    hide Handle;
    hide At;
    if i == |es| {
      assert es[..i] == es;
    } else {
      var init, e := es[..|es| - 1], es[|es| - 1];
      var c := Run(Startup(opts, journal), init);
      if c.error.Some? { ThrownStays(c, e); }
      assert init[..i] == es[..i];
      SentGrows(opts, journal, init, i);
      var st := RunWhere(opts, journal, init);
      if e.Exists? { QuietCount(c, e); } else { CountKept(c, st, e); }
    }
  }

  /** A download whose SELECT is answered with OK sends FETCH if and only if the latest message count announced since the
      login is not zero, and LOGOUT if it is, or if there was none. */
  lemma FetchExactly(opts: Options, journal: Option<Journal>, es: seq<Event>, tag: nat)
    requires opts.task.DOWNLOAD?
    requires var c := Run(Startup(opts, journal), es);
             c.error.None? && At(c, Selecting) && LoggedIn(c) && tag in c.line.pending
    ensures var c0 := Startup(opts, journal);
            var c, c' := Run(c0, es), Run(c0, es + [Tagged(true, tag)]);
            && c'.error.None?
            && c'.line.sent == c.line.sent
                 + [if exists j: nat :: CountInForce(c0, es, j) && es[j].n != 0 then Fetch else Logout]
  {
    hide At;
    hide OnTagged;
    var c0, e := Startup(opts, journal), Tagged(true, tag);
    var c := Run(c0, es);
    assert (es + [e])[..|es|] == es;
    OkExactly(c, Selecting, tag);
    var st := RunWhere(opts, journal, es);
    SelectingSends(c);
    hide Obstacle;
    hide Sent;
    hide FieldsFollow;
    hide Handle;
    assert Run(c0, es + [e]) == OnTagged(c, true, tag) by { RunNext(c0, es, tag); }
    hide Run;
    hide Where;
    hide CountInForce;
    var j := CountHeard(opts, journal, es);
    if c.existing != 0 { assert CountInForce(c0, es, j) && es[j].n != 0; }
  }

  lemma RunNext(c0: Core, es: seq<Event>, tag: nat)
    requires Run(c0, es).error.None?
    ensures Run(c0, es + [Tagged(true, tag)]) == OnTagged(Run(c0, es), true, tag)
  {
    hide OnTagged;
    assert (es + [Tagged(true, tag)])[..|es|] == es;
  }

  lemma SelectingSends(c: Core)
    requires c.opts.task.DOWNLOAD?
    ensures Obstacle(c, Selecting).None? && Sent(c, Selecting) == [if c.existing != 0 then Fetch else Logout]
  {
  }

  /** When a download waits for its SELECT, it has logged in. */
  lemma SelectBehindLogin(opts: Options, journal: Option<Journal>, es: seq<Event>)
    requires var c := Run(Startup(opts, journal), es); opts.task.DOWNLOAD? && c.error.None? && At(c, Selecting)
    ensures LoggedIn(Run(Startup(opts, journal), es))
  {
    hide At;
    var c := Run(Startup(opts, journal), es);
    var p, st := RunFits(opts, journal, es);
    SelectingOnly(c, st);
    var i := LoginFirst(p);
    assert Kinds(c.line.sent)[i] == KindOf(c.line.sent[i]);
  }

  lemma SelectingOnly(c: Core, st: Stage)
    requires At(c, Selecting) && At(c, st)
    ensures st.Selecting?
  {
  }

  lemma LoginFirst(p: Plan) returns (i: nat)
    ensures i < |SentAt(p, Selecting)| && SentAt(p, Selecting)[i] == KLogin
  {
    i := if p.first then 1 else 0;
    assert LoginPart(p)[i] == KLogin;
  }
}
