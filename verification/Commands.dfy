/** The order of the commands that a run sends (copy/client.cc), for every sequence of callbacks. */
module Commands {
  import opened Text
  import opened Client

  datatype Event =
    | Timer | Signal | Tagged(ok: bool, tag: nat)
    | CapabilityBegin | CapabilityItem(x: Capability) | Exists(n: nat) | UidValidity(n: nat)
    | FetchBegin | Uid(n: nat) | SectionEmpty | BodyInner | BodyEnd(move: Move) | FetchEnd

  /** Dispatch of one event; after a throw nothing is handled any more. */
  function Handle(c: Core, e: Event): Core
  {
    if c.error.Some? then c
    else match e
      case Timer => OnTimer(c)
      case Signal => OnSignal(c)
      case Tagged(ok, tag) => OnTagged(c, ok, tag)
      case CapabilityBegin => OnCapabilityBegin(c)
      case CapabilityItem(x) => OnCapability(c, x)
      case Exists(n) => OnExists(c, n)
      case UidValidity(n) => OnUidValidity(c, n)
      case FetchBegin => OnFetchBegin(c)
      case Uid(n) => OnUid(c, n)
      case SectionEmpty => OnSectionEmpty(c)
      case BodyInner => OnBodyInner(c)
      case BodyEnd(move) => OnBodyEnd(c, move)
      case FetchEnd => OnFetchEnd(c)
  }

  function Run(c: Core, es: seq<Event>): Core
  {
    if es == [] then c else Handle(Run(c, es[..|es| - 1]), es[|es| - 1])
  }

  // ---------------------------------------------------------------- where a run stands

  /** Which command is outstanding. */
  datatype Stage =
    | Waiting | FirstCapability | LoggingIn | SecondCapability
    | CleanupSelect | CleanupStore | CleanupExpunge
    | Selecting | Fetching | Storing | Expunging | LoggingOut | Over

  function HandlerOf(t: Task): Continuation
  {
    match t case DOWNLOAD => ToDownload case FETCH_HEADER => ToFetchHeader case LIST => ToList
  }

  /** The tag table holds this one command, under the latest tag. */
  predicate Only(c: Core, cmd: Command, k: Continuation)
  {
    c.line.nextTag > 0 && c.line.pending == map[c.line.nextTag - 1 := Pending(cmd, k)]
  }

  predicate At(c: Core, st: Stage)
  {
    match st
    case Waiting => !c.line.timerFired && c.line.pending == map[] && c.line.point.Begin? && c.line.sent == []
    case FirstCapability => c.line.timerFired && c.line.point.Begin? && Only(c, Capabilities, ToLogin)
    case LoggingIn => c.line.timerFired && c.line.point.Begin? && Only(c, Login, ToCapabilities)
    case SecondCapability => c.line.timerFired && c.line.point.Begin? && Only(c, Capabilities, ToPostLogin)
    case CleanupSelect => c.line.timerFired && c.line.point.Begin? && c.needCleanup && Only(c, Select(c.mailbox), ToCleanupStore)
    case CleanupStore => c.line.timerFired && c.line.point.Begin? && c.needCleanup && OnlyStore(c, ToCleanupExpunge)
    case CleanupExpunge => c.line.timerFired && c.line.point.Begin? && c.needCleanup && OnlyExpunge(c, ToCleanupFinish)
    case Selecting => c.line.timerFired && c.line.point.BehindSelect? && Only(c, Select(c.mailbox), HandlerOf(c.opts.task))
    case Fetching =>
      c.line.timerFired && c.line.point.BehindFetch? && Only(c, if c.opts.task.LIST? then List else Fetch, HandlerOf(c.opts.task))
    case Storing => c.line.timerFired && c.line.point.BehindStore? && c.opts.task.DOWNLOAD? && c.opts.del && OnlyStore(c, ToDownload)
    case Expunging =>
      c.line.timerFired && c.line.point.BehindExpunge? && c.opts.task.DOWNLOAD? && c.opts.del && OnlyExpunge(c, ToDownload)
    case LoggingOut => c.line.timerFired && c.line.point.BehindLogout? && Only(c, Logout, HandlerOf(c.opts.task))
    case Over => c.line.timerFired && c.line.point.Done? && c.line.pending == map[]
  }

  predicate OnlyStore(c: Core, k: Continuation)
  {
    c.line.nextTag > 0 && c.line.nextTag - 1 in c.line.pending
    && c.line.pending[c.line.nextTag - 1].command.UidStore? && Only(c, c.line.pending[c.line.nextTag - 1].command, k)
  }

  predicate OnlyExpunge(c: Core, k: Continuation)
  {
    c.line.nextTag > 0 && c.line.nextTag - 1 in c.line.pending
    && (c.line.pending[c.line.nextTag - 1].command.UidExpunge? || c.line.pending[c.line.nextTag - 1].command.Expunge?)
    && Only(c, c.line.pending[c.line.nextTag - 1].command, k)
  }

  /** The stage behind login, which depends on whether a journal was read. */
  function AfterLogin(c: Core): Stage { if c.needCleanup then CleanupSelect else Selecting }

  /** The stage behind the OK for the outstanding command. */
  function Following(c: Core, st: Stage): Stage
  {
    match st
    case Waiting => Waiting
    case FirstCapability => LoggingIn
    case LoggingIn => if c.caps == {} then SecondCapability else AfterLogin(c)
    case SecondCapability => AfterLogin(c)
    case CleanupSelect => CleanupStore
    case CleanupStore => CleanupExpunge
    case CleanupExpunge => Selecting
    case Selecting => if c.opts.task.DOWNLOAD? && c.existing == 0 then LoggingOut else Fetching
    case Fetching => if c.opts.task.DOWNLOAD? && c.opts.del then Storing else LoggingOut
    case Storing => Expunging
    case Expunging => LoggingOut
    case LoggingOut => Over
    case Over => Over
  }

  function StageAfter(c: Core, st: Stage, e: Event): Stage
  {
    match e
    case Timer => if c.line.timerFired then st else if c.caps == {} then FirstCapability else LoggingIn
    case Tagged(_, _) => Following(c, st)
    case _ => st
  }

  /** A step that ends in stage `st`: it sends the command of that stage, or throws and sends nothing. */
  ghost predicate Moved(c: Core, c': Core, st: Stage)
  {
    if c'.error.Some? then c'.line.sent == c.line.sent
    else
      && At(c', st)
      && if st.Over? then c'.line.sent == c.line.sent && c'.line.nextTag == c.line.nextTag
         else
           && c'.line.nextTag == c.line.nextTag + 1 && c.line.nextTag in c'.line.pending
           && c'.line.sent == c.line.sent + [c'.line.pending[c.line.nextTag].command]
  }

  lemma AnswerOnly(c: Core, cmd: Command, k: Continuation, tag: nat)
    requires Only(c, cmd, k) && tag in c.line.pending
    ensures OnTagged(c, true, tag) == Continue(Free(c), k)
  {
    assert c.line.pending - {tag} == map[];
  }

  /** The client with the answered command taken off the table. */
  function Free(c: Core): Core { c.(line := c.line.(pending := map[])) }

  /** A state between an answer and the next command. */
  ghost predicate Between(c: Core) { c.line.pending == map[] && c.line.timerFired && c.error.None? }

  /** The parts of the client that the order of commands depends on. */
  ghost predicate SameCommands(c: Core, c': Core)
  {
    c'.opts == c.opts && c'.line == c.line && c'.needCleanup == c.needCleanup && c'.mailbox == c.mailbox
  }

  lemma StageKept(c: Core, c': Core, st: Stage)
    requires At(c, st) && SameCommands(c, c')
    ensures At(c', st)
  {
  }

  /** Sending when nothing is outstanding. */
  lemma SendOne(c: Core, cmd: Command, k: Continuation)
    requires c.line.pending == map[]
    ensures var c' := Send(c, cmd, k);
            && Only(c', cmd, k) && c.line.nextTag in c'.line.pending && c'.line.pending[c.line.nextTag] == Pending(cmd, k)
            && c'.line.sent == c.line.sent + [cmd] && c'.line.nextTag == c.line.nextTag + 1
            && c'.error == c.error && c'.line.point == c.line.point && c'.line.timerFired == c.line.timerFired && c'.mailbox == c.mailbox
            && c'.opts == c.opts && c'.needCleanup == c.needCleanup
  {
  }

  lemma SelectStage(c: Core)
    requires Between(c) && c.line.point.Begin?
    ensures Moved(c, DoTask(c), Selecting)
  {
    hide Send;
    hide Only;
    SendOne(Goto(c, BehindSelect), Select(c.mailbox), HandlerOf(c.opts.task));
  }

  lemma PostLoginStage(c: Core)
    requires Between(c) && c.line.point.Begin?
    ensures Moved(c, PostLogin(c), AfterLogin(c))
  {
    hide Send;
    hide Only;
    hide DoTask;
    if c.needCleanup { SendOne(c, Select(c.mailbox), ToCleanupStore); } else { SelectStage(c); }
  }

  lemma LoginStage(c: Core, k: Continuation)
    requires Between(c) && c.line.point.Begin?
    ensures k.ToLogin? ==> Moved(c, Continue(c, k), LoggingIn)
    ensures k.ToCapabilities? ==> Moved(c, Continue(c, k), if c.caps == {} then SecondCapability else AfterLogin(c))
    ensures k.ToPostLogin? ==> Moved(c, Continue(c, k), AfterLogin(c))
  {
    hide PostLogin;
    hide Send;
    hide Only;
    PostLoginStage(c);
    SendOne(c.(caps := {}, existing := 0), Login, ToCapabilities);
    SendOne(c, Capabilities, ToPostLogin);
  }

  lemma StoreStage(c: Core, k: Continuation, st: Stage)
    requires Between(c)
    requires (st.CleanupStore? && k.ToCleanupExpunge? && c.line.point.Begin? && c.needCleanup)
             || (st.Storing? && k.ToDownload? && c.line.point.BehindStore? && c.opts.task.DOWNLOAD? && c.opts.del)
    ensures Moved(c, AsyncStore(c, k), st)
  {
    hide Send;
    hide Only;
    SendOne(c, UidStore(c.uids), k);
  }

  lemma ExpungeStage(c: Core, k: Continuation, st: Stage)
    requires Between(c)
    requires (st.CleanupExpunge? && k.ToCleanupFinish? && c.line.point.Begin? && c.needCleanup)
             || (st.Expunging? && k.ToDownload? && c.line.point.BehindExpunge? && c.opts.task.DOWNLOAD? && c.opts.del)
    ensures Moved(c, AsyncExpunge(c, k), st)
  {
    hide Send;
    hide Only;
    SendOne(c, UidExpunge(c.uids), k);
    SendOne(c, Expunge, k);
  }

  lemma CleanupEndStage(c: Core)
    requires Between(c) && c.line.point.Begin?
    ensures Moved(c, CleanupFinish(c), Selecting)
  {
    hide DoTask;
    SelectStage(c.(uids := {}, mailbox := c.opts.mailbox));
  }

  lemma LogoutStage(c: Core)
    requires Between(c)
    ensures Moved(c, LeaveTask(c, HandlerOf(c.opts.task)), LoggingOut)
  {
    hide Send;
    hide Only;
    SendOne(Goto(c.(uids := {}), BehindLogout), Logout, HandlerOf(c.opts.task));
  }

  lemma FetchStage(c: Core)
    requires Between(c)
    ensures Moved(c, Send(Goto(c.(state := FETCHING), BehindFetch), Fetch, HandlerOf(c.opts.task)), Fetching)
            || c.opts.task.LIST?
    ensures Moved(c, Send(Goto(c, BehindFetch), List, HandlerOf(c.opts.task)), Fetching) || !c.opts.task.LIST?
  {
    hide Send;
    hide Only;
    SendOne(Goto(c.(state := FETCHING), BehindFetch), Fetch, HandlerOf(c.opts.task));
    SendOne(Goto(c, BehindFetch), List, HandlerOf(c.opts.task));
  }

  lemma DownloadStage(c: Core)
    requires Between(c) && c.opts.task.DOWNLOAD?
    ensures c.line.point.BehindSelect? ==> Moved(c, DoDownload(c), if c.existing == 0 then LoggingOut else Fetching)
    ensures c.line.point.BehindFetch? ==> Moved(c, DoDownload(c), if c.opts.del then Storing else LoggingOut)
    ensures c.line.point.BehindStore? && c.opts.del ==> Moved(c, DoDownload(c), Expunging)
    ensures c.line.point.BehindExpunge? ==> Moved(c, DoDownload(c), LoggingOut)
    ensures c.line.point.BehindLogout? ==> Moved(c, DoDownload(c), Over)
  {
    hide Send;
    hide AsyncStore;
    hide AsyncExpunge;
    hide LeaveTask;
    LogoutStage(c);
    FetchStage(c);
    if c.line.point.BehindFetch? && c.opts.del {
      StoreStage(Goto(c, BehindStore), ToDownload, Storing);
    } else if c.line.point.BehindStore? && c.opts.del {
      ExpungeStage(Goto(c, BehindExpunge), ToDownload, Expunging);
    }
  }

  lemma OtherTaskStage(c: Core)
    requires Between(c) && !c.opts.task.DOWNLOAD?
    ensures var c' := DoTask(c);
            && (c.line.point.BehindSelect? ==> Moved(c, c', Fetching))
            && (c.line.point.BehindFetch? ==> Moved(c, c', LoggingOut))
            && (c.line.point.BehindLogout? ==> Moved(c, c', Over))
  {
    hide Send;
    hide LeaveTask;
    LogoutStage(c);
    FetchStage(c);
  }

  /** The continuation that belongs to a stage. */
  function StageContinuation(t: Task, st: Stage): Continuation
  {
    match st
    case FirstCapability => ToLogin
    case LoggingIn => ToCapabilities
    case SecondCapability => ToPostLogin
    case CleanupSelect => ToCleanupStore
    case CleanupStore => ToCleanupExpunge
    case CleanupExpunge => ToCleanupFinish
    case _ => HandlerOf(t)
  }

  lemma StageHandler(c: Core, st: Stage, tag: nat)
    requires At(c, st) && tag in c.line.pending
    ensures c.line.nextTag > 0 && tag == c.line.nextTag - 1 && Only(c, c.line.pending[tag].command, StageContinuation(c.opts.task, st))
    ensures c.line.timerFired && !st.Waiting? && !st.Over? && c.line.pending[tag].handler == StageContinuation(c.opts.task, st)
    ensures (st.FirstCapability? || st.LoggingIn? || st.SecondCapability?) ==> c.line.point.Begin?
    ensures (st.CleanupSelect? || st.CleanupStore? || st.CleanupExpunge?) ==> c.line.point.Begin?
    ensures st.CleanupSelect? || st.CleanupStore? || st.CleanupExpunge? ==> c.needCleanup
    ensures (st.Selecting? ==> c.line.point.BehindSelect?) && (st.Fetching? ==> c.line.point.BehindFetch?)
    ensures st.Storing? ==> c.line.point.BehindStore? && c.opts.task.DOWNLOAD? && c.opts.del
    ensures st.Expunging? ==> c.line.point.BehindExpunge? && c.opts.task.DOWNLOAD?
    ensures st.LoggingOut? ==> c.line.point.BehindLogout?
  {
  }

  lemma ContinueMeans(c: Core)
    ensures Continue(c, HandlerOf(c.opts.task)) == DoTask(c)
    ensures Continue(c, ToDownload) == DoDownload(c)
    ensures Continue(c, ToCleanupStore) == AsyncStore(c, ToCleanupExpunge)
    ensures Continue(c, ToCleanupExpunge) == AsyncExpunge(c, ToCleanupFinish)
    ensures Continue(c, ToCleanupFinish) == CleanupFinish(c)
  {
  }

  /** An OK for the outstanding command takes the run to the following stage. */
  lemma TaggedStage(c: Core, st: Stage, tag: nat)
    requires At(c, st) && tag in c.line.pending && c.error.None?
    ensures Moved(c, OnTagged(c, true, tag), Following(c, st))
  {
    hide Moved;
    hide OnTagged;
    hide Continue;
    hide DoTask;
    hide DoDownload;
    hide AsyncStore;
    hide AsyncExpunge;
    hide CleanupFinish;
    hide At;
    hide Only;
    StageHandler(c, st, tag);
    var p := c.line.pending[c.line.nextTag - 1];
    AnswerOnly(c, p.command, p.handler, tag);
    var c0 := Free(c);
    AnswerBase(c, c0, OnTagged(c, true, tag), Following(c, st));
    ContinueMeans(c0);
    if st.FirstCapability? || st.LoggingIn? || st.SecondCapability? {
      LoginStage(c0, p.handler);
    } else if st.CleanupSelect? {
      StoreStage(c0, ToCleanupExpunge, CleanupStore);
    } else if st.CleanupStore? {
      ExpungeStage(c0, ToCleanupFinish, CleanupExpunge);
    } else if st.CleanupExpunge? {
      CleanupEndStage(c0);
    } else if c.opts.task.DOWNLOAD? {
      DownloadStage(c0);
    } else {
      OtherTaskStage(c0);
    }
  }

  /** What was pending before does not matter for a move. */
  lemma AnswerBase(c: Core, c0: Core, c': Core, st: Stage)
    requires c0 == Free(c)
    ensures Moved(c0, c', st) ==> Moved(c, c', st)
  {
  }

  lemma TimerStage(c: Core, st: Stage)
    requires At(c, st) && c.error.None?
    ensures if c.line.timerFired then OnTimer(c) == c
            else Moved(c, OnTimer(c), if c.caps == {} then FirstCapability else LoggingIn)
  {
    hide Send;
    hide Only;
    if !c.line.timerFired {
      var c1 := c.(line := c.line.(timerFired := true));
      SendOne(c1, Capabilities, ToLogin);
      SendOne(c1.(caps := {}, existing := 0), Login, ToCapabilities);
    }
  }

  /** All other handlers leave the commands alone. */
  lemma QuietHandlers(c: Core, x: Capability, n: nat, m: Move)
    ensures SameCommands(c, OnSignal(c))
    ensures SameCommands(c, OnCapabilityBegin(c))
    ensures SameCommands(c, OnCapability(c, x))
    ensures SameCommands(c, OnExists(c, n))
    ensures SameCommands(c, OnUidValidity(c, n))
    ensures SameCommands(c, OnFetchBegin(c))
    ensures SameCommands(c, OnUid(c, n))
    ensures SameCommands(c, OnSectionEmpty(c))
    ensures SameCommands(c, OnBodyInner(c))
    ensures SameCommands(c, OnBodyEnd(c, m))
    ensures SameCommands(c, OnFetchEnd(c))
  {
  }

  lemma QuietSame(c: Core, e: Event)
    requires !e.Timer? && !e.Tagged?
    ensures SameCommands(c, Handle(c, e))
  {
    hide SameCommands;
    hide OnSignal;
    hide OnCapabilityBegin;
    hide OnCapability;
    hide OnExists;
    hide OnUidValidity;
    hide OnFetchBegin;
    hide OnUid;
    hide OnSectionEmpty;
    hide OnBodyInner;
    hide OnBodyEnd;
    hide OnFetchEnd;
    QuietHandlers(c, if e.CapabilityItem? then e.x else Other(0),
                  if e.Exists? || e.UidValidity? || e.Uid? then e.n else 0, if e.BodyEnd? then e.move else Move.Moved);
    Unchanged(c);
  }

  lemma Unchanged(c: Core)
    ensures SameCommands(c, c)
  {
  }

  /** How one event may change the stage. */
  ghost predicate StageStep(c: Core, c': Core, st: Stage, e: Event)
  {
    || (c'.error.Some? && c'.line.sent == c.line.sent)
    || (c'.line.sent == c.line.sent && At(c', st))
    || (Active(c, e) && Moved(c, c', StageAfter(c, st, e)))
  }

  /** The first firing of the login timer, or an answer to an outstanding command. */
  predicate Active(c: Core, e: Event)
  {
    (e.Timer? && !c.line.timerFired) || (e.Tagged? && e.tag in c.line.pending)
  }

  /** One event, in any state of a run that has not thrown. */
  lemma HandleStage(c: Core, st: Stage, e: Event)
    requires At(c, st) && c.error.None?
    ensures StageStep(c, Handle(c, e), st, e)
  {
    hide At;
    hide Moved;
    if e.Timer? {
      hide OnTimer;
      TimerStage(c, st);
      assert Handle(c, e) == OnTimer(c);
    } else if e.Tagged? {
      hide OnTagged;
      TaggedFails(c, e.ok, e.tag);
      assert Handle(c, e) == OnTagged(c, e.ok, e.tag);
      if e.ok && e.tag in c.line.pending { TaggedStage(c, st, e.tag); }
    } else {
      hide Handle;
      QuietSame(c, e);
      StageKept(c, Handle(c, e), st);
    }
  }

  lemma TaggedFails(c: Core, ok: bool, tag: nat)
    ensures !ok || tag !in c.line.pending ==> OnTagged(c, ok, tag).error.Some? && OnTagged(c, ok, tag).line.sent == c.line.sent
  {
  }

  // ---------------------------------------------------------------- the command language of a download

  datatype Kind = KCapability | KLogin | KSelect | KFetch | KStore | KUidExpunge | KExpunge | KList | KLogout

  function KindOf(cmd: Command): Kind
  {
    match cmd
    case Capabilities => KCapability
    case Login => KLogin
    case Select(_) => KSelect
    case Fetch => KFetch
    case UidStore(_) => KStore
    case UidExpunge(_) => KUidExpunge
    case Expunge => KExpunge
    case List => KList
    case Logout => KLogout
  }

  function Kinds(cmds: seq<Command>): seq<Kind> { seq(|cmds|, i requires 0 <= i < |cmds| => KindOf(cmds[i])) }

  /** The choices that the command language leaves open. */
  datatype Plan = Plan(first: bool, second: bool, cleanup: Option<Kind>, fetched: bool, deleted: Option<Kind>)

  predicate ValidPlan(p: Plan)
  {
    && (p.cleanup.Some? ==> p.cleanup.value == KUidExpunge || p.cleanup.value == KExpunge)
    && (p.deleted.Some? ==> p.deleted.value == KUidExpunge || p.deleted.value == KExpunge)
  }

  function Optional(b: bool, k: Kind): seq<Kind> { if b then [k] else [] }

  function Deletion(k: Option<Kind>): seq<Kind> { if k.Some? then [KStore, k.value] else [] }

  /** [CAPABILITY] LOGIN [CAPABILITY] */
  function LoginPart(p: Plan): seq<Kind> { Optional(p.first, KCapability) + [KLogin] + Optional(p.second, KCapability) }

  /** [SELECT STORE EXPUNGE] */
  function CleanupPart(p: Plan): seq<Kind> { if p.cleanup.Some? then [KSelect] + Deletion(p.cleanup) else [] }

  /** SELECT [FETCH [STORE EXPUNGE]] */
  function TaskPart(p: Plan): seq<Kind>
  {
    [KSelect] + if p.fetched then [KFetch] + Deletion(p.deleted) else []
  }

  function Word(p: Plan): seq<Kind> { LoginPart(p) + CleanupPart(p) + TaskPart(p) + [KLogout] }

  /** What has been sent when a stage is reached. */
  function SentAt(p: Plan, st: Stage): seq<Kind>
  {
    match st
    case Waiting => []
    case FirstCapability => [KCapability]
    case LoggingIn => Optional(p.first, KCapability) + [KLogin]
    case SecondCapability => Optional(p.first, KCapability) + [KLogin] + [KCapability]
    case CleanupSelect => LoginPart(p) + [KSelect]
    case CleanupStore => LoginPart(p) + [KSelect] + [KStore]
    case CleanupExpunge => LoginPart(p) + CleanupPart(p)
    case Selecting => LoginPart(p) + CleanupPart(p) + [KSelect]
    case Fetching => LoginPart(p) + CleanupPart(p) + [KSelect] + [KFetch]
    case Storing => LoginPart(p) + CleanupPart(p) + [KSelect] + [KFetch] + [KStore]
    case Expunging => LoginPart(p) + CleanupPart(p) + TaskPart(p)
    case LoggingOut => Word(p)
    case Over => Word(p)
  }

  /** The choices that a stage has already made. */
  predicate PlanAt(p: Plan, st: Stage)
  {
    && ValidPlan(p)
    && (st.FirstCapability? ==> p.first)
    && (st.SecondCapability? ==> p.second)
    && (st.CleanupExpunge? ==> p.cleanup.Some?)
    && (st.Expunging? ==> p.fetched && p.deleted.Some?)
  }

  ghost predicate Fits(cmds: seq<Command>, p: Plan, st: Stage) { PlanAt(p, st) && Kinds(cmds) == SentAt(p, st) }

  /** The plan behind a move from `st` to `st'` that sent a command of kind `k`. */
  function Extend(p: Plan, st: Stage, st': Stage, k: Kind): Plan
  {
    match st'
    case FirstCapability => p.(first := true)
    case LoggingIn => p.(first := st.FirstCapability?)
    case SecondCapability => p.(second := true)
    case CleanupSelect => p.(second := st.SecondCapability?)
    case CleanupExpunge => p.(cleanup := Some(k))
    case Selecting => if st.CleanupExpunge? then p else p.(second := st.SecondCapability?, cleanup := None)
    case Expunging => p.(fetched := true, deleted := Some(k))
    case LoggingOut =>
      if st.Selecting? then p.(fetched := false) else if st.Fetching? then p.(fetched := true, deleted := None) else p
    case _ => p
  }

  /** The moves that a download makes, with the kind of the command sent. */
  predicate Succeeds(st: Stage, st': Stage, k: Kind)
  {
    match st'
    case FirstCapability => st.Waiting? && k == KCapability
    case LoggingIn => (st.Waiting? || st.FirstCapability?) && k == KLogin
    case SecondCapability => st.LoggingIn? && k == KCapability
    case CleanupSelect => (st.LoggingIn? || st.SecondCapability?) && k == KSelect
    case CleanupStore => st.CleanupSelect? && k == KStore
    case CleanupExpunge => st.CleanupStore? && (k == KUidExpunge || k == KExpunge)
    case Selecting => (st.LoggingIn? || st.SecondCapability? || st.CleanupExpunge?) && k == KSelect
    case Fetching => st.Selecting? && k == KFetch
    case Storing => st.Fetching? && k == KStore
    case Expunging => st.Storing? && (k == KUidExpunge || k == KExpunge)
    case LoggingOut => (st.Selecting? || st.Fetching? || st.Expunging?) && k == KLogout
    case _ => false
  }

  lemma ExtendLogin(p: Plan, st: Stage, st': Stage, k: Kind)
    requires PlanAt(p, st) && Succeeds(st, st', k)
    requires st'.FirstCapability? || st'.LoggingIn? || st'.SecondCapability? || st'.CleanupSelect?
    ensures PlanAt(Extend(p, st, st', k), st')
    ensures SentAt(Extend(p, st, st', k), st') == SentAt(p, st) + [k]
  {
  }

  lemma ExtendCleanup(p: Plan, st: Stage, st': Stage, k: Kind)
    requires PlanAt(p, st) && Succeeds(st, st', k)
    requires st'.CleanupStore? || st'.CleanupExpunge? || st'.Selecting?
    ensures PlanAt(Extend(p, st, st', k), st')
    ensures SentAt(Extend(p, st, st', k), st') == SentAt(p, st) + [k]
  {
  }

  lemma ExtendTask(p: Plan, st: Stage, st': Stage, k: Kind)
    requires PlanAt(p, st) && Succeeds(st, st', k)
    requires st'.Fetching? || st'.Storing? || st'.Expunging?
    ensures PlanAt(Extend(p, st, st', k), st')
    ensures SentAt(Extend(p, st, st', k), st') == SentAt(p, st) + [k]
  {
    var q := Extend(p, st, st', k);
    assert LoginPart(q) == LoginPart(p) && CleanupPart(q) == CleanupPart(p);
    hide LoginPart;
    hide CleanupPart;
  }

  lemma ExtendLogout(p: Plan, st: Stage, k: Kind)
    requires PlanAt(p, st) && Succeeds(st, LoggingOut, k)
    ensures PlanAt(Extend(p, st, LoggingOut, k), LoggingOut)
    ensures SentAt(Extend(p, st, LoggingOut, k), LoggingOut) == SentAt(p, st) + [k]
  {
    var q := Extend(p, st, LoggingOut, k);
    assert LoginPart(q) == LoginPart(p) && CleanupPart(q) == CleanupPart(p);
    hide LoginPart;
    hide CleanupPart;
  }

  lemma ExtendFits(p: Plan, st: Stage, st': Stage, k: Kind)
    requires PlanAt(p, st) && Succeeds(st, st', k)
    ensures PlanAt(Extend(p, st, st', k), st')
    ensures SentAt(Extend(p, st, st', k), st') == SentAt(p, st) + [k]
  {
    hide PlanAt;
    hide SentAt;
    hide Extend;
    if st'.FirstCapability? || st'.LoggingIn? || st'.SecondCapability? || st'.CleanupSelect? {
      ExtendLogin(p, st, st', k);
    } else if st'.CleanupStore? || st'.CleanupExpunge? || st'.Selecting? {
      ExtendCleanup(p, st, st', k);
    } else if st'.LoggingOut? {
      ExtendLogout(p, st, k);
    } else {
      ExtendTask(p, st, st', k);
    }
  }

  lemma KindsAppend(cmds: seq<Command>, cmd: Command)
    ensures Kinds(cmds + [cmd]) == Kinds(cmds) + [KindOf(cmd)]
  {
  }

  /** The command that is outstanding in a stage of a download. */
  lemma StageKind(c: Core, st: Stage)
    requires At(c, st) && c.opts.task.DOWNLOAD? && c.line.pending != map[]
    ensures c.line.nextTag - 1 in c.line.pending
    ensures var k := KindOf(c.line.pending[c.line.nextTag - 1].command);
            && (st.FirstCapability? || st.SecondCapability? ==> k == KCapability) && (st.LoggingIn? ==> k == KLogin)
            && (st.CleanupSelect? || st.Selecting? ==> k == KSelect) && (st.CleanupStore? || st.Storing? ==> k == KStore)
            && (st.CleanupExpunge? || st.Expunging? ==> k == KUidExpunge || k == KExpunge)
            && (st.Fetching? ==> k == KFetch) && (st.LoggingOut? ==> k == KLogout)
  {
  }

  /** The stages that an event of a download can lead to. */
  lemma StageSuccession(c: Core, c': Core, st: Stage, e: Event)
    requires At(c, st) && c.error.None? && c.opts.task.DOWNLOAD? && c'.opts == c.opts && c'.error.None?
    requires Active(c, e) && Moved(c, c', StageAfter(c, st, e)) && c'.line.sent != c.line.sent
    ensures c'.line.nextTag - 1 in c'.line.pending
    ensures Succeeds(st, StageAfter(c, st, e), KindOf(c'.line.pending[c'.line.nextTag - 1].command))
  {
    StageKind(c', StageAfter(c, st, e));
  }

  lemma OptionsKept(c: Core, e: Event)
    ensures Handle(c, e).opts == c.opts
  {
    if e.Timer? {
    } else if e.Tagged? {
      hide Continue;
      if e.tag in c.line.pending {
        ContinueKeeps(c.(line := c.line.(pending := c.line.pending - {e.tag})), c.line.pending[e.tag].handler);
      }
    } else {
      hide Handle;
      QuietSame(c, e);
    }
  }

  lemma ContinueKeeps(c: Core, k: Continuation)
    ensures Apart(c, Continue(c, k))
  {
    hide DoDownload;
    hide DoFetchHeader;
    hide DoList;
    TaskKeeps(c);
    TaskKeeps(c.(uids := {}, mailbox := c.opts.mailbox));
  }

  lemma TaskKeeps(c: Core)
    ensures Apart(c, DoDownload(c)) && Apart(c, DoFetchHeader(c)) && Apart(c, DoList(c))
  {
    hide Send;
    forall x: Core, cmd: Command, k: Continuation | Apart(c, x) ensures Apart(c, Send(x, cmd, k)) { ApartSend(c, x, cmd, k); }
  }

  /** What tasks leave alone. */
  predicate Apart(c: Core, c': Core) { c'.opts == c.opts && c'.signaled == c.signaled && c'.body == c.body }

  lemma ApartSend(c: Core, x: Core, cmd: Command, k: Continuation)
    requires Apart(c, x)
    ensures Apart(c, Send(x, cmd, k))
  {
  }

  /** The stage and the plan of every run of a download. */
  lemma {:induction false} RunFits(opts: Options, journal: Option<Journal>, es: seq<Event>) returns (p: Plan, st: Stage)
    requires opts.task.DOWNLOAD?
    ensures var c := Run(Startup(opts, journal), es);
            Fits(c.line.sent, p, st) && c.opts == opts && (c.error.None? ==> At(c, st))
  {
    hide At;
    hide Fits;
    hide Handle;
    if es == [] {
      p, st := Plan(false, false, None, false, None), Waiting;
      StartFits(opts, journal);
    } else {
      p, st := RunFits(opts, journal, es[..|es| - 1]);
      var c, e := Run(Startup(opts, journal), es[..|es| - 1]), es[|es| - 1];
      OptionsKept(c, e);
      if c.error.Some? { ThrownStays(c, e); } else { p, st := EventFits(c, p, st, e); }
    }
  }

  lemma StartFits(opts: Options, journal: Option<Journal>)
    ensures var c := Startup(opts, journal);
            Fits(c.line.sent, Plan(false, false, None, false, None), Waiting) && At(c, Waiting) && c.opts == opts
  {
  }

  lemma ThrownStays(c: Core, e: Event)
    requires c.error.Some?
    ensures Handle(c, e) == c
  {
  }

  lemma EventFits(c: Core, p: Plan, st: Stage, e: Event) returns (p': Plan, st': Stage)
    requires At(c, st) && c.error.None? && c.opts.task.DOWNLOAD? && Fits(c.line.sent, p, st)
    ensures var c' := Handle(c, e); Fits(c'.line.sent, p', st') && (c'.error.None? ==> At(c', st'))
  {
    hide Handle;
    hide At;
    HandleStage(c, st, e);
    OptionsKept(c, e);
    var c' := Handle(c, e);
    p', st' := p, st;
    if !(c'.line.sent == c.line.sent && (c'.error.Some? || At(c', st))) {
      st' := StageAfter(c, st, e);
      if c'.line.sent == c.line.sent {
        OverFits(c, c', p, st, e);
      } else {
        StageSuccession(c, c', st, e);
        var k := KindOf(c'.line.pending[c'.line.nextTag - 1].command);
        p' := Extend(p, st, st', k);
        ExtendFits(p, st, st', k);
        KindsAppend(c.line.sent, c'.line.pending[c'.line.nextTag - 1].command);
      }
    }
  }

  /** The only move that sends nothing is the one that ends the run. */
  lemma OverFits(c: Core, c': Core, p: Plan, st: Stage, e: Event)
    requires At(c, st) && c'.error.None? && Active(c, e) && Moved(c, c', StageAfter(c, st, e))
    requires c'.line.sent == c.line.sent && Fits(c.line.sent, p, st)
    ensures Fits(c.line.sent, p, StageAfter(c, st, e))
  {
    assert StageAfter(c, st, e).Over?;
    if e.Tagged? { StageHandler(c, st, e.tag); }
  }

  /** Every stage lies on the way to a whole word. */
  lemma Completed(p: Plan, st: Stage) returns (w: Plan)
    requires PlanAt(p, st)
    ensures ValidPlan(w) && SentAt(p, st) <= Word(w)
  {
    w := p;
    if st.Waiting? || st.FirstCapability? { w := w.(first := st.FirstCapability?); }
    if st.SecondCapability? { w := w.(second := true); }
    if st.CleanupSelect? || st.CleanupStore? { w := w.(cleanup := Some(KUidExpunge)); }
    if st.Fetching? || st.Storing? { w := w.(fetched := true, deleted := Some(KUidExpunge)); }
    WordContains(p, w, st);
  }

  lemma WordContains(p: Plan, w: Plan, st: Stage)
    requires PlanAt(p, st)
    requires w.first == if st.Waiting? || st.FirstCapability? then st.FirstCapability? else p.first
    requires w.second == if st.SecondCapability? then true else p.second
    requires w.cleanup == if st.CleanupSelect? || st.CleanupStore? then Some(KUidExpunge) else p.cleanup
    requires st.Fetching? || st.Storing? ==> w.fetched && w.deleted == Some(KUidExpunge)
    requires !(st.Fetching? || st.Storing?) ==> w.fetched == p.fetched && w.deleted == p.deleted
    ensures SentAt(p, st) <= Word(w)
  {
  }

  /** Every download run sends a prefix of one word of the command language, whatever callbacks arrive in whatever
      order, and never has more than one command outstanding. */
  lemma DownloadLanguage(opts: Options, journal: Option<Journal>, es: seq<Event>)
    requires opts.task.DOWNLOAD?
    ensures var c := Run(Startup(opts, journal), es);
            && (exists w: Plan :: ValidPlan(w) && Kinds(c.line.sent) <= Word(w))
            && (c.error.None? ==> forall t | t in c.line.pending :: t == c.line.nextTag - 1)
  {
    var p, st := RunFits(opts, journal, es);
    var w := Completed(p, st);
    assert ValidPlan(w) && Kinds(Run(Startup(opts, journal), es).line.sent) <= Word(w);
  }

  // ---------------------------------------------------------------- capabilities

  /** What a command takes: LOGIN needs IMAP4rev1 and no LOGINDISABLED, UID EXPUNGE needs UIDPLUS, and EXPUNGE is for
      servers without it. */
  predicate Allows(caps: set<Capability>, cmd: Command)
  {
    && (cmd.Login? ==> IMAP4rev1 in caps && LOGINDISABLED !in caps)
    && (cmd.UidExpunge? ==> UIDPLUS in caps) && (cmd.Expunge? ==> UIDPLUS !in caps)
  }

  /** A handler sends at most one command, by the capabilities it has; LOGIN forgets what was heard before, all other
      commands keep it. */
  ghost predicate SendRule(c: Core, c': Core)
  {
    || (c'.line.sent == c.line.sent && c'.caps == c.caps)
    || (|c'.line.sent| > 0
        && var cmd := c'.line.sent[|c'.line.sent| - 1];
           && c'.line.sent == c.line.sent + [cmd]
           && c'.caps == (if cmd.Login? then {} else c.caps) && Allows(c.caps, cmd))
  }

  lemma SendOther(c: Core, c1: Core, cmd: Command, k: Continuation)
    requires c1.line.sent == c.line.sent && c1.caps == c.caps && !cmd.Login? && Allows(c.caps, cmd)
    ensures SendRule(c, Send(c1, cmd, k))
  {
  }

  lemma LoginRule(c: Core, c1: Core)
    requires c1.line.sent == c.line.sent && c1.caps == c.caps
    ensures SendRule(c, AsyncLogin(c1))
  {
  }

  lemma TaskRule(c: Core, c1: Core)
    requires c1.line.sent == c.line.sent && c1.caps == c.caps
    ensures SendRule(c, DoDownload(c1)) && SendRule(c, DoFetchHeader(c1)) && SendRule(c, DoList(c1))
  {
    hide SendRule;
    hide Send;
    forall x: Core, cmd: Command, k: Continuation
      | x.line.sent == c.line.sent && x.caps == c.caps && !cmd.Login? && Allows(c.caps, cmd)
      ensures SendRule(c, Send(x, cmd, k))
    {
      SendOther(c, x, cmd, k);
    }
    forall x: Core | x.line.sent == c.line.sent && x.caps == c.caps ensures SendRule(c, x) { NoSend(c, x); }
  }

  lemma NoSend(c: Core, x: Core)
    requires x.line.sent == c.line.sent && x.caps == c.caps
    ensures SendRule(c, x)
  {
  }

  lemma ContinueRule(c: Core, c1: Core, k: Continuation)
    requires c1.line.sent == c.line.sent && c1.caps == c.caps
    ensures SendRule(c, Continue(c1, k))
  {
    hide SendRule;
    hide Send;
    hide DoDownload;
    hide DoFetchHeader;
    hide DoList;
    hide AsyncLogin;
    LoginRule(c, c1);
    TaskRule(c, c1);
    TaskRule(c, c1.(uids := {}, mailbox := c1.opts.mailbox));
    NoSend(c, Throw(c1, EmptySequence));
    SendOther(c, c1, Capabilities, ToPostLogin);
    SendOther(c, c1, Select(c1.mailbox), ToCleanupStore);
    SendOther(c, c1, UidStore(c1.uids), ToCleanupExpunge);
    if UIDPLUS in c.caps {
      SendOther(c, c1, UidExpunge(c1.uids), ToCleanupFinish);
    } else {
      SendOther(c, c1, Expunge, ToCleanupFinish);
    }
  }

  lemma TimerRule(c: Core)
    ensures SendRule(c, OnTimer(c))
  {
    hide SendRule;
    hide Send;
    hide AsyncLogin;
    var c1 := c.(line := c.line.(timerFired := true));
    NoSend(c, c);
    SendOther(c, c1, Capabilities, ToLogin);
    LoginRule(c, c1);
  }

  /** The rule for every event but the two that announce capabilities, which send nothing. */
  lemma HandleRule(c: Core, e: Event)
    ensures if e.CapabilityItem? && c.error.None? then Handle(c, e).caps == c.caps + {e.x} && Handle(c, e).line == c.line
            else if e.CapabilityBegin? && c.error.None? then Handle(c, e).caps == {} && Handle(c, e).line == c.line
            else SendRule(c, Handle(c, e))
  {
    hide SendRule;
    NoSend(c, c);
    if e.Timer? {
      hide OnTimer;
      TimerRule(c);
    } else if e.Tagged? {
      hide Continue;
      NoSend(c, Throw(c, CommandFailed));
      NoSend(c, Throw(c, UnknownTag));
      if e.tag in c.line.pending {
        ContinueRule(c, c.(line := c.line.(pending := c.line.pending - {e.tag})), c.line.pending[e.tag].handler);
      }
    } else if !e.CapabilityBegin? && !e.CapabilityItem? {
      QuietCaps(c, e);
      NoSend(c, Handle(c, e));
    }
  }

  lemma QuietCaps(c: Core, e: Event)
    requires !e.Timer? && !e.Tagged? && !e.CapabilityBegin? && !e.CapabilityItem?
    ensures Handle(c, e).caps == c.caps && Handle(c, e).line == c.line
  {
  }

  predicate LoggedIn(c: Core) { Login in c.line.sent }

  /** The capability was listed at position `j`, and no new list was begun since. */
  ghost predicate InForce(es: seq<Event>, j: nat, x: Capability)
  {
    j < |es| && es[j] == CapabilityItem(x) && forall k | j < k < |es| :: !es[k].CapabilityBegin?
  }

  /** A capability that the client goes by is in the list in force, and was listed since the login. */
  lemma {:induction false} HeardSinceLogin(c0: Core, es: seq<Event>, x: Capability) returns (j: nat)
    requires c0.caps == {} && x in Run(c0, es).caps && Run(c0, es).error.None?
    ensures InForce(es, j, x) && (LoggedIn(Run(c0, es)) ==> LoggedIn(Run(c0, es[..j])))
  {
    hide Handle;
    var init, e := es[..|es| - 1], es[|es| - 1];
    var c := Run(c0, init);
    HandleRule(c, e);
    if c.error.Some? { ThrownStays(c, e); }
    if e == CapabilityItem(x) {
      j := |init|;
    } else {
      j := HeardSinceLogin(c0, init, x);
      assert init[..j] == es[..j];
    }
  }

  /** A listed capability stays until the list is replaced or the client logs in. */
  lemma {:induction false} CapabilityStays(c0: Core, es: seq<Event>, j: nat, x: Capability)
    requires InForce(es, j, x) && Run(c0, es).error.None? && !LoggedIn(Run(c0, es))
    ensures x in Run(c0, es).caps
  {
    hide Handle;
    var init, e := es[..|es| - 1], es[|es| - 1];
    var c := Run(c0, init);
    HandleRule(c, e);
    if c.error.Some? { ThrownStays(c, e); }
    if j < |init| { CapabilityStays(c0, init, j, x); }
  }

  /** A capability listed behind the login stays until the list is replaced, as there is no second login. */
  lemma {:induction false} CapabilityStaysBehindLogin(opts: Options, journal: Option<Journal>, es: seq<Event>, j: nat, x: Capability)
    requires var c0 := Startup(opts, journal);
             opts.task.DOWNLOAD? && InForce(es, j, x) && Run(c0, es).error.None? && LoggedIn(Run(c0, es[..j]))
    ensures x in Run(Startup(opts, journal), es).caps && LoggedIn(Run(Startup(opts, journal), es))
  {
    hide Handle;
    var init, e := es[..|es| - 1], es[|es| - 1];
    var c0 := Startup(opts, journal);
    var c := Run(c0, init);
    HandleRule(c, e);
    if c.error.Some? { ThrownStays(c, e); }
    if j < |init| {
      assert init[..j] == es[..j];
      CapabilityStaysBehindLogin(opts, journal, init, j, x);
      if Handle(c, e).line.sent == c.line.sent + [Login] { LoginOnce(opts, journal, init, e); }
    } else {
      assert es[..j] == init;
    }
  }

  ghost predicate Listed(es: seq<Event>, x: Capability) { exists j: nat :: InForce(es, j, x) }

  ghost predicate SinceLogin(c0: Core, es: seq<Event>, j: nat, x: Capability)
  {
    InForce(es, j, x) && LoggedIn(Run(c0, es[..j]))
  }

  ghost predicate ListedSinceLogin(c0: Core, es: seq<Event>, x: Capability) { exists j: nat :: SinceLogin(c0, es, j, x) }

  /** The sending of `cmd` by the event behind `es`. */
  ghost predicate Sends(c0: Core, es: seq<Event>, e: Event, cmd: Command)
  {
    Run(c0, es + [e]).line.sent == Run(c0, es).line.sent + [cmd]
  }

  lemma SendTakes(c0: Core, es: seq<Event>, e: Event, cmd: Command)
    requires Sends(c0, es, e, cmd)
    ensures var c := Run(c0, es); Handle(c, e).line.sent == c.line.sent + [cmd] && c.error.None? && Allows(c.caps, cmd)
  {
    assert (es + [e])[..|es|] == es;
    hide Handle;
    hide Allows;
    var c := Run(c0, es);
    HandleRule(c, e);
    if c.error.Some? { ThrownStays(c, e); }
    assert Handle(c, e).line.sent[|c.line.sent|] == cmd;
  }

  lemma LoginTakes(opts: Options, journal: Option<Journal>, es: seq<Event>, e: Event)
    requires opts.task.DOWNLOAD? && Sends(Startup(opts, journal), es, e, Login)
    ensures Listed(es, IMAP4rev1) && !Listed(es, LOGINDISABLED)
  {
    var c0 := Startup(opts, journal);
    SendTakes(c0, es, e, Login);
    hide Handle;
    hide Sends;
    LoginOnce(opts, journal, es, e);
    var j := HeardSinceLogin(c0, es, IMAP4rev1);
    forall j: nat | InForce(es, j, LOGINDISABLED) ensures false { CapabilityStays(c0, es, j, LOGINDISABLED); }
  }

  lemma UidExpungeTakes(opts: Options, journal: Option<Journal>, es: seq<Event>, e: Event, uids: set<nat>)
    requires opts.task.DOWNLOAD? && Sends(Startup(opts, journal), es, e, UidExpunge(uids))
    ensures ListedSinceLogin(Startup(opts, journal), es, UIDPLUS)
  {
    var c0 := Startup(opts, journal);
    SendTakes(c0, es, e, UidExpunge(uids));
    hide Handle;
    hide Sends;
    ExpungeBehindLogin(opts, journal, es, e);
    var j := HeardSinceLogin(c0, es, UIDPLUS);
    assert SinceLogin(c0, es, j, UIDPLUS);
  }

  lemma ExpungeTakes(opts: Options, journal: Option<Journal>, es: seq<Event>, e: Event)
    requires opts.task.DOWNLOAD? && Sends(Startup(opts, journal), es, e, Expunge)
    ensures !ListedSinceLogin(Startup(opts, journal), es, UIDPLUS)
  {
    var c0 := Startup(opts, journal);
    SendTakes(c0, es, e, Expunge);
    hide Handle;
    hide Sends;
    forall j: nat | SinceLogin(c0, es, j, UIDPLUS) ensures false {
      CapabilityStaysBehindLogin(opts, journal, es, j, UIDPLUS);
    }
  }

  /** In every download run, a LOGIN is sent only if IMAP4rev1 is in the list in force and LOGINDISABLED is not; messages
      are removed by UID EXPUNGE if UIDPLUS is in the list in force, listed since the login, and by EXPUNGE if not. */
  lemma CapabilityRules(opts: Options, journal: Option<Journal>, es: seq<Event>, e: Event, cmd: Command)
    requires opts.task.DOWNLOAD? && Sends(Startup(opts, journal), es, e, cmd)
    ensures cmd.Login? ==> Listed(es, IMAP4rev1) && !Listed(es, LOGINDISABLED)
    ensures cmd.UidExpunge? || cmd.Expunge? ==> (cmd.UidExpunge? <==> ListedSinceLogin(Startup(opts, journal), es, UIDPLUS))
  {
    hide Sends;
    hide Listed;
    hide ListedSinceLogin;
    if cmd.Login? {
      LoginTakes(opts, journal, es, e);
    } else if cmd.UidExpunge? {
      UidExpungeTakes(opts, journal, es, e, cmd.uids);
    } else if cmd.Expunge? {
      ExpungeTakes(opts, journal, es, e);
    }
  }

  /** The stage from which a command is sent. */
  lemma SendingStage(opts: Options, journal: Option<Journal>, es: seq<Event>, e: Event, cmd: Command)
    returns (p: Plan, st: Stage, st': Stage)
    requires opts.task.DOWNLOAD?
    requires var c := Run(Startup(opts, journal), es); Handle(c, e).line.sent == c.line.sent + [cmd]
    ensures var c := Run(Startup(opts, journal), es);
            c.error.None? && Fits(c.line.sent, p, st) && Succeeds(st, st', KindOf(cmd))
  {
    hide Handle;
    hide Fits;
    var c := Run(Startup(opts, journal), es);
    p, st := RunFits(opts, journal, es);
    if c.error.Some? { ThrownStays(c, e); }
    OptionsKept(c, e);
    HandleStage(c, st, e);
    st' := StageAfter(c, st, e);
    StageSuccession(c, Handle(c, e), st, e);
    assert Handle(c, e).line.sent[|c.line.sent|] == cmd;
  }

  lemma ExpungeBehindLogin(opts: Options, journal: Option<Journal>, es: seq<Event>, e: Event)
    requires opts.task.DOWNLOAD?
    requires var c := Run(Startup(opts, journal), es);
             exists uids :: Handle(c, e).line.sent == c.line.sent + [UidExpunge(uids)]
    ensures LoggedIn(Run(Startup(opts, journal), es))
  {
    var c := Run(Startup(opts, journal), es);
    var uids :| Handle(c, e).line.sent == c.line.sent + [UidExpunge(uids)];
    hide Handle;
    hide SentAt;
    var p, st, st' := SendingStage(opts, journal, es, e, UidExpunge(uids));
    var i := LoginSent(p, st);
    assert Kinds(c.line.sent)[i] == KindOf(c.line.sent[i]);
  }

  lemma LoginSent(p: Plan, st: Stage) returns (i: nat)
    requires PlanAt(p, st) && (st.CleanupStore? || st.Storing?)
    ensures i < |SentAt(p, st)| && SentAt(p, st)[i] == KLogin
  {
    i := if p.first then 1 else 0;
    assert LoginPart(p)[i] == KLogin;
  }

  lemma LoginNotSent(p: Plan, st: Stage)
    requires st.Waiting? || st.FirstCapability?
    ensures KLogin !in SentAt(p, st)
  {
  }

  lemma LoginOnce(opts: Options, journal: Option<Journal>, es: seq<Event>, e: Event)
    requires opts.task.DOWNLOAD?
    requires var c := Run(Startup(opts, journal), es); Handle(c, e).line.sent == c.line.sent + [Login]
    ensures !LoggedIn(Run(Startup(opts, journal), es)) && Run(Startup(opts, journal), es).error.None?
  {
    var c := Run(Startup(opts, journal), es);
    hide Handle;
    hide SentAt;
    var p, st, st' := SendingStage(opts, journal, es, e, Login);
    LoginNotSent(p, st);
    assert forall i | 0 <= i < |c.line.sent| :: KindOf(c.line.sent[i]) == Kinds(c.line.sent)[i];
  }
}
