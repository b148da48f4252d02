/** Safety of deletion over any number of interrupted runs (copy/client.cc, copy/journal.cc). */
module Safety {
  import opened Text
  import opened Client
  import opened World
  import Commands

  // ---------------------------------------------------------------- what a step of the client changes

  /** The SELECT of the task is not answered yet. */
  predicate Early(c: Core) { c.line.point.Begin? || c.line.point.BehindSelect? }

  /** In a header run, UIDs that are collected from the FETCH on do not stand for delivered messages. */
  predicate Trusted(c: Core) { c.opts.task.FETCH_HEADER? ==> Early(c) }

  function LastSent(c: Core): Command
    requires c.line.sent != []
  {
    c.line.sent[|c.line.sent| - 1]
  }

  /** The client leaves the state machine of a response alone and, with a command, changes its UIDs and its mailbox
      only in the ways that keep them in step. */
  ghost predicate Effect(c: Core, c': Core)
  {
    && c'.opts == c.opts && c'.needCleanup == c.needCleanup && c'.uidvalidity == c.uidvalidity && c'.body == c.body
    && (c'.uids == c.uids || c'.uids == {})
    && (Early(c') ==> Early(c)) && (c'.state.FETCHING? && !c.state.FETCHING? ==> Early(c) && !Early(c'))
    && (c'.state.FETCHING? && !c.state.FETCHING? && Trusted(c') ==> c.opts.task.DOWNLOAD?)
    && if c'.line.sent == c.line.sent then
         c'.mailbox == c.mailbox && c'.uids == c.uids && (c'.state == c.state || c'.state.LOGGED_OUT?)
       else
         && c'.line.sent != [] && c'.line.sent == c.line.sent + [LastSent(c')]
         && (LastSent(c').Select? ==> LastSent(c').mailbox == c'.mailbox && Early(c'))
         && (c'.uids != c.uids ==> LastSent(c').Logout? || (LastSent(c').Select? && !c'.line.point.Begin?))
         && (c'.mailbox != c.mailbox ==> LastSent(c').Select? && c'.uids == {} && c'.mailbox == c.opts.mailbox)
         && (LastSent(c').UidStore? || LastSent(c').UidExpunge? ==> LastSent(c').uids == c.uids == c'.uids != {} && Trusted(c'))
         && (c'.state == c.state || (c'.state.FETCHING? && LastSent(c').Fetch?))
  }

  /** A client on its way to sending a command: nothing that `Effect` watches has changed but UIDs, state and point. */
  ghost predicate Poised(c: Core, x: Core, cmd: Command)
  {
    && x.opts == c.opts && x.needCleanup == c.needCleanup && x.uidvalidity == c.uidvalidity && x.body == c.body
    && x.line.sent == c.line.sent && (x.uids == c.uids || x.uids == {}) && (Early(x) ==> Early(c))
    && (x.mailbox != c.mailbox ==> cmd.Select? && x.uids == {} && x.mailbox == c.opts.mailbox)
    && (cmd.Select? ==> cmd.mailbox == x.mailbox && Early(x))
    && (x.uids != c.uids ==> cmd.Logout? || (cmd.Select? && !x.line.point.Begin?))
    && (cmd.UidStore? || cmd.UidExpunge? ==> cmd.uids == c.uids == x.uids != {} && Trusted(x))
    && (x.state == c.state
        || (x.state.FETCHING? && cmd.Fetch? && Early(c) && !Early(x) && (Trusted(x) ==> c.opts.task.DOWNLOAD?)))
  }

  lemma SendEffect(c: Core, x: Core, cmd: Command, k: Continuation)
    requires Poised(c, x, cmd)
    ensures Effect(c, Send(x, cmd, k))
  {
  }

  /** Nothing sent. */
  lemma QuietEffect(c: Core, x: Core)
    requires x.opts == c.opts && x.needCleanup == c.needCleanup && x.uidvalidity == c.uidvalidity && x.body == c.body
    requires x.uids == c.uids && x.mailbox == c.mailbox && x.line.sent == c.line.sent
    requires (x.state == c.state || x.state.LOGGED_OUT?) && (Early(x) ==> Early(c))
    ensures Effect(c, x)
  {
  }

  lemma DownloadEffect(c: Core, x: Core)
    requires x == c || (c.line.point.Begin? && x == c.(uids := {}, mailbox := c.opts.mailbox))
    requires c.opts.task.DOWNLOAD?
    ensures Effect(c, DoDownload(x))
  {
    hide Effect;
    hide Send;
    match x.line.point {
      case Begin => SendEffect(c, Goto(x, BehindSelect), Select(x.mailbox), ToDownload);
      case BehindSelect =>
        SendEffect(c, Goto(x.(state := FETCHING), BehindFetch), Fetch, ToDownload);
        SendEffect(c, Goto(x.(uids := {}), BehindLogout), Logout, ToDownload);
      case BehindFetch =>
        SendEffect(c, Goto(x.(uids := {}), BehindLogout), Logout, ToDownload);
        QuietEffect(c, Throw(Goto(x, BehindStore), EmptySequence));
        if x.uids != {} { SendEffect(c, Goto(x, BehindStore), UidStore(x.uids), ToDownload); }
      case BehindStore =>
        QuietEffect(c, Throw(Goto(x, BehindExpunge), EmptySequence));
        if x.uids != {} { SendEffect(c, Goto(x, BehindExpunge), UidExpunge(x.uids), ToDownload); }
        SendEffect(c, Goto(x, BehindExpunge), Expunge, ToDownload);
      case BehindExpunge => SendEffect(c, Goto(x.(uids := {}), BehindLogout), Logout, ToDownload);
      case BehindLogout => QuietEffect(c, Finish(x));
      case Done => QuietEffect(c, x);
    }
  }

  lemma OtherTaskEffect(c: Core, x: Core)
    requires x == c || (c.line.point.Begin? && x == c.(uids := {}, mailbox := c.opts.mailbox))
    ensures c.opts.task.FETCH_HEADER? ==> Effect(c, DoFetchHeader(x))
    ensures c.opts.task.LIST? ==> Effect(c, DoList(x))
  {
    hide Effect;
    hide Send;
    if x.line.point.Begin? {
      SendEffect(c, Goto(x, BehindSelect), Select(x.mailbox), ToFetchHeader);
      SendEffect(c, Goto(x, BehindSelect), Select(x.mailbox), ToList);
    } else if x.line.point.BehindSelect? {
      if c.opts.task.FETCH_HEADER? { SendEffect(c, Goto(x.(state := FETCHING), BehindFetch), Fetch, ToFetchHeader); }
      SendEffect(c, Goto(x, BehindFetch), List, ToList);
    } else if x.line.point.BehindLogout? {
      QuietEffect(c, Finish(x));
    } else if x.line.point.Done? {
      QuietEffect(c, x);
    } else {
      SendEffect(c, Goto(x.(uids := {}), BehindLogout), Logout, ToFetchHeader);
      SendEffect(c, Goto(x.(uids := {}), BehindLogout), Logout, ToList);
    }
  }

  lemma TaskEffect(c: Core, x: Core)
    requires x == c || (c.line.point.Begin? && x == c.(uids := {}, mailbox := c.opts.mailbox))
    ensures Effect(c, DoTask(x))
  {
    hide Effect;
    hide DoDownload;
    hide DoFetchHeader;
    hide DoList;
    if c.opts.task.DOWNLOAD? { DownloadEffect(c, x); } else { OtherTaskEffect(c, x); }
  }

  lemma LoginEffect(c: Core)
    ensures Effect(c, AsyncLogin(c))
  {
    hide Effect;
    hide Send;
    QuietEffect(c, Throw(c, NoImap4rev1));
    QuietEffect(c, Throw(c, LoginDisabled));
    SendEffect(c, c.(caps := {}, existing := 0), Login, ToCapabilities);
  }

  /** What a continuation does, in the stage that it belongs to. */
  lemma ContinueEffect(c: Core, k: Continuation)
    requires k == Commands.HandlerOf(c.opts.task) || c.line.point.Begin?
    requires k.ToDownload? || k.ToFetchHeader? || k.ToList? ==> k == Commands.HandlerOf(c.opts.task)
    ensures Effect(c, Continue(c, k))
  {
    hide Effect;
    hide Send;
    hide DoTask;
    hide AsyncLogin;
    Commands.ContinueMeans(c);
    TaskEffect(c, c);
    if c.line.point.Begin? {
      TaskEffect(c, c.(uids := {}, mailbox := c.opts.mailbox));
      LoginEffect(c);
      SendEffect(c, c, Capabilities, ToPostLogin);
      SendEffect(c, c, Select(c.mailbox), ToCleanupStore);
      QuietEffect(c, Throw(c, EmptySequence));
      if c.uids != {} {
        SendEffect(c, c, UidStore(c.uids), ToCleanupExpunge);
        SendEffect(c, c, UidExpunge(c.uids), ToCleanupFinish);
      }
      SendEffect(c, c, Expunge, ToCleanupFinish);
    }
  }

  /** The effect of a tagged response or of the timer, in any stage of a run. */
  lemma TaggedEffect(c: Core, st: Commands.Stage, ok: bool, tag: nat)
    requires Commands.At(c, st) && c.error.None?
    ensures Effect(c, OnTagged(c, ok, tag))
  {
    hide Effect;
    hide Commands.At;
    hide Continue;
    QuietEffect(c, Throw(c, CommandFailed));
    QuietEffect(c, Throw(c, UnknownTag));
    if tag in c.line.pending {
      Commands.StageHandler(c, st, tag);
      var x := c.(line := c.line.(pending := c.line.pending - {tag}));
      ContinueEffect(x, c.line.pending[tag].handler);
      EffectBase(c, x, Continue(x, c.line.pending[tag].handler));
    }
  }

  lemma EffectBase(c: Core, x: Core, c': Core)
    requires x == c.(line := x.line) && x.line == c.line.(pending := x.line.pending) && Effect(x, c')
    ensures Effect(c, c')
  {
  }

  lemma TimerEffect(c: Core)
    ensures Effect(c, OnTimer(c))
  {
    hide Effect;
    hide Send;
    hide AsyncLogin;
    QuietEffect(c, c);
    if !c.line.timerFired {
      var x := c.(line := c.line.(timerFired := true));
      LoginEffect(x);
      SendEffect(c, x, Capabilities, ToLogin);
      TimerBase(c, x, AsyncLogin(x));
    }
  }

  lemma TimerBase(c: Core, x: Core, c': Core)
    requires x == c.(line := c.line.(timerFired := true)) && Effect(x, c')
    ensures Effect(c, c')
  {
  }

  // ---------------------------------------------------------------- the invariant

  /** Every UID of an order stands for a delivered message, and is neither 0 nor 2^32-1. */
  ghost predicate Backed(o: Order, delivered: set<Key>)
  {
    forall u | u in o.uids :: Key(o.mailbox, o.validity, u) in delivered && 0 < u < MAX32
  }

  /** The journal and all orders ever sent are backed, and what was removed had been delivered. */
  ghost predicate Ledger(w: World)
  {
    && (w.journal.Some? ==> Backed(JournalOrder(w.journal.value), w.delivered))
    && (forall o | o in w.stores :: Backed(o, w.delivered))
    && (forall o | o in w.expunges :: Backed(o, w.delivered))
    && (w.work.Expunging? ==> w.work.order in w.expunges)
    && w.removed <= w.delivered && w.delivered <= w.ever
  }

  /** The UIDs of the client are backed, and a run that writes a journal works on the mailbox of its options. */
  ghost predicate Owner(c: Core, delivered: set<Key>)
  {
    && (Trusted(c) ==> Backed(ClientOrder(c), delivered))
    && (c.opts.del ==> c.mailbox == c.opts.mailbox && !c.opts.task.FETCH_HEADER?)
    && (c.state.FETCHING? && Trusted(c) ==> c.opts.task.DOWNLOAD?)
  }

  /** The client and the server agree on the mailbox, and on the UIDVALIDITY once it is announced. */
  ghost predicate Bound(w: World, c: Core)
  {
    && (w.selecting.Some? ==> w.selecting.value == c.mailbox)
    && (w.bound.Some? ==> w.bound == w.selecting && w.bound.value in w.validity && w.validity[w.bound.value] == c.uidvalidity)
  }

  /** The FETCH response being sent is about a message of the selected mailbox. */
  ghost predicate Addressed(w: World, c: Core)
  {
    w.response.Open? ==>
      && w.bound.Some? && w.response.key == Key(c.mailbox, c.uidvalidity, w.response.key.uid)
      && w.response.key in w.ever && 0 < w.response.key.uid < MAX32
  }

  /** While fetching, the body flag, the redirected buffer, the maildir's pending name and the last UID are in step with
      the response. */
  ghost predicate InStep(r: Response, c: Core)
  {
    && (c.state.DISCONNECTED? || Early(c) ==> c.body == Body(0, false, false, false))
    && (c.state.FETCHING? ==>
          && !Early(c)
          && c.body.fullBody == (r.Open? && !r.part.NoPart? && r.part.full)
          && c.body.tmpName == c.body.toFile == (r.Open? && r.part == Content(true))
          && (r.Open? ==> c.body.lastUid == if r.uidSent then r.key.uid else 0))
  }

  /** What the client read of responses: while it fetches, a body that the server has sent is in the maildir, and the UID
      it has noted stands for a delivered message or for the one of the open response. */
  ghost predicate Progress(r: Response, bound: bool, c: Core, delivered: set<Key>)
  {
    && InStep(r, c)
    && (c.state.FETCHING? && r.Open? && r.bodySent ==> r.key in delivered)
    && (Trusted(c) && c.body.lastUid != 0 ==>
          c.body.lastUid < MAX32 && (Noted(c) in delivered || (r.Open? && r.key == Noted(c))))
    && (!Early(c) ==> bound)
  }

  ghost predicate Staged(c: Core) { exists st: Commands.Stage :: Commands.At(c, st) }

  ghost predicate ClientInv(w: World, c: Core)
  {
    && Owner(c, w.delivered) && Bound(w, c) && Addressed(w, c)
    && (c.error.None? ==> Progress(w.response, w.bound.Some?, c, w.delivered) && Staged(c))
  }

  ghost predicate Inv(w: World)
  {
    && Ledger(w)
    && if w.client.Some? then ClientInv(w, w.client.value)
       else w.selecting.None? && w.bound.None? && w.response.Closed?
  }

  // ---------------------------------------------------------------- every action keeps it

  lemma InitialInv(w: World)
    requires Initial(w)
    ensures Inv(w)
  {
  }

  /** Other clients, and what the server does with a command. */
  lemma OutsideKeeps(w: World, a: Action)
    requires Inv(w) && Enabled(w, a)
    requires a.Add? || a.Remove? || a.Flag? || a.Unflag? || a.ChangeValidity? || a.Perform? || a.PerformPart?
    ensures Inv(Next(w, a))
  {
    hide Inv;
    hide Performed;
    hide KeysIn;
    if a.PerformPart? {
      RemoveKeeps(w, a.order, a.keys);
    } else if a.Perform? {
      PerformKeeps(w);
    } else {
      ElsewhereKeeps(w, Next(w, a));
    }
  }

  /** Other clients touch nothing that the invariant is about, but for fresh messages and unbound mailboxes. */
  lemma ElsewhereKeeps(w: World, w': World)
    requires Inv(w) && w.ever <= w'.ever
    requires w' == w.(present := w'.present, ever := w'.ever, flagged := w'.flagged, unflagged := w'.unflagged, validity := w'.validity)
    requires w.bound.Some? && w.bound.value in w.validity ==>
               w.bound.value in w'.validity && w'.validity[w.bound.value] == w.validity[w.bound.value]
    ensures Inv(w')
  {
    hide Staged;
    hide Owner;
    hide Progress;
    hide Backed;
  }

  lemma RemoveKeeps(w: World, o: Order, keys: set<Key>)
    requires Inv(w) && Enabled(w, PerformPart(o, keys))
    ensures Inv(Next(w, PerformPart(o, keys)))
  {
    hide Staged;
    hide Owner;
    hide Progress;
    OrderCovered(w, o);
  }

  lemma PerformKeeps(w: World)
    requires Inv(w)
    ensures Inv(Performed(w))
  {
    hide Staged;
    hide Owner;
    hide Progress;
    if w.work.Expunging? { OrderCovered(w, w.work.order); }
  }

  lemma OrderCovered(w: World, o: Order)
    requires Backed(o, w.delivered)
    ensures forall k | InOrder(k, o) :: k in w.delivered
  {
    forall k | InOrder(k, o) ensures k in w.delivered {
      assert k == Key(o.mailbox, o.validity, k.uid);
    }
  }

  lemma StartKeeps(w: World, o: Options)
    requires Inv(w) && w.client.None? && SoundOptions(o, w.journal)
    ensures Inv(Next(w, Start(o)))
  {
    var c := Startup(o, w.journal);
    assert Commands.At(c, Commands.Waiting);
  }

  lemma EndKeeps(w: World, a: Action)
    requires Inv(w) && w.client.Some? && (a.Exit? || a.Kill?)
    ensures Inv(Next(w, a))
  {
  }

  /** The server receives what the client has sent. */
  lemma ReceiveKeeps(w: World, c: Core, c': Core)
    requires Ledger(w) && Owner(c, w.delivered) && Bound(w, c) && Addressed(w, c) && w.client == Some(c')
    requires Effect(c, c') && c'.line.sent != c.line.sent && (w.response.Closed? || !LastSent(c').Select?)
    ensures var w' := Receive(w, LastSent(c'));
            Ledger(w') && Owner(c', w'.delivered) && Bound(w', c') && Addressed(w', c')
            && w'.client == Some(c') && w'.response == w.response
  {
    var o := OrderAt(w, c.uids);
    if o.Some? { assert o.value == ClientOrder(c); }
  }

  /** A step of the client that may send a command; it goes behind the SELECT of the task only with the mailbox bound. */
  lemma TransmitKeeps(w: World, c': Core)
    requires Inv(w) && Running(w) && Effect(w.client.value, c') && (c'.error.None? ==> Staged(c'))
    requires w.response.Closed? || c' == w.client.value || (Early(w.client.value) && Early(c') && !LastSelect(w.client.value, c'))
    requires c'.error.None? && !Early(c') ==> w.bound.Some?
    ensures Inv(Transmit(w, c'))
  {
    hide Staged;
    hide Ledger;
    hide Receive;
    hide Progress;
    var c := w.client.value;
    var w1 := w.(client := Some(c'));
    LedgerKept(w, w1);
    if c'.error.None? { EffectProgress(w.response, w.bound.Some?, c, c', w.delivered); }
    if c'.line.sent != c.line.sent {
      hide Owner;
      hide Addressed;
      AddressedKept(w, w1, c);
      ReceiveKeeps(w1, c, c');
      ReceiveBound(w1, LastSent(c'));
    } else {
      QuietOwner(w, c, c');
    }
  }

  predicate LastSelect(c: Core, c': Core) { c'.line.sent != c.line.sent && c'.line.sent != [] && LastSent(c').Select? }

  lemma ReceiveBound(w: World, cmd: Command)
    ensures if cmd.Select? then Receive(w, cmd).bound.None? else Receive(w, cmd).bound == w.bound
    ensures Receive(w, cmd).response == w.response && Receive(w, cmd).delivered == w.delivered
  {
  }

  /** A step with an effect keeps the progress, also if the SELECT that it sends unbinds the mailbox. */
  lemma EffectProgress(r: Response, bound: bool, c: Core, c': Core, delivered: set<Key>)
    requires Progress(r, bound, c, delivered) && Effect(c, c') && (!Early(c') ==> bound)
    requires r.Closed? || c' == c || (Early(c) && Early(c'))
    ensures Progress(r, bound, c', delivered)
    ensures LastSelect(c, c') ==> Progress(r, false, c', delivered)
  {
    if Early(c) { assert c.body.lastUid == 0; }
  }

  lemma LedgerKept(w: World, w': World)
    requires Ledger(w) && w' == w.(client := w'.client)
    ensures Ledger(w')
  {
  }

  lemma AddressedKept(w: World, w': World, c: Core)
    requires Addressed(w, c) && w' == w.(client := w'.client)
    ensures Addressed(w', c)
  {
  }

  lemma QuietOwner(w: World, c: Core, c': Core)
    requires Owner(c, w.delivered) && Effect(c, c') && c'.line.sent == c.line.sent && Bound(w, c) && Addressed(w, c)
    ensures Owner(c', w.delivered) && Bound(w, c') && Addressed(w, c')
  {
  }

  /** The stage of the client behind an event. */
  lemma StagedStep(c: Core, e: Commands.Event)
    requires Staged(c) && c.error.None?
    ensures Commands.Handle(c, e).error.None? ==> Staged(Commands.Handle(c, e))
  {
    hide Commands.Handle;
    hide Commands.At;
    var st: Commands.Stage :| Commands.At(c, st);
    Commands.HandleStage(c, st, e);
  }

  lemma TimerKeeps(w: World)
    requires Inv(w) && Running(w)
    ensures Inv(Next(w, Timer))
  {
    hide Inv;
    hide Transmit;
    var c := w.client.value;
    ClientFacts(w);
    StagedStep(c, Commands.Timer);
    TimerEffect(c);
    TimerSends(c);
    TransmitKeeps(w, OnTimer(c));
  }

  lemma TimerSends(c: Core)
    requires Staged(c) && c.error.None?
    ensures Commands.Handle(c, Commands.Timer) == OnTimer(c)
    ensures OnTimer(c) == c || (Early(c) && Early(OnTimer(c)) && !LastSelect(c, OnTimer(c)))
  {
  }

  lemma ClientFacts(w: World)
    requires Inv(w) && Running(w)
    ensures Staged(w.client.value) && Progress(w.response, w.bound.Some?, w.client.value, w.delivered)
    ensures InStep(w.response, w.client.value)
  {
  }

  /** The OK that takes the task behind its SELECT is the one for that SELECT. */
  lemma LeavesEarly(c: Core, st: Commands.Stage, ok: bool, tag: nat)
    requires Commands.At(c, st) && c.error.None? && OnTagged(c, ok, tag).error.None?
    ensures ok && tag in c.line.pending
    ensures Early(c) && !Early(OnTagged(c, ok, tag)) ==> c.line.pending[tag].command == Select(c.mailbox)
  {
    hide OnTagged;
    Commands.TaggedFails(c, ok, tag);
    Commands.TaggedStage(c, st, tag);
    Commands.StageHandler(c, st, tag);
  }

  lemma TaggedKeeps(w: World, ok: bool, tag: nat)
    requires Inv(w) && Enabled(w, Tagged(ok, tag))
    ensures Inv(Next(w, Tagged(ok, tag)))
  {
    hide Inv;
    hide Transmit;
    hide Commands.At;
    hide OnTagged;
    hide Ordered;
    var c := w.client.value;
    ClientFacts(w);
    StagedStep(c, Commands.Tagged(ok, tag));
    assert Commands.Handle(c, Commands.Tagged(ok, tag)) == OnTagged(c, ok, tag);
    var st: Commands.Stage :| Commands.At(c, st);
    TaggedEffect(c, st, ok, tag);
    if OnTagged(c, ok, tag).error.None? { LeavesEarly(c, st, ok, tag); }
    NoticedIrrelevant(w, ok, tag);
    TransmitKeeps(Noticed(w, ok, tag), OnTagged(c, ok, tag));
  }

  /** The bookkeeping of the run does not enter the invariant. */
  lemma NoticedIrrelevant(w: World, ok: bool, tag: nat)
    requires Inv(w) && Running(w)
    ensures var w' := Noticed(w, ok, tag);
            Inv(w') && w'.client == w.client && w'.response == w.response && w'.bound == w.bound
  {
    hide Ordered;
    hide Staged;
    hide Progress;
  }

  /** Handlers that send nothing. */
  lemma QuietKeeps(w: World, e: Commands.Event, c': Core)
    requires Inv(w) && Running(w) && c' == Commands.Handle(w.client.value, e) && !e.Timer? && !e.Tagged?
    requires c'.uids == w.client.value.uids && c'.uidvalidity == w.client.value.uidvalidity
    requires c'.state == w.client.value.state || c'.state.LOGGED_OUT?
    requires c'.error.None? ==> Progress(w.response, w.bound.Some?, c', w.delivered)
    ensures Inv(w.(client := Some(c')))
  {
    hide Commands.Handle;
    hide Progress;
    var c := w.client.value;
    Commands.QuietSame(c, e);
    hide Staged;
    StagedStep(c, e);
  }

  lemma ServerTextKeeps(w: World, a: Action)
    requires Inv(w) && Enabled(w, a) && Disciplined(w, a)
    requires a.Signal? || a.CapabilityBegin? || a.CapabilityItem? || a.Exists?
    ensures Inv(Next(w, a))
  {
    hide Inv;
    var c := w.client.value;
    ClientFacts(w);
    match a {
      case Signal => QuietKeeps(w, Commands.Signal, OnSignal(c));
      case CapabilityBegin => QuietKeeps(w, Commands.CapabilityBegin, OnCapabilityBegin(c));
      case CapabilityItem(x) => QuietKeeps(w, Commands.CapabilityItem(x), OnCapability(c, x));
      case Exists(n) => QuietKeeps(w, Commands.Exists(n), OnExists(c, n));
    }
  }

  /** An announced UIDVALIDITY that differs from the client's clears the UIDs. */
  lemma ValidityKeeps(w: World)
    requires Inv(w) && Enabled(w, UidValidity)
    ensures Inv(Next(w, UidValidity))
  {
    var c := w.client.value;
    var n := w.validity[w.selecting.value];
    var c' := OnUidValidity(c, n);
    StagedStep(c, Commands.UidValidity(n));
    assert Commands.Handle(c, Commands.UidValidity(n)) == c';
    hide Staged;
    assert Owner(c', w.delivered);
  }

  /** The parts of a FETCH response that do not end it; `r` is the response behind the part. */
  lemma PartKeeps(w: World, e: Commands.Event, c': Core, r: Response)
    requires Inv(w) && Running(w) && c' == Commands.Handle(w.client.value, e) && !e.Timer? && !e.Tagged?
    requires c'.uids == w.client.value.uids && c'.uidvalidity == w.client.value.uidvalidity
    requires c'.state == w.client.value.state
    requires w.response.Open? && r.Open? && r.key == w.response.key
    requires c'.error.None? ==> Progress(r, w.bound.Some?, c', w.delivered)
    ensures Inv(w.(client := Some(c'), response := r))
  {
    hide Commands.Handle;
    hide Progress;
    var c := w.client.value;
    Commands.QuietSame(c, e);
    hide Staged;
    StagedStep(c, e);
  }

  lemma FetchOpenKeeps(w: World, k: Key)
    requires Inv(w) && Enabled(w, FetchOpen(k))
    ensures Inv(Next(w, FetchOpen(k)))
  {
    var c := w.client.value;
    StagedStep(c, Commands.FetchBegin);
    assert Commands.Handle(c, Commands.FetchBegin) == OnFetchBegin(c);
    hide Staged;
  }

  lemma FetchPartKeeps(w: World, a: Action)
    requires Inv(w) && Enabled(w, a) && Disciplined(w, a) && (a.FetchUid? || a.FetchSection? || a.FetchInner?)
    ensures Inv(Next(w, a))
  {
    hide Inv;
    var c, r := w.client.value, w.response;
    ClientFacts(w);
    if a.FetchUid? {
      ResponseAddressed(w);
      PartKeeps(w, Commands.Uid(r.key.uid), OnUid(c, r.key.uid), r.(uidSent := true));
    } else if a.FetchInner? {
      PartKeeps(w, Commands.BodyInner, OnBodyInner(c), r.(part := Content(r.part.full)));
    } else if a.full {
      PartKeeps(w, Commands.SectionEmpty, OnSectionEmpty(c), r.(part := Section(true)));
    } else {
      NothingSent(w, r.(part := Section(false)));
    }
  }

  lemma ResponseAddressed(w: World)
    requires Inv(w) && Running(w) && w.response.Open?
    ensures Addressed(w, w.client.value)
  {
  }

  lemma NothingSent(w: World, r: Response)
    requires Inv(w) && Running(w) && w.response.Open? && w.response.part.NoPart? && r == w.response.(part := Section(false))
    ensures Inv(w.(response := r))
  {
    hide Staged;
  }

  /** The end of a body: with the link made, the message counts as delivered. */
  lemma FetchBodyKeeps(w: World, move: Move)
    requires Inv(w) && Enabled(w, FetchBody(move))
    ensures Inv(Next(w, FetchBody(move)))
  {
    hide Staged;
    hide Ledger;
    hide Owner;
    hide Progress;
    var c := w.client.value;
    var c', w' := OnBodyEnd(c, move), Next(w, FetchBody(move));
    StagedStep(c, Commands.BodyEnd(move));
    assert Commands.Handle(c, Commands.BodyEnd(move)) == c';
    BodyProgress(w, move);
    BodyEndFrame(c, move);
    hide OnBodyEnd;
    hide Addressed;
    AddressedSame(w, w', c, c');
    DeliveredGrows(w, w');
    OwnerGrows(c, c', w.delivered, w'.delivered);
  }

  /** A full body that ends while the client fetches is in the maildir, or the client has thrown. */
  lemma BodyProgress(w: World, move: Move)
    requires Enabled(w, FetchBody(move)) && Progress(w.response, w.bound.Some?, w.client.value, w.delivered)
    ensures var w' := Next(w, FetchBody(move));
            w'.client.value.error.None? ==> Progress(w'.response, w'.bound.Some?, w'.client.value, w'.delivered)
  {
    hide Progress;
    var c, r, w' := w.client.value, w.response, Next(w, FetchBody(move));
    BodyEndInStep(r, w.bound.Some?, c, move, w.delivered);
    hide OnBodyEnd;
    hide InStep;
    var landed := c.state.FETCHING? && c.body.fullBody && c.body.tmpName && !move.NotLinked?;
    assert w'.client.value == OnBodyEnd(c, move) && w'.bound == w.bound;
    assert w'.delivered == w.delivered + if landed then {r.key} else {};
    assert w'.response == r.(part := NoPart, bodySent := r.bodySent || r.part.full);
  }

  lemma BodyEndInStep(r: Response, bound: bool, c: Core, move: Move, delivered: set<Key>)
    requires Progress(r, bound, c, delivered) && c.error.None? && r.Open? && r.part.Content?
    ensures var c' := OnBodyEnd(c, move);
            var landed := c.state.FETCHING? && c.body.fullBody && c.body.tmpName && !move.NotLinked?;
            c'.error.None? ==> Progress(r.(part := NoPart, bodySent := r.bodySent || r.part.full), bound, c',
                                        delivered + if landed then {r.key} else {})
  {
  }

  lemma AddressedSame(w: World, w': World, c: Core, c': Core)
    requires Addressed(w, c) && w'.response.Open? == w.response.Open? && w'.bound == w.bound && w'.ever == w.ever
    requires w.response.Open? ==> w'.response.key == w.response.key
    requires c'.mailbox == c.mailbox && c'.uidvalidity == c.uidvalidity
    ensures Addressed(w', c')
  {
  }

  lemma BodyEndFrame(c: Core, move: Move)
    ensures OnBodyEnd(c, move) == c.(body := OnBodyEnd(c, move).body, error := OnBodyEnd(c, move).error)
  {
  }

  lemma OwnerGrows(c: Core, c': Core, d: set<Key>, d': set<Key>)
    requires Owner(c, d) && d <= d' && c' == c.(body := c'.body, error := c'.error)
    ensures Owner(c', d')
  {
  }

  lemma DeliveredGrows(w: World, w': World)
    requires Ledger(w) && w.delivered <= w'.delivered <= w.delivered + w.ever && w'.ever == w.ever
    requires w'.journal == w.journal && w'.stores == w.stores && w'.expunges == w.expunges && w'.work == w.work
    requires w'.removed == w.removed
    ensures Ledger(w')
  {
  }

  /** What the client takes in at the end of a response is delivered: while it fetches, because the server has sent the
      body; behind the end of a session, because the response was not cut short. */
  lemma CloseBacked(w: World)
    requires Inv(w) && Enabled(w, FetchClose) && Disciplined(w, FetchClose) && Trusted(w.client.value)
    ensures var c := w.client.value;
            c.body.lastUid != 0 ==> !c.state.DISCONNECTED? && c.body.lastUid < MAX32 && Noted(c) in w.delivered
  {
    hide Staged;
    hide Ledger;
  }

  lemma CloseProgress(w: World, r: Response, c: Core, c': Core)
    requires Progress(w.response, w.bound.Some?, c, w.delivered) && c' == c.(uids := c'.uids) && c.body.lastUid != 0
    requires r.Closed? && (Trusted(c) ==> Noted(c) in w.delivered)
    requires c.state.FETCHING? ==> w.response.Open? && w.response.part.NoPart?
    ensures Progress(r, w.bound.Some?, c', w.delivered)
  {
  }

  /** The end of a response pushes its UID, which stands for a message delivered under the UIDVALIDITY in force. */
  lemma FetchCloseKeeps(w: World)
    requires Inv(w) && Enabled(w, FetchClose) && Disciplined(w, FetchClose)
    ensures Inv(Next(w, FetchClose))
  {
    var c, r := w.client.value, w.response;
    var c' := OnFetchEnd(c);
    if Trusted(c) { CloseBacked(w); }
    StagedStep(c, Commands.FetchEnd);
    assert Commands.Handle(c, Commands.FetchEnd) == c';
    if c'.error.None? { CloseProgress(w, Next(w, FetchClose).response, c, c'); }
    hide Progress;
    hide Staged;
    hide Ledger;
    hide LateUid;
    LedgerResponse(w, Next(w, FetchClose));
    assert c'.error.None? && Trusted(c') ==> Backed(ClientOrder(c'), w.delivered);
  }

  lemma LedgerResponse(w: World, w': World)
    requires Ledger(w) && w' == w.(client := w'.client, response := w'.response, late := w'.late)
    ensures Ledger(w')
  {
  }

  /** Every possible action of a disciplined environment keeps the invariant. */
  lemma ActionKeeps(w: World, a: Action)
    requires Inv(w) && Enabled(w, a) && Disciplined(w, a)
    ensures Inv(Next(w, a))
  {
    hide Inv;
    hide Next;
    match a {
      case Start(o) => StartKeeps(w, o);
      case Exit(_) => EndKeeps(w, a);
      case Kill => EndKeeps(w, a);
      case Timer => TimerKeeps(w);
      case Signal => ServerTextKeeps(w, a);
      case CapabilityBegin => ServerTextKeeps(w, a);
      case CapabilityItem(_) => ServerTextKeeps(w, a);
      case Exists(_) => ServerTextKeeps(w, a);
      case UidValidity => ValidityKeeps(w);
      case Tagged(ok, tag) => TaggedKeeps(w, ok, tag);
      case FetchOpen(k) => FetchOpenKeeps(w, k);
      case FetchUid => FetchPartKeeps(w, a);
      case FetchSection(_) => FetchPartKeeps(w, a);
      case FetchInner => FetchPartKeeps(w, a);
      case FetchBody(move) => FetchBodyKeeps(w, move);
      case FetchClose => FetchCloseKeeps(w);
      case Perform => OutsideKeeps(w, a);
      case PerformPart(_, _) => OutsideKeeps(w, a);
      case Add(_) => OutsideKeeps(w, a);
      case Remove(_) => OutsideKeeps(w, a);
      case Flag(_) => OutsideKeeps(w, a);
      case Unflag(_) => OutsideKeeps(w, a);
      case ChangeValidity(_, _) => OutsideKeeps(w, a);
    }
  }

  lemma {:induction false} BehaviourInv(ws: seq<World>, acts: seq<Action>, i: nat)
    requires Behaviour(ws, acts) && i < |ws|
    ensures Inv(ws[i])
  {
    hide Inv;
    hide Next;
    if i == 0 {
      InitialInv(ws[0]);
    } else {
      BehaviourInv(ws, acts, i - 1);
      assert Enabled(ws[i - 1], acts[i - 1]) && Disciplined(ws[i - 1], acts[i - 1]) && ws[i] == Next(ws[i - 1], acts[i - 1]);
      ActionKeeps(ws[i - 1], acts[i - 1]);
    }
  }

  // ---------------------------------------------------------------- the theorems

  /** Over any number of runs, each cut off anywhere, with other clients and UIDVALIDITY changes: every message removed
      by a UID EXPUNGE of ours had been linked into the maildir before. */
  lemma NothingLost(ws: seq<World>, acts: seq<Action>, i: nat)
    requires Behaviour(ws, acts) && i < |ws|
    ensures ws[i].removed <= ws[i].delivered
  {
    BehaviourInv(ws, acts, i);
  }

  /** Every UID ever sent in a UID STORE or UID EXPUNGE was recorded for a message delivered from that mailbox under the
      UIDVALIDITY in force at the server when the command was sent, also when it came out of a journal. */
  lemma OrdersBacked(ws: seq<World>, acts: seq<Action>, i: nat, o: Order)
    requires Behaviour(ws, acts) && i < |ws| && o in ws[i].stores + ws[i].expunges
    ensures forall u | u in o.uids :: Key(o.mailbox, o.validity, u) in ws[i].delivered && 0 < u < MAX32
  {
    BehaviourInv(ws, acts, i);
  }

  /** Once the server has announced a UIDVALIDITY, it is the client's, and all UIDs the client holds for deletion were
      recorded under it. */
  lemma UidsUnderAnnouncedValidity(ws: seq<World>, acts: seq<Action>, i: nat)
    requires Behaviour(ws, acts) && i < |ws| && ws[i].client.Some? && ws[i].bound.Some?
    ensures var w, c := ws[i], ws[i].client.value;
            && w.bound == Some(c.mailbox) && c.mailbox in w.validity && c.uidvalidity == w.validity[c.mailbox]
            && (Trusted(c) ==> forall u | u in c.uids :: Key(c.mailbox, w.validity[c.mailbox], u) in w.delivered)
  {
    BehaviourInv(ws, acts, i);
  }

  /** The two consistency errors of the maildir are unreachable, and while a download fetches, the redirected buffer and
      the pending name belong to the full body being received. */
  lemma MaildirInStep(ws: seq<World>, acts: seq<Action>, i: nat)
    requires Behaviour(ws, acts) && i < |ws| && Running(ws[i])
    ensures var c, r := ws[i].client.value, ws[i].response;
            && (c.state.FETCHING? ==> c.body.toFile == c.body.tmpName == (r.Open? && r.part == Content(true)))
            && (r.Open? && r.part.Section? ==> OnBodyInner(c).error.None?)
            && (r.Open? && r.part.Content? ==> OnBodyEnd(c, Moved).error.None?)
  {
    BehaviourInv(ws, acts, i);
  }
}
