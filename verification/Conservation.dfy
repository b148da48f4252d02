/** Conservation: no delivered message is forgotten, and a cleanup completes before new messages are fetched. */
module Conservation {
  import opened Text
  import opened Client
  import opened World
  import opened Safety
  import Commands

  /** The client holds the message for deletion. */
  predicate Held(c: Core, k: Key) { InOrder(k, ClientOrder(c)) }

  ghost predicate HeldAll(w: World, c: Core) { forall k | k in w.loaded :: Held(c, k) }

  /** The server has replaced the UIDVALIDITY that the journal was written under. */
  ghost predicate Replaced(w: World, c: Core) { forall k | k in w.loaded :: k.validity != c.uidvalidity }

  /** Off the server, unless another client took away the \Deleted flag. */
  ghost predicate Gone(w: World, k: Key) { k !in w.present || k in w.unflagged }

  ghost predicate Marked(w: World, o: Order)
  {
    forall k | k in w.ever && InOrder(k, o) :: k !in w.present || k in w.flagged || k in w.unflagged
  }

  ghost predicate AllGone(w: World, o: Order) { forall k | k in w.ever && InOrder(k, o) :: Gone(w, k) }

  ghost predicate LoadedCleaned(w: World) { forall k | k in w.loaded :: k in w.cleaned }

  /** A download that deletes. */
  predicate Moving(c: Core) { c.opts.task.DOWNLOAD? && c.opts.del }

  /** The client has forgotten its UIDs, and logs out. */
  predicate Cleared(c: Core) { c.line.point.BehindLogout? || c.line.point.Done? }

  /** The response about the message is not closed yet. */
  predicate Unclosed(w: World, k: Key) { w.response.Open? && w.response.key == k }

  /** The end of the open response will take in the message, or throw. */
  ghost predicate Coming(w: World, c: Core, k: Key)
  {
    Unclosed(w, k) && (c.state.FETCHING? || c.body.lastUid == 0 || c.body.lastUid == k.uid)
  }

  /** A message delivered by this run is held or about to be; once the client has forgotten its UIDs, its expunge is
      confirmed or it was late. */
  ghost predicate LatestKept(w: World, c: Core)
  {
    forall k | k in w.latest :: Coming(w, c, k) || Held(c, k) || (Cleared(c) && (k in w.confirmed || k in w.late))
  }

  /** Nothing is confirmed before the client forgets its UIDs; behind that, late messages are lost to the run. */
  ghost predicate LateLost(w: World, c: Core)
  {
    if Cleared(c) then forall k | k in w.late :: !Held(c, k) && k !in w.confirmed else w.confirmed == {}
  }

  /** Nothing was fetched yet. */
  ghost predicate Unfetched(w: World, c: Core) { w.latest == {} && w.confirmed == {} && w.late == {} && !c.state.FETCHING? }

  /** Of the UIDs that the client holds, the latest UID STORE named all but the late ones. */
  ghost predicate Window(w: World, c: Core)
  {
    && w.stored.Some? && w.stored.value.mailbox == c.mailbox && w.stored.value.validity == c.uidvalidity
    && w.stored.value.uids <= c.uids
    && (forall u | u in c.uids :: u in w.stored.value.uids || Key(c.mailbox, c.uidvalidity, u) in w.late)
    && (forall k | k in w.late :: !InOrder(k, w.stored.value))
  }

  /** The server is marking, or removing, at least what the latest UID STORE named. */
  ghost predicate AtStore(w: World)
  {
    w.stored.Some? && w.work == Work.Storing(w.stored.value) && (w.worked ==> Marked(w, w.stored.value))
  }

  ghost predicate AtExpunge(w: World)
  {
    && w.stored.Some? && Marked(w, w.stored.value) && (w.worked ==> AllGone(w, w.stored.value))
    && match w.work
       case Expunging(o) =>
         o.mailbox == w.stored.value.mailbox && o.validity == w.stored.value.validity && w.stored.value.uids <= o.uids
       case ExpungingAll(mb) => mb == w.stored.value.mailbox
       case _ => false
  }

  /** What holds in each stage of a run. */
  ghost predicate Cons(w: World, c: Core, st: Commands.Stage)
  {
    match st
    case CleanupSelect =>
      Unfetched(w, c) && (HeldAll(w, c) || (c.uids == {} && Replaced(w, c) && w.bound.Some?))
    case CleanupStore => Unfetched(w, c) && HeldAll(w, c) && w.bound.Some? && Window(w, c) && AtStore(w)
    case CleanupExpunge => Unfetched(w, c) && HeldAll(w, c) && w.bound.Some? && Window(w, c) && AtExpunge(w)
    case Selecting => Unfetched(w, c) && LoadedCleaned(w)
    case Fetching => LoadedCleaned(w) && w.bound.Some? && w.late == {}
    case Storing => LoadedCleaned(w) && w.bound.Some? && Window(w, c) && AtStore(w)
    case Expunging => LoadedCleaned(w) && w.bound.Some? && Window(w, c) && AtExpunge(w)
    case LoggingOut => LoadedCleaned(w) && w.bound.Some?
    case Over => LoadedCleaned(w) && w.bound.Some?
    case _ => Unfetched(w, c) && HeldAll(w, c) && w.selecting.None? && (!c.needCleanup ==> w.loaded == {})
  }

  /** What the books of a run say, also after a throw. */
  ghost predicate Accounted(w: World, c: Core)
  {
    && (forall k | k in w.loaded :: Held(c, k) || k in w.cleaned || k.validity != c.uidvalidity)
    && (Moving(c) ==> LatestKept(w, c) && LateLost(w, c))
  }

  ghost predicate InStage(w: World, c: Core) { exists st: Commands.Stage :: Commands.At(c, st) && Cons(w, c, st) }

  /** What was confirmed is off the server. */
  ghost predicate Sets(w: World)
  {
    && w.present <= w.ever && w.loaded <= w.ever && w.latest <= w.ever
    && (w.stored.Some? ==> w.stored.value in w.stores)
    && (forall k | k in w.cleaned + w.confirmed :: k in w.ever && Gone(w, k))
  }

  ghost predicate Books(w: World)
  {
    Sets(w) && (w.client.Some? ==> Accounted(w, w.client.value) && (w.client.value.error.None? ==> InStage(w, w.client.value)))
  }

  // ---------------------------------------------------------------- everything but the client

  /** What other clients and the server do never brings a message back. */
  ghost predicate Elsewhere(w: World, w': World)
  {
    && SameRun(w, w') && w.ever <= w'.ever && w'.unflagged >= w.unflagged && w.stores <= w'.stores
    && (forall k | k in w'.present :: k in w.present || k !in w.ever)
    && (forall k | k in w.flagged :: k in w'.flagged || k in w'.unflagged)
  }

  ghost predicate SameRun(w: World, w': World)
  {
    && w'.client == w.client && w'.loaded == w.loaded && w'.latest == w.latest && w'.response == w.response
    && w'.cleaned == w.cleaned && w'.confirmed == w.confirmed && w'.late == w.late
    && w'.selecting == w.selecting && w'.bound == w.bound && w'.work == w.work && w'.stored == w.stored
  }

  lemma OutsideElsewhere(w: World, a: Action)
    requires Enabled(w, a)
    requires a.Add? || a.Remove? || a.Flag? || a.Unflag? || a.ChangeValidity? || a.Perform? || a.PerformPart?
    ensures Elsewhere(w, Next(w, a)) && (a.Perform? || Next(w, a).worked == w.worked)
    ensures w.present <= w.ever ==> Next(w, a).present <= Next(w, a).ever
  {
    hide KeysIn;
    hide Performed;
    if a.Perform? {
      PerformElsewhere(w);
    } else if a.PerformPart? || a.Remove? {
      LessElsewhere(w, a);
    } else if a.Flag? || a.Unflag? {
      FlagElsewhere(w, a);
    }
  }

  lemma LessElsewhere(w: World, a: Action)
    requires Enabled(w, a) && (a.PerformPart? || a.Remove?)
    ensures Elsewhere(w, Next(w, a)) && Next(w, a).worked == w.worked
    ensures w.present <= w.ever ==> Next(w, a).present <= Next(w, a).ever
  {
    hide KeysIn;
  }

  lemma FlagElsewhere(w: World, a: Action)
    requires Enabled(w, a) && (a.Flag? || a.Unflag?)
    ensures Elsewhere(w, Next(w, a)) && Next(w, a).worked == w.worked
    ensures w.present <= w.ever ==> Next(w, a).present <= Next(w, a).ever
  {
  }

  lemma PerformElsewhere(w: World)
    ensures Elsewhere(w, Performed(w)) && Performed(w).present <= w.present && Performed(w).ever == w.ever
  {
    hide KeysIn;
  }

  lemma GoneStays(w: World, w': World, k: Key)
    requires Elsewhere(w, w') && Gone(w, k) && k in w.ever
    ensures Gone(w', k)
  {
  }

  /** The messages of an order that was sent are known to the server; a fresh message is in none. */
  lemma OrderKnown(w: World, o: Order)
    requires Inv(w) && o in w.stores
    ensures forall k | InOrder(k, o) :: k in w.ever
  {
    OrderCovered(w, o);
  }

  lemma OrderStays(w: World, w': World, o: Order)
    requires Elsewhere(w, w') && forall k | InOrder(k, o) :: k in w.ever
    ensures Marked(w, o) ==> Marked(w', o)
    ensures AllGone(w, o) ==> AllGone(w', o)
  {
  }

  lemma OutsideCons(w: World, w': World, c: Core, st: Commands.Stage)
    requires Inv(w) && Sets(w) && w.client == Some(c) && Cons(w, c, st)
    requires Elsewhere(w, w') && w'.worked == w.worked
    ensures Cons(w', c, st)
  {
    if w.stored.Some? {
      OrderKnown(w, w.stored.value);
      OrderStays(w, w', w.stored.value);
    }
    hide Inv;
    hide Marked;
    hide AllGone;
    hide Gone;
  }

  /** Carrying out the command brings about what the OK for it means. */
  lemma PerformCons(w: World, c: Core, st: Commands.Stage)
    requires Inv(w) && Sets(w) && w.client == Some(c) && Cons(w, c, st)
    ensures Cons(Performed(w), c, st)
  {
    var w' := Performed(w);
    OutsideElsewhere(w, Perform);
    PerformedSame(w);
    hide Performed;
    hide Elsewhere;
    OutsideCons(w, w'.(worked := w.worked), c, st) by { ElsewhereWorked(w, w'); }
    hide Inv;
    hide Sets;
    hide Marked;
    hide AllGone;
    WorkSets(w, c, st);
    hide Cons;
    WorkedCons(w'.(worked := w.worked), w'.worked, c, st);
  }

  lemma WorkSets(w: World, c: Core, st: Commands.Stage)
    requires Cons(w, c, st)
    ensures st.CleanupStore? || st.Storing? ==> Marked(Performed(w), w.stored.value)
    ensures st.CleanupExpunge? || st.Expunging? ==> AllGone(Performed(w), w.stored.value)
    ensures st.CleanupStore? || st.Storing? || st.CleanupExpunge? || st.Expunging? ==> w.stored.Some?
  {
    if st.CleanupStore? || st.Storing? {
      StoreWorks(w);
    } else if st.CleanupExpunge? || st.Expunging? {
      ExpungeWorks(w);
    }
  }

  lemma WorkedCons(w: World, worked: bool, c: Core, st: Commands.Stage)
    requires Cons(w, c, st)
    requires st.CleanupStore? || st.Storing? ==> w.stored.Some? && Marked(w, w.stored.value)
    requires st.CleanupExpunge? || st.Expunging? ==> w.stored.Some? && AllGone(w, w.stored.value)
    ensures Cons(w.(worked := worked), c, st)
  {
  }

  lemma ElsewhereWorked(w: World, w': World)
    requires Elsewhere(w, w')
    ensures Elsewhere(w, w'.(worked := w.worked))
  {
  }

  lemma PerformedSame(w: World)
    ensures SameRun(w, Performed(w))
  {
  }

  lemma StoreWorks(w: World)
    requires AtStore(w)
    ensures Marked(Performed(w), w.stored.value)
  {
  }

  lemma ExpungeWorks(w: World)
    requires AtExpunge(w)
    ensures AllGone(Performed(w), w.stored.value)
  {
  }

  lemma OutsideSets(w: World, w': World)
    requires Sets(w) && Elsewhere(w, w') && w'.present <= w'.ever
    ensures Sets(w')
  {
    forall k | k in w.cleaned + w.confirmed ensures Gone(w', k) { GoneStays(w, w', k); }
  }

  lemma OutsideBooks(w: World, a: Action)
    requires Inv(w) && Books(w) && Enabled(w, a)
    requires a.Add? || a.Remove? || a.Flag? || a.Unflag? || a.ChangeValidity? || a.Perform? || a.PerformPart?
    ensures Books(Next(w, a))
  {
    hide Inv;
    hide Cons;
    hide Commands.At;
    var w' := Next(w, a);
    OutsideElsewhere(w, a);
    OutsideSets(w, w');
    if w.client.Some? { SameAccounts(w, w'); }
    if Running(w) {
      var c := w.client.value;
      var st: Commands.Stage :| Commands.At(c, st) && Cons(w, c, st);
      if a.Perform? { PerformCons(w, c, st); } else { OutsideCons(w, w', c, st); }
      assert InStage(w', c);
    }
  }

  lemma SameAccounts(w: World, w': World)
    requires SameRun(w, w') && w.client.Some? && Accounted(w, w.client.value)
    ensures Accounted(w', w.client.value)
  {
  }

  // ---------------------------------------------------------------- the client

  lemma StartBooks(w: World, o: Options)
    requires Inv(w) && Books(w) && w.client.None?
    ensures Books(Next(w, Start(o)))
  {
    var w' := Next(w, Start(o));
    var c := Startup(o, w.journal);
    assert Commands.At(c, Commands.Waiting) && Cons(w', c, Commands.Waiting);
  }

  /** What a quiet step of the client may change: its state at the end of a session, what it read of a response, and the
      response, which may be opened. */
  ghost predicate Quiet(w: World, w': World, c: Core, c': Core)
  {
    && w' == w.(client := Some(c'), response := w'.response)
    && c'.opts == c.opts && c'.line == c.line && c'.needCleanup == c.needCleanup && c'.mailbox == c.mailbox
    && c'.uids == c.uids && c'.uidvalidity == c.uidvalidity && (c'.state == c.state || c'.state.LOGGED_OUT?)
    && (w.response.Open? ==> w'.response.Open? && w'.response.key == w.response.key)
    && (c'.body.lastUid == c.body.lastUid || c'.state.FETCHING?)
    && (c.state.FETCHING? && !c'.state.FETCHING? && w.response.Open? ==>
          c'.body.lastUid == 0 || c'.body.lastUid == w.response.key.uid)
  }

  lemma QuietSteps(w: World, w': World, c: Core, c': Core, st: Commands.Stage)
    requires Quiet(w, w', c, c') && Accounted(w, c)
    ensures Accounted(w', c')
    ensures Cons(w, c, st) ==> Cons(w', c', st)
  {
  }

  lemma QuietBooks(w: World, c': Core, r: Response)
    requires Books(w) && Running(w) && Quiet(w, w.(client := Some(c'), response := r), w.client.value, c')
    ensures Books(w.(client := Some(c'), response := r))
  {
    hide Cons;
    hide Accounted;
    hide Commands.At;
    var c, w' := w.client.value, w.(client := Some(c'), response := r);
    var st: Commands.Stage :| Commands.At(c, st) && Cons(w, c, st);
    Commands.StageKept(c, c', st);
    QuietSteps(w, w', c, c', st);
  }

  /** The announcement of a UIDVALIDITY: either it is the client's, or the UIDs are cleared before anything was fetched. */
  lemma ValidityBooks(w: World)
    requires Inv(w) && Books(w) && Enabled(w, UidValidity)
    ensures Books(Next(w, UidValidity))
  {
    var c, n := w.client.value, w.validity[w.selecting.value];
    var c', w' := OnUidValidity(c, n), Next(w, UidValidity);
    var st: Commands.Stage :| Commands.At(c, st) && Cons(w, c, st);
    Commands.StageKept(c, c', st);
    ValiditySame(w);
    hide Inv;
    hide Commands.At;
    if c.uidvalidity == n {
      assert c' == c;
      assert Cons(w', c', st);
    } else {
      assert Cons(w', c', st);
    }
  }

  lemma ValiditySame(w: World)
    requires Inv(w) && Enabled(w, UidValidity)
    ensures w.bound.Some? ==> w.client.value.uidvalidity == w.validity[w.selecting.value]
  {
  }

  lemma ResponseKnown(w: World)
    requires Inv(w) && Running(w) && w.response.Open?
    ensures w.response.key in w.ever && w.response.key == Key(w.client.value.mailbox, w.client.value.uidvalidity, w.response.key.uid)
    ensures w.client.value.state.FETCHING? ==> w.client.value.body.lastUid == if w.response.uidSent then w.response.key.uid else 0
  {
  }

  /** A body that ends: at most the message of the open response is new, and only while fetching. */
  lemma FetchBodyBooks(w: World, move: Move)
    requires Inv(w) && Books(w) && Enabled(w, FetchBody(move))
    ensures Books(Next(w, FetchBody(move)))
  {
    hide Cons;
    hide Accounted;
    hide OnBodyEnd;
    hide Commands.At;
    var c, w' := w.client.value, Next(w, FetchBody(move));
    var c' := OnBodyEnd(c, move);
    ResponseKnown(w);
    hide Inv;
    BodyEndFrame(c, move);
    BodyEndUid(c, move);
    var w1 := w.(client := Some(c'), response := w'.response);
    QuietBooks(w, c', w'.response);
    assert w' == w1.(delivered := w'.delivered, latest := w'.latest);
    if w'.latest != w.latest { BodyLanded(w1, w', c', w.response.key); }
    else { assert w' == w1.(delivered := w'.delivered); BodyElsewhere(w1, w', c'); }
  }

  lemma BodyEndUid(c: Core, move: Move)
    ensures OnBodyEnd(c, move).body.lastUid == c.body.lastUid
  {
  }

  lemma BodyElsewhere(w: World, w': World, c: Core)
    requires Books(w) && w.client == Some(c) && w' == w.(delivered := w'.delivered)
    ensures Books(w')
  {
    if c.error.None? {
      var st: Commands.Stage :| Commands.At(c, st) && Cons(w, c, st);
      assert Cons(w', c, st);
    }
  }

  lemma BodyLanded(w: World, w': World, c: Core, k: Key)
    requires Books(w) && w.client == Some(c) && c.state.FETCHING? && Unclosed(w, k) && k in w.ever
    requires w' == w.(delivered := w'.delivered, latest := w.latest + {k})
    ensures Books(w')
  {
    if c.error.None? {
      var st: Commands.Stage :| Commands.At(c, st) && Cons(w, c, st);
      assert Cons(w', c, st);
    }
  }

  lemma DeletingWhen(c: Core, st: Commands.Stage)
    requires Commands.At(c, st)
    ensures Deleting(c) <==> st.CleanupStore? || st.CleanupExpunge? || st.Storing? || st.Expunging?
    ensures Cleared(c) <==> st.LoggingOut? || st.Over?
    ensures Early(c) <==> !(st.Fetching? || st.Storing? || st.Expunging? || st.LoggingOut? || st.Over?)
  {
  }

  /** The end of a response moves its message from the open response to the UIDs. */
  lemma FetchCloseBooks(w: World)
    requires Inv(w) && Books(w) && Enabled(w, FetchClose)
    ensures Books(Next(w, FetchClose))
  {
    hide Cons;
    hide Accounted;
    hide Commands.At;
    var c, w' := w.client.value, Next(w, FetchClose);
    var c' := OnFetchEnd(c);
    ClientFacts(w);
    ResponseKnown(w);
    hide Inv;
    var st: Commands.Stage :| Commands.At(c, st) && Cons(w, c, st);
    Commands.StageKept(c, c', st);
    DeletingWhen(c, st);
    if c'.error.None? {
      CloseAccounts(w, c, c', st);
      CloseCons(w, c, c', st);
      assert w'.client == Some(c') && Commands.At(c', st);
    } else {
      CloseThrows(w, c, c');
    }
  }

  lemma CloseThrows(w: World, c: Core, c': Core)
    requires Accounted(w, c) && c' == c.(error := c'.error)
    ensures Accounted(w.(client := Some(c')), c')
  {
  }

  lemma CloseAccounts(w: World, c: Core, c': Core, st: Commands.Stage)
    requires Running(w) && w.client == Some(c) && c' == OnFetchEnd(c) && c'.error.None? && Accounted(w, c)
    requires w.response.Open? && w.response.key == Key(c.mailbox, c.uidvalidity, w.response.key.uid)
    requires c.state.FETCHING? ==> c.body.lastUid == w.response.key.uid || c.body.lastUid == 0
    requires Cleared(c) ==> !Deleting(c)
    ensures Accounted(Closing(w), c')
  {
    hide Deleting;
  }

  lemma CloseCons(w: World, c: Core, c': Core, st: Commands.Stage)
    requires Running(w) && w.client == Some(c) && c' == OnFetchEnd(c) && c'.error.None?
    requires Commands.At(c, st) && Cons(w, c, st) && InStep(w.response, c)
    requires Deleting(c) <==> st.CleanupStore? || st.CleanupExpunge? || st.Storing? || st.Expunging?
    requires Early(c) <==> !(st.Fetching? || st.Storing? || st.Expunging? || st.LoggingOut? || st.Over?)
    ensures Cons(Closing(w), c', st)
  {
    hide Deleting;
    hide Commands.At;
    assert !Early(c);
    hide Early;
    hide InStep;
    if st.Storing? || st.Expunging? { CloseWindow(w, c, c'); }
  }

  lemma CloseWindow(w: World, c: Core, c': Core)
    requires Running(w) && w.client == Some(c) && c' == OnFetchEnd(c) && c'.error.None? && Deleting(c) && Window(w, c)
    ensures Window(Closing(w), c')
  {
    hide Deleting;
  }

  // ---------------------------------------------------------------- tagged responses

  /** An OK for the outstanding command that the client survives. */
  ghost predicate AnswerStep(w: World, c: Core, c': Core, st: Commands.Stage, tag: nat)
  {
    && Inv(w) && Sets(w) && w.client == Some(c) && c.error.None? && w.response.Closed?
    && Commands.At(c, st) && Cons(w, c, st) && Effect(c, c') && c'.error.None?
    && Commands.Moved(c, c', Commands.Following(c, st))
    && tag in c.line.pending && MayAnswer(w, c.line.pending[tag].command)
  }

  /** What the server makes of a command leaves the books of the run alone. */
  ghost predicate SameBooks(w: World, w': World)
  {
    && w'.loaded == w.loaded && w'.latest == w.latest && w'.response == w.response && w'.client == w.client
    && w'.cleaned == w.cleaned && w'.confirmed == w.confirmed && w'.late == w.late
    && w'.present == w.present && w'.flagged == w.flagged && w'.unflagged == w.unflagged && w'.ever == w.ever
    && w.stores <= w'.stores && (w'.stored.Some? && w'.stored != w.stored ==> w'.stored.value in w'.stores)
  }

  lemma ReceiveBooks(w: World, cmd: Command)
    ensures SameBooks(w, Receive(w, cmd))
    ensures !cmd.Select? ==> Receive(w, cmd).bound == w.bound && Receive(w, cmd).selecting == w.selecting
    ensures !cmd.Select? && !cmd.UidStore? ==> Receive(w, cmd).stored == w.stored
    ensures cmd.UidStore? && OrderAt(w, cmd.uids).Some? ==>
              Receive(w, cmd).work == Work.Storing(OrderAt(w, cmd.uids).value) && !Receive(w, cmd).worked
              && Receive(w, cmd).stored == OrderAt(w, cmd.uids)
    ensures cmd.UidExpunge? && OrderAt(w, cmd.uids).Some? ==>
              Receive(w, cmd).work == Work.Expunging(OrderAt(w, cmd.uids).value) && !Receive(w, cmd).worked
    ensures cmd.Expunge? && w.bound.Some? ==> Receive(w, cmd).work == ExpungingAll(w.bound.value) && !Receive(w, cmd).worked
  {
  }

  /** At a selected mailbox the client's UIDs amount to its order. */
  lemma OrderIsClients(w: World, c: Core)
    requires Inv(w) && w.client == Some(c) && w.bound.Some?
    ensures OrderAt(w, c.uids) == Some(ClientOrder(c)) && w.bound == Some(c.mailbox)
  {
  }

  lemma EarlyAnswer(w: World, c: Core, c': Core, st: Commands.Stage, tag: nat)
    requires AnswerStep(w, c, c', st, tag) && (st.FirstCapability? || st.LoggingIn? || st.SecondCapability?)
    ensures c'.line.sent != c.line.sent
    ensures Cons(Receive(w.(client := Some(c')), LastSent(c')), c', Commands.Following(c, st))
  {
    hide Inv;
    hide Receive;
    hide Sets;
    ReceiveBooks(w.(client := Some(c')), LastSent(c'));
  }

  /** The UID STORE of the cleanup or of the task names all UIDs that the client holds. */
  lemma StoreSent(w: World, c: Core, c': Core)
    requires Inv(w) && w.client == Some(c) && w.bound.Some? && w.late == {} && Effect(c, c') && c'.line.sent != c.line.sent
    requires LastSent(c').UidStore?
    ensures var w' := Receive(w.(client := Some(c')), LastSent(c'));
            Window(w', c') && AtStore(w') && SameBooks(w.(client := Some(c')), w') && w'.bound == w.bound
  {
    hide Receive;
    OrderIsClients(w, c);
    hide Inv;
    ReceiveBooks(w.(client := Some(c')), LastSent(c'));
    assert OrderAt(w.(client := Some(c')), c.uids) == OrderAt(w, c.uids);
  }

  /** The expunge behind it names at least as many, and everything to be removed is marked. */
  lemma ExpungeSent(w: World, c: Core, c': Core)
    requires Inv(w) && w.client == Some(c) && w.bound.Some? && Effect(c, c') && c'.line.sent != c.line.sent
    requires LastSent(c').UidExpunge? || LastSent(c').Expunge?
    requires Window(w, c) && AtStore(w) && w.worked
    ensures var w' := Receive(w.(client := Some(c')), LastSent(c'));
            Window(w', c') && AtExpunge(w') && SameBooks(w.(client := Some(c')), w') && w'.bound == w.bound
  {
    hide Receive;
    OrderIsClients(w, c);
    hide Inv;
    var w1 := w.(client := Some(c'));
    ReceiveBooks(w1, LastSent(c'));
    assert OrderAt(w1, c.uids) == OrderAt(w, c.uids);
    var w' := Receive(w1, LastSent(c'));
    assert Marked(w', w.stored.value);
    WindowStays(w, w', c, c');
  }

  lemma WindowStays(w: World, w': World, c: Core, c': Core)
    requires Window(w, c) && w'.stored == w.stored && w'.late == w.late
    requires c'.uids == c.uids && c'.mailbox == c.mailbox && c'.uidvalidity == c.uidvalidity
    ensures Window(w', c')
  {
  }

  lemma SentKind(c: Core, c': Core, st: Commands.Stage)
    requires Commands.Moved(c, c', st) && c'.error.None? && Effect(c, c')
    ensures st.CleanupStore? || st.Storing? ==> c'.line.sent != c.line.sent && LastSent(c').UidStore?
    ensures st.CleanupExpunge? || st.Expunging? ==>
              c'.line.sent != c.line.sent && (LastSent(c').UidExpunge? || LastSent(c').Expunge?)
    ensures st.Selecting? || st.CleanupSelect? ==> c'.line.sent != c.line.sent && LastSent(c').Select?
    ensures st.LoggingOut? ==> c'.line.sent != c.line.sent && LastSent(c').Logout?
    ensures st.Fetching? ==> c'.line.sent != c.line.sent && (LastSent(c').Fetch? || LastSent(c').List?)
    ensures st.Over? ==> c'.line.sent == c.line.sent
  {
  }

  lemma CleanupAnswer(w: World, c: Core, c': Core, st: Commands.Stage, tag: nat)
    requires AnswerStep(w, c, c', st, tag) && (st.CleanupSelect? || st.CleanupStore?)
    ensures c'.line.sent != c.line.sent
    ensures Cons(Receive(w.(client := Some(c')), LastSent(c')), c', Commands.Following(c, st))
  {
    hide Receive;
    hide Window;
    hide AtStore;
    hide AtExpunge;
    SentKind(c, c', Commands.Following(c, st));
    AnswerFacts(w, c, st, tag);
    if st.CleanupSelect? {
      StoreSent(w, c, c');
    } else {
      ExpungeSent(w, c, c');
    }
    hide Inv;
    hide Sets;
    hide Commands.At;
    hide Commands.Moved;
  }

  /** What it takes for the server to answer with OK. */
  lemma AnswerFacts(w: World, c: Core, st: Commands.Stage, tag: nat)
    requires Commands.At(c, st) && tag in c.line.pending && MayAnswer(w, c.line.pending[tag].command)
    ensures st.CleanupSelect? || st.Selecting? ==> w.bound.Some?
    ensures st.CleanupStore? || st.Storing? || st.CleanupExpunge? || st.Expunging? ==> w.worked
  {
  }

  /** What the server was told to mark and to remove are the messages of the latest UID STORE. */
  lemma OrderedMeans(w: World)
    requires AtExpunge(w)
    ensures forall k :: k in Ordered(w) <==> k in w.ever && InOrder(k, w.stored.value)
    ensures w.worked ==> forall k | k in Ordered(w) :: Gone(w, k)
  {
  }

  /** The OK for the expunge of the cleanup: all messages of the journal are off the server. */
  lemma CleanupEnd(w: World, c: Core, c': Core, tag: nat)
    requires AnswerStep(w, c, c', Commands.CleanupExpunge, tag)
    ensures c'.line.sent != c.line.sent
    ensures var w1 := w.(cleaned := w.cleaned + Ordered(w), client := Some(c'));
            Sets(w1) && Cons(Receive(w1, LastSent(c')), c', Commands.Selecting)
  {
    hide Receive;
    hide Inv;
    var w1 := w.(cleaned := w.cleaned + Ordered(w), client := Some(c'));
    SentKind(c, c', Commands.Selecting);
    AnswerFacts(w, c, Commands.CleanupExpunge, tag);
    OrderedMeans(w);
    hide Ordered;
    ReceiveBooks(w1, LastSent(c'));
    forall k | k in w.loaded ensures k in w1.cleaned {
      assert k in w.ever && Held(c, k) && w.late == {};
    }
  }

  /** Answers behind the SELECT of the task, but for the last expunge. */
  lemma TaskAnswer(w: World, c: Core, c': Core, st: Commands.Stage, tag: nat)
    requires AnswerStep(w, c, c', st, tag) && (st.Selecting? || st.Fetching? || st.Storing? || st.LoggingOut?)
    ensures var w1 := w.(client := Some(c'));
            Cons(if c'.line.sent == c.line.sent then w1 else Receive(w1, LastSent(c')), c', Commands.Following(c, st))
  {
    hide Receive;
    hide Window;
    hide AtStore;
    hide AtExpunge;
    var st' := Commands.Following(c, st);
    SentKind(c, c', st');
    AnswerFacts(w, c, st, tag);
    if st'.Storing? {
      StoreSent(w, c, c');
    } else if st'.Expunging? {
      ExpungeSent(w, c, c');
    } else if c'.line.sent != c.line.sent {
      ReceiveBooks(w.(client := Some(c')), LastSent(c'));
    }
    hide Inv;
    hide Sets;
    hide Commands.At;
    hide Commands.Moved;
  }

  /** The OK for the expunge of the task. */
  lemma TaskEnd(w: World, c: Core, c': Core, tag: nat)
    requires AnswerStep(w, c, c', Commands.Expunging, tag)
    ensures c'.line.sent != c.line.sent
    ensures var w1 := w.(confirmed := w.confirmed + Ordered(w), client := Some(c'));
            Sets(w1) && Cons(Receive(w1, LastSent(c')), c', Commands.LoggingOut)
  {
    hide Receive;
    hide Inv;
    var w1 := w.(confirmed := w.confirmed + Ordered(w), client := Some(c'));
    SentKind(c, c', Commands.LoggingOut);
    AnswerFacts(w, c, Commands.Expunging, tag);
    OrderedMeans(w);
    hide Ordered;
    ReceiveBooks(w1, LastSent(c'));
  }

  /** Each stage accounts for the messages of the journal. */
  lemma ConsLoaded(w: World, c: Core, st: Commands.Stage)
    requires Cons(w, c, st)
    ensures forall k | k in w.loaded :: Held(c, k) || k in w.cleaned || k.validity != c.uidvalidity
  {
  }

  /** The messages of the run, behind an OK that does not end the deletion. */
  lemma AnswerLatest(w: World, c: Core, c': Core, st: Commands.Stage, tag: nat)
    requires AnswerStep(w, c, c', st, tag) && !st.Expunging? && Accounted(w, c)
    ensures Moving(c') ==> LatestKept(w.(client := Some(c')), c') && LateLost(w.(client := Some(c')), c')
  {
    hide Inv;
    hide Sets;
    SentKind(c, c', Commands.Following(c, st));
    DeletingWhen(c, st);
    DeletingWhen(c', Commands.Following(c, st));
    hide Commands.At;
    hide Commands.Moved;
    hide Deleting;
    hide Window;
    hide AtStore;
    hide AtExpunge;
  }

  /** The OK that ends the deletion: what was held is confirmed, but for the late messages. */
  lemma EndLatest(w: World, c: Core, c': Core, tag: nat)
    requires AnswerStep(w, c, c', Commands.Expunging, tag) && Accounted(w, c) && c' == OnTagged(c, true, tag)
    ensures var w1 := w.(confirmed := w.confirmed + Ordered(w), client := Some(c'));
            Moving(c') ==> LatestKept(w1, c') && LateLost(w1, c')
  {
    hide Inv;
    SentKind(c, c', Commands.LoggingOut);
    DeletingWhen(c, Commands.Expunging);
    DeletingWhen(c', Commands.LoggingOut);
    OrderedMeans(w);
    EndUids(c, c', tag);
    hide Commands.At;
    hide Commands.Moved;
    hide Ordered;
    hide Deleting;
    hide Effect;
    if Moving(c') {
      forall k | k in w.latest ensures k in w.confirmed + Ordered(w) || k in w.late {
        assert Held(c, k) && k in w.ever && k == Key(c.mailbox, c.uidvalidity, k.uid);
      }
    }
  }

  lemma EndUids(c: Core, c': Core, tag: nat)
    requires Commands.At(c, Commands.Expunging) && tag in c.line.pending
    requires c' == OnTagged(c, true, tag)
    ensures c'.opts == c.opts && c.opts.task.DOWNLOAD? && c.opts.del && c'.uids == {}
  {
  }

  /** An OK for the outstanding command, in any stage. */
  lemma AnswerBooks(w: World, c: Core, c': Core, st: Commands.Stage, tag: nat)
    requires AnswerStep(w, c, c', st, tag) && c' == OnTagged(c, true, tag) && Accounted(w, c)
    ensures Books(Answered(w, true, tag))
  {
    hide Cons;
    hide Receive;
    hide OnTagged;
    hide Ordered;
    Commands.StageHandler(c, st, tag);
    ConfirmsWhen(c, st, tag);
    SentLonger(c, c');
    var w1 := Noticed(w, true, tag).(client := Some(c'));
    AnswerCons(w, c, c', st, tag);
    hide AnswerStep;
    hide Sets;
    if c'.line.sent != c.line.sent { ReceiveBooks(w1, LastSent(c')); }
    var w' := Answered(w, true, tag);
    AnswerFrame(w1, w', c', Commands.Following(c, st));
  }

  lemma AnswerFrame(w1: World, w': World, c': Core, st: Commands.Stage)
    requires SameBooks(w1, w') && w1.client == Some(c') && Sets(w1) && Commands.At(c', st) && Cons(w', c', st) && c'.error.None?
    requires Moving(c') ==> LatestKept(w1, c') && LateLost(w1, c')
    ensures Books(w')
  {
    hide Commands.At;
    ConsLoaded(w', c', st);
    hide Cons;
    assert InStage(w', c');
  }

  lemma AnswerCons(w: World, c: Core, c': Core, st: Commands.Stage, tag: nat)
    requires AnswerStep(w, c, c', st, tag) && Accounted(w, c) && c' == OnTagged(c, true, tag)
    requires Confirms(c, true, tag) <==> st.CleanupExpunge? || st.Expunging?
    requires c.line.point.Begin? <==> !(st.Selecting? || st.Fetching? || st.Storing? || st.Expunging? || st.LoggingOut? || st.Over?)
    ensures var w1 := Noticed(w, true, tag).(client := Some(c'));
            && Sets(w1) && (Moving(c') ==> LatestKept(w1, c') && LateLost(w1, c'))
            && Commands.At(c', Commands.Following(c, st))
            && Cons(if c'.line.sent == c.line.sent then w1 else Receive(w1, LastSent(c')), c', Commands.Following(c, st))
  {
    hide Cons;
    hide Receive;
    hide Ordered;
    hide OnTagged;
    if st.Expunging? {
      TaskEnd(w, c, c', tag);
      EndLatest(w, c, c', tag);
    } else {
      AnswerLatest(w, c, c', st, tag);
      hide LatestKept;
      hide LateLost;
      if st.CleanupExpunge? {
        CleanupEnd(w, c, c', tag);
      } else if st.FirstCapability? || st.LoggingIn? || st.SecondCapability? {
        EarlyAnswer(w, c, c', st, tag);
      } else if st.CleanupSelect? || st.CleanupStore? {
        CleanupAnswer(w, c, c', st, tag);
      } else {
        TaskAnswer(w, c, c', st, tag);
      }
    }
  }

  lemma SentLonger(c: Core, c': Core)
    requires Effect(c, c')
    ensures c'.line.sent == c.line.sent || |c'.line.sent| > |c.line.sent|
  {
  }

  lemma ConfirmsWhen(c: Core, st: Commands.Stage, tag: nat)
    requires Commands.At(c, st) && tag in c.line.pending
    ensures Confirms(c, true, tag) <==> st.CleanupExpunge? || st.Expunging?
    ensures c.line.point.Begin? <==> !(st.Selecting? || st.Fetching? || st.Storing? || st.Expunging? || st.LoggingOut? || st.Over?)
  {
  }

  lemma TaggedBooks(w: World, ok: bool, tag: nat)
    requires Inv(w) && Books(w) && Enabled(w, Tagged(ok, tag))
    ensures Books(Next(w, Tagged(ok, tag)))
  {
    var c := w.client.value;
    var c' := OnTagged(c, ok, tag);
    var st: Commands.Stage :| Commands.At(c, st) && Cons(w, c, st);
    hide Inv;
    hide Cons;
    hide OnTagged;
    hide Answered;
    hide Commands.At;
    TaggedEffect(c, st, ok, tag);
    Commands.TaggedFails(c, ok, tag);
    if ok && tag in c.line.pending { Commands.TaggedStage(c, st, tag); }
    if c'.error.Some? {
      FailedBooks(w, st, ok, tag);
    } else {
      AnswerBooks(w, c, c', st, tag);
    }
  }
  /** A throw keeps the books; the OK for an expunge does not lead to one. */
  lemma FailedBooks(w: World, st: Commands.Stage, ok: bool, tag: nat)
    requires Books(w) && Running(w) && w.response.Closed? && Commands.At(w.client.value, st)
    requires var c' := OnTagged(w.client.value, ok, tag);
             Effect(w.client.value, c') && c'.error.Some? && c'.line.sent == w.client.value.line.sent
    ensures Books(Answered(w, ok, tag))
  {
    hide Books;
    hide Commands.At;
    hide OnTagged;
    hide Effect;
    hide Receive;
    hide Ordered;
    var c, c' := w.client.value, OnTagged(w.client.value, ok, tag);
    if ok && tag in c.line.pending {
      ConfirmsWhen(c, st, tag);
      if st.CleanupExpunge? || st.Expunging? { ExpungeGoesOn(c, st, tag); }
      ThrowPoint(c, st, tag);
    } else {
      Commands.TaggedFails(c, ok, tag);
      ThrowSame(c, ok, tag);
    }
    assert Noticed(w, ok, tag) == w;
    FailedSame(w, c, c');
  }

  lemma FailedSame(w: World, c: Core, c': Core)
    requires Books(w) && w.client == Some(c) && Effect(c, c') && c'.error.Some? && c'.line.sent == c.line.sent
    requires w.response.Closed? && (Cleared(c') <==> Cleared(c))
    ensures Books(w.(client := Some(c')))
  {
    hide InStage;
  }

  lemma ThrowSame(c: Core, ok: bool, tag: nat)
    requires !ok || tag !in c.line.pending
    ensures OnTagged(c, ok, tag).line == c.line
  {
  }

  /** No handler throws when it forgets the UIDs. */
  lemma ThrowPoint(c: Core, st: Commands.Stage, tag: nat)
    requires Commands.At(c, st) && c.error.None? && tag in c.line.pending && OnTagged(c, true, tag).error.Some?
    ensures Cleared(OnTagged(c, true, tag)) <==> Cleared(c)
  {
    var k := c.line.pending[tag].handler;
    Commands.StageHandler(c, st, tag);
    hide Commands.At;
    hide Commands.Only;
    var c0 := c.(line := c.line.(pending := c.line.pending - {tag}));
    assert OnTagged(c, true, tag) == Continue(c0, k);
    hide OnTagged;
    hide Send;
    forall x: Core, cmd: Command, k: Continuation ensures Send(x, cmd, k).error == x.error { SendNoThrow(x, cmd, k); }
  }

  lemma SendNoThrow(c: Core, cmd: Command, k: Continuation)
    ensures Send(c, cmd, k).error == c.error
  {
  }

  lemma ExpungeGoesOn(c: Core, st: Commands.Stage, tag: nat)
    requires Commands.At(c, st) && c.error.None? && tag in c.line.pending && (st.CleanupExpunge? || st.Expunging?)
    ensures OnTagged(c, true, tag).error.None?
  {
  }

  lemma TimerBooks(w: World)
    requires Inv(w) && Books(w) && Running(w)
    ensures Books(Next(w, Timer))
  {
    hide Inv;
    hide OnTimer;
    hide Receive;
    var c := w.client.value;
    var c' := OnTimer(c);
    var st: Commands.Stage :| Commands.At(c, st) && Cons(w, c, st);
    TimerEffect(c);
    Commands.TimerStage(c, st);
    SentLonger(c, c');
    if !c.line.timerFired {
      assert st.Waiting?;
      if c'.error.None? {
        var w1 := w.(client := Some(c'));
        ReceiveBooks(w1, LastSent(c'));
        var st' := if c.caps == {} then Commands.FirstCapability else Commands.LoggingIn;
        assert Cons(Receive(w1, LastSent(c')), c', st');
        assert Commands.At(c', st');
      }
    }
  }

  // ---------------------------------------------------------------- every behaviour

  lemma StepBooks(w: World, a: Action)
    requires Inv(w) && Books(w) && Enabled(w, a) && Disciplined(w, a)
    ensures Books(Next(w, a))
  {
    hide Inv;
    if a.Add? || a.Remove? || a.Flag? || a.Unflag? || a.ChangeValidity? || a.Perform? || a.PerformPart? {
      OutsideBooks(w, a);
    } else if a.FetchBody? {
      FetchBodyBooks(w, a.move);
    } else if a.FetchClose? {
      FetchCloseBooks(w);
    } else if a.Tagged? {
      TaggedBooks(w, a.ok, a.tag);
    } else if a.Timer? {
      TimerBooks(w);
    } else if a.UidValidity? {
      ValidityBooks(w);
    } else if a.Start? {
      StartBooks(w, a.opts);
    } else if a.FetchOpen? || a.FetchUid? || a.FetchSection? || a.FetchInner? {
      PartBooks(w, a);
    } else if a.Exit? || a.Kill? {
    } else {
      PlainBooks(w, a);
    }
  }

  lemma PlainBooks(w: World, a: Action)
    requires Inv(w) && Books(w) && Enabled(w, a)
    requires a.Signal? || a.CapabilityBegin? || a.CapabilityItem? || a.Exists?
    ensures Books(Next(w, a))
  {
    hide Books;
    var c, r := w.client.value, w.response;
    if a.Signal? {
      if r.Open? { ResponseKnown(w); }
      hide Inv;
      QuietBooks(w, OnSignal(c), r);
    } else if a.CapabilityBegin? {
      hide Inv;
      QuietBooks(w, OnCapabilityBegin(c), r);
    } else if a.CapabilityItem? {
      hide Inv;
      QuietBooks(w, OnCapability(c, a.x), r);
    } else {
      hide Inv;
      QuietBooks(w, OnExists(c, a.n), r);
    }
  }

  lemma PartBooks(w: World, a: Action)
    requires Inv(w) && Books(w) && Enabled(w, a)
    requires a.FetchOpen? || a.FetchUid? || a.FetchSection? || a.FetchInner?
    ensures Books(Next(w, a))
  {
    hide Books;
    hide Inv;
    var c, r := w.client.value, w.response;
    if a.FetchOpen? {
      QuietBooks(w, OnFetchBegin(c), Open(a.key, NoPart, false, false));
    } else if a.FetchUid? {
      QuietBooks(w, OnUid(c, r.key.uid), r.(uidSent := true));
    } else if a.FetchInner? {
      QuietBooks(w, OnBodyInner(c), r.(part := Content(r.part.full)));
    } else {
      QuietBooks(w, if a.full then OnSectionEmpty(c) else c, r.(part := Section(a.full)));
    }
  }

  lemma {:induction false} BehaviourBooks(ws: seq<World>, acts: seq<Action>, i: nat)
    requires Behaviour(ws, acts) && i < |ws|
    ensures Inv(ws[i]) && Books(ws[i])
  {
    hide Inv;
    hide Next;
    BehaviourInv(ws, acts, i);
    if i > 0 {
      hide Books;
      BehaviourBooks(ws, acts, i - 1);
      assert Enabled(ws[i - 1], acts[i - 1]) && Disciplined(ws[i - 1], acts[i - 1]) && ws[i] == Next(ws[i - 1], acts[i - 1]);
      StepBooks(ws[i - 1], acts[i - 1]);
    }
  }

  // ---------------------------------------------------------------- the theorems

  /** The destructor would write the message into the journal. */
  predicate Journaled(c: Core, k: Key) { Shutdown(c).Some? && InOrder(k, JournalOrder(Shutdown(c).value)) }

  /** Conservation at a cut, exactly: at every point of every download with deletion, a message that it delivered has a
      confirmed expunge, or is in the journal that the destructor would write, or its response is not closed yet, if and
      only if the client has not forgotten its UIDs yet, or did not take the message in late, that is under a UID new to
      it while a UID STORE or the expunge was outstanding. */
  lemma ConservationExact(ws: seq<World>, acts: seq<Action>, i: nat, k: Key)
    requires Behaviour(ws, acts) && i < |ws|
    requires ws[i].client.Some? && Moving(ws[i].client.value) && k in ws[i].latest
    ensures var w, c := ws[i], ws[i].client.value;
            k in w.confirmed || Journaled(c, k) || Unclosed(w, k) <==> !Cleared(c) || k !in w.late || Unclosed(w, k)
  {
    BehaviourBooks(ws, acts, i);
    hide Inv;
    hide InStage;
    var w, c := ws[i], ws[i].client.value;
    assert Held(c, k) <==> Journaled(c, k) by { JournaledMeans(ws[i], k); }
  }

  lemma JournaledMeans(w: World, k: Key)
    requires Inv(w) && w.client.Some? && w.client.value.opts.del
    ensures Held(w.client.value, k) <==> Journaled(w.client.value, k)
  {
  }

  /** What was confirmed, in the cleanup or in the task, is off the server, unless another client took away its \Deleted
      flag. */
  lemma ConfirmedGone(ws: seq<World>, acts: seq<Action>, i: nat, k: Key)
    requires Behaviour(ws, acts) && i < |ws| && k in ws[i].cleaned + ws[i].confirmed
    ensures k !in ws[i].present || k in ws[i].unflagged
  {
    BehaviourBooks(ws, acts, i);
  }

  /** Conservation at a cut: while no new UID is taken in during the deletion, each message that a download with deletion
      delivered or took over from a journal is off the server by a confirmed expunge, or is in the journal that the
      destructor would write, or is the one message whose FETCH response is still open, or, if taken over, was recorded
      under a UIDVALIDITY that the server has replaced. */
  lemma ConservationAtCut(ws: seq<World>, acts: seq<Action>, i: nat, k: Key)
    requires Behaviour(ws, acts) && i < |ws|
    requires ws[i].client.Some? && Moving(ws[i].client.value) && k in ws[i].latest + ws[i].loaded
    requires forall j | 0 <= j < i && acts[j].FetchClose? :: !LateUid(ws[j].client.value)
    ensures var w, c := ws[i], ws[i].client.value;
            || (k in w.cleaned + w.confirmed && (k !in w.present || k in w.unflagged))
            || Journaled(c, k)
            || Unclosed(w, k)
            || (k in w.loaded && k.validity != c.uidvalidity)
  {
    BehaviourBooks(ws, acts, i);
    NothingLate(ws, acts, i);
    JournaledMeans(ws[i], k);
    hide Inv;
    hide InStage;
  }

  lemma {:induction false} NothingLate(ws: seq<World>, acts: seq<Action>, i: nat)
    requires Behaviour(ws, acts) && i < |ws|
    requires forall j | 0 <= j < i && acts[j].FetchClose? :: Running(ws[j]) && !LateUid(ws[j].client.value)
    ensures ws[i].late == {}
  {
    if i > 0 {
      NothingLate(ws, acts, i - 1);
      hide LateUid;
      hide Deleting;
      LateSame(ws[i - 1], acts[i - 1]);
    }
  }

  lemma LateSame(w: World, a: Action)
    requires Enabled(w, a) && (a.FetchClose? ==> !LateUid(w.client.value))
    ensures Next(w, a).late <= w.late
  {
    hide LateUid;
    hide Deleting;
    hide Receive;
    hide OnTagged;
    hide OnTimer;
    hide OnBodyEnd;
    hide Ordered;
    if a.Timer? {
      ReceiveBooks(w.(client := Some(OnTimer(w.client.value))), LastCommand(OnTimer(w.client.value)));
    } else if a.Tagged? {
      var c' := OnTagged(w.client.value, a.ok, a.tag);
      ReceiveBooks(Noticed(w, a.ok, a.tag).(client := Some(c')), LastCommand(c'));
    }
  }

  function LastCommand(c: Core): Command { if c.line.sent == [] then Logout else c.line.sent[|c.line.sent| - 1] }

  /** A run that sends FETCH has completed its cleanup: every message of the journal it read has a confirmed expunge and
      is off the server, unless another client took away its \Deleted flag. */
  lemma CleanupBeforeFetch(ws: seq<World>, acts: seq<Action>, i: nat, tag: nat)
    requires Behaviour(ws, acts) && i < |ws|
    requires Running(ws[i]) && tag in ws[i].client.value.line.pending && ws[i].client.value.line.pending[tag].command.Fetch?
    ensures forall k | k in ws[i].loaded :: k in ws[i].cleaned && (k !in ws[i].present || k in ws[i].unflagged)
  {
    BehaviourBooks(ws, acts, i);
    hide Inv;
    var c := ws[i].client.value;
    var st: Commands.Stage :| Commands.At(c, st) && Cons(ws[i], c, st);
    FetchingWhen(c, st, tag);
    hide Commands.At;
    assert st.Fetching?;
  }

  lemma FetchingWhen(c: Core, st: Commands.Stage, tag: nat)
    requires Commands.At(c, st) && tag in c.line.pending && c.line.pending[tag].command.Fetch?
    ensures st.Fetching?
  {
  }
}
