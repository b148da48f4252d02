/** How far the discipline of the theorems about runs reaches: what the code does outside it, and exactly when. */
module Hazards {
  import opened Text
  import opened Client
  import opened World
  import opened Safety
  import opened Conservation
  import Commands

  // ---------------------------------------------------------------- reachable worlds and continuations

  ghost predicate Reachable(w: World)
  {
    exists ws: seq<World>, acts: seq<Action> :: Behaviour(ws, acts) && ws[|acts|] == w
  }

  lemma InitialReachable(w: World)
    requires Initial(w)
    ensures Reachable(w)
  {
    var acts: seq<Action> := [];
    assert Behaviour([w], acts) && [w][|acts|] == w;
  }

  lemma NextReachable(w: World, a: Action)
    requires Reachable(w) && Enabled(w, a) && Disciplined(w, a)
    ensures Reachable(Next(w, a))
  {
    hide Next;
    hide Enabled;
    hide Disciplined;
    var ws: seq<World>, acts: seq<Action> :| Behaviour(ws, acts) && ws[|acts|] == w;
    var ws', acts' := ws + [Next(w, a)], acts + [a];
    forall i | 0 <= i < |acts'|
      ensures Enabled(ws'[i], acts'[i]) && Disciplined(ws'[i], acts'[i]) && ws'[i + 1] == Next(ws'[i], acts'[i])
    {
      if i < |acts| { assert ws'[i] == ws[i] && ws'[i + 1] == ws[i + 1] && acts'[i] == acts[i]; }
    }
    assert Behaviour(ws', acts') && ws'[|acts'|] == Next(w, a);
  }

  lemma ReachableInv(w: World)
    requires Reachable(w)
    ensures Inv(w) && Books(w)
  {
    hide Inv;
    hide Books;
    var ws: seq<World>, acts: seq<Action> :| Behaviour(ws, acts) && ws[|acts|] == w;
    BehaviourBooks(ws, acts, |acts|);
  }

  /** A step of the environment: any options at a start, and with `strict`, no end of a response that was cut short. */
  predicate Allowed(strict: bool, w: World, a: Action)
  {
    Enabled(w, a) && (a.Start? || if strict then Disciplined(w, a) else Complete(w, a))
  }

  /** A list of actions that can happen one after the other from `w`. */
  predicate Legal(strict: bool, w: World, acts: seq<Action>)
    decreases |acts|, 0
  {
    acts == [] || (
      var init, a := acts[..|acts| - 1], acts[|acts| - 1];
      Legal(strict, w, init) && Allowed(strict, After(strict, w, init), a))
  }

  function After(strict: bool, w: World, acts: seq<Action>): World
    requires Legal(strict, w, acts)
    decreases |acts|, 1
  {
    if acts == [] then w else Next(After(strict, w, acts[..|acts| - 1]), acts[|acts| - 1])
  }

  /** `acts` lead from `w` to `w'` within one run, with options `o` if `o` is given, else already started. */
  ghost predicate Leads(strict: bool, w: World, o: Option<Options>, acts: seq<Action>, w': World)
  {
    && Legal(strict, w, acts) && After(strict, w, acts) == w'
    && (o.Some? ==> acts != [] && acts[0] == Start(o.value))
    && (forall i | 0 <= i < |acts| :: !acts[i].Exit? && !acts[i].Kill? && (acts[i].Start? ==> o.Some? && i == 0))
  }

  lemma OneMore(strict: bool, w: World, acts: seq<Action>, w1: World, a: Action)
    requires Legal(strict, w, acts) && After(strict, w, acts) == w1 && Allowed(strict, w1, a)
    ensures Legal(strict, w, acts + [a]) && After(strict, w, acts + [a]) == Next(w1, a)
  {
    assert (acts + [a])[..|acts|] == acts;
  }

  lemma Onward(strict: bool, w: World, o: Option<Options>, acts: seq<Action>, w1: World, a: Action) returns (longer: seq<Action>)
    requires Leads(strict, w, o, acts, w1) && Allowed(strict, w1, a) && !a.Exit? && !a.Kill? && !a.Start?
    ensures longer == acts + [a] && Leads(strict, w, o, longer, Next(w1, a))
  {
    hide Next;
    hide Allowed;
    hide Legal;
    hide After;
    longer := acts + [a];
    OneMore(strict, w, acts, w1, a);
  }

  /** A run with sound options stays within the reachable worlds. */
  lemma {:induction false} RunReachable(w: World, o: Options, acts: seq<Action>, w': World)
    requires Reachable(w) && SoundOptions(o, w.journal) && Leads(true, w, Some(o), acts, w')
    ensures Reachable(w')
    decreases |acts|
  {
    hide Next;
    hide Enabled;
    var init, a := acts[..|acts| - 1], acts[|acts| - 1];
    assert Allowed(true, After(true, w, init), a);
    if init == [] {
      assert a == Start(o) && After(true, w, init) == w;
      NextReachable(w, a);
    } else {
      assert !a.Start?;
      RunReachable(w, o, init, After(true, w, init));
      NextReachable(After(true, w, init), a);
    }
  }

  ghost predicate JournalBacked(w: World)
  {
    w.journal.Some? ==> Backed(JournalOrder(w.journal.value), w.delivered)
  }

  // ---------------------------------------------------------------- a run up to its FETCH

  /** A server with two messages in mailbox `mb`. */
  function Mail(mb: string, uid: nat): Key { Key(mb, 1, uid) }

  function Server(mb: string): World
  {
    World(None, None, map[mb := 1], {Mail(mb, 1), Mail(mb, 2)}, {Mail(mb, 1), Mail(mb, 2)}, {},
          None, None, Closed, Idle, false, None, {}, {}, {}, {}, {}, {}, {}, {}, {}, {})
  }

  /** The world of a run whose client is `c`; `chosen` says that SELECT was sent, `known` that the UIDVALIDITY was
      announced. */
  function Seen(o: Options, c: Core, chosen: bool, known: bool): World
  {
    Server(o.mailbox).(client := Some(c), selecting := if chosen then Some(o.mailbox) else None,
                       bound := if known then Some(o.mailbox) else None)
  }

  function HandlerOf(o: Options): Continuation { Commands.HandlerOf(o.task) }

  function RunCore(o: Options, caps: set<Capability>, line: Line): Core { Startup(o, None).(caps := caps, line := line) }

  /** The client behind LOGIN, SELECT and FETCH. */
  function LoginCore(o: Options, caps: set<Capability>): Core
  {
    RunCore(o, caps, Line(true, Begin, map[0 := Pending(Login, ToCapabilities)], 1, [Login]))
  }

  function SelectCore(o: Options, existing: nat): Core
  {
    RunCore(o, {UIDPLUS}, Line(true, BehindSelect, map[1 := Pending(Select(o.mailbox), HandlerOf(o))], 2,
                               [Login, Select(o.mailbox)])).(existing := existing)
  }

  function FetchCore(o: Options): Core
  {
    RunCore(o, {UIDPLUS}, Line(true, BehindFetch, map[2 := Pending(Fetch, HandlerOf(o))], 3,
                               [Login, Select(o.mailbox), Fetch]))
      .(existing := 1, state := FETCHING, uidvalidity := 1)
  }

  function Fetching(o: Options): World { Seen(o, FetchCore(o), true, true) }

  predicate Step(w: World, a: Action, w': World) { Allowed(true, w, a) && w' == Next(w, a) }

  lemma LoginSteps(o: Options)
    ensures Step(Server(o.mailbox), Start(o), Seen(o, Startup(o, None), false, false))
    ensures Step(Seen(o, Startup(o, None), false, false), CapabilityItem(IMAP4rev1),
                 Seen(o, Startup(o, None).(caps := {IMAP4rev1}), false, false))
    ensures Step(Seen(o, LoginCore(o, {}), false, false), CapabilityItem(UIDPLUS), Seen(o, LoginCore(o, {UIDPLUS}), false, false))
  {
    var c: set<Capability> := {};
    assert c + {IMAP4rev1} == {IMAP4rev1} && c + {UIDPLUS} == {UIDPLUS};
  }

  lemma TimerStep(o: Options)
    ensures Step(Seen(o, Startup(o, None).(caps := {IMAP4rev1}), false, false), Timer, Seen(o, LoginCore(o, {}), false, false))
  {
    var none: map<nat, Pending> := map[];
    assert none[0 := Pending(Login, ToCapabilities)] == map[0 := Pending(Login, ToCapabilities)];
    assert OnTimer(Startup(o, None).(caps := {IMAP4rev1})) == LoginCore(o, {});
  }

  lemma Answers(o: Options)
    requires !o.task.LIST?
    ensures OnTagged(LoginCore(o, {UIDPLUS}), true, 0) == SelectCore(o, 0)
    ensures OnTagged(SelectCore(o, 1).(uidvalidity := 1), true, 1) == FetchCore(o)
  {
    assert map[0 := Pending(Login, ToCapabilities)] - {0} == map[];
    assert map[1 := Pending(Select(o.mailbox), HandlerOf(o))] - {1} == map[];
  }

  lemma SelectSteps(o: Options)
    requires !o.task.LIST?
    ensures Step(Seen(o, LoginCore(o, {UIDPLUS}), false, false), Tagged(true, 0), Seen(o, SelectCore(o, 0), true, false))
    ensures Step(Seen(o, SelectCore(o, 0), true, false), Exists(1), Seen(o, SelectCore(o, 1), true, false))
    ensures Step(Seen(o, SelectCore(o, 1), true, false), UidValidity, Seen(o, SelectCore(o, 1).(uidvalidity := 1), true, true))
  {
    hide OnTagged;
    Answers(o);
  }

  lemma FetchStep(o: Options)
    requires !o.task.LIST?
    ensures Step(Seen(o, SelectCore(o, 1).(uidvalidity := 1), true, true), Tagged(true, 1), Fetching(o))
  {
    hide OnTagged;
    Answers(o);
  }

  lemma Begun(o: Options) returns (acts: seq<Action>)
    ensures Leads(true, Server(o.mailbox), Some(o), acts, Seen(o, Startup(o, None), false, false))
  {
    LoginSteps(o);
    hide Next;
    hide Allowed;
    var none: seq<Action> := [];
    assert Legal(true, Server(o.mailbox), none) && After(true, Server(o.mailbox), none) == Server(o.mailbox);
    OneMore(true, Server(o.mailbox), none, Server(o.mailbox), Start(o));
    acts := none + [Start(o)];
  }

  /** A run with any options but listing, up to its FETCH. */
  lemma FetchRun(o: Options) returns (acts: seq<Action>)
    requires !o.task.LIST?
    ensures Leads(true, Server(o.mailbox), Some(o), acts, Fetching(o))
  {
    hide Leads;
    hide Seen;
    hide Allowed;
    hide Next;
    hide Startup;
    LoginSteps(o);
    TimerStep(o);
    SelectSteps(o);
    FetchStep(o);
    acts := Begun(o);
    acts := Along(o, acts, Seen(o, Startup(o, None), false, false), CapabilityItem(IMAP4rev1),
                  Seen(o, Startup(o, None).(caps := {IMAP4rev1}), false, false));
    acts := Along(o, acts, Seen(o, Startup(o, None).(caps := {IMAP4rev1}), false, false), Timer,
                  Seen(o, LoginCore(o, {}), false, false));
    acts := Along(o, acts, Seen(o, LoginCore(o, {}), false, false), CapabilityItem(UIDPLUS),
                  Seen(o, LoginCore(o, {UIDPLUS}), false, false));
    acts := FetchRunEnd(o, acts);
  }

  lemma FetchRunEnd(o: Options, begun: seq<Action>) returns (acts: seq<Action>)
    requires !o.task.LIST? && Leads(true, Server(o.mailbox), Some(o), begun, Seen(o, LoginCore(o, {UIDPLUS}), false, false))
    ensures Leads(true, Server(o.mailbox), Some(o), acts, Fetching(o))
  {
    hide Leads;
    hide Seen;
    hide Step;
    SelectSteps(o);
    FetchStep(o);
    acts := Along(o, begun, Seen(o, LoginCore(o, {UIDPLUS}), false, false), Tagged(true, 0), Seen(o, SelectCore(o, 0), true, false));
    acts := Along(o, acts, Seen(o, SelectCore(o, 0), true, false), Exists(1), Seen(o, SelectCore(o, 1), true, false));
    acts := Along(o, acts, Seen(o, SelectCore(o, 1), true, false), UidValidity,
                  Seen(o, SelectCore(o, 1).(uidvalidity := 1), true, true));
    acts := Along(o, acts, Seen(o, SelectCore(o, 1).(uidvalidity := 1), true, true), Tagged(true, 1), Fetching(o));
  }

  lemma Along(o: Options, acts: seq<Action>, w1: World, a: Action, w2: World) returns (longer: seq<Action>)
    requires Leads(true, Server(o.mailbox), Some(o), acts, w1) && Step(w1, a, w2) && !a.Exit? && !a.Kill? && !a.Start?
    ensures Leads(true, Server(o.mailbox), Some(o), longer, w2)
  {
    hide Leads;
    hide Allowed;
    hide Next;
    longer := Onward(true, Server(o.mailbox), Some(o), acts, w1, a);
  }

  // ---------------------------------------------------------------- a message, step by step

  /** A run that fetches and is ready for the response about `k`. */
  ghost predicate Ready(w: World, k: Key)
  {
    && Running(w) && w.response.Closed? && w.client.value.state.FETCHING?
    && !w.client.value.body.fullBody && !w.client.value.body.tmpName && !w.client.value.body.toFile
    && k == Key(w.client.value.mailbox, w.client.value.uidvalidity, k.uid)
    && w.bound == Some(k.mailbox) && k.mailbox in w.validity && w.validity[k.mailbox] == k.validity
    && k in w.ever && 0 < k.uid < MAX32
  }

  /** The UID is read. */
  function WithUid(w: World, k: Key): World
    requires Running(w)
  {
    var c := w.client.value;
    w.(client := Some(c.(body := c.body.(lastUid := k.uid))), response := Open(k, NoPart, true, false))
  }

  /** The body is moved. */
  function WithBody(w: World, k: Key): World
    requires Running(w)
  {
    var c := w.client.value;
    w.(client := Some(c.(body := Body(k.uid, false, false, false))), response := Open(k, NoPart, true, true),
       delivered := w.delivered + {k}, latest := w.latest + {k})
  }

  /** The response is closed. */
  function Taken(w: World, k: Key): World
    requires Running(w)
  {
    var w1 := WithBody(w, k);
    var c := w1.client.value;
    w1.(client := Some(c.(uids := c.uids + {k.uid})), response := Closed,
        late := if LateUid(c) then w.late + {k} else if Deleting(c) then w.late else w.late - {k})
  }

  lemma UidSteps(w: World, k: Key)
    requires Ready(w, k)
    ensures Allowed(true, w, FetchOpen(k))
    ensures Allowed(true, Next(w, FetchOpen(k)), FetchUid) && Next(Next(w, FetchOpen(k)), FetchUid) == WithUid(w, k)
  {
  }

  function InBody(w: World, k: Key, part: Part): World
    requires Running(w)
  {
    var c := WithUid(w, k).client.value;
    WithUid(w, k).(client := Some(c.(body := Body(k.uid, true, part.Content?, part.Content?))), response := Open(k, part, true, false))
  }

  lemma BodySteps(w: World, k: Key)
    requires Ready(w, k) && w.client.value.opts.task.DOWNLOAD?
    ensures Step(WithUid(w, k), FetchSection(true), InBody(w, k, Section(true)))
    ensures Step(InBody(w, k, Section(true)), FetchInner, InBody(w, k, Content(true)))
  {
  }

  lemma MoveStep(w: World, k: Key)
    requires Ready(w, k)
    ensures Step(InBody(w, k, Content(true)), FetchBody(Moved), WithBody(w, k))
  {
  }

  lemma CloseStep(w: World, k: Key)
    requires Ready(w, k)
    ensures Step(WithBody(w, k), FetchClose, Taken(w, k))
  {
    hide Deleting;
  }

  lemma TakeUid(w0: World, o: Options, acts: seq<Action>, w: World, k: Key) returns (longer: seq<Action>)
    requires Leads(true, w0, Some(o), acts, w) && Ready(w, k)
    ensures Leads(true, w0, Some(o), longer, WithUid(w, k))
  {
    UidSteps(w, k);
    hide Leads;
    hide Allowed;
    hide Next;
    longer := Onward(true, w0, Some(o), acts, w, FetchOpen(k));
    longer := Onward(true, w0, Some(o), longer, Next(w, FetchOpen(k)), FetchUid);
  }

  /** The response about `k` from its start to its end. */
  lemma TakeMessage(w0: World, o: Options, acts: seq<Action>, w: World, k: Key) returns (longer: seq<Action>)
    requires Leads(true, w0, Some(o), acts, w) && Ready(w, k) && w.client.value.opts.task.DOWNLOAD?
    ensures Leads(true, w0, Some(o), longer, Taken(w, k))
  {
    BodySteps(w, k);
    MoveStep(w, k);
    CloseStep(w, k);
    hide Leads;
    hide Allowed;
    hide Next;
    longer := TakeUid(w0, o, acts, w, k);
    longer := Onward(true, w0, Some(o), longer, WithUid(w, k), FetchSection(true));
    longer := Onward(true, w0, Some(o), longer, InBody(w, k, Section(true)), FetchInner);
    longer := Onward(true, w0, Some(o), longer, InBody(w, k, Content(true)), FetchBody(Moved));
    longer := Onward(true, w0, Some(o), longer, WithBody(w, k), FetchClose);
  }

  lemma FetchingReady(o: Options, uid: nat)
    requires !o.task.LIST? && 1 <= uid <= 2
    ensures Ready(Fetching(o), Mail(o.mailbox, uid))
  {
  }

  // ---------------------------------------------------------------- which options a journal can be trusted with

  /** However a run with options `o` goes in any reachable world where a pending journal is for mailbox `mb`, it leaves a
      journal of delivered messages only. */
  ghost predicate Trustworthy(o: Options, mb: string)
  {
    forall w: World, acts: seq<Action>, w': World |
      Reachable(w) && (w.journal.Some? ==> w.journal.value.mailbox == mb) && Leads(true, w, Some(o), acts, w') && w'.client.Some? ::
      JournalBacked(Next(w', Exit(true)))
  }

  lemma ExitBacked(w: World)
    requires Inv(w) && w.client.Some?
    ensures JournalBacked(Next(w, Exit(true)))
  {
    EndKeeps(w, Exit(true));
  }

  /** A download of one message, cut off: its journal. */
  lemma JournalReachable(mb: string) returns (w: World)
    ensures Reachable(w) && w.client.None? && w.journal == Some(Journal(mb, 1, {1})) && w.delivered == {Mail(mb, 1)}
  {
    hide Leads;
    hide Next;
    hide Taken;
    hide Fetching;
    hide Server;
    var o, k := Options(DOWNLOAD, true, mb), Mail(mb, 1);
    FetchingReady(o, 1);
    FirstTaken(o);
    var acts := FetchRun(o);
    acts := TakeMessage(Server(mb), o, acts, Fetching(o), k);
    w := Taken(Fetching(o), k);
    InitialReachable(Server(mb)) by { assert Initial(Server(mb)) by { ServerInitial(mb); } }
    RunReachable(Server(mb), o, acts, w);
    NextReachable(w, Exit(true));
    w := Next(w, Exit(true));
  }

  lemma ServerInitial(mb: string)
    ensures Initial(Server(mb))
  {
  }

  lemma FirstTaken(o: Options)
    requires o.task.DOWNLOAD? && o.del
    ensures Server(o.mailbox).journal.None? && Fetching(o).client == Some(FetchCore(o)) && FetchCore(o).opts == o
    ensures var w := Taken(Fetching(o), Mail(o.mailbox, 1));
            && Enabled(w, Exit(true)) && Disciplined(w, Exit(true)) && var w' := Next(w, Exit(true));
            w'.client.None? && w'.journal == Some(Journal(o.mailbox, 1, {1})) && w'.delivered == {Mail(o.mailbox, 1)}
  {
    hide Deleting;
    var none: set<nat>, none': set<Key> := {}, {};
    assert none + {1} == {1} && none' + {Mail(o.mailbox, 1)} == {Mail(o.mailbox, 1)};
  }

  /** A journal of another mailbox is written back under the mailbox of the options. */
  lemma OtherMailbox(o: Options, mb: string)
    requires o.del && o.mailbox != mb
    ensures !Trustworthy(o, mb)
  {
    var w := JournalReachable(mb);
    var w' := Next(w, Start(o));
    var none: seq<Action> := [];
    OneMore(true, w, none, w, Start(o));
    assert Leads(true, w, Some(o), none + [Start(o)], w');
    var w1 := Next(w', Exit(true));
    assert w1.journal == Some(Journal(o.mailbox, 1, {1}));
    assert 1 in JournalOrder(w1.journal.value).uids && Key(o.mailbox, 1, 1) !in w1.delivered;
    assert !JournalBacked(w1);
  }

  lemma HeaderSteps(o: Options)
    requires o.task.FETCH_HEADER? && o.del
    ensures var w := WithUid(Fetching(o), Mail(o.mailbox, 1));
            && Allowed(true, w, FetchClose) && var w1 := Next(w, FetchClose);
            && w1.client.Some? && var w2 := Next(w1, Exit(true));
            w2.journal == Some(Journal(o.mailbox, 1, {1})) && w2.delivered == {}
  {
    hide Deleting;
    var none: set<nat> := {};
    assert none + {1} == {1};
  }

  /** The header task collects the UIDs of messages that it does not download. */
  lemma HeaderTask(o: Options, mb: string)
    requires o.del && o.task.FETCH_HEADER?
    ensures !Trustworthy(o, mb)
  {
    FetchingReady(o, 1);
    HeaderSteps(o);
    ServerInitial(o.mailbox);
    InitialReachable(Server(o.mailbox));
    var acts := FetchRun(o);
    hide Leads;
    hide Fetching;
    acts := TakeUid(Server(o.mailbox), o, acts, Fetching(o), Mail(o.mailbox, 1));
    var w := WithUid(Fetching(o), Mail(o.mailbox, 1));
    hide WithUid;
    hide Allowed;
    hide Next;
    acts := Onward(true, Server(o.mailbox), Some(o), acts, w, FetchClose);
    var w2 := Next(Next(w, FetchClose), Exit(true));
    assert 1 in JournalOrder(w2.journal.value).uids && Key(o.mailbox, 1, 1) !in w2.delivered;
    assert !JournalBacked(w2);
  }

  /** A run leaves a trustworthy journal, whatever happens to it, if and only if deletion is off, or the task is not the
      header task and the mailbox option is the mailbox of the pending journal. */
  lemma SoundOptionsExact(o: Options, mb: string)
    ensures Trustworthy(o, mb) <==> (o.del ==> !o.task.FETCH_HEADER? && o.mailbox == mb)
  {
    hide Next;
    hide Leads;
    hide Reachable;
    hide JournalBacked;
    if o.del && o.mailbox != mb {
      OtherMailbox(o, mb);
    } else if o.del && o.task.FETCH_HEADER? {
      HeaderTask(o, mb);
    } else {
      forall w: World, acts: seq<Action>, w': World
        | Reachable(w) && (w.journal.Some? ==> w.journal.value.mailbox == mb) && Leads(true, w, Some(o), acts, w') && w'.client.Some?
        ensures JournalBacked(Next(w', Exit(true)))
      {
        RunReachable(w, o, acts, w');
        ReachableInv(w');
        ExitBacked(w');
      }
    }
  }

  // ---------------------------------------------------------------- a signal, and data that is still processed behind it

  /** The UID of the open response is read, and its message is not in the maildir. */
  predicate BetweenUidAndBody(w: World)
    requires w.client.Some?
  {
    w.client.value.state.FETCHING? && w.response.Open? && w.response.uidSent && w.response.key !in w.delivered
  }

  /** Whatever the server, other clients and the timer do behind a signal, with all of it processed, the run leaves a
      journal of delivered messages only. */
  ghost predicate SignalSafe(w: World)
    requires Enabled(w, Signal)
  {
    forall acts: seq<Action>, w': World | Leads(false, Next(w, Signal), None, acts, w') && w'.client.Some? ::
      JournalBacked(Next(w', Exit(true)))
  }

  /** The last UID that the client has noted stands for a delivered message. */
  predicate Settled(w: World, c: Core) { c.body.lastUid == 0 || Noted(c) in w.delivered }

  /** What a download takes in behind the end of its session is delivered. */
  predicate Calm(w: World)
  {
    w.client.Some? && w.client.value.error.None? && w.client.value.opts.task.DOWNLOAD? && w.client.value.state.LOGGED_OUT?
    ==> Settled(w, w.client.value)
  }

  /** A calm world needs no discipline about the end of responses. */
  lemma CalmDisciplined(w: World, a: Action)
    requires Inv(w) && Calm(w) && Allowed(false, w, a) && !a.Start? && (w.client.Some? ==> w.client.value.opts.task.DOWNLOAD?)
    ensures Disciplined(w, a)
  {
    if a.FetchClose? { ResponseAddressed(w); }
  }

  predicate WithinRun(a: Action) { !a.Start? && !a.Exit? && !a.Kill? }

  /** Between responses, the end of a session is always calm. */
  lemma ClosedCalm(w: World)
    requires Inv(w) && w.response.Closed?
    ensures Calm(w)
  {
    if Running(w) { ClientFacts(w); }
  }

  /** The session goes on; behind its end nothing more is noted. */
  ghost predicate Quitting(w: World, w': World)
  {
    w.client.Some? && w'.client.Some? && w.delivered <= w'.delivered
    && var c, c' := w.client.value, w'.client.value;
       c'.opts == c.opts && c'.signaled == c.signaled && c'.state == c.state
       && (c.state.LOGGED_OUT? && c'.error.None? ==> Noted(c') == Noted(c))
  }

  lemma QuitResponse(w: World, a: Action)
    requires Running(w) && Enabled(w, a) && (a.FetchOpen? || a.FetchUid? || a.FetchSection? || a.FetchInner? || a.FetchBody?)
    ensures Quitting(w, Next(w, a))
  {
    hide Transmit;
    hide Performed;
    hide Closing;
    hide OnTimer;
    hide OnTagged;
  }

  lemma QuitOther(w: World, a: Action)
    requires Running(w) && Enabled(w, a)
    requires a.Perform? || a.PerformPart? || a.Add? || a.Remove? || a.Flag? || a.Unflag? || a.ChangeValidity?
    ensures Quitting(w, Next(w, a))
  {
    hide KeysIn;
  }

  lemma QuitClose(w: World)
    requires Running(w) && Enabled(w, FetchClose) && OnFetchEnd(w.client.value).error.Some?
    ensures Quitting(w, Next(w, FetchClose))
  {
  }

  lemma SendSame(w: World, c': Core)
    ensures var w' := Transmit(w, c'); w'.client == Some(c') && w'.response == w.response && w'.delivered == w.delivered
  {
    hide Receive;
    ReceiveBooks(w.(client := Some(c')), LastCommand(c'));
    ReceiveBound(w.(client := Some(c')), LastCommand(c'));
  }

  lemma TimerSame(c: Core)
    ensures var c' := OnTimer(c);
            c'.opts == c.opts && c'.signaled == c.signaled && c'.state == c.state && Noted(c') == Noted(c)
  {
  }

  lemma QuitTimer(w: World)
    requires Running(w)
    ensures Quitting(w, Next(w, Timer))
  {
    hide Transmit;
    hide OnTimer;
    TimerSame(w.client.value);
    SendSame(w, OnTimer(w.client.value));
  }

  /** Only between responses does anything else happen. */
  lemma QuitKeeps(w: World, a: Action)
    requires Enabled(w, a) && WithinRun(a) && Running(w) && Next(w, a).response.Open? && !a.Signal?
    ensures Quitting(w, Next(w, a))
  {
    hide Quitting;
    if a.Timer? {
      QuitTimer(w);
    } else if a.Tagged? {
      hide Transmit;
      SendSame(Noticed(w, a.ok, a.tag), OnTagged(w.client.value, a.ok, a.tag));
    } else if a.FetchOpen? || a.FetchUid? || a.FetchSection? || a.FetchInner? || a.FetchBody? {
      QuitResponse(w, a);
    } else if a.FetchClose? {
      QuitClose(w);
    } else if a.Perform? || a.PerformPart? || a.Add? || a.Remove? || a.Flag? || a.Unflag? || a.ChangeValidity? {
      QuitOther(w, a);
    }
  }

  lemma CalmKeeps(w: World, a: Action)
    requires Inv(w) && Calm(w) && Enabled(w, a) && Disciplined(w, a) && WithinRun(a)
    requires a.Signal? ==> w.client.value.signaled
    ensures Calm(Next(w, a))
  {
    hide Inv;
    hide Disciplined;
    var w' := Next(w, a);
    if w'.response.Closed? {
      ActionKeeps(w, a);
      ClosedCalm(w');
    } else if a.Signal? {
    } else if Running(w) {
      QuitKeeps(w, a);
    } else {
      hide Calm;
      OutsideCalm(w, a);
    }
  }

  lemma OutsideCalm(w: World, a: Action)
    requires Calm(w) && Enabled(w, a) && WithinRun(a) && !Running(w)
    ensures Calm(Next(w, a))
  {
  }

  /** Within a run the options stay, and a signal is not forgotten. */
  ghost predicate SameRunOf(w: World, w': World)
  {
    w.client.Some? && w'.client.Some? && w'.client.value.opts == w.client.value.opts
    && (w.client.value.signaled ==> w'.client.value.signaled)
  }

  lemma TaggedSame(c: Core, ok: bool, tag: nat)
    ensures OnTagged(c, ok, tag).opts == c.opts && OnTagged(c, ok, tag).signaled == c.signaled
  {
    hide Continue;
    if tag in c.line.pending {
      Commands.ContinueKeeps(c.(line := c.line.(pending := c.line.pending - {tag})), c.line.pending[tag].handler);
    }
  }

  lemma WithinSame(w: World, a: Action)
    requires Enabled(w, a) && WithinRun(a) && w.client.Some?
    ensures SameRunOf(w, Next(w, a))
  {
    hide Transmit;
    hide OnTagged;
    hide OnTimer;
    hide Quitting;
    if a.Timer? {
      TimerSame(w.client.value);
      SendSame(w, OnTimer(w.client.value));
    } else if a.Tagged? {
      TaggedSame(w.client.value, a.ok, a.tag);
      SendSame(Noticed(w, a.ok, a.tag), OnTagged(w.client.value, a.ok, a.tag));
    } else if a.Perform? || a.PerformPart? || a.Add? || a.Remove? || a.Flag? || a.Unflag? || a.ChangeValidity? {
      OutsideSame(w, a);
    }
  }

  lemma OutsideSame(w: World, a: Action)
    requires Enabled(w, a)
    requires a.Perform? || a.PerformPart? || a.Add? || a.Remove? || a.Flag? || a.Unflag? || a.ChangeValidity?
    ensures Next(w, a).client == w.client
  {
    hide KeysIn;
  }

  /** Behind a calm signal everything stays calm, without any discipline about the end of responses. */
  lemma {:induction false} LaterCalm(w: World, acts: seq<Action>, w': World)
    requires Inv(w) && Calm(w) && Leads(false, w, None, acts, w')
    requires w.client.Some? && w.client.value.signaled && w.client.value.opts.task.DOWNLOAD?
    ensures Inv(w') && Calm(w') && SameRunOf(w, w')
    decreases |acts|
  {
    if acts != [] {
      var init, a := acts[..|acts| - 1], acts[|acts| - 1];
      var w1 := After(false, w, init);
      LaterCalm(w, init, w1);
      assert Allowed(false, w1, a) && WithinRun(a) && w' == Next(w1, a);
      hide Leads;
      hide Legal;
      hide After;
      hide Inv;
      hide Next;
      hide Calm;
      WithinSame(w1, a);
      CalmDisciplined(w1, a);
      hide Disciplined;
      hide Complete;
      ActionKeeps(w1, a);
      CalmKeeps(w1, a);
    }
  }

  /** A session that ends without a signal ends between responses. */
  lemma {:induction false} BehaviourCalm(ws: seq<World>, acts: seq<Action>, i: nat)
    requires Behaviour(ws, acts) && i < |ws| && ws[i].client.Some? && !ws[i].client.value.signaled
    ensures Calm(ws[i])
  {
    hide Inv;
    hide Next;
    hide Disciplined;
    BehaviourInv(ws, acts, i);
    if i > 0 {
      var w, a := ws[i - 1], acts[i - 1];
      assert Enabled(w, a) && Disciplined(w, a) && ws[i] == Next(w, a);
      if WithinRun(a) {
        if w.client.Some? {
          WithinSame(w, a);
          BehaviourCalm(ws, acts, i - 1);
          BehaviourInv(ws, acts, i - 1);
          if a.Signal? { SignalNoted(w); }
          CalmKeeps(w, a);
        } else {
          NoClientStays(w, a);
        }
      } else {
        StartCalm(w, a);
      }
    }
  }

  lemma SignalNoted(w: World)
    requires Enabled(w, Signal)
    ensures Next(w, Signal).client.Some? && Next(w, Signal).client.value.signaled
  {
  }

  lemma NoClientStays(w: World, a: Action)
    requires Enabled(w, a) && WithinRun(a) && w.client.None?
    ensures Next(w, a).client.None?
  {
    hide KeysIn;
  }

  lemma StartCalm(w: World, a: Action)
    requires Enabled(w, a) && !WithinRun(a)
    ensures Calm(Next(w, a))
  {
  }

  lemma SignalCalm(w: World)
    requires Inv(w) && Calm(w) && Enabled(w, Signal) && !BetweenUidAndBody(w)
    ensures Calm(Next(w, Signal))
  {
    ClientFacts(w);
    if w.response.Open? { ResponseAddressed(w); }
  }

  /** Passing over a part of a response behind the end of a session. */
  function Passed(w: World, part: Part, bodySent: bool): World
    requires w.response.Open?
  {
    w.(response := w.response.(part := part, bodySent := bodySent))
  }

  /** A running client behind the end of its session, with a response open. */
  ghost predicate Past(w: World) { Running(w) && w.client.value.state.LOGGED_OUT? && w.response.Open? }

  lemma PassSteps(w: World)
    requires Past(w)
    ensures w.response.part.NoPart? ==>
              Allowed(false, w, FetchSection(true)) && Next(w, FetchSection(true)) == Passed(w, Section(true), w.response.bodySent)
    ensures w.response.part.Section? ==>
              Allowed(false, w, FetchInner) && Next(w, FetchInner) == Passed(w, Content(w.response.part.full), w.response.bodySent)
    ensures w.response.part.Content? ==>
              Allowed(false, w, FetchBody(Moved))
              && Next(w, FetchBody(Moved)) == Passed(w, NoPart, w.response.bodySent || w.response.part.full)
  {
  }

  /** The server finishes the part that it is sending. */
  lemma FinishPart(w0: World, acts: seq<Action>, w: World) returns (longer: seq<Action>, bodySent: bool)
    requires Leads(false, w0, None, acts, w) && Past(w)
    ensures Leads(false, w0, None, longer, Passed(w, NoPart, bodySent))
    ensures w.response.bodySent || (!w.response.part.NoPart? && w.response.part.full) ==> bodySent
  {
    hide Leads;
    hide Allowed;
    hide Next;
    longer, bodySent := acts, w.response.bodySent;
    PassSteps(w);
    var w1 := w;
    if w.response.part.Section? {
      longer := Onward(false, w0, None, longer, w1, FetchInner);
      w1 := Passed(w, Content(w.response.part.full), bodySent);
      PassSteps(w1);
    }
    if w1.response.part.Content? {
      longer := Onward(false, w0, None, longer, w1, FetchBody(Moved));
      bodySent := bodySent || w1.response.part.full;
      assert Passed(w1, NoPart, bodySent) == Passed(w, NoPart, bodySent);
    } else {
      assert Passed(w, NoPart, bodySent) == w;
    }
  }

  /** The server goes on with the response, up to a whole body behind the UID. */
  lemma FinishBody(w: World) returns (acts: seq<Action>)
    requires Past(w)
    ensures Leads(false, w, None, acts, Passed(w, NoPart, true))
  {
    var none: seq<Action> := [];
    assert Leads(false, w, None, none, w);
    hide Leads;
    hide Allowed;
    hide Next;
    var bodySent;
    acts, bodySent := FinishPart(w, none, w);
    var w1 := Passed(w, NoPart, bodySent);
    PassSteps(w1);
    acts := Onward(false, w, None, acts, w1, FetchSection(true));
    w1 := Passed(w1, Section(true), bodySent);
    acts, bodySent := FinishPart(w, acts, w1);
    assert Passed(w1, NoPart, true) == Passed(w, NoPart, true);
  }

  lemma CloseLoses(w: World)
    requires Running(w) && BetweenUidAndBody(w) && w.client.value.opts.del && !w.client.value.signaled
    requires w.client.value.mailbox == w.client.value.opts.mailbox && 0 < w.response.key.uid == w.client.value.body.lastUid
    requires w.response.key == Noted(w.client.value)
    ensures Past(Next(w, Signal))
    ensures var w1 := Passed(Next(w, Signal), NoPart, true);
            Allowed(false, w1, FetchClose) && var w2 := Next(w1, FetchClose);
            w2.client.Some? && var w3 := Next(w2, Exit(true));
            && w3.journal.Some? && w3.delivered == w.delivered && w.response.key !in w3.delivered
            && InOrder(w.response.key, JournalOrder(w3.journal.value))
  {
    hide Deleting;
  }

  /** A signal between the UID and the body of a message, with the rest of the response still processed, body included:
      the closing of the response puts the UID of the undelivered message into the journal. */
  lemma SignalLosesBody(w: World) returns (acts: seq<Action>, w': World)
    requires Reachable(w) && Enabled(w, Signal) && Moving(w.client.value) && !w.client.value.signaled && BetweenUidAndBody(w)
    ensures Leads(false, Next(w, Signal), None, acts, w') && w'.client.Some?
    ensures var w'' := Next(w', Exit(true));
            w''.journal.Some? && InOrder(w.response.key, JournalOrder(w''.journal.value)) && w.response.key !in w''.delivered
  {
    ReachableInv(w);
    CutFacts(w);
    CloseLoses(w);
    hide Leads;
    hide Allowed;
    hide Inv;
    hide Next;
    acts := FinishBody(Next(w, Signal));
    var w1 := Passed(Next(w, Signal), NoPart, true);
    acts := Onward(false, Next(w, Signal), None, acts, w1, FetchClose);
    w' := Next(w1, FetchClose);
  }

  lemma CutFacts(w: World)
    requires Inv(w) && Running(w) && Moving(w.client.value) && BetweenUidAndBody(w)
    ensures w.client.value.mailbox == w.client.value.opts.mailbox && 0 < w.response.key.uid == w.client.value.body.lastUid
    ensures w.response.key == Noted(w.client.value)
  {
    hide Staged;
  }

  /** In every reachable world of a download with deletion that no signal has reached: whatever is still processed behind
      a signal, the run leaves a journal of delivered messages only, if and only if the client is not, while it fetches,
      between the UID and the body of a message. */
  lemma SignalExact(w: World)
    requires Reachable(w) && Enabled(w, Signal) && Moving(w.client.value) && !w.client.value.signaled
    ensures SignalSafe(w) <==> !BetweenUidAndBody(w)
  {
    ReachableInv(w);
    hide Inv;
    hide Books;
    if BetweenUidAndBody(w) {
      var acts, w' := SignalLosesBody(w);
      NotBacked(Next(w', Exit(true)), w.response.key);
    } else {
      var ws: seq<World>, acts: seq<Action> :| Behaviour(ws, acts) && ws[|acts|] == w;
      BehaviourCalm(ws, acts, |acts|);
      SignalCalm(w);
      SignalInv(w);
      var w1 := Next(w, Signal);
      hide Next;
      hide Calm;
      forall acts: seq<Action>, w': World | Leads(false, w1, None, acts, w') && w'.client.Some?
        ensures JournalBacked(Next(w', Exit(true)))
      {
        LaterCalm(w1, acts, w');
        ExitBacked(w');
      }
    }
  }

  lemma NotBacked(w: World, k: Key)
    requires w.journal.Some? && InOrder(k, JournalOrder(w.journal.value)) && k !in w.delivered
    ensures !JournalBacked(w)
  {
    assert k == Key(w.journal.value.mailbox, w.journal.value.uidvalidity, k.uid);
  }

  lemma SignalInv(w: World)
    requires Inv(w) && Enabled(w, Signal) && Moving(w.client.value)
    ensures var w1 := Next(w, Signal);
            Inv(w1) && w1.client.Some? && w1.client.value.signaled && w1.client.value.opts.task.DOWNLOAD?
  {
    ServerTextKeeps(w, Signal);
  }

  /** A download can be caught between the UID and the body. */
  lemma BetweenReachable(o: Options) returns (w: World)
    requires o.task.DOWNLOAD? && o.del
    ensures Reachable(w) && Enabled(w, Signal) && w.client.value.opts == o && !w.client.value.signaled && BetweenUidAndBody(w)
  {
    FetchingReady(o, 1);
    ServerInitial(o.mailbox);
    InitialReachable(Server(o.mailbox));
    w := WithUid(Fetching(o), Mail(o.mailbox, 1));
    hide Leads;
    var acts := FetchRun(o);
    acts := TakeUid(Server(o.mailbox), o, acts, Fetching(o), Mail(o.mailbox, 1));
    RunReachable(Server(o.mailbox), o, acts, w);
  }

  // ---------------------------------------------------------------- a message that comes in during the deletion

  function FirstOrder(o: Options): Order { Order(o.mailbox, 1, {1}) }

  /** One message is taken in. */
  function TakenCore(o: Options): Core { FetchCore(o).(body := Body(1, false, false, false), uids := {1}) }

  function StoreCore(o: Options): Core
  {
    TakenCore(o).(line := Line(true, BehindStore, map[3 := Pending(UidStore({1}), ToDownload)], 4,
                               [Login, Select(o.mailbox), Fetch, UidStore({1})]))
  }

  function ExpungeCore(o: Options): Core
  {
    TakenCore(o).(line := Line(true, BehindExpunge, map[4 := Pending(UidExpunge({1}), ToDownload)], 5,
                               [Login, Select(o.mailbox), Fetch, UidStore({1}), UidExpunge({1})]))
  }

  function One(o: Options): World
  {
    Fetching(o).(client := Some(TakenCore(o)), delivered := {Mail(o.mailbox, 1)}, latest := {Mail(o.mailbox, 1)})
  }

  function Storing1(o: Options, worked: bool): World
  {
    One(o).(client := Some(StoreCore(o)), stores := {FirstOrder(o)}, stored := Some(FirstOrder(o)),
            work := Work.Storing(FirstOrder(o)), worked := worked, flagged := if worked then {Mail(o.mailbox, 1)} else {})
  }

  function Expunging1(o: Options): World
  {
    Storing1(o, true).(client := Some(ExpungeCore(o)), expunges := {FirstOrder(o)}, work := Work.Expunging(FirstOrder(o)), worked := false)
  }

  lemma NotDeleting(o: Options)
    ensures forall b :: !Deleting(FetchCore(o).(body := b))
  {
  }

  lemma TakenOne(o: Options)
    requires o.task.DOWNLOAD?
    ensures Taken(Fetching(o), Mail(o.mailbox, 1)) == One(o)
  {
    hide Deleting;
    var none: set<nat>, none': set<Key> := {}, {};
    assert none + {1} == {1} && none' + {Mail(o.mailbox, 1)} == {Mail(o.mailbox, 1)} && none' - {Mail(o.mailbox, 1)} == none';
    NotDeleting(o);
  }

  lemma DeletionAnswers(o: Options)
    requires Moving(FetchCore(o))
    ensures OnTagged(TakenCore(o), true, 2) == StoreCore(o)
    ensures OnTagged(StoreCore(o), true, 3) == ExpungeCore(o)
  {
    assert map[2 := Pending(Fetch, ToDownload)] - {2} == map[];
    assert map[3 := Pending(UidStore({1}), ToDownload)] - {3} == map[];
  }

  lemma StoreStep(o: Options)
    requires Moving(FetchCore(o))
    ensures Step(One(o), Tagged(true, 2), Storing1(o, false))
  {
    hide OnTagged;
    hide Ordered;
    DeletionAnswers(o);
    var none: set<Order> := {};
    assert none + {FirstOrder(o)} == {FirstOrder(o)};
  }

  lemma MarkStep(o: Options)
    ensures Step(Storing1(o, false), Perform, Storing1(o, true))
  {
    var w := Storing1(o, false);
    var none: set<Key> := {};
    assert KeysIn(w.present, FirstOrder(o)) == {Mail(o.mailbox, 1)};
    assert none + {Mail(o.mailbox, 1)} == {Mail(o.mailbox, 1)};
  }

  lemma ExpungeStep(o: Options)
    requires Moving(FetchCore(o))
    ensures Step(Storing1(o, true), Tagged(true, 3), Expunging1(o))
  {
    hide OnTagged;
    hide Ordered;
    DeletionAnswers(o);
    var none: set<Order> := {};
    assert none + {FirstOrder(o)} == {FirstOrder(o)};
  }

  lemma SecondReady(o: Options)
    requires o.task.DOWNLOAD?
    ensures Ready(Expunging1(o), Mail(o.mailbox, 2))
  {
  }

  /** The second message is taken in late, and carrying out the expunge leaves it on the server. */
  lemma SecondLate(o: Options)
    requires Moving(FetchCore(o))
    ensures var w, k := Taken(Expunging1(o), Mail(o.mailbox, 2)), Mail(o.mailbox, 2);
            && w.late == {k} && Allowed(true, w, Perform) && var w1 := Next(w, Perform);
            && w1 == w.(present := {k}, removed := w1.removed, worked := true)
  {
    var w, k := Taken(Expunging1(o), Mail(o.mailbox, 2)), Mail(o.mailbox, 2);
    var c := WithBody(Expunging1(o), k).client.value;
    assert 4 in c.line.pending && Deleting(c);
    var none: set<Key> := {};
    assert none + {k} == {k};
    assert KeysIn(w.present * w.flagged, FirstOrder(o)) == {Mail(o.mailbox, 1)};
    assert {Mail(o.mailbox, 1), k} - {Mail(o.mailbox, 1)} == {k};
  }

  /** The OK for the expunge: the client forgets both UIDs. */
  lemma SecondForgotten(o: Options)
    requires Moving(FetchCore(o))
    ensures var w, k := Taken(Expunging1(o), Mail(o.mailbox, 2)), Mail(o.mailbox, 2);
            var w1 := w.(present := {k}, removed := Next(w, Perform).removed, worked := true);
            Allowed(true, w1, Tagged(true, 4)) && Forgotten(Next(w1, Tagged(true, 4)), k)
  {
    var w := Taken(Expunging1(o), Mail(o.mailbox, 2));
    LogoutAnswer(o, w.client.value);
    hide OnTagged;
    hide Ordered;
    hide Deleting;
  }

  lemma LogoutAnswer(o: Options, c: Core)
    requires Moving(FetchCore(o)) && c == ExpungeCore(o).(body := c.body, uids := c.uids)
    ensures var c' := OnTagged(c, true, 4);
            c' == c.(uids := {}, line := c'.line) && c'.line.sent == c.line.sent + [Logout]
  {
    assert map[4 := Pending(UidExpunge({1}), ToDownload)] - {4} == map[];
  }

  /** A delivered message is on the server, in no order ever sent, in no journal that the destructor would write, and its
      response is closed. */
  ghost predicate Forgotten(w: World, k: Key)
  {
    && w.client.Some? && Moving(w.client.value) && k in w.latest && k in w.delivered && k in w.present
    && (forall o | o in w.stores + w.expunges :: !InOrder(k, o))
    && !Journaled(w.client.value, k) && !Unclosed(w, k)
  }

  /** A disciplined environment can make a download with deletion forget a message that it delivered: its response comes in
      between the sending of the UID EXPUNGE and the OK for it. */
  lemma LateMessageForgotten(o: Options) returns (w: World, k: Key)
    requires Moving(FetchCore(o))
    ensures Reachable(w) && Forgotten(w, k)
  {
    FetchingReady(o, 1);
    TakenOne(o);
    StoreStep(o);
    MarkStep(o);
    ExpungeStep(o);
    SecondReady(o);
    SecondLate(o);
    SecondForgotten(o);
    ServerInitial(o.mailbox);
    InitialReachable(Server(o.mailbox));
    k := Mail(o.mailbox, 2);
    w := LateRun(o);
  }

  lemma LateRun(o: Options) returns (w: World)
    requires Moving(FetchCore(o)) && Reachable(Server(o.mailbox))
    requires Ready(Fetching(o), Mail(o.mailbox, 1)) && Taken(Fetching(o), Mail(o.mailbox, 1)) == One(o)
    requires Step(One(o), Tagged(true, 2), Storing1(o, false)) && Step(Storing1(o, false), Perform, Storing1(o, true))
    requires Step(Storing1(o, true), Tagged(true, 3), Expunging1(o)) && Ready(Expunging1(o), Mail(o.mailbox, 2))
    requires var w2 := Taken(Expunging1(o), Mail(o.mailbox, 2));
             Allowed(true, w2, Perform) && Allowed(true, Next(w2, Perform), Tagged(true, 4))
    ensures Reachable(w) && w == Next(Next(Taken(Expunging1(o), Mail(o.mailbox, 2)), Perform), Tagged(true, 4))
  {
    LateCores(o);
    hide Leads;
    hide Allowed;
    hide Next;
    hide Taken;
    hide Ready;
    hide One;
    hide Storing1;
    hide Expunging1;
    var acts := FetchRun(o);
    acts := TakeMessage(Server(o.mailbox), o, acts, Fetching(o), Mail(o.mailbox, 1));
    acts := Along(o, acts, One(o), Tagged(true, 2), Storing1(o, false));
    acts := Along(o, acts, Storing1(o, false), Perform, Storing1(o, true));
    acts := Along(o, acts, Storing1(o, true), Tagged(true, 3), Expunging1(o));
    acts := TakeMessage(Server(o.mailbox), o, acts, Expunging1(o), Mail(o.mailbox, 2));
    var w2 := Taken(Expunging1(o), Mail(o.mailbox, 2));
    acts := Along(o, acts, w2, Perform, Next(w2, Perform));
    acts := Along(o, acts, Next(w2, Perform), Tagged(true, 4), Next(Next(w2, Perform), Tagged(true, 4)));
    w := Next(Next(w2, Perform), Tagged(true, 4));
    RunReachable(Server(o.mailbox), o, acts, w);
  }

  lemma LateCores(o: Options)
    requires Moving(FetchCore(o))
    ensures !o.task.LIST? && SoundOptions(o, Server(o.mailbox).journal)
    ensures Running(Fetching(o)) && Fetching(o).client.value.opts.task.DOWNLOAD?
    ensures Running(Expunging1(o)) && Expunging1(o).client.value.opts.task.DOWNLOAD?
  {
  }
}
