/** The client among its surroundings: server mailboxes, other clients, the journal file and the maildir. */
module World {
  import opened Text
  import opened Client

  /** Names one message for ever: section 2.3.1.1 of RFC 3501. */
  datatype Key = Key(mailbox: string, validity: nat, uid: nat)

  /** UIDs sent in a UID command, in the mailbox and under the UIDVALIDITY in force at the server. */
  datatype Order = Order(mailbox: string, validity: nat, uids: set<nat>)

  predicate InOrder(k: Key, o: Order) { k.mailbox == o.mailbox && k.validity == o.validity && k.uid in o.uids }

  /** What of a BODY attribute the server has sent; `full` is BODY[]. */
  datatype Part = NoPart | Section(full: bool) | Content(full: bool)

  /** The FETCH response that is being sent; `uidSent` and `bodySent` say whether the server has sent the UID and a whole
      BODY[] in it. */
  datatype Response = Closed | Open(key: Key, part: Part, uidSent: bool, bodySent: bool)

  /** The command that the server is carrying out. */
  datatype Work = Idle | Storing(order: Order) | Expunging(order: Order) | ExpungingAll(mailbox: string)

  /** `present` and `flagged` (with \Deleted) are the server's messages now, `ever` all it ever had; `selecting` is the
      mailbox of the latest SELECT of the session and `bound` that mailbox once its UIDVALIDITY is announced; `worked`
      says whether the server has carried out `work`. `stores` and `expunges` are all UID orders ever sent.
      `stored` is the order of the latest UID STORE of the session. `delivered` are the messages linked into the maildir,
      `removed` those removed by our UID EXPUNGE commands, `unflagged` those whose \Deleted flag another client took
      away. For the current run, `latest` are the messages it delivered and `loaded` those of the journal it read;
      `cleaned` (in the cleanup) and `confirmed` (in the task) are those named by a UID STORE and by the expunge behind
      it, both answered with OK; `late` are those whose UID was new to the client when it took it in, while a UID STORE or
      an expunge was outstanding. */
  datatype World = World(
    client: Option<Core>, journal: Option<Journal>,
    validity: map<string, nat>, present: set<Key>, ever: set<Key>, flagged: set<Key>,
    selecting: Option<string>, bound: Option<string>, response: Response, work: Work, worked: bool, stored: Option<Order>,
    stores: set<Order>, expunges: set<Order>,
    delivered: set<Key>, removed: set<Key>, unflagged: set<Key>,
    latest: set<Key>, loaded: set<Key>, cleaned: set<Key>, confirmed: set<Key>, late: set<Key>)

  datatype Action =
    // the process
    | Start(opts: Options) | Exit(journalWritten: bool) | Kill | Timer | Signal
    // what the server sends
    | CapabilityBegin | CapabilityItem(x: Capability) | Exists(n: nat) | UidValidity | Tagged(ok: bool, tag: nat)
    | FetchOpen(key: Key) | FetchUid | FetchSection(full: bool) | FetchInner | FetchBody(move: Move) | FetchClose
    // what the server does
    | Perform | PerformPart(order: Order, keys: set<Key>)
    // other clients, and the server on its own
    | Add(key: Key) | Remove(keys: set<Key>) | Flag(keys: set<Key>) | Unflag(keys: set<Key>)
    | ChangeValidity(mailbox: string, n: nat)

  function JournalOrder(j: Journal): Order { Order(j.mailbox, j.uidvalidity, j.uids) }

  /** The messages that the client's UID set stands for. */
  function ClientOrder(c: Core): Order { Order(c.mailbox, c.uidvalidity, c.uids) }

  function KeysIn(keys: set<Key>, o: Order): set<Key> { set k | k in keys && InOrder(k, o) }

  predicate Running(w: World) { w.client.Some? && w.client.value.error.None? }

  /** The order that UIDs amount to at the server; without a selected mailbox the server refuses the command. */
  function OrderAt(w: World, uids: set<nat>): Option<Order>
  {
    if w.bound.Some? && w.bound.value in w.validity
    then Some(Order(w.bound.value, w.validity[w.bound.value], uids)) else None
  }

  /** The server takes up a command. */
  function Receive(w: World, cmd: Command): World
  {
    match cmd
    case Select(mb) => w.(selecting := Some(mb), bound := None, work := Idle, worked := false, stored := None)
    case UidStore(uids) =>
      var o := OrderAt(w, uids);
      if o.None? then w.(work := Idle, worked := false, stored := None)
      else w.(stores := w.stores + {o.value}, work := Storing(o.value), worked := false, stored := o)
    case UidExpunge(uids) =>
      var o := OrderAt(w, uids);
      if o.None? then w.(work := Idle, worked := false)
      else w.(expunges := w.expunges + {o.value}, work := Expunging(o.value), worked := false)
    case Expunge =>
      w.(work := if w.bound.Some? then ExpungingAll(w.bound.value) else Idle, worked := false)
    case _ => w.(work := Idle, worked := false)
  }

  /** The client makes a step to `c`, and the server receives the command sent in it, if any. */
  function Transmit(w: World, c: Core): World
  {
    var w1 := w.(client := Some(c));
    if w.client.None? || |c.line.sent| <= |w.client.value.line.sent| then w1
    else Receive(w1, c.line.sent[|c.line.sent| - 1])
  }

  /** The server answers OK only to what it has done; it announces the UIDVALIDITY before it completes a SELECT. */
  predicate MayAnswer(w: World, cmd: Command)
  {
    match cmd
    case Select(mb) => w.selecting == Some(mb) == w.bound
    case UidStore(_) => w.work.Storing? && w.worked
    case UidExpunge(_) => w.work.Expunging? && w.worked
    case Expunge => w.work.ExpungingAll? && w.worked
    case _ => true
  }

  /** Which actions are possible. A UIDVALIDITY does not change while a mailbox that announced it is selected; a UID is
      never given to a second message; a FETCH response is about a message of the selected mailbox. */
  predicate Enabled(w: World, a: Action)
  {
    match a
    case Start(_) => w.client.None?
    case Exit(_) => w.client.Some?
    case Kill => w.client.Some?
    case Timer => Running(w)
    case Signal => Running(w)
    case CapabilityBegin => Running(w) && w.response.Closed?
    case CapabilityItem(_) => Running(w) && w.response.Closed?
    case Exists(_) => Running(w) && w.response.Closed?
    case UidValidity => Running(w) && w.response.Closed? && w.selecting.Some? && w.selecting.value in w.validity
    case Tagged(ok, tag) =>
      && Running(w) && w.response.Closed?
      && (ok && tag in w.client.value.line.pending ==> MayAnswer(w, w.client.value.line.pending[tag].command))
    case FetchOpen(k) =>
      && Running(w) && w.response.Closed? && w.bound == Some(k.mailbox) && k.mailbox in w.validity
      && k.validity == w.validity[k.mailbox] && k in w.ever && 0 < k.uid < MAX32
    case FetchUid => Running(w) && w.response.Open? && w.response.part.NoPart?
    case FetchSection(_) => Running(w) && w.response.Open? && w.response.part.NoPart?
    case FetchInner => Running(w) && w.response.Open? && w.response.part.Section?
    case FetchBody(_) => Running(w) && w.response.Open? && w.response.part.Content?
    case FetchClose => Running(w) && w.response.Open? && w.response.part.NoPart?
    case Perform => true
    case PerformPart(o, keys) =>
      && o in w.expunges && o.mailbox in w.validity && w.validity[o.mailbox] == o.validity
      && keys <= KeysIn(w.present * w.flagged, o)
    case Add(k) => k !in w.ever
    case Remove(_) => true
    case Flag(_) => true
    case Unflag(_) => true
    case ChangeValidity(mb, _) => w.bound != Some(mb)
  }

  /** The server carries out the command it is working on. */
  function Performed(w: World): World
  {
    match w.work
    case Idle => w
    case Storing(o) => w.(flagged := w.flagged + KeysIn(w.present, o), worked := true)
    case Expunging(o) =>
      var gone := KeysIn(w.present * w.flagged, o);
      w.(present := w.present - gone, removed := w.removed + gone, worked := true)
    case ExpungingAll(mb) =>
      w.(present := w.present - (set k | k in w.present && k in w.flagged && k.mailbox == mb), worked := true)
  }

  /** The end of a BODY attribute. That the server has sent it is one thing; whether the message is in the maildir now
      depends on what the client made of it and on the system calls. */
  function Delivered(w: World, move: Move): World
    requires Running(w) && w.response.Open? && w.response.part.Content?
  {
    var c, r := w.client.value, w.response;
    var w1 := w.(client := Some(OnBodyEnd(c, move)), response := r.(part := NoPart, bodySent := r.bodySent || r.part.full));
    if c.state.FETCHING? && c.body.fullBody && c.body.tmpName && !move.NotLinked?
    then w1.(delivered := w.delivered + {r.key}, latest := w.latest + {r.key})
    else w1
  }

  /** A command that deletes is outstanding. */
  predicate Deleting(c: Core)
  {
    exists t :: t in c.line.pending
      && (c.line.pending[t].command.UidStore? || c.line.pending[t].command.UidExpunge? || c.line.pending[t].command.Expunge?)
  }

  /** The message that the client takes the response to be about. */
  function Noted(c: Core): Key { Key(c.mailbox, c.uidvalidity, c.body.lastUid) }

  /** The client takes in a new UID while it is deleting. */
  predicate LateUid(c: Core) { Deleting(c) && c.body.lastUid !in c.uids }

  /** The end of a response; a UID taken in again when nothing is being deleted is late no more. */
  function Closing(w: World): World
    requires Running(w)
  {
    var c := w.client.value;
    var c' := OnFetchEnd(c);
    if c'.error.Some? then w.(client := Some(c'))
    else w.(client := Some(c'), response := Closed,
            late := if LateUid(c) then w.late + {Noted(c)} else if Deleting(c) then w.late else w.late - {Noted(c)})
  }

  predicate Confirms(c: Core, ok: bool, tag: nat)
  {
    ok && tag in c.line.pending && (c.line.pending[tag].command.UidExpunge? || c.line.pending[tag].command.Expunge?)
  }

  /** The messages that the server was told both to mark and to remove, by the orders that it received. */
  function Ordered(w: World): set<Key>
  {
    if w.stored.None? then {}
    else match w.work
      case Expunging(o) => KeysIn(KeysIn(w.ever, o), w.stored.value)
      case ExpungingAll(mb) => KeysIn(w.ever, w.stored.value)
      case _ => {}
  }

  /** The OK for an expunge confirms what the server was told. */
  function Noticed(w: World, ok: bool, tag: nat): World
    requires Running(w)
  {
    var c := w.client.value;
    if !Confirms(c, ok, tag) then w
    else if c.line.point.Begin? then w.(cleaned := w.cleaned + Ordered(w))
    else w.(confirmed := w.confirmed + Ordered(w))
  }

  function Answered(w: World, ok: bool, tag: nat): World
    requires Running(w)
  {
    Transmit(Noticed(w, ok, tag), OnTagged(w.client.value, ok, tag))
  }

  function Next(w: World, a: Action): World
    requires Enabled(w, a)
  {
    match a
    case Start(o) =>
      w.(client := Some(Startup(o, w.journal)), journal := None,
         loaded := if w.journal.Some? then KeysIn(w.ever, JournalOrder(w.journal.value)) else {},
         latest := {}, cleaned := {}, confirmed := {}, late := {},
         selecting := None, bound := None, response := Closed, work := Idle, worked := false, stored := None)
    case Exit(written) =>
      w.(client := None, journal := if written then Shutdown(w.client.value) else None,
         selecting := None, bound := None, response := Closed)
    case Kill => w.(client := None, journal := None, selecting := None, bound := None, response := Closed)
    case Timer => Transmit(w, OnTimer(w.client.value))
    case Signal => w.(client := Some(OnSignal(w.client.value)))
    case CapabilityBegin => w.(client := Some(OnCapabilityBegin(w.client.value)))
    case CapabilityItem(x) => w.(client := Some(OnCapability(w.client.value, x)))
    case Exists(n) => w.(client := Some(OnExists(w.client.value, n)))
    case UidValidity =>
      w.(client := Some(OnUidValidity(w.client.value, w.validity[w.selecting.value])), bound := w.selecting)
    case Tagged(ok, tag) => Answered(w, ok, tag)
    case FetchOpen(k) => w.(client := Some(OnFetchBegin(w.client.value)), response := Open(k, NoPart, false, false))
    case FetchUid =>
      w.(client := Some(OnUid(w.client.value, w.response.key.uid)), response := w.response.(uidSent := true))
    case FetchSection(full) =>
      w.(client := Some(if full then OnSectionEmpty(w.client.value) else w.client.value),
         response := w.response.(part := Section(full)))
    case FetchInner =>
      w.(client := Some(OnBodyInner(w.client.value)), response := w.response.(part := Content(w.response.part.full)))
    case FetchBody(move) => Delivered(w, move)
    case FetchClose => Closing(w)
    case Perform => Performed(w)
    case PerformPart(o, keys) => w.(present := w.present - keys, removed := w.removed + keys)
    case Add(k) => w.(present := w.present + {k}, ever := w.ever + {k})
    case Remove(keys) => w.(present := w.present - keys)
    case Flag(keys) => w.(flagged := w.flagged + keys)
    case Unflag(keys) => w.(flagged := w.flagged - keys, unflagged := w.unflagged + keys)
    case ChangeValidity(mb, n) => w.(validity := w.validity[mb := n])
  }

  // ---------------------------------------------------------------- behaviours

  /** Nothing was delivered or sent yet, and no process runs. */
  ghost predicate Initial(w: World)
  {
    && w.client.None? && w.journal.None? && w.selecting.None? && w.bound.None? && w.response.Closed? && w.work.Idle?
    && w.stored.None? && w.stores == {} && w.expunges == {} && w.delivered == {} && w.removed == {} && w.present <= w.ever
    && w.latest == {} && w.loaded == {} && w.cleaned == {} && w.confirmed == {} && w.late == {}
  }

  /** Options under which a run leaves a journal that can be trusted: with deletion on, not the header task, and the
      mailbox of the journal that is pending. */
  predicate SoundOptions(o: Options, journal: Option<Journal>)
  {
    o.del ==> !o.task.FETCH_HEADER? && (journal.Some? ==> journal.value.mailbox == o.mailbox)
  }

  /** The session ended between the UID and the body of the message being sent. */
  predicate CutShort(w: World, c: Core)
  {
    c.state.LOGGED_OUT? && w.response.Open? && c.body.lastUid == w.response.key.uid && w.response.key !in w.delivered
  }

  /** The server sends the body that a download asks for before it closes a response. */
  predicate Complete(w: World, a: Action)
  {
    a.FetchClose? && w.client.Some? && w.client.value.state.FETCHING? && w.client.value.opts.task.DOWNLOAD?
    ==> w.response.Open? && w.response.bodySent
  }

  /** What the environment has to keep to: runs with sound options, FETCH responses that carry the body that was asked
      for, and no end of a response that was cut short by the end of the session. */
  predicate Disciplined(w: World, a: Action)
  {
    && (a.Start? ==> SoundOptions(a.opts, w.journal))
    && Complete(w, a)
    && (a.FetchClose? && w.client.Some? ==> !CutShort(w, w.client.value))
  }

  /** A finite behaviour: any number of runs, each of them cut off anywhere, and everything around them. */
  ghost predicate Behaviour(ws: seq<World>, acts: seq<Action>)
  {
    && |ws| == |acts| + 1 && Initial(ws[0])
    && forall i | 0 <= i < |acts| ::
         Enabled(ws[i], acts[i]) && Disciplined(ws[i], acts[i]) && ws[i + 1] == Next(ws[i], acts[i])
  }
}
