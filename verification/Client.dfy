/** The download client (copy/client.cc): one handler per callback, timer, signal and tagged response. */
module Client {
  import opened Text

  datatype Task = DOWNLOAD | FETCH_HEADER | LIST

  datatype Options = Options(task: Task, del: bool, mailbox: string)

  datatype Capability = IMAP4rev1 | LOGINDISABLED | UIDPLUS | Other(n: nat)

  datatype ConnectionState = DISCONNECTED | FETCHING | LOGGED_OUT

  /** What is saved between runs (copy/journal.cc); the interval list of the file stands for a set of UIDs. */
  datatype Journal = Journal(mailbox: string, uidvalidity: nat, uids: set<nat>)

  datatype Command =
    | Capabilities | Login | Select(mailbox: string) | Fetch | UidStore(uids: set<nat>)
    | UidExpunge(uids: set<nat>) | Expunge | List | Logout

  /** The completion handlers that are stored for a tag. */
  datatype Continuation =
    | ToLogin | ToCapabilities | ToPostLogin | ToCleanupStore | ToCleanupExpunge | ToCleanupFinish
    | ToDownload | ToFetchHeader | ToList

  /** Where a task resumes: behind which of its commands. */
  datatype Point = Begin | BehindSelect | BehindFetch | BehindStore | BehindExpunge | BehindLogout | Done

  datatype Pending = Pending(command: Command, handler: Continuation)

  /** Why a handler threw; a throw unwinds the event loop and only the destructor runs after it. */
  datatype Error =
    | NoImap4rev1 | LoginDisabled | CommandFailed | UnknownTag | EmptySequence | NoUid
    | BodyInHeaderTask | TmpNotDelivered | NoTmpName | DiskError | SecondSignal

  /** The commands of a run: `pending` joins the tag table with the continuations, `sent` lists all commands. */
  datatype Line = Line(timerFired: bool, point: Point, pending: map<nat, Pending>, nextTag: nat, sent: seq<Command>)

  /** The FETCH response being read: `tmpName` says whether the maildir has a name that is not delivered yet, `toFile`
      whether the body buffer is redirected to a file. */
  datatype Body = Body(lastUid: nat, fullBody: bool, tmpName: bool, toFile: bool)

  /** All fields of the client. */
  datatype Core = Core(
    opts: Options, mailbox: string, needCleanup: bool, state: ConnectionState, existing: nat,
    uidvalidity: nat, uids: set<nat>, caps: set<Capability>, signaled: bool, body: Body, line: Line, error: Option<Error>)

  /** The constructor and `read_journal`; the journal file is removed after reading. */
  function Startup(opts: Options, journal: Option<Journal>): Core
  {
    var blank := Core(opts, opts.mailbox, false, DISCONNECTED, 0, 0, {}, {}, false,
                      Body(0, false, false, false), Line(false, Begin, map[], 0, []), None);
    match journal
    case None => blank
    case Some(j) => blank.(uidvalidity := j.uidvalidity, uids := j.uids, mailbox := j.mailbox, needCleanup := true)
  }

  /** The destructor and `write_journal`: the mailbox written is the option's. */
  function Shutdown(c: Core): Option<Journal>
  {
    if c.uids == {} || !c.opts.del then None else Some(Journal(c.opts.mailbox, c.uidvalidity, c.uids))
  }

  function Throw(c: Core, e: Error): Core { c.(error := Some(e)) }

  // ---------------------------------------------------------------- sending

  function Send(c: Core, cmd: Command, k: Continuation): Core
  {
    var l := c.line;
    c.(line := l.(pending := l.pending[l.nextTag := Pending(cmd, k)], nextTag := l.nextTag + 1, sent := l.sent + [cmd]))
  }

  function Goto(c: Core, point: Point): Core { c.(line := c.line.(point := point)) }

  /** The writer refuses an empty sequence-set. */
  function AsyncStore(c: Core, k: Continuation): Core
  {
    if c.uids == {} then Throw(c, EmptySequence) else Send(c, UidStore(c.uids), k)
  }

  function AsyncExpunge(c: Core, k: Continuation): Core
  {
    if UIDPLUS !in c.caps then Send(c, Expunge, k)
    else if c.uids == {} then Throw(c, EmptySequence)
    else Send(c, UidExpunge(c.uids), k)
  }

  function AsyncLogin(c: Core): Core
  {
    if IMAP4rev1 !in c.caps then Throw(c, NoImap4rev1)
    else if LOGINDISABLED in c.caps then Throw(c, LoginDisabled)
    else Send(c.(caps := {}, existing := 0), Login, ToCapabilities)
  }

  // ---------------------------------------------------------------- tasks

  function Finish(c: Core): Core { Goto(c.(state := LOGGED_OUT), Done) }

  /** Clears the UIDs and logs out. */
  function LeaveTask(c: Core, k: Continuation): Core { Send(Goto(c.(uids := {}), BehindLogout), Logout, k) }

  function DoDownload(c: Core): Core
  {
    match c.line.point
    case Begin => Send(Goto(c, BehindSelect), Select(c.mailbox), ToDownload)
    case BehindSelect =>
      if c.existing != 0 then Send(Goto(c.(state := FETCHING), BehindFetch), Fetch, ToDownload)
      else LeaveTask(c, ToDownload)
    case BehindFetch => if c.opts.del then AsyncStore(Goto(c, BehindStore), ToDownload) else LeaveTask(c, ToDownload)
    case BehindStore => AsyncExpunge(Goto(c, BehindExpunge), ToDownload)
    case BehindExpunge => LeaveTask(c, ToDownload)
    case BehindLogout => Finish(c)
    case Done => c
  }

  function DoFetchHeader(c: Core): Core
  {
    match c.line.point
    case Begin => Send(Goto(c, BehindSelect), Select(c.mailbox), ToFetchHeader)
    case BehindSelect => Send(Goto(c.(state := FETCHING), BehindFetch), Fetch, ToFetchHeader)
    case BehindLogout => Finish(c)
    case Done => c
    case _ => LeaveTask(c, ToFetchHeader)
  }

  function DoList(c: Core): Core
  {
    match c.line.point
    case Begin => Send(Goto(c, BehindSelect), Select(c.mailbox), ToList)
    case BehindSelect => Send(Goto(c, BehindFetch), List, ToList)
    case BehindLogout => Finish(c)
    case Done => c
    case _ => LeaveTask(c, ToList)
  }

  function DoTask(c: Core): Core
  {
    match c.opts.task
    case DOWNLOAD => DoDownload(c)
    case FETCH_HEADER => DoFetchHeader(c)
    case LIST => DoList(c)
  }

  function PostLogin(c: Core): Core
  {
    if c.needCleanup then Send(c, Select(c.mailbox), ToCleanupStore) else DoTask(c)
  }

  function CleanupFinish(c: Core): Core { DoTask(c.(uids := {}, mailbox := c.opts.mailbox)) }

  function Continue(c: Core, k: Continuation): Core
  {
    match k
    case ToLogin => AsyncLogin(c)
    case ToCapabilities => if c.caps == {} then Send(c, Capabilities, ToPostLogin) else PostLogin(c)
    case ToPostLogin => PostLogin(c)
    case ToCleanupStore => AsyncStore(c, ToCleanupExpunge)
    case ToCleanupExpunge => AsyncExpunge(c, ToCleanupFinish)
    case ToCleanupFinish => CleanupFinish(c)
    case ToDownload => DoDownload(c)
    case ToFetchHeader => DoFetchHeader(c)
    case ToList => DoList(c)
  }

  // ---------------------------------------------------------------- handlers

  function OnTimer(c: Core): Core
  {
    if c.line.timerFired then c
    else
      var c1 := c.(line := c.line.(timerFired := true));
      if c.caps == {} then Send(c1, Capabilities, ToLogin) else AsyncLogin(c1)
  }

  function OnTagged(c: Core, ok: bool, tag: nat): Core
  {
    if !ok then Throw(c, CommandFailed)
    else if tag !in c.line.pending then Throw(c, UnknownTag)
    else Continue(c.(line := c.line.(pending := c.line.pending - {tag})), c.line.pending[tag].handler)
  }

  function OnSignal(c: Core): Core
  {
    if c.signaled then Throw(c, SecondSignal) else c.(signaled := true, state := LOGGED_OUT)
  }

  function OnCapabilityBegin(c: Core): Core { c.(caps := {}) }

  function OnCapability(c: Core, x: Capability): Core { c.(caps := c.caps + {x}) }

  function OnExists(c: Core, n: nat): Core { c.(existing := n) }

  function OnUidValidity(c: Core, n: nat): Core
  {
    c.(uids := if c.uidvalidity != n then {} else c.uids, uidvalidity := n)
  }

  function OnFetchBegin(c: Core): Core { if c.state.FETCHING? then c.(body := c.body.(lastUid := 0)) else c }

  function OnUid(c: Core, n: nat): Core { if c.state.FETCHING? then c.(body := c.body.(lastUid := n)) else c }

  function OnSectionEmpty(c: Core): Core
  {
    if !c.state.FETCHING? then c
    else if c.opts.task.FETCH_HEADER? then Throw(c, BodyInHeaderTask)
    else c.(body := c.body.(fullBody := true))
  }

  /** A temporary file is opened for a full body. */
  function OnBodyInner(c: Core): Core
  {
    if !c.state.FETCHING? || !c.body.fullBody then c
    else if c.body.tmpName then Throw(c, TmpNotDelivered)
    else c.(body := c.body.(tmpName := true, toFile := true))
  }

  /** How the move from `tmp` goes: through, or a system call fails before or after the link is made. */
  datatype Move = Moved | NotLinked | LinkedOnly

  function OnBodyEnd(c: Core, move: Move): Core
  {
    if !c.state.FETCHING? || !c.body.fullBody then c
    else
      var c1 := c.(body := c.body.(toFile := false));
      if !c.body.tmpName then Throw(c1, NoTmpName)
      else if !move.Moved? then Throw(c1, DiskError)
      else c.(body := Body(c.body.lastUid, false, false, false))
  }

  function OnFetchEnd(c: Core): Core
  {
    if c.body.lastUid == 0 then Throw(c, NoUid) else c.(uids := c.uids + {c.body.lastUid})
  }
}
