/** The client object (copy/client.cc) and the journal record (copy/journal.cc): every method changes the fields in place
    as the functions of module Client say. */
module ClientObject {
  import opened Text
  import opened Client
  import Commands
  import Seqs = SequenceSet

  /** The record in the journal file. */
  datatype JournalFile = JournalFile(mailbox: string, uidvalidity: nat, uids: seq<Seqs.Interval>)

  function Denoted(f: JournalFile): Journal { Journal(f.mailbox, f.uidvalidity, Seqs.Members(f.uids)) }

  function DenotedOption(f: Option<JournalFile>): Option<Journal> { if f.Some? then Some(Denoted(f.value)) else None }

  class ClientApp {
    const opts: Options
    const uids: Seqs.SequenceSet
    var mailbox: string
    var needCleanup: bool
    var state: ConnectionState
    var existing: nat
    var uidvalidity: nat
    var capabilities: set<Capability>
    var signaled: bool
    var lastUid: nat
    var fullBody: bool
    var tmpName: bool
    var toFile: bool
    var timerFired: bool
    var point: Point
    var pending: map<nat, Pending>
    var nextTag: nat
    var sent: seq<Command>
    var error: Option<Error>

    ghost predicate Valid() reads this, uids { uids.Valid() }

    ghost function Snapshot(): Core
      reads this, uids
    {
      Core(opts, mailbox, needCleanup, state, existing, uidvalidity, uids.Numbers(), capabilities, signaled,
           Body(lastUid, fullBody, tmpName, toFile), Line(timerFired, point, pending, nextTag, sent), error)
    }

    constructor (opts: Options, file: Option<JournalFile>)
      ensures Valid() && fresh(uids) && Snapshot() == Startup(opts, DenotedOption(file))
    {
      this.opts := opts;
      uids := new Seqs.SequenceSet();
      mailbox, needCleanup, state, existing, uidvalidity := opts.mailbox, false, DISCONNECTED, 0, 0;
      capabilities, signaled, error := {}, false, None;
      lastUid, fullBody, tmpName, toFile := 0, false, false, false;
      timerFired, point, pending, nextTag, sent := false, Begin, map[], 0, [];
      new;
      if file.Some? { ReadJournal(file.value); }
    }

    method ReadJournal(file: JournalFile)
      requires Valid()
      modifies this, uids
      ensures Valid()
      ensures Snapshot() == old(Snapshot()).(uidvalidity := file.uidvalidity, mailbox := file.mailbox, needCleanup := true,
                                             uids := old(uids.Numbers()) + Seqs.Members(file.uids))
    {
      uidvalidity := file.uidvalidity;
      uids.Assign(file.uids);
      mailbox := file.mailbox;
      needCleanup := true;
    }

    /** Called from the destructor; the intervals are written in their canonical form. */
    method WriteJournal() returns (file: Option<JournalFile>)
      requires Valid()
      ensures DenotedOption(file) == Shutdown(Snapshot()) && (file.Some? ==> Seqs.Canonical(file.value.uids))
    {
      var nothing := uids.Empty();
      if nothing || !opts.del { return None; }
      var v := uids.Copy();
      file := Some(JournalFile(opts.mailbox, uidvalidity, v));
    }

    // -------------------------------------------------------------- sending

    method AsyncCommand(cmd: Command, k: Continuation)
      requires Valid()
      modifies this
      ensures Valid() && Snapshot() == Send(old(Snapshot()), cmd, k)
    {
      pending := pending[nextTag := Pending(cmd, k)];
      nextTag := nextTag + 1;
      sent := sent + [cmd];
    }

    method AsyncStoreUids(k: Continuation)
      requires Valid()
      modifies this
      ensures Valid() && Snapshot() == AsyncStore(old(Snapshot()), k)
    {
      var v := uids.Copy();
      var nothing := uids.Empty();
      if nothing {
        error := Some(EmptySequence);
      } else {
        AsyncCommand(UidStore(Seqs.Members(v)), k);
      }
    }

    method AsyncUidOrSimpleExpunge(k: Continuation)
      requires Valid()
      modifies this
      ensures Valid() && Snapshot() == AsyncExpunge(old(Snapshot()), k)
    {
      if UIDPLUS in capabilities {
        var v := uids.Copy();
        var nothing := uids.Empty();
        if nothing {
          error := Some(EmptySequence);
        } else {
          AsyncCommand(UidExpunge(Seqs.Members(v)), k);
        }
      } else {
        AsyncCommand(Expunge, k);
      }
    }

    method AsyncLoginUser()
      requires Valid()
      modifies this
      ensures Valid() && Snapshot() == AsyncLogin(old(Snapshot()))
    {
      if IMAP4rev1 !in capabilities {
        error := Some(NoImap4rev1);
      } else if LOGINDISABLED in capabilities {
        error := Some(LoginDisabled);
      } else {
        capabilities, existing := {}, 0;
        AsyncCommand(Login, ToCapabilities);
      }
    }

    method AsyncSelect(k: Continuation)
      requires Valid()
      modifies this
      ensures Valid() && Snapshot() == Send(old(Snapshot()), Select(old(mailbox)), k)
    {
      AsyncCommand(Select(mailbox), k);
    }

    method AsyncFetch(k: Continuation)
      requires Valid()
      modifies this
      ensures Valid() && Snapshot() == Send(old(Snapshot()).(state := FETCHING), Fetch, k)
    {
      state := FETCHING;
      AsyncCommand(Fetch, k);
    }

    // -------------------------------------------------------------- tasks

    method DoQuit()
      requires Valid()
      modifies this
      ensures Valid() && Snapshot() == old(Snapshot()).(state := LOGGED_OUT)
    {
      state := LOGGED_OUT;
    }

    method ClearAndLogout(k: Continuation)
      requires Valid()
      modifies this, uids
      ensures Valid() && Snapshot() == LeaveTask(old(Snapshot()), k)
    {
      uids.Clear();
      point := BehindLogout;
      AsyncCommand(Logout, k);
    }

    /** The coroutine: resumes behind the command that was answered. */
    method Download()
      requires Valid()
      modifies this, uids
      ensures Valid() && Snapshot() == DoDownload(old(Snapshot()))
    {
      hide Send;
      hide LeaveTask;
      hide AsyncStore;
      hide AsyncExpunge;
      if point == Begin {
        point := BehindSelect;
        AsyncSelect(ToDownload);
      } else if point == BehindSelect && existing != 0 {
        point := BehindFetch;
        AsyncFetch(ToDownload);
      } else if point == BehindFetch && opts.del {
        point := BehindStore;
        AsyncStoreUids(ToDownload);
      } else if point == BehindStore {
        point := BehindExpunge;
        AsyncUidOrSimpleExpunge(ToDownload);
      } else if point == BehindLogout {
        point := Done;
        DoQuit();
      } else if point != Done {
        ClearAndLogout(ToDownload);
      }
    }

    method FetchHeaders()
      requires Valid()
      modifies this, uids
      ensures Valid() && Snapshot() == DoFetchHeader(old(Snapshot()))
    {
      hide Send;
      hide LeaveTask;
      if point == Begin {
        point := BehindSelect;
        AsyncSelect(ToFetchHeader);
      } else if point == BehindSelect {
        point := BehindFetch;
        AsyncFetch(ToFetchHeader);
      } else if point == BehindLogout {
        point := Done;
        DoQuit();
      } else if point != Done {
        ClearAndLogout(ToFetchHeader);
      }
    }

    method ListMailboxes()
      requires Valid()
      modifies this, uids
      ensures Valid() && Snapshot() == DoList(old(Snapshot()))
    {
      hide Send;
      hide LeaveTask;
      if point == Begin {
        point := BehindSelect;
        AsyncSelect(ToList);
      } else if point == BehindSelect {
        point := BehindFetch;
        AsyncCommand(List, ToList);
      } else if point == BehindLogout {
        point := Done;
        DoQuit();
      } else if point != Done {
        ClearAndLogout(ToList);
      }
    }

    method RunTask()
      requires Valid()
      modifies this, uids
      ensures Valid() && Snapshot() == DoTask(old(Snapshot()))
    {
      hide DoDownload;
      hide DoFetchHeader;
      hide DoList;
      if opts.task == DOWNLOAD {
        Download();
      } else if opts.task == FETCH_HEADER {
        FetchHeaders();
      } else {
        ListMailboxes();
      }
    }

    method DoPostLogin()
      requires Valid()
      modifies this, uids
      ensures Valid() && Snapshot() == PostLogin(old(Snapshot()))
    {
      hide Send;
      hide DoTask;
      if needCleanup { AsyncSelect(ToCleanupStore); } else { RunTask(); }
    }

    method FinishCleanup()
      requires Valid()
      modifies this, uids
      ensures Valid() && Snapshot() == CleanupFinish(old(Snapshot()))
    {
      hide DoTask;
      uids.Clear();
      mailbox := opts.mailbox;
      RunTask();
    }

    /** Calls a completion handler. */
    method Call(k: Continuation)
      requires Valid()
      modifies this, uids
      ensures Valid() && Snapshot() == Continue(old(Snapshot()), k)
    {
      hide Send;
      hide PostLogin;
      hide AsyncLogin;
      hide AsyncStore;
      hide AsyncExpunge;
      hide CleanupFinish;
      hide DoDownload;
      hide DoFetchHeader;
      hide DoList;
      if k == ToLogin {
        AsyncLoginUser();
      } else if k == ToCapabilities && capabilities == {} {
        AsyncCommand(Capabilities, ToPostLogin);
      } else if k == ToCapabilities || k == ToPostLogin {
        DoPostLogin();
      } else if k == ToCleanupStore {
        AsyncStoreUids(ToCleanupExpunge);
      } else if k == ToCleanupExpunge {
        AsyncUidOrSimpleExpunge(ToCleanupFinish);
      } else if k == ToCleanupFinish {
        FinishCleanup();
      } else if k == ToDownload {
        Download();
      } else if k == ToFetchHeader {
        FetchHeaders();
      } else {
        ListMailboxes();
      }
    }

    // -------------------------------------------------------------- callbacks

    method TimerCallback()
      requires Valid()
      modifies this
      ensures Valid() && Snapshot() == OnTimer(old(Snapshot()))
    {
      hide Send;
      hide AsyncLogin;
      if !timerFired {
        timerFired := true;
        if capabilities == {} { AsyncCommand(Capabilities, ToLogin); } else { AsyncLoginUser(); }
      }
    }

    method TaggedStatusEnd(ok: bool, tag: nat)
      requires Valid()
      modifies this, uids
      ensures Valid() && Snapshot() == OnTagged(old(Snapshot()), ok, tag)
    {
      hide Continue;
      if !ok {
        error := Some(CommandFailed);
      } else if tag !in pending {
        error := Some(UnknownTag);
      } else {
        var fn := pending[tag].handler;
        pending := pending - {tag};
        Call(fn);
      }
    }

    method SignalCallback()
      requires Valid()
      modifies this
      ensures Valid() && Snapshot() == OnSignal(old(Snapshot()))
    {
      if signaled {
        error := Some(SecondSignal);
      } else {
        signaled := true;
        DoQuit();
      }
    }

    method CapabilityBegin()
      requires Valid()
      modifies this
      ensures Valid() && Snapshot() == OnCapabilityBegin(old(Snapshot()))
    {
      capabilities := {};
    }

    method AddCapability(x: Capability)
      requires Valid()
      modifies this
      ensures Valid() && Snapshot() == OnCapability(old(Snapshot()), x)
    {
      capabilities := capabilities + {x};
    }

    method DataExists(n: nat)
      requires Valid()
      modifies this
      ensures Valid() && Snapshot() == OnExists(old(Snapshot()), n)
    {
      existing := n;
    }

    method StatusCodeUidValidity(n: nat)
      requires Valid()
      modifies this, uids
      ensures Valid() && Snapshot() == OnUidValidity(old(Snapshot()), n)
    {
      if uidvalidity != n { uids.Clear(); }
      uidvalidity := n;
    }

    method DataFetchBegin()
      requires Valid()
      modifies this
      ensures Valid() && Snapshot() == OnFetchBegin(old(Snapshot()))
    {
      if state == FETCHING { lastUid := 0; }
    }

    method DataFetchEnd()
      requires Valid()
      modifies this, uids
      ensures Valid() && Snapshot() == OnFetchEnd(old(Snapshot()))
    {
      if lastUid == 0 { error := Some(NoUid); } else { uids.PushId(lastUid); }
    }

    method Uid(n: nat)
      requires Valid()
      modifies this
      ensures Valid() && Snapshot() == OnUid(old(Snapshot()), n)
    {
      if state == FETCHING { lastUid := n; }
    }

    method SectionEmpty()
      requires Valid()
      modifies this
      ensures Valid() && Snapshot() == OnSectionEmpty(old(Snapshot()))
    {
      if state == FETCHING {
        if opts.task == FETCH_HEADER { error := Some(BodyInHeaderTask); } else { fullBody := true; }
      }
    }

    method BodySectionInner()
      requires Valid()
      modifies this
      ensures Valid() && Snapshot() == OnBodyInner(old(Snapshot()))
    {
      if state == FETCHING && fullBody {
        if tmpName { error := Some(TmpNotDelivered); } else { tmpName, toFile := true, true; }
      }
    }

    method BodySectionEnd(move: Move)
      requires Valid()
      modifies this
      ensures Valid() && Snapshot() == OnBodyEnd(old(Snapshot()), move)
    {
      if state == FETCHING && fullBody {
        toFile := false;
        if !tmpName {
          error := Some(NoTmpName);
        } else if move != Moved {
          error := Some(DiskError);
        } else {
          tmpName, fullBody := false, false;
        }
      }
    }

    /** One event of the loop; behind a throw there is none. */
    method Dispatch(e: Commands.Event)
      requires Valid()
      modifies this, uids
      ensures Valid() && Snapshot() == Commands.Handle(old(Snapshot()), e)
    {
      hide OnTimer;
      hide OnTagged;
      hide OnSignal;
      hide OnBodyEnd;
      hide OnBodyInner;
      hide OnSectionEmpty;
      hide OnFetchEnd;
      hide OnFetchBegin;
      hide OnUid;
      hide OnUidValidity;
      if error.None? {
        match e {
          case Timer => TimerCallback();
          case Signal => SignalCallback();
          case Tagged(ok, tag) => TaggedStatusEnd(ok, tag);
          case CapabilityBegin => CapabilityBegin();
          case CapabilityItem(x) => AddCapability(x);
          case Exists(n) => DataExists(n);
          case UidValidity(n) => StatusCodeUidValidity(n);
          case FetchBegin => DataFetchBegin();
          case Uid(n) => Uid(n);
          case SectionEmpty => SectionEmpty();
          case BodyInner => BodySectionInner();
          case BodyEnd(move) => BodySectionEnd(move);
          case FetchEnd => DataFetchEnd();
        }
      }
    }
  }
}
