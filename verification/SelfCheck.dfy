/** The check that every command passes before it is sent (imap/server_parser.rl, called from imap/client_writer.cc):
    which commands may follow each other. A command stands for its text, whose syntax is not looked at here. */
module SelfCheck {
  import opened Text
  import opened Tags
  import Client
  import Commands

  datatype ConnectionState = CLOSED | NOT_AUTHENTICATED | AUTHENTICATED | SELECTED | LOGGED_OUT

  /** The instantiations of the grammar; the final state accepts nothing more. */
  datatype Machine = NotAuthenticatedMachine | AuthenticatedMachine | SelectedMachine | FinalState

  datatype Verdict = Passed | LexError | ReadOnlyError | NotConnected

  predicate CommandAny(c: Command) { c.CAPABILITY? || c.LOGOUT? || c.NOOP? }

  predicate CommandNonauth(c: Command) { c.LOGIN? }

  predicate CommandAuth(c: Command)
  {
    c.APPEND? || c.CREATE? || c.DELETE? || c.EXAMINE? || c.LIST? || c.LSUB? || c.RENAME? || c.SELECT? || c.STATUS?
    || c.SUBSCRIBE? || c.UNSUBSCRIBE?
  }

  predicate CommandSelect(c: Command)
  {
    c.CHECK? || c.CLOSE? || c.EXPUNGE? || c.COPY? || c.FETCH? || c.STORE? || c.SEARCH?
    || c.UID_COPY? || c.UID_FETCH? || c.UID_STORE? || c.UID_SEARCH? || c.UID_EXPUNGE?
  }

  predicate InGrammar(m: Machine, c: Command)
  {
    match m
    case NotAuthenticatedMachine => CommandNonauth(c) || CommandAny(c)
    case AuthenticatedMachine => CommandAuth(c) || CommandAny(c)
    case SelectedMachine => CommandSelect(c) || CommandAuth(c) || CommandAny(c)
    case FinalState => false
  }

  /** Commands that change messages of the selected mailbox; STORE covers UID STORE. */
  predicate Writing(c: Command) { c.STORE? || c.UID_STORE? || c.EXPUNGE? || c.UID_EXPUNGE? }

  datatype State = State(state: ConnectionState, readOnly: bool, machine: Machine)

  const START := State(NOT_AUTHENTICATED, false, NotAuthenticatedMachine)

  /** The action at the end of a command's text. */
  function Leave(s: State, c: Command, granted: bool): State
  {
    match c
    case LOGIN => if granted then s.(state := AUTHENTICATED) else s
    case LOGOUT => s.(state := LOGGED_OUT)
    case EXAMINE => s.(state := SELECTED, readOnly := true)
    case SELECT => s.(state := SELECTED, readOnly := false)
    case CLOSE => s.(state := AUTHENTICATED)
    case _ => s
  }

  /** One command; `granted` is the answer of the login callback. */
  function Check(s: State, c: Command, granted: bool): (State, Verdict)
  {
    if !InGrammar(s.machine, c) then (s, LexError)
    else if Writing(c) && s.readOnly then (s, ReadOnlyError)
    else
      var s1 := Leave(s, c, granted);
      match s1.state
      case CLOSED => (s1, NotConnected)
      case NOT_AUTHENTICATED => (s1.(machine := NotAuthenticatedMachine), Passed)
      case AUTHENTICATED => (s1.(machine := AuthenticatedMachine), Passed)
      case SELECTED => (s1.(machine := SelectedMachine), Passed)
      case LOGGED_OUT => (s1.(machine := FinalState), Passed)
  }

  /** The parser object of the writer. */
  class Parser {
    var state: ConnectionState
    var readOnly: bool
    var machine: Machine

    ghost function Now(): State reads this { State(state, readOnly, machine) }

    constructor ()
      ensures Now() == START
    {
      state, readOnly, machine := NOT_AUTHENTICATED, false, NotAuthenticatedMachine;
    }

    method EndOfCommand(c: Command, granted: bool) returns (ok: bool)
      modifies this
      ensures ok == !(Writing(c) && old(readOnly))
      ensures Now() == if ok then Leave(old(Now()), c, granted) else old(Now())
    {
      ok := true;
      if c == LOGIN {
        if granted { state := AUTHENTICATED; }
      } else if c == LOGOUT {
        state := LOGGED_OUT;
      } else if c == EXAMINE {
        state, readOnly := SELECTED, true;
      } else if c == SELECT {
        state, readOnly := SELECTED, false;
      } else if c == CLOSE {
        state := AUTHENTICATED;
      } else if Writing(c) && readOnly {
        ok := false;
      }
    }

    method Read(c: Command, granted: bool) returns (v: Verdict)
      modifies this
      ensures (Now(), v) == Check(old(Now()), c, granted)
    {
      if !InGrammar(machine, c) { return LexError; }
      var ok := EndOfCommand(c, granted);
      if !ok { return ReadOnlyError; }
      if state == CLOSED { return NotConnected; }
      if state == NOT_AUTHENTICATED {
        machine := NotAuthenticatedMachine;
      } else if state == AUTHENTICATED {
        machine := AuthenticatedMachine;
      } else if state == SELECTED {
        machine := SelectedMachine;
      } else {
        machine := FinalState;
      }
      return Passed;
    }
  }

  // ---------------------------------------------------------------- command sequences

  /** The state after a sequence that passes; nothing when a command is refused. The writer's login callback always
      grants. */
  function After(s: State, cs: seq<Command>): Option<State>
  {
    if cs == [] then Some(s)
    else
      var before := After(s, cs[..|cs| - 1]);
      if before.None? then None
      else
        var (s', v) := Check(before.value, cs[|cs| - 1], true);
        if v.Passed? then Some(s') else None
  }

  predicate Accepts(cs: seq<Command>) { After(START, cs).Some? }

  lemma {:induction false} AfterConcat(s: State, a: seq<Command>, b: seq<Command>)
    ensures After(s, a + b) == if After(s, a).None? then None else After(After(s, a).value, b)
  {
    if b == [] {
      assert a + b == a;
    } else {
      AfterConcat(s, a, b[..|b| - 1]);
      assert (a + b)[..|a + b| - 1] == a + b[..|b| - 1];
    }
  }

  // ---------------------------------------------------------------- the state diagram of section 3 of RFC 3501

  datatype Phase = NotAuthenticated | Authenticated | Selected | Logout

  /** In which states a command is valid (section 6 of RFC 3501, section 2 of RFC 4315). */
  predicate ValidIn(c: Command, p: Phase)
  {
    match c
    case CAPABILITY | NOOP | LOGOUT => !p.Logout?
    case STARTTLS | AUTHENTICATE | LOGIN => p.NotAuthenticated?
    case SELECT | EXAMINE | CREATE | DELETE | RENAME | SUBSCRIBE | UNSUBSCRIBE | LIST | LSUB | STATUS | APPEND =>
      p.Authenticated? || p.Selected?
    case CHECK | CLOSE | EXPUNGE | SEARCH | FETCH | STORE | COPY => p.Selected?
    case UID_EXPUNGE | UID_COPY | UID_FETCH | UID_SEARCH | UID_STORE => p.Selected?
  }

  /** The arrows (4) to (7) of the diagram; `ok` says whether the command succeeds. */
  predicate Arrow(p: Phase, c: Command, ok: bool, p': Phase)
  {
    ValidIn(c, p)
    && if (c.LOGIN? || c.AUTHENTICATE?) && ok then p'.Authenticated?
       else if c.SELECT? || c.EXAMINE? then p' == if ok then Selected else Authenticated
       else if c.CLOSE? && ok then p'.Authenticated?
       else if c.LOGOUT? then p'.Logout?
       else p' == p
  }

  /** A path of successful commands from the state behind the greeting (1). */
  ghost predicate Path(ps: seq<Phase>, cs: seq<Command>)
  {
    |ps| == |cs| + 1 && ps[0].NotAuthenticated? && forall i | 0 <= i < |cs| :: Arrow(ps[i], cs[i], true, ps[i + 1])
  }

  // ---------------------------------------------------------------- the same, read off the history

  predicate MailboxCommand(c: Command) { c.SELECT? || c.EXAMINE? || c.CLOSE? }

  /** The latest SELECT, EXAMINE or CLOSE is `c`. */
  ghost predicate Latest(cs: seq<Command>, c: Command)
  {
    exists j :: 0 <= j < |cs| && cs[j] == c && forall k | j < k < |cs| :: !MailboxCommand(cs[k])
  }

  /** Whether `c` may come behind `cs`, by the history alone. */
  ghost predicate Permitted(cs: seq<Command>, c: Command)
  {
    && LOGOUT !in cs && !c.STARTTLS? && !c.AUTHENTICATE?
    && (c.LOGIN? ==> LOGIN !in cs)
    && (CommandAuth(c) ==> LOGIN in cs)
    && (CommandSelect(c) ==> Latest(cs, SELECT) || Latest(cs, EXAMINE))
    && (Writing(c) ==> Latest(cs, SELECT))
  }

  ghost predicate AllPermitted(cs: seq<Command>) { forall i | 0 <= i < |cs| :: Permitted(cs[..i], cs[i]) }

  function PhaseOf(s: State): Phase
  {
    match s.machine
    case NotAuthenticatedMachine => NotAuthenticated
    case AuthenticatedMachine => Authenticated
    case SelectedMachine => Selected
    case FinalState => Logout
  }

  /** What the parser's fields say about the history. */
  ghost predicate Remembers(s: State, cs: seq<Command>)
  {
    && (s.machine.NotAuthenticatedMachine? <==> s.state.NOT_AUTHENTICATED?)
    && (s.machine.AuthenticatedMachine? <==> s.state.AUTHENTICATED?)
    && (s.machine.SelectedMachine? <==> s.state.SELECTED?)
    && (s.machine.FinalState? <==> s.state.LOGGED_OUT?)
    && (s.machine.FinalState? <==> LOGOUT in cs)
    && (s.machine.NotAuthenticatedMachine? ==> LOGIN !in cs && !Latest(cs, SELECT) && !Latest(cs, EXAMINE))
    && (s.machine.AuthenticatedMachine? ==> LOGIN in cs && !Latest(cs, SELECT) && !Latest(cs, EXAMINE))
    && (s.machine.SelectedMachine? ==> LOGIN in cs)
    && (s.machine.SelectedMachine? && s.readOnly ==> Latest(cs, EXAMINE) && !Latest(cs, SELECT))
    && (s.machine.SelectedMachine? && !s.readOnly ==> Latest(cs, SELECT) && !Latest(cs, EXAMINE))
  }

  lemma LatestStep(cs: seq<Command>, c: Command, x: Command)
    requires MailboxCommand(x)
    ensures Latest(cs + [c], x) <==> if MailboxCommand(c) then c == x else Latest(cs, x)
  {
    var longer := cs + [c];
    assert longer[|cs|] == c;
    if !MailboxCommand(c) {
      if Latest(cs, x) {
        var j :| 0 <= j < |cs| && cs[j] == x && forall k | j < k < |cs| :: !MailboxCommand(cs[k]);
        assert longer[j] == x;
      }
      if Latest(longer, x) {
        var j :| 0 <= j < |longer| && longer[j] == x && forall k | j < k < |longer| :: !MailboxCommand(longer[k]);
        assert j < |cs|;
        assert forall k | j < k < |cs| :: longer[k] == cs[k];
      }
    }
  }

  lemma PassedMeans(s: State, c: Command)
    requires s.machine.FinalState? || !s.state.CLOSED?
    ensures Check(s, c, true).1.Passed? <==> InGrammar(s.machine, c) && !(Writing(c) && s.readOnly)
  {
    hide InGrammar;
    hide Writing;
    assert !s.state.CLOSED? ==> !Leave(s, c, true).state.CLOSED?;
    assert s.machine.FinalState? ==> !InGrammar(s.machine, c) by { GrammarMeans(s.machine, c); }
  }

  lemma GrammarMeans(m: Machine, c: Command)
    ensures m.FinalState? ==> !InGrammar(m, c)
    ensures m.NotAuthenticatedMachine? ==> (InGrammar(m, c) <==> c.LOGIN? || CommandAny(c))
    ensures m.AuthenticatedMachine? ==> (InGrammar(m, c) <==> CommandAuth(c) || CommandAny(c))
    ensures m.SelectedMachine? ==> (InGrammar(m, c) <==> CommandSelect(c) || CommandAuth(c) || CommandAny(c))
    ensures Writing(c) ==> CommandSelect(c)
    ensures CommandAny(c) ==> !CommandAuth(c) && !CommandSelect(c) && !c.LOGIN? && !c.STARTTLS? && !c.AUTHENTICATE?
    ensures CommandAuth(c) ==> !CommandSelect(c) && !c.LOGIN? && !c.STARTTLS? && !c.AUTHENTICATE?
    ensures CommandSelect(c) ==> !c.LOGIN? && !c.STARTTLS? && !c.AUTHENTICATE?
    ensures CommandAny(c) || CommandAuth(c) || CommandSelect(c) || c.LOGIN? || c.STARTTLS? || c.AUTHENTICATE?
  {
  }

  /** The parser passes a command exactly when the history permits it. */
  lemma CheckVerdict(s: State, cs: seq<Command>, c: Command)
    requires Remembers(s, cs)
    ensures Check(s, c, true).1.Passed? <==> Permitted(cs, c)
  {
    hide Latest;
    hide Check;
    hide InGrammar;
    hide Writing;
    hide CommandAny;
    hide CommandAuth;
    hide CommandSelect;
    PassedMeans(s, c);
    GrammarMeans(s.machine, c);
  }

  lemma CheckArrow(s: State, cs: seq<Command>, c: Command)
    requires Remembers(s, cs) && Check(s, c, true).1.Passed?
    ensures Arrow(PhaseOf(s), c, true, PhaseOf(Check(s, c, true).0))
  {
    hide Latest;
  }

  lemma CheckRemembers(s: State, cs: seq<Command>, c: Command)
    requires Remembers(s, cs) && Check(s, c, true).1.Passed?
    ensures Remembers(Check(s, c, true).0, cs + [c])
  {
    hide Latest;
    LatestStep(cs, c, SELECT);
    LatestStep(cs, c, EXAMINE);
  }

  lemma {:induction false} History(cs: seq<Command>)
    ensures After(START, cs).Some? <==> AllPermitted(cs)
    ensures After(START, cs).Some? ==> Remembers(After(START, cs).value, cs)
  {
    if cs != [] {
      hide Permitted;
      hide Remembers;
      hide Check;
      var init, c := cs[..|cs| - 1], cs[|cs| - 1];
      History(init);
      assert cs == init + [c];
      assert forall i | 0 <= i < |init| :: init[..i] == cs[..i];
      if After(START, init).Some? { CheckVerdict(After(START, init).value, init, c); }
      if After(START, cs).Some? { CheckRemembers(After(START, init).value, init, c); }
      assert AllPermitted(cs) <==> AllPermitted(init) && Permitted(init, c);
    }
  }

  /** The check lets a sequence of commands through if and only if the history permits each of them: nothing behind a
      LOGOUT, one LOGIN before all mailbox commands, message commands only in an open mailbox, and STORE, EXPUNGE and
      their UID forms only where the latest SELECT, EXAMINE or CLOSE is a SELECT. */
  lemma AcceptsExactly(cs: seq<Command>)
    ensures Accepts(cs) <==> AllPermitted(cs)
  {
    History(cs);
  }

  /** The phases that the parser goes through. */
  ghost function Phases(cs: seq<Command>): seq<Phase>
    requires Accepts(cs)
  {
    if cs == [] then [NotAuthenticated]
    else Phases(cs[..|cs| - 1]) + [PhaseOf(After(START, cs).value)]
  }

  lemma {:induction false} PhasesPath(cs: seq<Command>)
    requires Accepts(cs)
    ensures Path(Phases(cs), cs) && Phases(cs)[|cs|] == PhaseOf(After(START, cs).value)
  {
    hide Arrow;
    hide Check;
    hide PhaseOf;
    hide Remembers;
    hide AllPermitted;
    if cs == [] {
      assert PhaseOf(START) == NotAuthenticated by { StartPhase(); }
    } else {
      var init, c := cs[..|cs| - 1], cs[|cs| - 1];
      PhasesPath(init);
      History(init);
      CheckArrow(After(START, init).value, init, c);
    }
  }

  lemma StartPhase()
    ensures PhaseOf(START) == NotAuthenticated
  {
  }

  /** Every sequence that the check lets through is a path in the state diagram, and a command that changes messages
      is on it only in the selected state, opened by a SELECT. */
  lemma AcceptedIsPath(cs: seq<Command>)
    requires Accepts(cs)
    ensures exists ps: seq<Phase> :: Path(ps, cs)
              && forall i | 0 <= i < |cs| && Writing(cs[i]) :: ps[i].Selected? && Latest(cs[..i], SELECT)
  {
    PhasesPath(cs);
    History(cs);
    var ps := Phases(cs);
    forall i | 0 <= i < |cs| && Writing(cs[i]) ensures ps[i].Selected? && Latest(cs[..i], SELECT) {
      assert Permitted(cs[..i], cs[i]);
      assert Arrow(ps[i], cs[i], true, ps[i + 1]);
    }
  }

  /** Conversely the check refuses a path only for a write behind an EXAMINE or for the two commands that it does not
      know. */
  lemma {:induction false} PathAccepted(ps: seq<Phase>, cs: seq<Command>)
    requires Path(ps, cs) && STARTTLS !in cs && AUTHENTICATE !in cs
    requires forall i | 0 <= i < |cs| && Writing(cs[i]) :: !Latest(cs[..i], EXAMINE)
    ensures Accepts(cs) && ps[|cs|] == PhaseOf(After(START, cs).value)
  {
    if cs != [] {
      var init, c := cs[..|cs| - 1], cs[|cs| - 1];
      assert forall i | 0 <= i < |init| :: init[..i] == cs[..i] && init[i] == cs[i];
      PathAccepted(ps[..|cs|], init);
      History(init);
      hide Arrow;
      hide Check;
      hide Permitted;
      hide Remembers;
      assert Arrow(ps[|cs| - 1], c, true, ps[|cs|]);
      var s := After(START, init).value;
      ArrowPermitted(s, init, c, ps[|cs|]);
      CheckVerdict(s, init, c);
      CheckArrow(s, init, c);
      ArrowUnique(PhaseOf(s), c, ps[|cs|], PhaseOf(Check(s, c, true).0));
    }
  }

  lemma ArrowUnique(p: Phase, c: Command, p1: Phase, p2: Phase)
    requires Arrow(p, c, true, p1) && Arrow(p, c, true, p2)
    ensures p1 == p2
  {
  }

  lemma ArrowPermitted(s: State, cs: seq<Command>, c: Command, p: Phase)
    requires Remembers(s, cs) && Arrow(PhaseOf(s), c, true, p) && !c.STARTTLS? && !c.AUTHENTICATE?
    requires Writing(c) ==> !Latest(cs, EXAMINE)
    ensures Permitted(cs, c)
  {
    hide Latest;
    hide Writing;
    assert ValidIn(c, PhaseOf(s));
    assert !s.machine.SelectedMachine? ==> !CommandSelect(c);
    GrammarMeans(s.machine, c);
  }

  // ---------------------------------------------------------------- the commands of a download

  function Written(k: Commands.Kind): Command
  {
    match k
    case KCapability => CAPABILITY
    case KLogin => LOGIN
    case KSelect => SELECT
    case KFetch => FETCH
    case KStore => UID_STORE
    case KUidExpunge => UID_EXPUNGE
    case KExpunge => EXPUNGE
    case KList => LIST
    case KLogout => LOGOUT
  }

  function WrittenAll(ks: seq<Commands.Kind>): seq<Command> { seq(|ks|, i requires 0 <= i < |ks| => Written(ks[i])) }

  /** Message commands in a mailbox opened for writing leave the parser as it is. */
  lemma {:induction false} StaysSelected(s: State, cs: seq<Command>)
    requires s == State(SELECTED, false, SelectedMachine)
    requires forall i | 0 <= i < |cs| :: cs[i].FETCH? || cs[i].SELECT? || Writing(cs[i])
    ensures After(s, cs) == Some(s)
  {
    if cs != [] { StaysSelected(s, cs[..|cs| - 1]); }
  }

  lemma WordAccepted(w: Commands.Plan)
    requires Commands.ValidPlan(w)
    ensures Accepts(WrittenAll(Commands.Word(w)))
  {
    hide WrittenAll;
    hide After;
    var login, middle := Commands.LoginPart(w), Commands.CleanupPart(w) + Commands.TaskPart(w);
    WordParts(w);
    WrittenConcat(login + middle, [Commands.KLogout]);
    WrittenConcat(login, middle);
    WrittenOne(Commands.KLogout);
    LoginAccepted(w);
    MiddleAccepted(w);
    AfterConcat(START, WrittenAll(login), WrittenAll(middle));
    AfterConcat(START, WrittenAll(login) + WrittenAll(middle), [LOGOUT]);
    AfterOne(State(SELECTED, false, SelectedMachine), LOGOUT);
  }

  lemma WordParts(w: Commands.Plan)
    ensures Commands.Word(w) == Commands.LoginPart(w) + (Commands.CleanupPart(w) + Commands.TaskPart(w)) + [Commands.KLogout]
  {
    hide Commands.LoginPart;
    hide Commands.CleanupPart;
    hide Commands.TaskPart;
  }

  lemma WrittenConcat(a: seq<Commands.Kind>, b: seq<Commands.Kind>)
    ensures WrittenAll(a + b) == WrittenAll(a) + WrittenAll(b)
  {
  }

  lemma WrittenOne(k: Commands.Kind)
    ensures WrittenAll([k]) == [Written(k)]
  {
  }

  lemma AfterOne(s: State, c: Command)
    ensures After(s, [c]) == if Check(s, c, true).1.Passed? then Some(Check(s, c, true).0) else None
  {
    assert [c][..0] == [];
  }

  lemma MiddleAccepted(w: Commands.Plan)
    requires Commands.ValidPlan(w)
    ensures After(State(AUTHENTICATED, false, AuthenticatedMachine), WrittenAll(Commands.CleanupPart(w) + Commands.TaskPart(w)))
            == Some(State(SELECTED, false, SelectedMachine))
  {
    hide Check;
    hide After;
    var tail := MiddleShape(w);
    WrittenConcat([Commands.KSelect], tail);
    WrittenOne(Commands.KSelect);
    var s1, s2 := State(AUTHENTICATED, false, AuthenticatedMachine), State(SELECTED, false, SelectedMachine);
    AfterOne(s1, SELECT);
    assert Check(s1, SELECT, true) == (s2, Passed) by { SelectChecked(); }
    StaysSelected(s2, WrittenAll(tail));
    AfterConcat(s1, [SELECT], WrittenAll(tail));
  }

  lemma SelectChecked()
    ensures Check(State(AUTHENTICATED, false, AuthenticatedMachine), SELECT, true)
            == (State(SELECTED, false, SelectedMachine), Passed)
  {
  }

  predicate MessageKind(k: Commands.Kind) { k.KSelect? || k.KFetch? || k.KStore? || k.KUidExpunge? || k.KExpunge? }

  lemma MiddleShape(w: Commands.Plan) returns (tail: seq<Commands.Kind>)
    requires Commands.ValidPlan(w)
    ensures Commands.CleanupPart(w) + Commands.TaskPart(w) == [Commands.KSelect] + tail
    ensures forall i | 0 <= i < |tail| :: MessageKind(tail[i])
  {
    var middle := Commands.CleanupPart(w) + Commands.TaskPart(w);
    assert forall i | 0 <= i < |Commands.CleanupPart(w)| :: MessageKind(Commands.CleanupPart(w)[i]);
    assert forall i | 0 <= i < |Commands.TaskPart(w)| :: MessageKind(Commands.TaskPart(w)[i]);
    assert middle[0] == Commands.KSelect;
    tail := middle[1..];
  }

  lemma LoginAccepted(w: Commands.Plan)
    ensures After(START, WrittenAll(Commands.LoginPart(w))) == Some(State(AUTHENTICATED, false, AuthenticatedMachine))
  {
    var a, b := Commands.Optional(w.first, Commands.KCapability), Commands.Optional(w.second, Commands.KCapability);
    var s1 := State(AUTHENTICATED, false, AuthenticatedMachine);
    WrittenConcat(a + [Commands.KLogin], b);
    WrittenConcat(a, [Commands.KLogin]);
    AfterConcat(START, WrittenAll(a) + [LOGIN], WrittenAll(b));
    AfterConcat(START, WrittenAll(a), [LOGIN]);
    AfterOne(START, LOGIN);
    AfterOne(START, CAPABILITY);
    AfterOne(s1, CAPABILITY);
    assert WrittenAll([Commands.KLogin]) == [LOGIN] && WrittenAll([Commands.KCapability]) == [CAPABILITY];
  }

  /** No command of a download is ever refused by the check. */
  lemma DownloadPasses(opts: Client.Options, journal: Option<Client.Journal>, es: seq<Commands.Event>)
    requires opts.task.DOWNLOAD?
    ensures Accepts(WrittenAll(Commands.Kinds(Commands.Run(Client.Startup(opts, journal), es).line.sent)))
  {
    var sent := Commands.Kinds(Commands.Run(Client.Startup(opts, journal), es).line.sent);
    Commands.DownloadLanguage(opts, journal, es);
    var w: Commands.Plan :| Commands.ValidPlan(w) && sent <= Commands.Word(w);
    WordAccepted(w);
    var all := WrittenAll(Commands.Word(w));
    assert all == WrittenAll(sent) + all[|sent|..];
    AfterConcat(START, WrittenAll(sent), all[|sent|..]);
  }
}
