/** Command tags (class Tag of imap/client_writer.cc) and the dispatch of tagged responses to continuations
    (imap/client_base.cc). */
module Tags {
  import opened Text

  datatype Command =
    | CAPABILITY | NOOP | LOGOUT
    | STARTTLS | AUTHENTICATE | LOGIN
    | SELECT | EXAMINE | CREATE | DELETE | RENAME | SUBSCRIBE | UNSUBSCRIBE | LIST | LSUB | STATUS | APPEND
    | CHECK | CLOSE | EXPUNGE | SEARCH | FETCH | STORE | COPY
    | UID_EXPUNGE | UID_COPY | UID_FETCH | UID_SEARCH | UID_STORE

  // ---------------------------------------------------------------- the text of a tag

  function Zeros(n: nat): string { seq(n, _ => '0') }

  /** `setw(width) << setfill('0')`: pads on the left, never cuts. */
  function Padded(width: nat, s: string): string { if |s| < width then Zeros(width - |s|) + s else s }

  function TagText(prefix: string, width: nat, n: nat): string { prefix + Padded(width, Decimal(n)) }

  lemma {:induction false} ValueIgnoresZeros(k: nat, s: string)
    ensures Value(Zeros(k) + s) == Value(s)
  {
    if s == [] {
      if k > 0 {
        ValueIgnoresZeros(k - 1, []);
        assert (Zeros(k) + [])[..k - 1] == Zeros(k - 1) + [];
      }
    } else {
      var init := s[..|s| - 1];
      assert (Zeros(k) + s)[..k + |s| - 1] == Zeros(k) + init;
      ValueIgnoresZeros(k, init);
    }
  }

  /** The number that a tag was made from. */
  function Serial(prefix: string, tag: string): nat { if |prefix| <= |tag| then Value(tag[|prefix|..]) else 0 }

  lemma SerialOfTag(prefix: string, width: nat, n: nat)
    ensures Serial(prefix, TagText(prefix, width, n)) == n
  {
    var d := Decimal(n);
    assert TagText(prefix, width, n)[|prefix|..] == Padded(width, d);
    ValueOfDecimal(n);
    if |d| < width { ValueIgnoresZeros(width - |d|, d); }
  }

  /** A tag is the prefix and the number, in exactly `width` digits unless the number has more. */
  lemma TagShape(prefix: string, width: nat, n: nat)
    ensures var d := TagText(prefix, width, n)[|prefix|..];
            && TagText(prefix, width, n) == prefix + d && AllDigits(d) && Value(d) == n
            && |d| == if |Decimal(n)| < width then width else |Decimal(n)|
  {
    var d := Decimal(n);
    DecimalDigits(n);
    SerialOfTag(prefix, width, n);
    assert TagText(prefix, width, n)[|prefix|..] == Padded(width, d);
  }

  // ---------------------------------------------------------------- the generator

  datatype TagState = TagState(
    prefix: string, width: nat, value: nat, buffer: string,
    table: map<string, Command>, active: set<Command>)

  datatype Outcome = Issued(tag: string) | StillActive | AlreadyInserted | Popped | UnknownTag | CommandUnknown

  function Init(prefix: string, width: nat): TagState { TagState(prefix, width, 0, "", map[], {}) }

  /** Writing at position 0 of a string stream that is not emptied: a longer old content keeps its tail. */
  function Overwrite(buffer: string, text: string): string
  {
    if |buffer| <= |text| then text else text + buffer[|text|..]
  }

  function NextTag(s: TagState, c: Command): (TagState, Outcome)
  {
    if c in s.active then (s, StillActive)
    else
      var tag := Overwrite(s.buffer, TagText(s.prefix, s.width, s.value));
      var s1 := s.(active := s.active + {c}, buffer := tag);
      if tag in s.table then (s1, AlreadyInserted)
      else (s1.(table := s.table[tag := c], value := s.value + 1), Issued(tag))
  }

  function PopTag(s: TagState, tag: string): (TagState, Outcome)
  {
    if tag !in s.table then (s, UnknownTag)
    else if s.table[tag] !in s.active then (s, CommandUnknown)
    else (s.(active := s.active - {s.table[tag]}, table := s.table - {tag}), Popped)
  }

  /** The object of the source; its methods compute the functions above in place. */
  class Tag {
    var prefix: string
    var width: nat
    var value: nat
    var buffer: string
    var table: map<string, Command>
    var active: set<Command>

    ghost function State(): TagState reads this { TagState(prefix, width, value, buffer, table, active) }

    constructor (prefix: string, width: nat)
      ensures State() == Init(prefix, width)
    {
      this.prefix, this.width, value, buffer, table, active := prefix, width, 0, "", map[], {};
    }

    method Next(c: Command) returns (r: Outcome)
      modifies this
      ensures (State(), r) == NextTag(old(State()), c)
    {
      if c in active { return StillActive; }
      active := active + {c};
      buffer := Overwrite(buffer, TagText(prefix, width, value));
      var tag := buffer;
      if tag in table { return AlreadyInserted; }
      table := table[tag := c];
      value := value + 1;
      return Issued(tag);
    }

    method Pop(tag: string) returns (r: Outcome)
      modifies this
      ensures (State(), r) == PopTag(old(State()), tag)
    {
      if tag !in table { return UnknownTag; }
      if table[tag] !in active { return CommandUnknown; }
      active := active - {table[tag]};
      table := table - {tag};
      return Popped;
    }
  }

  /** The tags in use are earlier ones, and they stand one to one for the active commands. */
  ghost predicate Bijective(s: TagState)
  {
    && s.active == s.table.Values
    && (forall t, t' | t in s.table && t' in s.table && s.table[t] == s.table[t'] :: t == t')
  }

  ghost predicate Earlier(s: TagState, t: string) { Serial(s.prefix, t) < s.value }

  ghost predicate TagInv(s: TagState)
  {
    && Bijective(s)
    && (forall t | t in s.table :: Earlier(s, t))
    && |s.buffer| <= |TagText(s.prefix, s.width, s.value)|
  }

  /** Overwriting from position 0 never leaves a stale tail, and decimal width never shrinks. */
  lemma NextText(s: TagState)
    requires TagInv(s)
    ensures var tag := Overwrite(s.buffer, TagText(s.prefix, s.width, s.value));
            && tag == TagText(s.prefix, s.width, s.value)
            && Serial(s.prefix, tag) == s.value
            && |tag| <= |TagText(s.prefix, s.width, s.value + 1)|
  {
    SerialOfTag(s.prefix, s.width, s.value);
    WidthMonotone(s.value, s.value + 1);
  }

  lemma NextKeepsInv(s: TagState, c: Command)
    requires TagInv(s)
    ensures var (s', r) := NextTag(s, c);
            && TagInv(s') && s'.prefix == s.prefix && s'.width == s.width
            && (if c in s.active then r == StillActive && s' == s
                else r.Issued? && Serial(s.prefix, r.tag) == s.value && r.tag !in s.table
                     && s'.value == s.value + 1 && s'.table == s.table[r.tag := c])
  {
    NextText(s);
    if c !in s.active {
      var (s', r) := NextTag(s, c);
      assert s'.table[r.tag] == c;
      forall d | d in s.active ensures d in s'.table.Values {
        var t :| t in s.table && s.table[t] == d;
        assert s'.table[t] == d;
      }
    }
  }

  lemma PopKeepsInv(s: TagState, tag: string)
    requires TagInv(s)
    ensures var (s', r) := PopTag(s, tag);
            && TagInv(s') && s'.prefix == s.prefix && s'.width == s.width && s'.value == s.value
            && (if tag in s.table then r == Popped && s'.table == s.table - {tag} else r == UnknownTag && s' == s)
  {
    var s' := PopTag(s, tag).0;
    if tag in s.table {
      forall d | d in s'.active ensures d in s'.table.Values {
        var t :| t in s.table && s.table[t] == d;
        assert s'.table[t] == d;
      }
    }
  }

  // ---------------------------------------------------------------- every interleaving

  datatype TagEvent = NextOf(c: Command) | PopOf(tag: string)

  function Apply(s: TagState, e: TagEvent): (TagState, Outcome)
  {
    match e case NextOf(c) => NextTag(s, c) case PopOf(t) => PopTag(s, t)
  }

  /** One call in a state that satisfies the invariant: which outcomes are possible and what they mean. */
  lemma ApplyFacts(s: TagState, e: TagEvent)
    requires TagInv(s)
    ensures var (s', r) := Apply(s, e);
            && TagInv(s') && s'.prefix == s.prefix && s'.width == s.width && s.value <= s'.value
            && r != AlreadyInserted && r != CommandUnknown
            && (r == StillActive ==> e.NextOf? && e.c in s.active)
            && (r.Issued? ==> Serial(s.prefix, r.tag) == s.value < s'.value)
  {
    match e case NextOf(c) => NextKeepsInv(s, c); case PopOf(t) => PopKeepsInv(s, t);
  }

  function Final(s: TagState, es: seq<TagEvent>): TagState
  {
    if es == [] then s else Apply(Final(s, es[..|es| - 1]), es[|es| - 1]).0
  }

  /** The outcome of the call at position `i` of an interleaving. */
  function OutcomeAt(s: TagState, es: seq<TagEvent>, i: nat): Outcome
    requires i < |es|
  {
    Apply(Final(s, es[..i]), es[i]).1
  }

  lemma {:induction false} FinalInv(prefix: string, width: nat, es: seq<TagEvent>)
    ensures TagInv(Final(Init(prefix, width), es))
    ensures Final(Init(prefix, width), es).prefix == prefix && Final(Init(prefix, width), es).width == width
  {
    if es != [] {
      FinalInv(prefix, width, es[..|es| - 1]);
      ApplyFacts(Final(Init(prefix, width), es[..|es| - 1]), es[|es| - 1]);
    }
  }

  lemma {:induction false} ValueGrows(prefix: string, width: nat, es: seq<TagEvent>, i: nat)
    requires i <= |es|
    ensures Final(Init(prefix, width), es[..i]).value <= Final(Init(prefix, width), es).value
    decreases |es| - i
  {
    if i == |es| {
      assert es[..i] == es;
    } else {
      ValueGrows(prefix, width, es, i + 1);
      assert es[..i + 1][..i] == es[..i];
      FinalInv(prefix, width, es[..i]);
      ApplyFacts(Final(Init(prefix, width), es[..i]), es[i]);
    }
  }

  lemma OutcomeFacts(prefix: string, width: nat, es: seq<TagEvent>, i: nat)
    requires i < |es|
    ensures var s0 := Init(prefix, width);
            var s := Final(s0, es[..i]);
            var r := OutcomeAt(s0, es, i);
            && r != AlreadyInserted && r != CommandUnknown
            && (r == StillActive ==> es[i].NextOf? && es[i].c in s.active)
            && (r.Issued? ==> Serial(prefix, r.tag) == s.value < Final(s0, es[..i + 1]).value)
  {
    FinalInv(prefix, width, es[..i]);
    ApplyFacts(Final(Init(prefix, width), es[..i]), es[i]);
    assert es[..i + 1][..i] == es[..i];
  }

  /** Over any interleaving of `next` and `pop`: the two internal consistency errors never occur, a `next` fails only
      for a command that is still active, and no two issued tags are equal. */
  lemma TagsNeverRepeat(prefix: string, width: nat, es: seq<TagEvent>, i: nat, j: nat)
    requires i < j < |es|
    ensures var s0 := Init(prefix, width);
            && OutcomeAt(s0, es, i) != AlreadyInserted && OutcomeAt(s0, es, i) != CommandUnknown
            && (OutcomeAt(s0, es, i) == StillActive ==> es[i].NextOf? && es[i].c in Final(s0, es[..i]).active)
            && (OutcomeAt(s0, es, i).Issued? && OutcomeAt(s0, es, j).Issued? ==>
                  OutcomeAt(s0, es, i).tag != OutcomeAt(s0, es, j).tag)
  {
    OutcomeFacts(prefix, width, es, i);
    OutcomeFacts(prefix, width, es, j);
    ValueGrows(prefix, width, es[..j], i + 1);
    assert es[..j][..i + 1] == es[..i + 1];
  }

  // ---------------------------------------------------------------- dispatch of tagged responses

  /** `waiting` maps a tag to the continuation stored for it; `ran` lists the continuations called so far with the tag
      of the response that called them; `stored` is what was ever registered. */
  datatype Base = Base(
    tags: TagState, waiting: map<string, nat>, ran: seq<(string, nat)>, stored: map<string, nat>, failed: bool)

  datatype BaseEvent = Send(c: Command, k: nat) | Tagged(ok: bool, tag: string)

  function BaseInit(): Base { Base(Init("A", 3), map[], [], map[], false) }

  /** One command function, or one tagged response. Every throw ends the run. A continuation that sends commands is
      the event after the response that called it. */
  function BaseStep(b: Base, e: BaseEvent): Base
  {
    if b.failed then b
    else match e
      case Send(c, k) =>
        var (tags, r) := NextTag(b.tags, c);
        if !r.Issued? then b.(tags := tags, failed := true)
        else b.(tags := tags, waiting := b.waiting[r.tag := k], stored := b.stored[r.tag := k])
      case Tagged(ok, tag) =>
        if !ok || tag !in b.waiting then b.(failed := true)
        else
          var (tags, r) := PopTag(b.tags, tag);
          if r != Popped then b.(tags := tags, failed := true)
          else b.(tags := tags, waiting := b.waiting - {tag}, ran := b.ran + [(tag, b.waiting[tag])])
  }

  function BaseRun(es: seq<BaseEvent>): Base
  {
    if es == [] then BaseInit() else BaseStep(BaseRun(es[..|es| - 1]), es[|es| - 1])
  }

  ghost predicate Dispatched(b: Base)
  {
    && TagInv(b.tags)
    && (forall t | t in b.stored :: Earlier(b.tags, t))
    && (forall t | t in b.waiting :: t in b.stored && b.stored[t] == b.waiting[t])
    && (forall i | 0 <= i < |b.ran| ::
          b.ran[i].0 in b.stored && b.ran[i].1 == b.stored[b.ran[i].0] && b.ran[i].0 !in b.waiting)
    && (forall i, j | 0 <= i < j < |b.ran| :: b.ran[i].0 != b.ran[j].0)
    && (!b.failed ==> b.waiting.Keys == b.tags.table.Keys)
    && b.waiting.Keys <= b.tags.table.Keys
  }

  lemma RegisterKeeps(b: Base, tags: TagState, tag: string, c: Command, k: nat)
    requires Dispatched(b) && !b.failed
    requires TagInv(tags) && tags.prefix == b.tags.prefix && tags.value == b.tags.value + 1
    requires Serial(b.tags.prefix, tag) == b.tags.value && tags.table == b.tags.table[tag := c]
    ensures Dispatched(b.(tags := tags, waiting := b.waiting[tag := k], stored := b.stored[tag := k]))
  {
    assert tag !in b.stored;
  }

  lemma SendKeeps(b: Base, c: Command, k: nat)
    requires Dispatched(b)
    ensures Dispatched(BaseStep(b, Send(c, k)))
  {
    if !b.failed {
      NextKeepsInv(b.tags, c);
      var (tags, r) := NextTag(b.tags, c);
      if r.Issued? { RegisterKeeps(b, tags, r.tag, c, k); }
    }
  }

  lemma TaggedKeeps(b: Base, ok: bool, tag: string)
    requires Dispatched(b)
    ensures Dispatched(BaseStep(b, Tagged(ok, tag)))
  {
    PopKeepsInv(b.tags, tag);
  }

  lemma {:induction false} RunDispatched(es: seq<BaseEvent>)
    ensures Dispatched(BaseRun(es))
  {
    if es != [] {
      RunDispatched(es[..|es| - 1]);
      var b := BaseRun(es[..|es| - 1]);
      match es[|es| - 1] case Send(c, k) => SendKeeps(b, c, k); case Tagged(ok, tag) => TaggedKeeps(b, ok, tag);
    }
  }

  // ---------------------------------------------------------------- which events run a continuation

  /** The tags that the server answered with OK, in order. */
  function OkTags(es: seq<BaseEvent>): seq<string>
  {
    if es == [] then []
    else OkTags(es[..|es| - 1]) + if es[|es| - 1].Tagged? && es[|es| - 1].ok then [es[|es| - 1].tag] else []
  }

  function RanTags(b: Base): seq<string> { seq(|b.ran|, i requires 0 <= i < |b.ran| => b.ran[i].0) }

  /** The number of events before the first throw. */
  function Live(es: seq<BaseEvent>): (n: nat)
    ensures n <= |es|
  {
    if es == [] then 0 else if BaseRun(es).failed then Live(es[..|es| - 1]) else |es|
  }

  /** A command or a response throws exactly if the command is still active, or the response is not OK or its tag is not
      outstanding. */
  lemma FailsExactly(b: Base, e: BaseEvent)
    requires Dispatched(b) && !b.failed
    ensures BaseStep(b, e).failed <==>
              match e case Send(c, _) => c in b.tags.active case Tagged(ok, tag) => !ok || tag !in b.tags.table
  {
    match e {
      case Send(c, _) => NextKeepsInv(b.tags, c);
      case Tagged(_, tag) => PopKeepsInv(b.tags, tag);
    }
  }

  /** One event calls a continuation only if it is an OK that does not throw. */
  lemma StepRuns(b: Base, e: BaseEvent)
    requires Dispatched(b)
    ensures b.failed ==> BaseStep(b, e) == b
    ensures RanTags(BaseStep(b, e))
            == RanTags(b) + if e.Tagged? && e.ok && !BaseStep(b, e).failed then [e.tag] else []
  {
    hide NextTag;
    hide PopTag;
    if !b.failed { FailsExactly(b, e); }
  }

  lemma {:induction false} LiveMeans(es: seq<BaseEvent>)
    ensures forall j | 0 <= j <= |es| :: BaseRun(es[..j]).failed <==> j > Live(es)
  {
    hide BaseStep;
    assert es[..|es|] == es;
    if es != [] {
      var init, e := es[..|es| - 1], es[|es| - 1];
      LiveMeans(init);
      RunDispatched(init);
      StepRuns(BaseRun(init), e);
      assert init[..|init|] == init;
      forall j | 0 <= j < |es| ensures es[..j] == init[..j] {}
    }
  }

  /** Up to the first throw, the continuations that ran are those of the OKs, one for each, in their order; behind it
      nothing runs any more. */
  lemma {:induction false} RanExactly(es: seq<BaseEvent>)
    ensures RanTags(BaseRun(es)) == OkTags(es[..Live(es)])
  {
    hide BaseStep;
    assert es[..|es|] == es;
    if es != [] {
      var init, e := es[..|es| - 1], es[|es| - 1];
      RanExactly(init);
      LiveMeans(init);
      RunDispatched(init);
      StepRuns(BaseRun(init), e);
      assert init[..|init|] == init;
      assert init[..Live(init)] == es[..Live(init)];
      RunStatus(init, e);
    }
  }

  /** A response other than OK throws. */
  lemma RunStatus(init: seq<BaseEvent>, e: BaseEvent)
    ensures e.Tagged? && !e.ok ==> BaseStep(BaseRun(init), e).failed
  {
  }

  /** In every run: up to the first throw, the tags with a continuation are exactly the outstanding tags; the continuations
      that ran are those of the tags answered with OK, each once, in the order of the OKs, and each is the one stored for
      its tag. */
  lemma DispatchCorrect(es: seq<BaseEvent>)
    ensures var b := BaseRun(es);
            && RanTags(b) == OkTags(es[..Live(es)])
            && (!b.failed ==> b.waiting.Keys == b.tags.table.Keys)
            && (forall i | 0 <= i < |b.ran| :: b.ran[i].0 in b.stored && b.ran[i].1 == b.stored[b.ran[i].0])
            && (forall i, j | 0 <= i < j < |b.ran| :: b.ran[i].0 != b.ran[j].0)
  {
    RanExactly(es);
    RunDispatched(es);
  }

  /** A response other than OK ends the run: nothing is called, registered or popped any more. */
  lemma {:induction false} NoEndsRun(es: seq<BaseEvent>, i: nat)
    requires i < |es| && es[i].Tagged? && !es[i].ok
    ensures BaseRun(es) == BaseRun(es[..i]).(failed := true)
  {
    hide BaseStep;
    var n := |es| - 1;
    var b := BaseRun(es[..n]);
    NoEndsStep(b, es[n]);
    if i < n {
      NoEndsRun(es[..n], i);
      assert es[..n][..i] == es[..i];
    }
  }

  lemma NoEndsStep(b: Base, e: BaseEvent)
    ensures b.failed ==> BaseStep(b, e) == b
    ensures e.Tagged? && !e.ok ==> BaseStep(b, e) == b.(failed := true)
  {
  }

  /** The object of imap/client_base.cc; `ran` and `stored` are its history. */
  class ClientBase {
    const tags: Tag
    var waiting: map<string, nat>
    var failed: bool
    ghost var ran: seq<(string, nat)>
    ghost var stored: map<string, nat>

    ghost function Now(): Base reads this, tags { Base(tags.State(), waiting, ran, stored, failed) }

    constructor ()
      ensures Now() == BaseInit() && fresh(tags)
    {
      tags := new Tag("A", 3);
      waiting, failed := map[], false;
      ran, stored := [], map[];
    }

    /** Any of the command functions; `fn` names the continuation. */
    method AsyncCommand(c: Command, fn: nat) returns (tag: Option<string>)
      requires !failed
      modifies this, tags
      ensures Now() == BaseStep(old(Now()), Send(c, fn))
      ensures tag.Some? <==> !failed
      ensures tag.Some? ==> NextTag(old(tags.State()), c).1 == Issued(tag.value)
    {
      hide NextTag;
      var r := tags.Next(c);
      if !r.Issued? {
        failed := true;
        return None;
      }
      waiting := waiting[r.tag := fn];
      stored := stored[r.tag := fn];
      tag := Some(r.tag);
    }

    /** Returns the continuation to call. */
    method TaggedStatusEnd(ok: bool, tag: string) returns (fn: Option<nat>)
      requires !failed
      modifies this, tags
      ensures Now() == BaseStep(old(Now()), Tagged(ok, tag))
      ensures fn == if failed then None else Some(old(waiting)[tag])
    {
      hide PopTag;
      fn := None;
      if !ok || tag !in waiting {
        failed := true;
        return;
      }
      var r := tags.Pop(tag);
      if r != Popped {
        failed := true;
        return;
      }
      fn := Some(waiting[tag]);
      ran := ran + [(tag, waiting[tag])];
      waiting := waiting - {tag};
    }
  }
}
