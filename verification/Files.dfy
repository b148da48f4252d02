/** The whole program with its files: what the theorems about messages mean for the maildir on disk. */
module Files {
  import opened Text
  import opened Client
  import opened World
  import Commands
  import Safety
  import D = Delivery
  import M = Maildir

  /** The world with the maildir of the running process; `filed` is the file that each delivered message went to, `current`
      the one being written, `used` are all files ever made. */
  datatype Joint = Joint(w: World, m: M.State, current: nat, filed: map<Key, nat>, used: set<nat>)

  /** An action with what it means for the maildir: the process identifier of a new process, time, random number and file
      of a new name, flags and system calls of a delivery, and the disk as others have left it meanwhile. */
  datatype Deed = Deed(a: Action, pid: nat, time: nat, random: nat, file: nat, flags: seq<M.ImapFlag>, steps: nat, disk: M.Disk)

  /** The client handles a full body. */
  predicate Handles(w: World) { Running(w) && w.client.value.state.FETCHING? && w.client.value.body.fullBody }

  /** The file has an entry in `new` or in `cur`. */
  ghost predicate InMaildir(seen: map<M.Entry, nat>, file: nat)
  {
    exists e :: e in seen && !e.dir.Tmp? && seen[e] == file
  }

  /** Others may rename the files of the maildir, but they do not remove them, nor touch the temporary file in use. */
  ghost predicate Respects(m: M.State, d: M.Disk)
  {
    && (forall file | InMaildir(m.disk.seen, file) :: InMaildir(d.seen, file))
    && (m.name != "" && M.Entry(M.Tmp, m.name) in m.disk.seen ==>
          M.Entry(M.Tmp, m.name) in d.seen && d.seen[M.Entry(M.Tmp, m.name)] == m.disk.seen[M.Entry(M.Tmp, m.name)])
  }

  ghost predicate Possible(j: Joint, d: Deed)
  {
    && Enabled(j.w, d.a) && Disciplined(j.w, d.a) && d.file !in j.used && Respects(j.m, d.disk)
    && (d.a.FetchBody? && Handles(j.w) ==>
          var (m', r) := D.Deliver(j.m, M.Letters(d.flags), d.steps); d.a.move == D.Seen(j.m, m', r))
  }

  /** A new process has a new maildir object on the same disk. */
  function Opened(j: Joint, d: Deed): M.State { M.State(d.pid, j.m.host, "", "", 0, j.m.disk) }

  function Created(j: Joint, d: Deed, w': World): Joint
  {
    var (m', r) := M.CreateTmpName(j.m, d.time, d.random);
    if !r.Created? then j.(w := w', m := m')
    else
      j.(w := w', m := m'.(disk := m'.disk.(seen := m'.disk.seen[M.Entry(M.Tmp, m'.name) := d.file])),
         current := d.file, used := j.used + {d.file})
  }

  function Moved(j: Joint, d: Deed, w': World): Joint
    requires j.w.response.Open?
  {
    var (m', r) := D.Deliver(j.m, M.Letters(d.flags), d.steps);
    j.(w := w', m := m', filed := if D.Seen(j.m, m', r).NotLinked? then j.filed else j.filed[j.w.response.key := j.current])
  }

  ghost function NextJoint(j: Joint, d: Deed): Joint
    requires Possible(j, d)
  {
    var w' := Next(j.w, d.a);
    if d.a.Start? then j.(w := w', m := Opened(j, d))
    else if d.a.FetchInner? && Handles(j.w) then Created(j, d, w')
    else if d.a.FetchBody? && Handles(j.w) then Moved(j, d, w')
    else j.(w := w', m := j.m.(disk := d.disk))
  }

  ghost predicate JointBehaviour(js: seq<Joint>, ds: seq<Deed>)
  {
    && |js| == |ds| + 1 && Initial(js[0].w) && js[0].filed == map[] && js[0].current in js[0].used
    && forall i | 0 <= i < |ds| :: Possible(js[i], ds[i]) && js[i + 1] == NextJoint(js[i], ds[i])
  }

  // ---------------------------------------------------------------- the invariant

  /** Every delivered message has a file of its own in the maildir. */
  ghost predicate Filed(j: Joint)
  {
    && (forall k | k in j.w.delivered :: k in j.filed && InMaildir(j.m.disk.seen, j.filed[k]))
    && (forall k, k' | k in j.filed && k' in j.filed && j.filed[k] == j.filed[k'] :: k == k')
    && j.filed.Values <= j.used && j.current in j.used
  }

  /** The pending name is that of the file being written, which is not one of the delivered ones. */
  ghost predicate Writing(j: Joint)
  {
    Running(j.w) ==>
      && D.Coupled(j.w.client.value, j.m)
      && (j.m.name != "" ==>
            && M.Entry(M.Tmp, j.m.name) in j.m.disk.seen && j.m.disk.seen[M.Entry(M.Tmp, j.m.name)] == j.current
            && j.current !in j.filed.Values)
  }

  lemma SendBody(c: Core, ok: bool, tag: nat)
    ensures OnTagged(c, ok, tag).body == c.body && OnTimer(c).body == c.body
  {
    hide Continue;
    if tag in c.line.pending {
      Commands.ContinueKeeps(c.(line := c.line.(pending := c.line.pending - {tag})), c.line.pending[tag].handler);
    }
  }

  /** Everything but the bodies of fetching clients. */
  ghost predicate Plain(w: World, w': World)
  {
    w'.delivered == w.delivered
    && (Running(w') ==> Running(w) && w'.client.value.body.tmpName == w.client.value.body.tmpName)
  }

  lemma PlainSend(w: World, a: Action)
    requires Enabled(w, a) && (a.Timer? || a.Tagged?)
    ensures Plain(w, Next(w, a))
  {
    hide OnTagged;
    hide OnTimer;
    hide Receive;
    hide Ordered;
    var c := w.client.value;
    SendBody(c, if a.Tagged? then a.ok else true, if a.Tagged? then a.tag else 0);
    var c' := if a.Timer? then OnTimer(c) else OnTagged(c, a.ok, a.tag);
    var w1 := (if a.Timer? then w else Noticed(w, a.ok, a.tag)).(client := Some(c'));
    if c'.line.sent != [] {
      Safety.ReceiveBound(w1, c'.line.sent[|c'.line.sent| - 1]);
      ReceiveClient(w1, c'.line.sent[|c'.line.sent| - 1]);
    }
  }

  lemma ReceiveClient(w: World, cmd: Command)
    ensures Receive(w, cmd).client == w.client
  {
  }

  lemma PlainRead(w: World, a: Action)
    requires Enabled(w, a) && !((a.FetchInner? || a.FetchBody?) && Handles(w))
    requires a.Signal? || a.CapabilityBegin? || a.CapabilityItem? || a.Exists? || a.UidValidity? || a.FetchOpen? || a.FetchUid?
             || a.FetchSection? || a.FetchInner? || a.FetchBody? || a.FetchClose?
    ensures Plain(w, Next(w, a))
  {
    hide Deleting;
  }

  lemma PlainElse(w: World, a: Action)
    requires Enabled(w, a)
    requires a.Exit? || a.Kill? || a.Perform? || a.PerformPart? || a.Add? || a.Remove? || a.Flag? || a.Unflag? || a.ChangeValidity?
    ensures Plain(w, Next(w, a))
  {
    hide KeysIn;
  }

  lemma PlainKeeps(j: Joint, d: Deed)
    requires Filed(j) && Writing(j) && Possible(j, d) && !d.a.Start? && !((d.a.FetchInner? || d.a.FetchBody?) && Handles(j.w))
    ensures Filed(NextJoint(j, d)) && Writing(NextJoint(j, d))
  {
    hide Next;
    hide Enabled;
    hide Disciplined;
    hide InMaildir;
    if d.a.Timer? || d.a.Tagged? {
      PlainSend(j.w, d.a);
    } else if d.a.Exit? || d.a.Kill? || d.a.Perform? || d.a.PerformPart? || d.a.Add? || d.a.Remove? || d.a.Flag? || d.a.Unflag?
              || d.a.ChangeValidity? {
      PlainElse(j.w, d.a);
    } else {
      PlainRead(j.w, d.a);
    }
  }

  lemma StartKeeps(j: Joint, d: Deed)
    requires Filed(j) && Possible(j, d) && d.a.Start?
    ensures Filed(NextJoint(j, d)) && Writing(NextJoint(j, d))
  {
    hide InMaildir;
  }

  lemma CreateKeeps(j: Joint, d: Deed)
    requires Filed(j) && Writing(j) && Possible(j, d) && d.a.FetchInner? && Handles(j.w)
    ensures Filed(NextJoint(j, d)) && Writing(NextJoint(j, d))
  {
    var c := j.w.client.value;
    D.BodyInner(c, j.m, d.time, d.random);
    var j' := NextJoint(j, d);
    hide M.TmpName;
    assert j'.w.delivered == j.w.delivered;
    forall file | InMaildir(j.m.disk.seen, file) ensures InMaildir(j'.m.disk.seen, file) {
      var e :| e in j.m.disk.seen && !e.dir.Tmp? && j.m.disk.seen[e] == file;
      assert e in j'.m.disk.seen && j'.m.disk.seen[e] == file;
    }
  }

  /** What a delivery makes of the files: those in `new` and `cur` stay, and the current one joins them if it is linked. */
  ghost predicate Delivers(j: Joint, d: Deed, m': M.State, move: Move)
    requires j.w.client.Some?
  {
    && (forall file | InMaildir(j.m.disk.seen, file) :: InMaildir(m'.disk.seen, file))
    && (j.m.name != "" && !move.NotLinked? ==> InMaildir(m'.disk.seen, j.current))
    && (move.Moved? ==> m'.name == "") && (OnBodyEnd(j.w.client.value, move).error.None? ==> m'.name == "")
    && D.Coupled(OnBodyEnd(j.w.client.value, move), m')
  }

  lemma MoveDelivers(j: Joint, d: Deed)
    requires Writing(j) && Possible(j, d) && d.a.FetchBody? && Handles(j.w)
    ensures Delivers(j, d, D.Deliver(j.m, M.Letters(d.flags), d.steps).0, d.a.move)
  {
    hide Next;
    hide Enabled;
    hide Disciplined;
    var fs := d.flags;
    D.BodyEnd(j.w.client.value, j.m, fs, d.steps);
    var (m', r) := D.Deliver(j.m, M.Letters(fs), d.steps);
    hide D.Deliver;
    hide D.Destination;
    hide M.Letters;
    forall file | InMaildir(j.m.disk.seen, file) ensures InMaildir(m'.disk.seen, file) {
      var e :| e in j.m.disk.seen && !e.dir.Tmp? && j.m.disk.seen[e] == file;
      assert e in m'.disk.seen && m'.disk.seen[e] == file;
    }
    if j.m.name != "" && !d.a.move.NotLinked? {
      var b := D.Destination(j.m, M.Letters(fs));
      assert b in m'.disk.seen && m'.disk.seen[b] == j.current && !b.dir.Tmp?;
    }
  }

  lemma MoveKeeps(j: Joint, d: Deed)
    requires Filed(j) && Writing(j) && Possible(j, d) && d.a.FetchBody? && Handles(j.w)
    ensures Filed(NextJoint(j, d)) && Writing(NextJoint(j, d))
  {
    MoveDelivers(j, d);
    MoveWorld(j.w, d.a.move);
    var j' := NextJoint(j, d);
    MovedJoint(j, d);
    hide NextJoint;
    hide Possible;
    hide D.Deliver;
    hide M.Letters;
    hide Next;
    hide OnBodyEnd;
    MoveFiled(j, d, j');
  }

  lemma MovedJoint(j: Joint, d: Deed)
    requires Possible(j, d) && d.a.FetchBody? && Handles(j.w)
    ensures NextJoint(j, d) == j.(w := Next(j.w, d.a), m := D.Deliver(j.m, M.Letters(d.flags), d.steps).0,
              filed := if d.a.move.NotLinked? then j.filed else j.filed[j.w.response.key := j.current])
  {
    hide Next;
    hide D.Deliver;
    hide M.Letters;
    hide D.Seen;
  }

  lemma MoveFiled(j: Joint, d: Deed, j': Joint)
    requires j.w.response.Open? && Filed(j) && Writing(j) && Handles(j.w) && d.a.FetchBody? && Delivers(j, d, j'.m, d.a.move)
    requires j'.current == j.current && j'.used == j.used
    requires j'.filed == if d.a.move.NotLinked? then j.filed else j.filed[j.w.response.key := j.current]
    requires j'.w.client == Some(OnBodyEnd(j.w.client.value, d.a.move))
    requires j'.w.delivered == if j.w.client.value.body.tmpName && !d.a.move.NotLinked?
                               then j.w.delivered + {j.w.response.key} else j.w.delivered
    requires j.m.name == "" ==> d.a.move.NotLinked?
    ensures Filed(j') && Writing(j')
  {
    hide InMaildir;
    hide OnBodyEnd;
  }

  lemma MoveWorld(w: World, move: Move)
    requires Enabled(w, FetchBody(move)) && Handles(w)
    ensures var w' := Next(w, FetchBody(move));
            && w'.client == Some(OnBodyEnd(w.client.value, move))
            && w'.delivered == if w.client.value.body.tmpName && !move.NotLinked? then w.delivered + {w.response.key} else w.delivered
  {
  }

  lemma {:induction false} JointInv(js: seq<Joint>, ds: seq<Deed>, i: nat)
    requires JointBehaviour(js, ds) && i < |js|
    ensures Filed(js[i]) && Writing(js[i])
  {
    hide Filed;
    hide Writing;
    hide NextJoint;
    hide Possible;
    if i == 0 {
      JointStart(js[0]);
    } else {
      JointInv(js, ds, i - 1);
      var j, d := js[i - 1], ds[i - 1];
      assert Possible(j, d) && js[i] == NextJoint(j, d);
      if d.a.Start? {
        StartKeeps(j, d);
      } else if d.a.FetchInner? && Handles(j.w) {
        CreateKeeps(j, d);
      } else if d.a.FetchBody? && Handles(j.w) {
        MoveKeeps(j, d);
      } else {
        PlainKeeps(j, d);
      }
    }
  }

  lemma JointStart(j: Joint)
    requires Initial(j.w) && j.filed == map[] && j.current in j.used
    ensures Filed(j) && Writing(j)
  {
  }

  lemma JointWorlds(js: seq<Joint>, ds: seq<Deed>)
    requires JointBehaviour(js, ds)
    ensures Behaviour(seq(|js|, i requires 0 <= i < |js| => js[i].w), seq(|ds|, i requires 0 <= i < |ds| => ds[i].a))
  {
    hide Next;
    hide Enabled;
    hide Disciplined;
    hide D.Deliver;
    forall i | 0 <= i < |ds|
      ensures Enabled(js[i].w, ds[i].a) && Disciplined(js[i].w, ds[i].a) && js[i + 1].w == Next(js[i].w, ds[i].a)
    {
      assert Possible(js[i], ds[i]) && js[i + 1] == NextJoint(js[i], ds[i]);
    }
  }

  /** Down to the files: in every behaviour of the program with its maildir, each message that a UID EXPUNGE of ours
      removed has a file of its own in `new` or `cur`. */
  lemma RemovedHaveFiles(js: seq<Joint>, ds: seq<Deed>, i: nat, k: Key)
    requires JointBehaviour(js, ds) && i < |js| && k in js[i].w.removed
    ensures k in js[i].filed && InMaildir(js[i].m.disk.seen, js[i].filed[k])
    ensures forall k' | k' in js[i].filed && k' != k :: js[i].filed[k'] != js[i].filed[k]
  {
    JointInv(js, ds, i);
    JointWorlds(js, ds);
    Safety.NothingLost(seq(|js|, i requires 0 <= i < |js| => js[i].w), seq(|ds|, i requires 0 <= i < |ds| => ds[i].a), i);
  }
}
