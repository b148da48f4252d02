/** From the client's UIDs to the text of a UID command and back. */
module OrderText {
  import opened Text
  import opened SequenceSet
  import opened SequenceText
  import opened World
  import Safety

  /** The text of a canonical list of UIDs below 2^32-1 denotes these UIDs, in whatever mailbox. */
  lemma TextDenotes(v: seq<Interval>, top: nat)
    requires Canonical(v) && v != [] && forall n | n in Members(v) :: 0 < n < MAX32
    ensures var r := Read(SetText(v)); r.Some? && SetMembers(r.value, top) == Members(v)
  {
    hide ItemText;
    hide Step;
    hide Close;
    forall i | 0 <= i < |v| ensures 0 < v[i].first <= v[i].last < MAX32 {
      EndsAreMembers(v, i);
    }
    FeedSet(v, |v|);
    assert Items(v)[..|v|] == Items(v);
    ItemsExact(v, top);
  }

  /** In every behaviour, the text sent for any UID STORE or UID EXPUNGE names, to the grammar of the server side, only
      messages that are in the maildir: what `copy` and `write_sequence_set` made of the UIDs is read back as exactly
      these UIDs, and each of them was delivered under the UIDVALIDITY in force. */
  lemma OrderTextSafe(ws: seq<World>, acts: seq<Action>, i: nat, o: Order, v: seq<Interval>, top: nat)
    requires Behaviour(ws, acts) && i < |ws| && o in ws[i].stores + ws[i].expunges
    requires Canonical(v) && v != [] && Members(v) == o.uids
    ensures var r := Read(SetText(v));
            && r.Some? && SetMembers(r.value, top) == o.uids
            && forall u | u in SetMembers(r.value, top) :: Key(o.mailbox, o.validity, u) in ws[i].delivered
  {
    hide Next;
    hide Enabled;
    hide Disciplined;
    hide SetText;
    hide Read;
    Safety.OrdersBacked(ws, acts, i, o);
    TextDenotes(v, top);
  }
}
