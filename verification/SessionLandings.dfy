/**
 When a request or notification of an old session lands in a newer one. deliverRequest and
 deliverNotification check the session under the mutex and send after releasing it, so a Reconnect
 or Close in between overtakes them. This is the only way.
 */
module SessionLandings {
  import opened Wrappers
  import opened Transport
  import opened SessionProtocol
  import opened SessionSafety
  import opened SessionRuns

  /** The reader of the current session is between its check and its send. */
  predicate Overtakes(s: State, st: Step) {
    (st.SwapConn? || st.CloseTransport?) && At(s, s.sh.sessionID).Offering?
  }

  predicate ByReader(st: Step, sid: nat) {
    OfReader(st) && st.sid == sid
  }

  /** Step `j` overtook the reader of `sid`, which has not moved since. */
  ghost predicate OvertakenAt(tr: seq<State>, steps: seq<Step>, i: nat, sid: nat, j: nat)
    requires |tr| == |steps| + 1 && i < |tr|
  {
    && j < i
    && Overtakes(tr[j], steps[j]) && tr[j].sh.sessionID == sid
    && forall k :: j < k < i ==> !ByReader(steps[k], sid)
  }

  lemma OthersLeaveReader(s: State, st: Step, s': State, sid: nat)
    requires Next(s, st) == Some(s') && !ByReader(st, sid) && At(s', sid) != Reading
    ensures At(s, sid) == At(s', sid)
  {
    WhoSteps(s, st, s');
    if OfReader(st) { ReaderFrame(s, st, s'); } else { OtherFrame(s, st, s'); }
    hide Next, NextCall, NextReader, NextReply, NextFlusher;
  }

  /** A reader that waits to send stays there while it does not move: a Reconnect only starts new readers. */
  lemma OfferWaits(s: State, st: Step, s': State, sid: nat)
    requires Inv(s) && Next(s, st) == Some(s') && !ByReader(st, sid) && At(s, sid).Offering?
    ensures At(s', sid) == At(s, sid)
  {
    WhoSteps(s, st, s');
    if OfReader(st) {
      ReaderFrame(s, st, s');
      hide Inv;
    } else {
      assert ConnInv(s);
      hide Inv, NextReader;
    }
    hide Next;
  }

  /** The check is made as the reader reaches its send. */
  lemma CheckedOnArrival(s: State, st: Step, s': State, sid: nat)
    requires Next(s, st) == Some(s') && ByReader(st, sid) && At(s', sid).Offering?
    ensures Current(s'.sh, sid)
  {
    WhoSteps(s, st, s');
    hide Next, NextCall, NextReply, NextFlusher;
  }

  /** Only Close and Reconnect make a check that would pass fail, and only Reconnect starts another session. */
  lemma CurrencyEnds(s: State, st: Step, s': State)
    requires Next(s, st) == Some(s')
    ensures Current(s.sh, s.sh.sessionID) && !Current(s'.sh, s.sh.sessionID) ==> st.SwapConn? || st.CloseTransport?
    ensures s'.sh.sessionID != s.sh.sessionID ==> st.SwapConn?
  {
    WhoSteps(s, st, s');
    hide Next;
    if OfCall(st) { hide NextFlusher, NextReader, NextReply; }
    else if OfReader(st) { hide NextFlusher, NextCall, NextReply; }
    else if OfReply(st) { hide NextFlusher, NextCall, NextReader; }
    else { hide NextCall, NextReader, NextReply; }
  }

  /** A session that is over stays over. */
  lemma StaysOver(s: State, st: Step, s': State, sid: nat)
    requires Inv(s) && Inv(s') && Next(s, st) == Some(s') && sid <= s.sh.sessionID && !Current(s.sh, sid)
    ensures sid <= s'.sh.sessionID && !Current(s'.sh, sid)
    ensures s.sh.sessionID != sid ==> s'.sh.sessionID != sid
  {
    Grows(s, st, s');
    assert s.sh.sessionID == |s.conns| && s'.sh.sessionID == |s'.conns|;
    hide Inv;
    WhoSteps(s, st, s');
    hide Next;
    if OfCall(st) { hide NextFlusher, NextReader, NextReply; }
    else if OfReader(st) { hide NextFlusher, NextCall, NextReply; }
    else if OfReply(st) { hide NextFlusher, NextCall, NextReader; }
    else { hide NextCall, NextReader, NextReply; }
  }

  // ----- Over whole runs -----

  lemma BothKeep(tr: seq<State>, steps: seq<Step>, i: nat)
    requires Run(tr, steps) && 0 < i < |tr| && Fits(tr[i])
    ensures Fits(tr[i - 1]) && Inv(tr[i - 1]) && Inv(tr[i])
    ensures |tr| == |steps| + 1 && Next(tr[i - 1], steps[i - 1]) == Some(tr[i])
  {
    Grows(tr[i - 1], steps[i - 1], tr[i]);
    RunInv(tr, steps, i - 1);
    RunInv(tr, steps, i);
    hide Inv, Next;
  }

  lemma NoneOffersAtStart(tr: seq<State>, steps: seq<Step>, sid: nat)
    requires Run(tr, steps)
    ensures |tr| == |steps| + 1 && !At(tr[0], sid).Offering?
  {
  }

  /** A reader that is about to send after the check failed to last was overtaken. */
  lemma {:induction false} WhoOvertook(tr: seq<State>, steps: seq<Step>, i: nat, sid: nat)
    requires Run(tr, steps) && i < |tr| && Fits(tr[i]) && At(tr[i], sid).Offering?
    ensures !Current(tr[i].sh, sid) ==> exists j: nat :: OvertakenAt(tr, steps, i, sid, j)
    ensures tr[i].sh.sessionID != sid ==> exists j: nat :: OvertakenAt(tr, steps, i, sid, j) && steps[j].SwapConn?
  {
    hide Run, Next, Inv, Fits;
    if i == 0 {
      NoneOffersAtStart(tr, steps, sid);
    } else {
      BothKeep(tr, steps, i);
      var s, st, s' := tr[i - 1], steps[i - 1], tr[i];
      if ByReader(st, sid) {
        CheckedOnArrival(s, st, s', sid);
      } else {
        OthersLeaveReader(s, st, s', sid);
        WhoOvertook(tr, steps, i - 1, sid);
        CurrencyEnds(s, st, s');
        if s.sh.sessionID == sid && (st.SwapConn? || st.CloseTransport?) {
          assert OvertakenAt(tr, steps, i, sid, i - 1);
        }
        forall j: nat | OvertakenAt(tr, steps, i - 1, sid, j) ensures OvertakenAt(tr, steps, i, sid, j) {}
        if !Current(s.sh, sid) {
          var j: nat :| OvertakenAt(tr, steps, i - 1, sid, j);
          assert OvertakenAt(tr, steps, i, sid, j);
        }
      }
    }
  }

  /** Until the overtaken reader moves it waits to send, and its session is over. */
  lemma {:induction false} OvertakenWaits(tr: seq<State>, steps: seq<Step>, i: nat, sid: nat, j: nat)
    requires Run(tr, steps) && i < |tr| && Fits(tr[i]) && OvertakenAt(tr, steps, i, sid, j)
    ensures At(tr[i], sid) == At(tr[j], sid) && At(tr[j], sid).Offering? && sid <= tr[i].sh.sessionID
        && !Current(tr[i].sh, sid)
    ensures steps[j].SwapConn? ==> tr[i].sh.sessionID != sid
    decreases i
  {
    hide Run, Next, Inv, Fits;
    BothKeep(tr, steps, i);
    if j == i - 1 {
      OvertakingEnds(tr[j], steps[j], tr[i]);
    } else {
      assert OvertakenAt(tr, steps, i - 1, sid, j) && !ByReader(steps[i - 1], sid);
      OvertakenWaits(tr, steps, i - 1, sid, j);
      hide OvertakenAt, Overtakes, ByReader, Current;
      OfferWaits(tr[i - 1], steps[i - 1], tr[i], sid);
      StaysOver(tr[i - 1], steps[i - 1], tr[i], sid);
    }
  }

  lemma OvertakingEnds(s: State, st: Step, s': State)
    requires Inv(s) && Inv(s') && Next(s, st) == Some(s') && Overtakes(s, st)
    ensures At(s', s.sh.sessionID) == At(s, s.sh.sessionID) && s.sh.sessionID <= s'.sh.sessionID
        && !Current(s'.sh, s.sh.sessionID)
    ensures st.SwapConn? ==> s'.sh.sessionID != s.sh.sessionID
  {
    OfferWaits(s, st, s', s.sh.sessionID);
    assert s.sh.sessionID == |s.conns| && s'.sh.sessionID == |s'.conns|;
    hide Inv, NextCall, NextReader, NextReply;
  }

  /**
   An inbound request or notification is sent on although the check would fail by now exactly when
   a Reconnect or Close overtook its reader between check and send; and it lands in another session
   than its own exactly when a Reconnect did.
   */
  lemma StaleLandings(tr: seq<State>, steps: seq<Step>, i: nat)
    requires Run(tr, steps) && i < |steps| && Fits(tr[i]) && steps[i].Offer?
    ensures !Current(tr[i].sh, steps[i].sid) <==> exists j: nat :: OvertakenAt(tr, steps, i, steps[i].sid, j)
    ensures tr[i].sh.sessionID != steps[i].sid <==>
        exists j: nat :: OvertakenAt(tr, steps, i, steps[i].sid, j) && steps[j].SwapConn?
  {
    var sid := steps[i].sid;
    assert Next(tr[i], steps[i]) == Some(tr[i + 1]);
    assert At(tr[i], sid).Offering? by { WhoSteps(tr[i], steps[i], tr[i + 1]); }
    hide Run, Next, OvertakenAt;
    WhoOvertook(tr, steps, i, sid);
    forall j: nat | OvertakenAt(tr, steps, i, sid, j)
      ensures !Current(tr[i].sh, sid) && (steps[j].SwapConn? ==> tr[i].sh.sessionID != sid)
    {
      OvertakenWaits(tr, steps, i, sid, j);
    }
  }

  /** Only requests and notifications get as far as a send. */
  predicate Sendable(pc: ReaderPc) {
    && (pc.Routing? ==> !pc.frame.Malformed?)
    && (pc.Offering? ==> pc.frame.InRequest? || pc.frame.InNote?)
  }

  lemma StepSendable(s: State, st: Step, s': State, sid: nat)
    requires Next(s, st) == Some(s') && Sendable(At(s, sid))
    ensures Sendable(At(s', sid))
  {
    if ByReader(st, sid) {
      WhoSteps(s, st, s');
      hide Next, NextCall, NextReply, NextFlusher;
    } else if At(s', sid) != Reading {
      OthersLeaveReader(s, st, s', sid);
      hide Next;
    }
  }

  lemma {:induction false} RunSendable(tr: seq<State>, steps: seq<Step>, i: nat, sid: nat)
    requires Run(tr, steps) && i < |tr|
    ensures Sendable(At(tr[i], sid))
  {
    if i == 0 {
    } else {
      RunSendable(tr, steps, i - 1, sid);
      StepSendable(tr[i - 1], steps[i - 1], tr[i], sid);
    }
  }

  /** What the send of session `sid` adds for the consumers of requests and notifications. */
  predicate Lands(s: State, sid: nat, s': State) {
    match At(s, sid)
    case Offering(InNote(note)) => s'.notes == s.notes + [(sid, note)] && s'.requests == s.requests
    case Offering(InRequest(rid)) =>
      s'.notes == s.notes && |s'.requests| == |s.requests| + 1
      && s'.requests[..|s.requests|] == s.requests
      && s'.requests[|s.requests|].session == sid && s'.requests[|s.requests|].rid == rid
    case _ => false
  }

  /**
   Being overtaken is enough: the send is possible at once and at any time until the reader gives up,
   and it lands.
   */
  lemma OvertakenLands(tr: seq<State>, steps: seq<Step>, i: nat, sid: nat, j: nat)
    requires Run(tr, steps) && i < |tr| && Fits(tr[i]) && OvertakenAt(tr, steps, i, sid, j)
    ensures Next(tr[i], Offer(sid)).Some? && Lands(tr[i], sid, Next(tr[i], Offer(sid)).value)
    ensures !Current(tr[i].sh, sid)
  {
    OvertakenWaits(tr, steps, i, sid, j);
    RunSendable(tr, steps, i, sid);
    hide Run, NextCall, NextFlusher, NextReply;
  }

  /** Session 1's reader has passed the check of deliverNotification and is about to send. */
  lemma NoteChecked() returns (tr: seq<State>, steps: seq<Step>)
    ensures Run(tr, steps)
    ensures tr[|steps|] == Start(Some(Conn(1)), true).(readers := map[1 := Reader(Conn(1), Offering(InNote("late")))])
  {
    hide NextCall, NextReply, NextFlusher;
    steps := [ReadFrame(1, Some(InNote("late"))), CheckSession(1), Route(1)];
    var s0 := Start(Some(Conn(1)), true);
    var s1 := Next(s0, steps[0]).value;
    var s2 := Next(s1, steps[1]).value;
    tr := [s0, s1, s2, Next(s2, steps[2]).value];
  }

  /** That check is not held during the send, so the note can land after a Reconnect. */
  lemma StaleNoteCanLand() returns (tr: seq<State>, steps: seq<Step>)
    ensures Run(tr, steps) && Fits(tr[|steps|])
    ensures tr[|steps|].sh.sessionID == 2 && tr[|steps|].notes == [(1, "late")]
  {
    var tr0, steps0 := NoteChecked();
    var s := tr0[|steps0|];
    var s1 := SwapStep(s, Conn(2)).value;
    var s2 := OfferStep(s1, 1).value;
    hide NextCall, NextReply;
    Extend(tr0, steps0, SwapConn(Conn(2)), s1);
    Extend(tr0 + [s1], steps0 + [SwapConn(Conn(2))], Offer(1), s2);
    tr, steps := tr0 + [s1] + [s2], steps0 + [SwapConn(Conn(2))] + [Offer(1)];
  }
}
