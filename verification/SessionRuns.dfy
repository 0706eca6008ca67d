/** What holds over whole runs of the session protocol. */
module SessionRuns {
  import opened Wrappers
  import opened Transport
  import opened SessionProtocol
  import opened SessionSafety

  // ----- Correlation -----

  /** A response frame, and the session whose reader decoded it. */
  datatype Evidence = Read(sid: nat, id: nat, body: Body)

  function ReadIn(st: Step): set<Evidence> {
    if st.ReadFrame? && st.input.Some? && st.input.value.InReply? then
        {Read(st.sid, st.input.value.id, st.input.value.body)}
    else {}
  }

  function ReadsOf(steps: seq<Step>): set<Evidence> {
    if steps == [] then {} else ReadsOf(steps[..|steps| - 1]) + ReadIn(steps[|steps| - 1])
  }

  predicate Genuine(seen: set<Evidence>, res: CallResult) {
    res.Answer? ==> Read(res.session, res.id, res.body) in seen
  }

  predicate FrameGenuine(seen: set<Evidence>, sid: nat, frame: Frame) {
    frame.InReply? ==> Read(sid, frame.id, frame.body) in seen
  }

  predicate PcGenuine(seen: set<Evidence>, sid: nat, pc: ReaderPc) {
    && (pc.Decoded? || pc.Routing? ==> FrameGenuine(seen, sid, pc.frame))
    && (pc.Delivering? ==> Genuine(seen, pc.res))
  }

  predicate CallGenuine(seen: set<Evidence>, call: Call) {
    && (call.buf.Some? ==> Genuine(seen, call.buf.value))
    && (call.phase.Returned? ==> Genuine(seen, call.phase.res))
  }

  ghost predicate Provenance(s: State, seen: set<Evidence>) {
    && (forall sid :: sid in s.readers ==> PcGenuine(seen, sid, s.readers[sid].pc))
    && (forall c :: 0 <= c < |s.calls| ==> CallGenuine(seen, s.calls[c]))
  }

  lemma GotoKeepsProvenance(s: State, seen: set<Evidence>, sid: nat, pc: ReaderPc, s': State)
    requires Provenance(s, seen) && PcGenuine(seen, sid, pc)
    requires sid in s.readers && s'.readers == Goto(s, sid, pc).readers && s'.calls == s.calls
    ensures Provenance(s', seen)
  {
  }

  lemma SendKeepsProvenance(s: State, seen: set<Evidence>, c: nat, v: CallResult)
    requires Provenance(s, seen) && Send(s, c, v).Some? && Genuine(seen, v)
    ensures Provenance(Send(s, c, v).value, seen)
  {
  }

  /** Where a reader goes next, it carries nothing it has not read. */
  lemma NextPcGenuine(s: State, seen: set<Evidence>, st: Step, s': State)
    requires NextReader(s, st) == Some(s') && st.sid in s.readers && st.sid in s'.readers
    requires PcGenuine(seen, st.sid, s.readers[st.sid].pc)
    ensures PcGenuine(seen + ReadIn(st), st.sid, s'.readers[st.sid].pc)
  {
  }

  lemma ReaderStepKeepsProvenance(s: State, seen: set<Evidence>, st: Step, s': State)
    requires Provenance(s, seen) && NextReader(s, st) == Some(s')
    ensures Provenance(s', seen + ReadIn(st))
  {
    var after := seen + ReadIn(st);
    ReaderFrame(s, st, s');
    assert Provenance(s, after);
    assert PcGenuine(seen, st.sid, s.readers[st.sid].pc);
    NextPcGenuine(s, seen, st, s');
    hide Provenance;
    if st.DeliverReply? {
      var pc := At(s, st.sid);
      SendKeepsProvenance(s, after, pc.ch, pc.res);
      GotoKeepsProvenance(Send(s, pc.ch, pc.res).value, after, st.sid, SessionProtocol.Reading, s');
    } else {
      hide NextReader;
      GotoKeepsProvenance(s, after, st.sid, s'.readers[st.sid].pc, s');
    }
  }

  lemma CallStepKeepsProvenance(s: State, seen: set<Evidence>, st: Step, s': State)
    requires Provenance(s, seen) && NextCall(s, st) == Some(s')
    ensures Provenance(s', seen)
  {
  }

  lemma FlusherStepKeepsProvenance(s: State, seen: set<Evidence>, st: Step, s': State)
    requires Provenance(s, seen) && NextFlusher(s, st) == Some(s')
    ensures Provenance(s', seen)
  {
    if st.FlushSend? { SendKeepsProvenance(s, seen, st.ch, Failed(s.flushers[st.f].err)); }
  }

  lemma ReplyStepKeepsProvenance(s: State, seen: set<Evidence>, st: Step, s': State)
    requires Provenance(s, seen) && NextReply(s, st) == Some(s')
    ensures Provenance(s', seen)
  {
  }

  lemma StepKeepsProvenance(s: State, seen: set<Evidence>, st: Step, s': State)
    requires Provenance(s, seen) && Next(s, st) == Some(s')
    ensures Provenance(s', seen + ReadIn(st))
  {
    WhoSteps(s, st, s');
    hide Next, NextCall, NextReader, NextReply, NextFlusher, Provenance;
    assert !OfReader(st) ==> seen + ReadIn(st) == seen;
    if OfCall(st) { CallStepKeepsProvenance(s, seen, st, s'); }
    else if OfReader(st) { ReaderStepKeepsProvenance(s, seen, st, s'); }
    else if OfReply(st) { ReplyStepKeepsProvenance(s, seen, st, s'); }
    else { FlusherStepKeepsProvenance(s, seen, st, s'); }
  }

  lemma {:induction false} RunProvenance(tr: seq<State>, steps: seq<Step>, i: nat)
    requires Run(tr, steps) && i < |tr|
    ensures Provenance(tr[i], ReadsOf(steps[..i]))
  {
    if i == 0 {
    } else {
      RunProvenance(tr, steps, i - 1);
      assert steps[..i][..i - 1] == steps[..i - 1];
      StepKeepsProvenance(tr[i - 1], ReadsOf(steps[..i - 1]), steps[i - 1], tr[i]);
    }
  }

  lemma {:induction false} ReadSomewhere(steps: seq<Step>, r: Evidence)
    requires r in ReadsOf(steps)
    ensures exists j :: 0 <= j < |steps| && steps[j] == ReadFrame(r.sid, Some(InReply(r.id, r.body)))
  {
    var n := |steps| - 1;
    if r in ReadIn(steps[n]) {
      assert steps[n] == ReadFrame(r.sid, Some(InReply(r.id, r.body)));
    } else {
      ReadSomewhere(steps[..n], r);
      var j :| 0 <= j < n && steps[..n][j] == ReadFrame(r.sid, Some(InReply(r.id, r.body)));
      assert steps[j] == ReadFrame(r.sid, Some(InReply(r.id, r.body)));
    }
  }

  lemma AnsweredOnItsConn(tr: seq<State>, steps: seq<Step>, i: nat, c: nat)
    requires Run(tr, steps) && i < |tr| && Fits(tr[i])
    requires c < |tr[i].calls| && tr[i].calls[c].phase.Returned?
    ensures 1 <= tr[i].calls[c].session <= |tr[i].conns|
        && tr[i].calls[c].conn == tr[i].conns[tr[i].calls[c].session - 1]
    ensures Answers(tr[i].calls[c].phase.res, tr[i].calls[c])
  {
    RunInv(tr, steps, i);
    hide Run, TableInv, ConnInv, LinearInv;
  }

  lemma ReadInPrefix(steps: seq<Step>, i: nat, e: Evidence)
    requires i <= |steps| && e in ReadsOf(steps[..i])
    ensures exists j :: 0 <= j < i && steps[j] == ReadFrame(e.sid, Some(InReply(e.id, e.body)))
  {
    ReadSomewhere(steps[..i], e);
    var j :| 0 <= j < i && steps[..i][j] == ReadFrame(e.sid, Some(InReply(e.id, e.body)));
    assert steps[j] == steps[..i][j];
  }

  /**
   In every reachable state, a response a call returned carries that call's id, was decoded
   earlier in the run by the reader of the session the call registered in, and that session's
   connection is the one the call wrote its request to, even though ids restart on Reconnect.
   */
  lemma Correlation(tr: seq<State>, steps: seq<Step>, i: nat, c: nat)
    requires Run(tr, steps) && i < |tr| && Fits(tr[i])
    requires c < |tr[i].calls| && tr[i].calls[c].phase.Returned? && tr[i].calls[c].phase.res.Answer?
    ensures var call := tr[i].calls[c];
            && call.phase.res.id == call.id
            && 1 <= call.session <= |tr[i].conns|
            && call.phase.res.conn == call.conn == tr[i].conns[call.session - 1]
            && exists j :: 0 <= j < i
                && steps[j] == ReadFrame(call.session, Some(InReply(call.id, call.phase.res.body)))
  {
    var call := tr[i].calls[c];
    AnsweredOnItsConn(tr, steps, i, c);
    RunProvenance(tr, steps, i);
    assert CallGenuine(ReadsOf(steps[..i]), call);
    hide Run, Provenance, ReadsOf, Fits;
    ReadInPrefix(steps, i, Read(call.session, call.id, call.phase.res.body));
  }

  // ----- Ownership of reply channels -----

  /**
   A reply channel gets at most one value and has at most one holder. A holder's send finds the
   buffer empty, so it never blocks and the `default` branches of the three flush loops are dead.
   */
  lemma LinearOwnership(tr: seq<State>, steps: seq<Step>, i: nat)
    requires Run(tr, steps) && i < |tr| && Fits(tr[i])
    ensures forall c :: 0 <= c < |tr[i].calls| ==> tr[i].calls[c].sends <= 1
    ensures forall h, k, c: nat :: Holds(tr[i], h, c) && Holds(tr[i], k, c) ==> h == k
    ensures forall sid :: At(tr[i], sid).Delivering? ==> Next(tr[i], DeliverReply(sid)).Some?
    ensures forall f: nat, ch: nat :: Next(tr[i], FlushDefault(f, ch)).None?
    ensures forall f: nat, ch: nat ::
        f < |tr[i].flushers| && ch in tr[i].flushers[f].todo && tr[i].flushers[f].toCancel.None? ==>
              Next(tr[i], FlushSend(f, ch)).Some?
  {
    RunInv(tr, steps, i);
    var s := tr[i];
    forall sid | At(s, sid).Delivering? ensures Next(s, DeliverReply(sid)).Some? {
      assert Holds(s, Carrier(sid), At(s, sid).ch);
      hide Inv;
    }
    forall f: nat, ch: nat ensures Next(s, FlushDefault(f, ch)).None? {
      if f < |s.flushers| && ch in s.flushers[f].todo { assert Holds(s, Detached(f), ch); }
      hide Inv;
    }
    forall f: nat, ch: nat | f < |s.flushers| && ch in s.flushers[f].todo && s.flushers[f].toCancel.None?
      ensures Next(s, FlushSend(f, ch)).Some?
    {
      assert Holds(s, Detached(f), ch);
      hide Inv;
    }
  }

  // ----- The pending table -----

  /** What the table contains, and that registering never overwrites another call's entry. */
  lemma PendingTable(tr: seq<State>, steps: seq<Step>, i: nat)
    requires Run(tr, steps) && i < |tr| && Fits(tr[i])
    ensures TableInv(tr[i])
    ensures i < |steps| && steps[i] == StartCall && Fits(tr[i + 1]) ==>
              && tr[i + 1].sh.nextID == tr[i].sh.nextID + 1
              && tr[i + 1].sh.nextID !in tr[i].sh.pending
              && tr[i + 1].sh.pending == tr[i].sh.pending[tr[i].sh.nextID + 1 := |tr[i].calls|]
  {
    RunInv(tr, steps, i);
    if i < |steps| && steps[i] == StartCall && Fits(tr[i + 1]) {
      assert Next(tr[i], steps[i]) == Some(tr[i + 1]);
      RegisterKeepsLinear(tr[i], tr[i + 1]);
    }
  }

  lemma SessionCountsConns(tr: seq<State>, steps: seq<Step>, i: nat)
    requires Run(tr, steps) && i < |tr| && Fits(tr[i])
    ensures tr[i].sh.sessionID == |tr[i].conns|
  {
    RunInv(tr, steps, i);
    hide Run, TableInv, ConnInv, LinearInv, AnswerInv;
  }

  lemma {:induction false} SessionNeverDecreases(tr: seq<State>, steps: seq<Step>, i: nat, j: nat)
    requires Run(tr, steps) && i <= j < |tr| && Fits(tr[j])
    ensures tr[i].sh.sessionID <= tr[j].sh.sessionID
    decreases j - i
  {
    hide Run, Next, Fits;
    if i == j {
    } else {
      ConnsGrow(tr, steps, j);
      SessionNeverDecreases(tr, steps, i, j - 1);
      SessionCountsConns(tr, steps, j - 1);
      SessionCountsConns(tr, steps, j);
    }
  }

  lemma ConnsGrow(tr: seq<State>, steps: seq<Step>, j: nat)
    requires Run(tr, steps) && 0 < j < |tr| && Fits(tr[j])
    ensures Fits(tr[j - 1]) && |tr[j - 1].conns| <= |tr[j].conns|
  {
    Grows(tr[j - 1], steps[j - 1], tr[j]);
    hide Next;
  }

  /** One more step at the end of a run. */
  lemma Extend(tr: seq<State>, steps: seq<Step>, st: Step, s': State)
    requires Run(tr, steps) && Next(tr[|steps|], st) == Some(s')
    ensures Run(tr + [s'], steps + [st])
  {
    hide Next;
  }
}
