/** The life of one mirrored session, read off the events that name it. */
module ShadowSessions {
  import opened Identity
  import opened ShadowModel

  /** The session after events that all name it. */
  ghost function Follow(s: Session, events: seq<Event>): Session
    requires forall e :: e in events ==> NamesSession(e)
  {
    if events == [] then s
    else
      var n := |events| - 1;
      assert forall e :: e in events[..n] ==> e in events;
      OnEvent(Follow(s, events[..n]), events[n], n).next
  }

  predicate Writes(e: Event) { e.WriteCompleted? && e.written == WriteAccepted }
  predicate Fences(e: Event) { e.DurabilityFenced? && e.fenced == FencePassed }
  predicate Acknowledges(e: Event) { e.HandoffAcknowledged? }

  /** How an event ends a session before its time. */
  function EndOf(e: Event): Option<SessionPhase> {
    if e.WriteCompleted? && e.written == WriteFailed then Some(Failed(WriteFailure))
    else if e.WriteCompleted? && e.written == WriteCancelled then Some(Cancelled(OnRotation))
    else if e.DurabilityFenced? && e.fenced == FenceFailed then Some(Failed(FenceFailure))
    else None
  }

  ghost predicate Clean(events: seq<Event>) { forall e :: e in events ==> EndOf(e).None? }

  ghost predicate Written(events: seq<Event>) { exists w :: 0 <= w < |events| && Writes(events[w]) }

  ghost predicate Fenced(events: seq<Event>) {
    exists f :: 0 <= f < |events| && Fences(events[f]) && Written(events[..f])
  }

  ghost predicate Acknowledged(events: seq<Event>) {
    exists a :: 0 <= a < |events| && Acknowledges(events[a]) && Fenced(events[..a])
  }

  lemma CleanStep(events: seq<Event>, e: Event)
    ensures Clean(events + [e]) <==> Clean(events) && EndOf(e).None?
  {
    var more := events + [e];
    assert e in more && forall x :: x in events ==> x in more;
  }

  lemma WrittenStep(events: seq<Event>, e: Event)
    ensures Written(events + [e]) <==> Written(events) || Writes(e)
  {
    var more := events + [e];
    assert more[|events|] == e;
    if w :| 0 <= w < |events| && Writes(events[w]) {
      assert more[w] == events[w];
    }
  }

  lemma FencedStep(events: seq<Event>, e: Event)
    ensures Fenced(events + [e]) <==> Fenced(events) || (Written(events) && Fences(e))
  {
    hide Written;
    SamePrefixes(events, e);
  }

  lemma AcknowledgedStep(events: seq<Event>, e: Event)
    ensures Acknowledged(events + [e]) <==> Acknowledged(events) || (Fenced(events) && Acknowledges(e))
  {
    hide Fenced;
    SamePrefixes(events, e);
  }

  lemma SamePrefixes(events: seq<Event>, e: Event)
    ensures (events + [e])[|events|] == e && (events + [e])[..|events|] == events
    ensures forall n :: 0 <= n < |events| ==> (events + [e])[n] == events[n]
    ensures forall n :: 0 <= n <= |events| ==> (events + [e])[..n] == events[..n]
  {
  }

  /** Some clean beginning of the events was written, fenced and acknowledged, in that order. */
  ghost predicate Completed(events: seq<Event>) {
    exists n :: 0 <= n <= |events| && Clean(events[..n]) && Acknowledged(events[..n])
  }

  /** Otherwise the first event that ends a session, ends it. */
  ghost predicate EndedAs(events: seq<Event>, p: SessionPhase) {
    exists n :: 0 <= n < |events| && Clean(events[..n]) && EndOf(events[n]) == Some(p)
  }

  lemma CompletedStep(events: seq<Event>, e: Event)
    ensures Completed(events + [e]) <==> Completed(events) || (Clean(events + [e]) && Acknowledged(events + [e]))
  {
    hide Clean, Acknowledged;
    SamePrefixes(events, e);
    assert (events + [e])[..|events| + 1] == events + [e];
  }

  lemma EndedStep(events: seq<Event>, e: Event, p: SessionPhase)
    ensures EndedAs(events + [e], p) <==> EndedAs(events, p) || (Clean(events) && EndOf(e) == Some(p))
  {
    hide Clean, EndOf;
    SamePrefixes(events, e);
  }

  /** The phase the events tell. */
  ghost predicate Told(events: seq<Event>, p: SessionPhase) {
    && (p == Complete <==> Completed(events))
    && (!Completed(events) && !Clean(events) ==> EndedAs(events, p))
    && (!Completed(events) && Clean(events) ==>
          !Acknowledged(events) && p == if Fenced(events) then DurablePending else if Written(events) then Persisting else Active)
  }

  lemma EndedIsTerminal(events: seq<Event>, p: SessionPhase)
    requires EndedAs(events, p)
    ensures p.Failed? || p.Cancelled?
  {
  }

  lemma ToldStep(events: seq<Event>, e: Event, s: Session, at: nat)
    requires NamesSession(e) && Told(events, s.phase)
    ensures Told(events + [e], OnEvent(s, e, at).next.phase)
  {
    hide Clean, Written, Fenced, Acknowledged, Completed, EndedAs;
    CleanStep(events, e);
    WrittenStep(events, e);
    FencedStep(events, e);
    AcknowledgedStep(events, e);
    CompletedStep(events, e);
    var next := OnEvent(s, e, at).next.phase;
    EndedStep(events, e, next);
    if !Completed(events) && !Clean(events) {
      EndedIsTerminal(events, s.phase);
    }
  }

  lemma ToldNothing()
    ensures Told([], Active)
  {
  }

  /**
   * What becomes of an active session, exactly: Complete if and only if a clean
   * beginning of its events was written, fenced and acknowledged in that order;
   * otherwise the first failed or cancelled write or failed fence decides, and
   * without one the session is as far as it was written and fenced.
   */
  lemma {:induction false} OutcomeExactly(s: Session, events: seq<Event>)
    requires s.phase == Active && forall e :: e in events ==> NamesSession(e)
    ensures Told(events, Follow(s, events).phase)
  {
    hide Told, OnEvent;
    ToldNothing();
    if events != [] {
      var n := |events| - 1;
      assert forall x :: x in events[..n] ==> x in events;
      OutcomeExactly(s, events[..n]);
      assert events == events[..n] + [events[n]];
      ToldStep(events[..n], events[n], Follow(s, events[..n]), n);
    }
  }

  /**
   * What else an event moves. Packets count, and reads stir the local scan,
   * only while the session is active; an accepted write, or one that ends the
   * session, settles the scan. Target, reason and names never move.
   */
  lemma OtherFields(s: Session, e: Event, at: nat)
    requires NamesSession(e)
    ensures var t := OnEvent(s, e, at).next;
            && t.target == s.target && t.reason == s.reason && t.names == s.names
            && t.queueDepth == (s.queueDepth + if e.PacketAdmitted? && s.phase == Active then 1 else 0)
            && t.scanning == (if s.phase == Active && e.PacketAdmitted? then true
                              else if s.phase == Active && e.ReadCompleted? && e.read.Settled? then e.kind != HeaderRead || e.read.found
                              else if t.phase != s.phase && e.WriteCompleted? then false
                              else s.scanning)
            && (!e.TimerFired? ==> t.sweepEligible == s.sweepEligible && t.pendingExpiry == s.pendingExpiry)
  {
  }

  /** An armed expiry makes the session sweepable if and only if that very timer fires. */
  lemma ExpiryFiresExactly(s: Session, armed: OperationRef, fired: OperationRef, timer: TimerKind)
    requires (s.phase == Active || s.phase == Dormant) && s.pendingExpiry == Some(armed) && !s.sweepEligible
    ensures var t := OnEvent(s, TimerFired(fired, timer), 0).next;
            && (t.sweepEligible <==> timer == SessionExpiry && fired == armed)
            && (t.sweepEligible ==> t == s.(pendingExpiry := None, sweepEligible := true)) && (!t.sweepEligible ==> t == s)
  {
  }
}
