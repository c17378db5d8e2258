/** How sessions end: once authenticated, a session stays until it says that it leaves. */
module Leaving {
  import opened Wire
  import opened Protocol
  import opened RoutingSafety

  // No session that has authenticated is being cancelled.
  ghost predicate NoneCancelled(s: State) {
    forall i :: 0 <= i < |s.sessions| && s.sessions[i].auth == Authed ==> !s.sessions[i].cancelled
  }

  // Session i reads that its own user leaves.
  predicate SaysGoodbye(s: State, e: Event, i: nat) {
    && e.Recv? && e.sid == i && Enabled(s, e) && (e.pk.ptype == 13 || e.pk.ptype == 43)
    && e.pk.sender == s.sessions[i].userid
  }

  lemma StepKeepsNoneCancelled(s: State, e: Event)
    requires TableSound(s) && SessionsSound(s) && NoneCancelled(s) && Legal(s, e)
    ensures NoneCancelled(Step(s, e))
  {
    var r := Step(s, e);
    forall i | 0 <= i < |r.sessions| && r.sessions[i].auth == Authed ensures !r.sessions[i].cancelled {
      SessionAfter(s, e, i);
    }
  }

  lemma SessionAfter(s: State, e: Event, i: nat)
    requires TableSound(s) && SessionsSound(s) && NoneCancelled(s) && Legal(s, e)
    requires i < |Step(s, e).sessions| && Step(s, e).sessions[i].auth == Authed
    ensures !Step(s, e).sessions[i].cancelled
  {
    hide Tokens, FindUser, Writes, Messages, Routed;
    if Enabled(s, e) && e.Dequeue? {
      PoppedIsSound(s, e.sid);
      QueuedIsNotPlaced(Popped(s, e.sid), e.sid, s.sessions[e.sid].queue[0], e.env);
      DequeueStep(s, e);
    }
  }

  lemma {:induction false} RunKeepsNoneCancelled(maxConn: nat, es: seq<Event>)
    requires LegalRun(Init(maxConn), es)
    ensures NoneCancelled(Run(Init(maxConn), es))
    decreases |es|
  {
    hide Step;
    if es != [] {
      RunKeepsNoneCancelled(maxConn, es[..|es| - 1]);
      ReachableIsSound(maxConn, es[..|es| - 1]);
      StepKeepsNoneCancelled(Run(Init(maxConn), es[..|es| - 1]), es[|es| - 1]);
    }
  }

  lemma EndsOnlyByGoodbye(s: State, e: Event, i: nat)
    requires TableSound(s) && SessionsSound(s) && NoneCancelled(s) && Legal(s, e)
    requires i < |s.sessions| && s.sessions[i].live && s.sessions[i].auth == Authed
    ensures var x, r := s.sessions[i], Step(s, e);
            && i < |r.sessions| && r.sessions[i].live
            && (SaysGoodbye(s, e, i) <==> r.sessions[i].auth != Authed)
            && (SaysGoodbye(s, e, i) <==> r.sessions[i].cancelled)
            && (SaysGoodbye(s, e, i) <==> Enabled(r, Cleanup(i)))
            && (SaysGoodbye(s, e, i) ==> r.sessions[i].auth == ToExit)
            && r.sessions[i].userid == x.userid
  {
    hide Tokens, FindUser, Writes, Messages, Routed;
    if Enabled(s, e) && e.Recv? {
      RecvStep(s, e);
    } else if Enabled(s, e) && e.Dequeue? {
      PoppedIsSound(s, e.sid);
      QueuedIsNotPlaced(Popped(s, e.sid), e.sid, s.sessions[e.sid].queue[0], e.env);
      DequeueStep(s, e);
    }
  }

  /** At every point of every legal run: a session that is logged in stays so, under its id, and
      cannot be cleaned up, whatever anybody does, except exactly at a step in which it reads
      LOGOUT or CLOSE in the name of its own user; then it is over. */
  lemma StaysUntilItLeaves(maxConn: nat, es: seq<Event>, e: Event, i: nat)
    requires LegalRun(Init(maxConn), es) && Legal(Run(Init(maxConn), es), e)
    requires Alive(Run(Init(maxConn), es), i) && Run(Init(maxConn), es).sessions[i].auth == Authed
    ensures var s := Run(Init(maxConn), es);
            var r := Step(s, e);
            && !s.sessions[i].cancelled && !Enabled(s, Cleanup(i))
            && Alive(r, i) && r.sessions[i].userid == s.sessions[i].userid
            && (SaysGoodbye(s, e, i)
                <==> r.sessions[i].auth == ToExit && r.sessions[i].cancelled && Enabled(r, Cleanup(i)))
            && (!SaysGoodbye(s, e, i) <==> r.sessions[i].auth == Authed && !r.sessions[i].cancelled)
  {
    hide Step, LegalRun;
    RunKeepsNoneCancelled(maxConn, es);
    ReachableIsSound(maxConn, es);
    EndsOnlyByGoodbye(Run(Init(maxConn), es), e, i);
  }
}
