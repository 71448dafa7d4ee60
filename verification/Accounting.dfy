// The log line of a forward tells the truth about everyone it was offered to.
module Accounting {

  import opened Dispatching
  import opened Protocol
  import opened Invariants
  import opened Delivery

  /** The subscribers, past and present, that accepted this forward. */
  ghost function Receivers(s: State, index: nat): set<string> {
    set id | id in s.subs && Got(s.subs[id].accepted, index)
  }

  /** The subscribers the forward has been past: everyone registered, once it has ended. */
  ghost function Audience(s: State, index: nat): set<string> {
    set id | id in s.subs && Passed(s, id, index)
  }

  /** What a past forward did to a subscriber, told from its profile and refusals alone. */
  ghost function FateAt(c: Config, index: nat, d: Dispatch, hasAccess: bool, sub: Subscription): Outcome {
    if !Eligible(sub.profile, d.n, hasAccess) then Skipped
    else
      match c.encode(ResponseFor(sub.profile, d.n))
      case None => Failed(false)
      case Some(body) => if index in sub.refused then Failed(true) else Sent(body)
  }

  ghost function FatesAt(c: Config, s: State, index: nat, hasAccess: bool): map<string, Outcome>
    requires index < |s.dispatched|
  {
    map id | id in Audience(s, index) :: FateAt(c, index, s.dispatched[index], hasAccess, s.subs[id])
  }

  /** The counters are those of an aborted forward, or the tally of what became of its audience. */
  ghost predicate TotalsOk(c: Config, s: State, index: nat, totals: Totals)
    requires index < |s.dispatched|
  {
    match Evaluate(c.policyAt(index), s.dispatched[index].n)
    case Aborted => totals == Totals(0, 0, 0)
    case Evaluated(hasAccess) => totals == Tally(FatesAt(c, s, index, hasAccess), Audience(s, index))
  }

  ghost predicate LineOk(c: Config, s: State, index: nat)
    requires index < |s.log| && index < |s.dispatched|
  {
    var line := s.log[index];
    && TotalsOk(c, s, index, line.totals)
    && line.subscribers == |Audience(s, index)|
    && line.failure == LogsError(line.subscribers, line.totals)
  }

  ghost predicate LogOk(c: Config, s: State) {
    && |s.log| <= |s.dispatched|
    && (forall index :: 0 <= index < |s.log| ==> LineOk(c, s, index))
    && (s.loop.Forwarding? ==>
          s.loop.pass.index < |s.dispatched| && TotalsOk(c, s, s.loop.pass.index, s.loop.pass.totals))
  }

  /** No step but a visit puts anything into a buffer. */
  lemma AcceptedFrame(c: Config, s: State, l: Label)
    requires Enabled(c, s, l) && !l.Forward?
    ensures var next := Apply(c, s, l);
      && (forall id :: id in s.subs ==> id in next.subs && next.subs[id].accepted == s.subs[id].accepted)
      && (forall id :: id in next.subs && id !in s.subs ==> next.subs[id].accepted == [])
  {
  }

  // ---------------------------------------------------------------- steps that leave a forward alone

  /** This forward's audience, and what became of each of it, is the same in both states. */
  ghost predicate SameAt(s: State, next: State, index: nat) {
    && (forall id :: id in s.subs ==>
          && id in next.subs && next.subs[id].profile == s.subs[id].profile
          && (Passed(next, id, index) <==> Passed(s, id, index))
          && (index in next.subs[id].refused <==> index in s.subs[id].refused))
    && (forall id :: id in next.subs && id !in s.subs ==> !Passed(next, id, index))
  }

  lemma SameTotals(c: Config, s: State, next: State, index: nat, totals: Totals)
    requires SameAt(s, next, index) && index < |s.dispatched| && index < |next.dispatched|
    requires next.dispatched[index] == s.dispatched[index]
    ensures Audience(next, index) == Audience(s, index)
    ensures TotalsOk(c, next, index, totals) <==> TotalsOk(c, s, index, totals)
  {
    assert Audience(next, index) == Audience(s, index);
    forall hasAccess
      ensures FatesAt(c, next, index, hasAccess) == FatesAt(c, s, index, hasAccess)
    {
    }
  }

  lemma SameLine(c: Config, s: State, next: State, index: nat)
    requires index < |s.log| && index < |s.dispatched| && LineOk(c, s, index)
    requires index < |next.log| && index < |next.dispatched|
    requires next.log[index] == s.log[index] && next.dispatched[index] == s.dispatched[index]
    requires SameAt(s, next, index)
    ensures LineOk(c, next, index)
  {
    SameTotals(c, s, next, index, s.log[index].totals);
  }

  lemma SameLines(c: Config, s: State, next: State)
    requires LogOk(c, s) && s.log <= next.log && s.dispatched <= next.dispatched
    requires forall index: nat :: index < |s.log| ==> SameAt(s, next, index)
    ensures forall index :: 0 <= index < |s.log| ==> LineOk(c, next, index)
  {
    forall index | 0 <= index < |s.log|
      ensures LineOk(c, next, index)
    {
      SameLine(c, s, next, index);
    }
  }

  lemma QuietSameAt(c: Config, s: State, l: Label, index: nat)
    requires RegistrationOk(s) && PassOk(c, s) && Enabled(c, s, l) && !l.Lock? && !l.Forward? && !l.Subscribe?
    ensures SameAt(s, Apply(c, s, l), index)
  {
    QuietStepFrame(c, s, l);
  }

  lemma SubscribeMovesOne(c: Config, s: State, id: string)
    requires RegistrationOk(s) && PassOk(c, s) && BlankOk(s) && Enabled(c, s, Subscribe(id))
    ensures var next := ApplySubscribe(s, id);
      && next.subs == s.subs[id := next.subs[id]] && next.subs[id].profile == s.subs[id].profile
      && next.subs[id].refused == s.subs[id].refused
      && Upto(s, id) == s.subs[id].joined && Upto(next, id) == next.subs[id].joined
      && (forall other :: other in s.subs && other != id ==> Upto(next, other) == Upto(s, other))
  {
    assert Blank(s.subs[id]);
  }

  lemma SubscribeSameAt(c: Config, s: State, id: string, index: nat)
    requires RegistrationOk(s) && PassOk(c, s) && BlankOk(s) && Enabled(c, s, Subscribe(id))
    ensures SameAt(s, ApplySubscribe(s, id), index)
  {
    SubscribeMovesOne(c, s, id);
  }

  lemma LockSameAt(c: Config, s: State, index: nat)
    requires RegistrationOk(s) && PassOk(c, s) && Enabled(c, s, Lock)
    requires index < |s.dispatched| || Evaluate(c.policyAt(|s.dispatched|), s.loop.d.n).Evaluated?
    ensures SameAt(s, Apply(c, s, Lock), index)
  {
  }

  lemma ForwardSameAt(c: Config, s: State, id: string, index: nat)
    requires RegistrationOk(s) && PassOk(c, s) && Enabled(c, s, Forward(id)) && index != s.loop.pass.index
    ensures SameAt(s, ApplyForward(c, s, id), index)
  {
    ForwardFrame(c, s, id);
  }

  // ---------------------------------------------------------------- the forward in progress

  lemma LogFrame(c: Config, s: State, l: Label)
    requires Enabled(c, s, l)
    ensures var next := Apply(c, s, l);
      && s.log <= next.log && s.dispatched <= next.dispatched
      && (!l.Unlock? ==> next.log == s.log)
      && (!l.Lock? ==> next.dispatched == s.dispatched)
      && (!l.Lock? && !l.Forward? && next.loop.Forwarding? ==> next.loop == s.loop)
  {
  }

  lemma SameEverywhere(c: Config, s: State, l: Label)
    requires Settled(c, s) && Enabled(c, s, l) && !l.Lock? && !l.Forward?
    ensures forall index: nat :: SameAt(s, Apply(c, s, l), index)
  {
    forall index: nat
      ensures SameAt(s, Apply(c, s, l), index)
    {
      if l.Subscribe? {
        SubscribeSameAt(c, s, l.id, index);
      } else {
        QuietSameAt(c, s, l, index);
      }
    }
  }

  lemma QuietKeepsLog(c: Config, s: State, l: Label)
    requires Settled(c, s) && LogOk(c, s) && Enabled(c, s, l) && !l.Lock? && !l.Forward? && !l.Unlock?
    ensures LogOk(c, Apply(c, s, l))
  {
    var next := Apply(c, s, l);
    LogFrame(c, s, l);
    SameEverywhere(c, s, l);
    SameLines(c, s, next);
    if next.loop.Forwarding? {
      SameTotals(c, s, next, s.loop.pass.index, s.loop.pass.totals);
    }
  }

  /** Nobody has been offered a forward that has only begun. */
  lemma NobodyYet(c: Config, s: State)
    requires DeliveriesOk(c, s)
    ensures Audience(s, |s.dispatched|) == {}
  {
    forall id | id in s.subs
      ensures !Passed(s, id, |s.dispatched|)
    {
      assert DeliveredTo(c, s.dispatched, s.subs[id], Upto(s, id));
    }
  }

  lemma LockStartsEmpty(c: Config, s: State)
    requires RegistrationOk(s) && PassOk(c, s) && DeliveriesOk(c, s) && Enabled(c, s, Lock)
    ensures var next := ApplyLock(c, s); TotalsOk(c, next, next.loop.pass.index, next.loop.pass.totals)
  {
    if Evaluate(c.policyAt(|s.dispatched|), s.loop.d.n).Evaluated? {
      var next, index := ApplyLock(c, s), |s.dispatched|;
      NobodyYet(c, s);
      LockSameAt(c, s, index);
      forall id | id in next.subs
        ensures !Passed(next, id, index)
      {
        assert id in s.subs && id !in Audience(s, index);
      }
      assert Audience(next, index) == {};
    }
  }

  lemma LockKeepsLog(c: Config, s: State)
    requires Settled(c, s) && LogOk(c, s) && Enabled(c, s, Lock)
    ensures LogOk(c, Apply(c, s, Lock))
  {
    LogFrame(c, s, Lock);
    forall index: nat | index < |s.log|
      ensures SameAt(s, ApplyLock(c, s), index)
    {
      LockSameAt(c, s, index);
    }
    SameLines(c, s, ApplyLock(c, s));
    LockStartsEmpty(c, s);
  }

  /** What a visit leaves on record tells the fate the subscriber met. */
  lemma VisitTellsFate(c: Config, index: nat, d: Dispatch, hasAccess: bool, sub: Subscription)
    requires index !in sub.refused
    ensures FateAt(c, index, d, hasAccess, Offered(index, d.n, hasAccess, sub, Fate(c, d.n, hasAccess, sub)))
            == Fate(c, d.n, hasAccess, sub)
  {
  }

  lemma NotRefusedYet(c: Config, s: State, id: string)
    requires DeliveriesOk(c, s) && id in s.subs
    ensures Upto(s, id) !in s.subs[id].refused
  {
    assert DeliveredTo(c, s.dispatched, s.subs[id], Upto(s, id));
  }

  lemma VisitPasses(c: Config, s: State, id: string)
    requires RegistrationOk(s) && PassOk(c, s) && JoinedOk(s) && Enabled(c, s, Forward(id))
    ensures !Passed(s, id, s.loop.pass.index) && Passed(ApplyForward(c, s, id), id, s.loop.pass.index)
  {
    ForwardFrame(c, s, id);
  }

  /** A visit adds the subscriber to the audience with the fate it meets. */
  lemma VisitJoinsAudience(c: Config, s: State, id: string)
    requires Settled(c, s) && Enabled(c, s, Forward(id))
    ensures var next, p := ApplyForward(c, s, id), s.loop.pass;
      && p.index < |s.dispatched|
      && id !in Audience(s, p.index) && Audience(next, p.index) == Audience(s, p.index) + {id}
      && FateAt(c, p.index, s.dispatched[p.index], p.evaluation.hasAccess, next.subs[id])
         == Fate(c, LastDispatch(s).n, p.evaluation.hasAccess, s.subs[id])
      && (forall other :: other in Audience(s, p.index) ==> next.subs[other] == s.subs[other])
  {
    VisitPasses(c, s, id);
    NotRefusedYet(c, s, id);
    VisitFrame(c, s, id);
    VisitTellsFate(c, s.loop.pass.index, LastDispatch(s), s.loop.pass.evaluation.hasAccess, s.subs[id]);
  }

  lemma VisitFrame(c: Config, s: State, id: string)
    requires RegistrationOk(s) && PassOk(c, s) && Enabled(c, s, Forward(id))
    ensures var next, p := ApplyForward(c, s, id), s.loop.pass;
      && p.index < |s.dispatched| && LastDispatch(s) == s.dispatched[p.index]
      && Upto(s, id) == p.index && next.subs.Keys == s.subs.Keys
      && next.subs[id] == Offered(p.index, LastDispatch(s).n, p.evaluation.hasAccess, s.subs[id],
                                  Fate(c, LastDispatch(s).n, p.evaluation.hasAccess, s.subs[id]))
      && (forall other :: other in s.subs && other != id ==>
            next.subs[other] == s.subs[other] && (Passed(next, other, p.index) <==> Passed(s, other, p.index)))
  {
    ForwardFrame(c, s, id);
  }

  lemma TallyRestricted<S>(fates: map<S, Outcome>, more: map<S, Outcome>, visited: set<S>)
    requires visited <= fates.Keys && visited <= more.Keys
    requires forall s :: s in visited ==> fates[s] == more[s]
    ensures Tally(fates, visited) == Tally(more, visited)
  {
    assert (set s | s in visited && fates[s].Sent?) == (set s | s in visited && more[s].Sent?);
    assert (set s | s in visited && fates[s].Failed?) == (set s | s in visited && more[s].Failed?);
    assert (set s | s in visited && fates[s].Skipped?) == (set s | s in visited && more[s].Skipped?);
  }

  lemma VisitCounts(c: Config, s: State, id: string)
    requires Settled(c, s) && Enabled(c, s, Forward(id))
    requires s.loop.pass.index < |s.dispatched| && TotalsOk(c, s, s.loop.pass.index, s.loop.pass.totals)
    ensures var next := ApplyForward(c, s, id); TotalsOk(c, next, s.loop.pass.index, next.loop.pass.totals)
  {
    var next, p := ApplyForward(c, s, id), s.loop.pass;
    VisitJoinsAudience(c, s, id);
    var before := FatesAt(c, s, p.index, p.evaluation.hasAccess);
    var after := FatesAt(c, next, p.index, p.evaluation.hasAccess);
    TallyRestricted(before, after, Audience(s, p.index));
    TallyVisit(after, Audience(s, p.index), id);
  }

  lemma ForwardKeepsLog(c: Config, s: State, id: string)
    requires Settled(c, s) && LogOk(c, s) && RecordsOk(s) && Enabled(c, s, Forward(id))
    ensures LogOk(c, ApplyForward(c, s, id))
  {
    LogFrame(c, s, Forward(id));
    forall index: nat | index < |s.log|
      ensures SameAt(s, ApplyForward(c, s, id), index)
    {
      ForwardSameAt(c, s, id, index);
    }
    SameLines(c, s, ApplyForward(c, s, id));
    VisitCounts(c, s, id);
  }

  /** While a forward runs, its audience is everyone registered and already visited. */
  lemma AudienceSoFar(c: Config, s: State)
    requires Settled(c, s) && s.loop.Forwarding?
    ensures Audience(s, s.loop.pass.index) == s.registered - s.loop.pass.todo
  {
  }

  lemma UnlockLine(c: Config, s: State)
    requires PassOk(c, s) && RecordsOk(s) && Enabled(c, s, Unlock)
    ensures var index, next, t := s.loop.pass.index, ApplyUnlock(s), s.loop.pass.totals;
      && index == |s.log| < |s.dispatched| && next.dispatched == s.dispatched && |next.log| == |s.log| + 1
      && next.log[index] == LogLine(t, |s.registered|, LogsError(|s.registered|, t))
  {
  }

  lemma UnlockAudience(c: Config, s: State)
    requires Settled(c, s) && Enabled(c, s, Unlock)
    ensures Audience(s, s.loop.pass.index) == s.registered
    ensures SameAt(s, ApplyUnlock(s), s.loop.pass.index)
  {
    AudienceSoFar(c, s);
    assert s.registered - {} == s.registered;
    QuietSameAt(c, s, Unlock, s.loop.pass.index);
  }

  lemma UnlockTells(c: Config, s: State)
    requires Settled(c, s) && RecordsOk(s) && Enabled(c, s, Unlock)
    requires s.loop.pass.index < |s.dispatched| && TotalsOk(c, s, s.loop.pass.index, s.loop.pass.totals)
    ensures |s.log| < |ApplyUnlock(s).log| && |s.log| < |ApplyUnlock(s).dispatched|
    ensures LineOk(c, ApplyUnlock(s), |s.log|)
  {
    UnlockLine(c, s);
    UnlockAudience(c, s);
    SameTotals(c, s, ApplyUnlock(s), s.loop.pass.index, s.loop.pass.totals);
  }

  lemma OneMoreLine(c: Config, next: State, before: seq<LogLine>)
    requires before <= next.log && |next.log| == |before| + 1 <= |next.dispatched| && !next.loop.Forwarding?
    requires forall index :: 0 <= index < |before| ==> LineOk(c, next, index)
    requires LineOk(c, next, |before|)
    ensures LogOk(c, next)
  {
  }

  lemma UnlockKeepsLog(c: Config, s: State)
    requires Settled(c, s) && RecordsOk(s) && LogOk(c, s) && Enabled(c, s, Unlock)
    ensures LogOk(c, ApplyUnlock(s))
  {
    var next := ApplyUnlock(s);
    LogFrame(c, s, Unlock);
    SameEverywhere(c, s, Unlock);
    SameLines(c, s, next);
    UnlockTells(c, s);
    OneMoreLine(c, next, s.log);
  }

  lemma StepKeepsLog(c: Config, s: State, l: Label)
    requires Settled(c, s) && RecordsOk(s) && LogOk(c, s) && Enabled(c, s, l)
    ensures LogOk(c, Apply(c, s, l))
  {
    if l.Forward? {
      ForwardKeepsLog(c, s, l.id);
    } else if l.Lock? {
      LockKeepsLog(c, s);
    } else if l.Unlock? {
      UnlockKeepsLog(c, s);
    } else {
      QuietKeepsLog(c, s, l);
    }
  }

  // ---------------------------------------------------------------- what the counters count

  /** Eligible for the forward, and yet without its message. */
  ghost predicate Missed(s: State, index: nat, hasAccess: bool, id: string)
    requires id in s.subs && index < |s.dispatched|
  {
    Eligible(s.subs[id].profile, s.dispatched[index].n, hasAccess) && !Got(s.subs[id].accepted, index)
  }

  lemma FateMeaning(c: Config, s: State, index: nat, hasAccess: bool, id: string)
    requires DeliveriesOk(c, s) && index < |s.dispatched| && id in s.subs
    requires Evaluate(c.policyAt(index), s.dispatched[index].n) == Evaluated(hasAccess)
    ensures var fate := FateAt(c, index, s.dispatched[index], hasAccess, s.subs[id]);
      && (Got(s.subs[id].accepted, index) <==> Passed(s, id, index) && fate.Sent?)
      && (Passed(s, id, index) ==> (Missed(s, index, hasAccess, id) <==> fate.Failed?))
  {
    HeldExactly(c, s, id, index);
  }

  lemma SplitAudience(s: State, index: nat, hasAccess: bool, fates: map<string, Outcome>, audience: set<string>)
    requires index < |s.dispatched| && audience <= s.subs.Keys && audience == fates.Keys
    requires forall id :: id in s.subs ==> (id in Receivers(s, index) <==> id in audience && fates[id].Sent?)
    requires forall id :: id in audience ==> (Missed(s, index, hasAccess, id) <==> fates[id].Failed?)
    requires forall id :: id in audience ==>
               (Eligible(s.subs[id].profile, s.dispatched[index].n, hasAccess) <==> !fates[id].Skipped?)
    ensures var t := Tally(fates, audience);
      && t.sent == |Receivers(s, index)|
      && t.failed == |set id | id in audience && Missed(s, index, hasAccess, id)|
      && t.skipped == |set id | id in audience && !Eligible(s.subs[id].profile, s.dispatched[index].n, hasAccess)|
  {
    assert Receivers(s, index) == set id | id in audience && fates[id].Sent?;
    assert (set id | id in audience && Missed(s, index, hasAccess, id)) == set id | id in audience && fates[id].Failed?;
    assert (set id | id in audience && !Eligible(s.subs[id].profile, s.dispatched[index].n, hasAccess))
        == set id | id in audience && fates[id].Skipped?;
  }

  /** The three fates of an audience, told from what each of it holds. */
  lemma FatesMeaning(c: Config, s: State, index: nat, hasAccess: bool)
    requires DeliveriesOk(c, s) && index < |s.dispatched|
    requires Evaluate(c.policyAt(index), s.dispatched[index].n) == Evaluated(hasAccess)
    ensures var t := Tally(FatesAt(c, s, index, hasAccess), Audience(s, index));
      && t.sent == |Receivers(s, index)|
      && t.failed == |set id | id in Audience(s, index) && Missed(s, index, hasAccess, id)|
      && t.skipped ==
         |set id | id in Audience(s, index) && !Eligible(s.subs[id].profile, s.dispatched[index].n, hasAccess)|
      && Sum(t) == |Audience(s, index)|
  {
    var fates, audience := FatesAt(c, s, index, hasAccess), Audience(s, index);
    TallyCountsAll(fates, audience);
    forall id | id in s.subs
      ensures id in Receivers(s, index) <==> id in audience && fates[id].Sent?
      ensures id in audience ==> (Missed(s, index, hasAccess, id) <==> fates[id].Failed?)
    {
      FateMeaning(c, s, index, hasAccess, id);
    }
    SplitAudience(s, index, hasAccess, fates, audience);
  }
}
