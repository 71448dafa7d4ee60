// Forwarding one notification to every subscriber (dispatch/dispatcher.go), without interleaving.
//
// The functions here say who is sent what; the concurrent model uses the same ones.
module Dispatching {

  import opened Basics
  import opened Text
  import opened Publication
  import opened Notifications
  import opened Subscribers
  import opened History

  /** The content policy's answer; PolicyError stands for a failed evaluation. */
  datatype Answer = Allow | Deny | PolicyError

  /** The policy agent, asked about an editorial desk and a publication. */
  type Policy = (string, string) -> Answer

  datatype Evaluation = Aborted | Evaluated(hasAccess: bool)

  function PolicyAnswer(policy: Policy, n: NotificationModel): Answer {
    match n.publication
    case None => policy(n.editorialDesk, "")
    case Some(uuids) =>
      match OnlyOneOrPink(uuids)
      case Rejected(_) => PolicyError
      case Only(uuid) => policy(n.editorialDesk, uuid)
  }

  function Evaluate(policy: Policy, n: NotificationModel): Evaluation {
    match PolicyAnswer(policy, n)
    case PolicyError => Aborted
    case Allow => Evaluated(true)
    case Deny => Evaluated(false)
  }

  /** A list that is present but empty, or holds several ids without Pink, aborts the forward. */
  lemma AmbiguousPublicationAborts(policy: Policy, n: NotificationModel)
    requires n.publication.Some?
    requires |n.publication.value| != 1 && PINK_FT !in n.publication.value
    ensures Evaluate(policy, n) == Aborted
  {
  }

  /** Which publication the policy is asked about, and that anything but Allow or Deny aborts. */
  lemma EvaluationMeaning(policy: Policy, n: NotificationModel, publication: string)
    requires match n.publication
             case None => publication == ""
             case Some(uuids) => if PINK_FT in uuids then publication == PINK_FT else uuids == [publication]
    ensures Evaluate(policy, n) == Evaluated(true) <==> policy(n.editorialDesk, publication) == Allow
    ensures Evaluate(policy, n) == Evaluated(false) <==> policy(n.editorialDesk, publication) == Deny
    ensures Evaluate(policy, n) == Aborted <==> policy(n.editorialDesk, publication) == PolicyError
  {
  }

  predicate HasType(subTypes: seq<string>, lowered: string) {
    exists i :: 0 <= i < |subTypes| && ToLower(subTypes[i]) == lowered
  }

  /** Whether the subscription types of a subscriber admit a notification. */
  predicate TypeMatches(n: NotificationModel, subTypes: seq<string>) {
    (n.eventType == CONTENT_DELETE_TYPE && n.subscriptionType == "")
    || HasType(subTypes, ToLower(n.subscriptionType))
  }

  method MatchesSubType(n: NotificationModel, accepted: seq<string>) returns (matches: bool)
    ensures matches <==> TypeMatches(n, accepted)
  {
    var subTypes: map<string, bool> := map[];
    for i := 0 to |accepted|
      invariant forall t :: t in subTypes ==> subTypes[t] && HasType(accepted, t)
      invariant forall j :: 0 <= j < i ==> ToLower(accepted[j]) in subTypes
    {
      subTypes := subTypes[ToLower(accepted[i]) := true];
    }
    var notificationType := ToLower(n.subscriptionType);
    if n.eventType == CONTENT_DELETE_TYPE && notificationType == "" {
      return true;
    }
    return notificationType in subTypes && subTypes[notificationType];
  }

  predicate Eligible(profile: Profile, n: NotificationModel, hasAccess: bool) {
    if n.isE2ETest then
      profile.kind != Standard
    else
      TypeMatches(n, profile.subTypes) && hasAccess
      && (n.eventType == RELATED_CONTENT_TYPE ==> profile.options.receiveInternalUnstable)
  }

  function ResponseFor(profile: Profile, n: NotificationModel): NotificationResponse {
    View(profile, CreateNotificationResponse(n, Some(profile.options)))
  }

  /** Everything a subscriber is shown of a notification, field by field. */
  lemma ResponseMeaning(profile: Profile, n: NotificationModel)
    ensures var monitor := profile.kind == Monitor;
      var downgraded := n.eventType == "http://www.ft.com/thing/ThingChangeType/CREATE"
                        && !profile.options.receiveAdvancedNotifications;
      ResponseFor(profile, n) == NotificationResponse(
        n.apiURL, n.id,
        if downgraded then "http://www.ft.com/thing/ThingChangeType/UPDATE" else n.eventType,
        if monitor then profile.id else n.subscriberID,
        if monitor then n.publishReference else "",
        if monitor then n.lastModified else "",
        if monitor then n.notificationDate else "",
        n.title, n.standout)
  {
  }

  datatype Outcome = Skipped | Failed(lagging: bool) | Sent(body: string)

  /** What happens to one subscriber whose buffer holds `fill` messages. */
  function Offer(encode: Encoder, profile: Profile, n: NotificationModel, hasAccess: bool, fill: nat): Outcome {
    if !Eligible(profile, n, hasAccess) then Skipped
    else
      match encode(ResponseFor(profile, n))
      case None => Failed(false)
      case Some(body) => if fill < NOTIFICATION_BUFFER then Sent(body) else Failed(true)
  }

  datatype Totals = Totals(sent: nat, failed: nat, skipped: nat)

  /** The log line of a forward is an error unless nobody was there, someone got it, or all skipped. */
  predicate LogsError(subscribers: nat, t: Totals) {
    !(subscribers == 0 || t.sent > 0 || subscribers == t.skipped)
  }

  lemma ErrorMeaning(subscribers: nat, t: Totals, aborted: bool)
    requires if aborted then t == Totals(0, 0, 0) else t.sent + t.failed + t.skipped == subscribers
    ensures LogsError(subscribers, t) <==>
            subscribers > 0 && t.sent == 0 && (aborted || t.failed > 0)
  {
  }

  function After(outcome: Outcome, channel: seq<string>): seq<string> {
    match outcome
    case Sent(body) => channel + [body]
    case _ => channel
  }

  function Count(t: Totals, outcome: Outcome): Totals {
    match outcome
    case Sent(_) => t.(sent := t.sent + 1)
    case Failed(_) => t.(failed := t.failed + 1)
    case Skipped => t.(skipped := t.skipped + 1)
  }

  /** How many of these subscribers meet each fate. */
  ghost function Tally<S>(fates: map<S, Outcome>, visited: set<S>): Totals
    requires visited <= fates.Keys
  {
    Totals(|set s | s in visited && fates[s].Sent?|,
           |set s | s in visited && fates[s].Failed?|,
           |set s | s in visited && fates[s].Skipped?|)
  }

  /** The counters after visiting these subscribers one by one. */
  ghost function CountAll<S>(fates: map<S, Outcome>, order: seq<S>): Totals
    requires forall s :: s in order ==> s in fates
  {
    if order == [] then Totals(0, 0, 0)
    else Count(CountAll(fates, order[..|order| - 1]), fates[order[|order| - 1]])
  }

  ghost predicate IsOrderOf<S>(order: seq<S>, all: set<S>) {
    && (forall i :: 0 <= i < |order| ==> order[i] in all)
    && (forall s :: s in all ==> s in order)
    && (forall i, j :: 0 <= i < j < |order| ==> order[i] != order[j])
  }

  /** The order of the visits does not show in the counters. */
  lemma {:induction false} CountAllIsTally<S>(fates: map<S, Outcome>, order: seq<S>, all: set<S>)
    requires IsOrderOf(order, all) && all <= fates.Keys
    ensures CountAll(fates, order) == Tally(fates, all)
    ensures |order| == |all|
    decreases |order|
  {
    if order == [] {
      assert all == {};
    } else {
      var front, last := order[..|order| - 1], order[|order| - 1];
      assert order == front + [last];
      CountAllIsTally(fates, front, all - {last});
      TallyVisit(fates, all - {last}, last);
      assert all - {last} + {last} == all;
    }
  }

  lemma TallyVisit<S>(fates: map<S, Outcome>, visited: set<S>, s: S)
    requires visited <= fates.Keys && s in fates && s !in visited
    ensures Tally(fates, visited + {s}) == Count(Tally(fates, visited), fates[s])
  {
    OneMore(visited, s, set x | x in fates && fates[x].Sent?);
    OneMore(visited, s, set x | x in fates && fates[x].Failed?);
    OneMore(visited, s, set x | x in fates && fates[x].Skipped?);
    TallyAsMeet(fates, visited);
    TallyAsMeet(fates, visited + {s});
  }

  lemma OneMore<S>(visited: set<S>, s: S, kind: set<S>)
    requires s !in visited
    ensures |(visited + {s}) * kind| == |visited * kind| + if s in kind then 1 else 0
  {
    assert (visited + {s}) * kind == if s in kind then visited * kind + {s} else visited * kind;
  }

  lemma TallyAsMeet<S>(fates: map<S, Outcome>, visited: set<S>)
    requires visited <= fates.Keys
    ensures Tally(fates, visited).sent == |visited * (set x | x in fates && fates[x].Sent?)|
    ensures Tally(fates, visited).failed == |visited * (set x | x in fates && fates[x].Failed?)|
    ensures Tally(fates, visited).skipped == |visited * (set x | x in fates && fates[x].Skipped?)|
  {
    assert (set x | x in visited && fates[x].Sent?) == visited * (set x | x in fates && fates[x].Sent?);
    assert (set x | x in visited && fates[x].Failed?) == visited * (set x | x in fates && fates[x].Failed?);
    assert (set x | x in visited && fates[x].Skipped?) == visited * (set x | x in fates && fates[x].Skipped?);
  }

  lemma TallyCountsAll<S>(fates: map<S, Outcome>, visited: set<S>)
    requires visited <= fates.Keys
    ensures var t := Tally(fates, visited); t.sent + t.failed + t.skipped == |visited|
  {
    var sent := set x | x in visited && fates[x].Sent?;
    var failed := set x | x in visited && fates[x].Failed?;
    var skipped := set x | x in visited && fates[x].Skipped?;
    assert visited == sent + failed + skipped;
    assert sent !! failed && (sent + failed) !! skipped;
  }

  /** These subscribers have been visited in this order, and the counters say so. */
  ghost predicate Counted<S>(fates: map<S, Outcome>, order: seq<S>, visited: set<S>, totals: Totals) {
    visited <= fates.Keys && IsOrderOf(order, visited) && totals == CountAll(fates, order)
  }

  lemma OneMoreVisited<S>(fates: map<S, Outcome>, order: seq<S>, visited: set<S>, totals: Totals, s: S)
    requires Counted(fates, order, visited, totals) && s in fates && s !in visited
    ensures Counted(fates, order + [s], visited + {s}, Count(totals, fates[s]))
  {
    assert (order + [s])[..|order|] == order;
  }

  class Dispatcher {

    const policy: Policy
    const encode: Encoder
    const history: InMemoryHistory
    var subscribers: set<Consumer>

    ghost predicate Valid()
      reads this, subscribers
    {
      forall s :: s in subscribers ==> s.Valid()
    }

    constructor (policy: Policy, encode: Encoder, history: InMemoryHistory)
      ensures Valid() && subscribers == {}
      ensures this.policy == policy && this.encode == encode && this.history == history
    {
      this.policy := policy;
      this.encode := encode;
      this.history := history;
      subscribers := {};
    }

    method Subscribe(profile: Profile) returns (s: Consumer)
      requires Valid()
      modifies this`subscribers
      ensures Valid() && fresh(s) && s.profile == profile && s.channel == []
      ensures subscribers == old(subscribers) + {s}
    {
      s := new Consumer(profile);
      subscribers := subscribers + {s};
    }

    method Unsubscribe(s: Consumer)
      requires Valid()
      modifies this`subscribers
      ensures Valid() && subscribers == old(subscribers) - {s}
    {
      subscribers := subscribers - {s};
    }

    /** What a forward of `n` does to one subscriber as it stands. */
    ghost function OutcomeFor(s: Consumer, n: NotificationModel): Outcome
      reads s
    {
      match Evaluate(policy, n)
      case Aborted => Skipped
      case Evaluated(hasAccess) => Offer(encode, s.profile, n, hasAccess, |s.channel|)
    }

    /** One turn of the forwarding loop: the filters in the order of the service, then the send. */
    method ForwardOne(sub: Consumer, n: NotificationModel, hasAccess: bool) returns (outcome: Outcome)
      requires sub.Valid()
      modifies sub
      ensures sub.Valid()
      ensures outcome == old(Offer(encode, sub.profile, n, hasAccess, |sub.channel|))
      ensures sub.channel == After(outcome, old(sub.channel))
    {
      if n.isE2ETest {
        if sub.profile.kind == Standard {
          return Skipped;
        }
      } else {
        var matches := MatchesSubType(n, sub.profile.subTypes);
        if !matches {
          return Skipped;
        }
        if !hasAccess {
          return Skipped;
        }
        if n.eventType == RELATED_CONTENT_TYPE && !sub.profile.options.receiveInternalUnstable {
          return Skipped;
        }
      }
      var result := sub.Send(encode, CreateNotificationResponse(n, Some(sub.profile.options)));
      if result == Accepted {
        outcome := Sent(sub.channel[|sub.channel| - 1]);
      } else {
        outcome := Failed(result == LaggingBehind);
      }
    }

    ghost function Fates(n: NotificationModel): map<Consumer, Outcome>
      reads this, subscribers
    {
      map s | s in subscribers :: OutcomeFor(s, n)
    }

    /**
     * Visits the subscribers in an arbitrary order, once each. The contract does not mention that
     * order: every buffer and every counter is a function of the state before the call.
     */
    method ForwardToSubscribers(n: NotificationModel) returns (totals: Totals, failure: bool)
      requires Valid()
      modifies subscribers
      ensures Valid()
      ensures forall s :: s in subscribers ==> s.channel == old(After(OutcomeFor(s, n), s.channel))
      ensures Evaluate(policy, n) == Aborted ==> totals == Totals(0, 0, 0)
      ensures Evaluate(policy, n) != Aborted ==>
        && totals == Tally(old(Fates(n)), subscribers)
        && totals.sent + totals.failed + totals.skipped == |subscribers|
      ensures failure <==>
        subscribers != {} && totals.sent == 0 && (Evaluate(policy, n) == Aborted || totals.failed > 0)
    {
      totals := Totals(0, 0, 0);
      var evaluation := Evaluate(policy, n);
      if evaluation != Aborted {
        ghost var before := map s | s in subscribers :: s.channel;
        ghost var order;
        totals, order := ForwardAll(n, evaluation.hasAccess, Fates(n), before);
        CountAllIsTally(old(Fates(n)), order, subscribers);
        TallyCountsAll(old(Fates(n)), subscribers);
      }
      failure := LogsError(|subscribers|, totals);
    }

    /** These fates are what the loop does to subscribers whose buffers hold this. */
    ghost predicate Foretold(fates: map<Consumer, Outcome>, before: map<Consumer, seq<string>>, n: NotificationModel,
                             hasAccess: bool)
    {
      fates.Keys == before.Keys
      && forall s {:trigger Offer(encode, s.profile, n, hasAccess, |before[s]|)} ::
           s in fates ==> fates[s] == Offer(encode, s.profile, n, hasAccess, |before[s]|)
    }

    /** The subscribers visited so far have met their fates, and the others are as before. */
    ghost predicate Buffers(fates: map<Consumer, Outcome>, before: map<Consumer, seq<string>>, visited: set<Consumer>)
      reads this, subscribers
    {
      fates.Keys == before.Keys == subscribers
      && forall s :: s in subscribers ==>
           s.Valid() && s.channel == if s in visited then After(fates[s], before[s]) else before[s]
    }

    method Visit(sub: Consumer, n: NotificationModel, hasAccess: bool, ghost fates: map<Consumer, Outcome>,
                 ghost before: map<Consumer, seq<string>>, ghost visited: set<Consumer>) returns (outcome: Outcome)
      requires Foretold(fates, before, n, hasAccess) && Buffers(fates, before, visited)
      requires sub in subscribers && sub !in visited
      modifies sub
      ensures Buffers(fates, before, visited + {sub}) && outcome == fates[sub]
    {
      outcome := ForwardOne(sub, n, hasAccess);
      assert fates[sub] == Offer(encode, sub.profile, n, hasAccess, |before[sub]|);
    }

    method VisitAndCount(sub: Consumer, n: NotificationModel, hasAccess: bool, totals: Totals,
                         ghost fates: map<Consumer, Outcome>, ghost before: map<Consumer, seq<string>>,
                         ghost visited: set<Consumer>, ghost order: seq<Consumer>)
      returns (more: Totals, ghost longer: seq<Consumer>)
      requires Foretold(fates, before, n, hasAccess) && Buffers(fates, before, visited)
      requires Counted(fates, order, visited, totals) && sub in subscribers && sub !in visited
      modifies sub
      ensures Buffers(fates, before, visited + {sub}) && Counted(fates, longer, visited + {sub}, more)
    {
      var outcome := Visit(sub, n, hasAccess, fates, before, visited);
      OneMoreVisited(fates, order, visited, totals, sub);
      more, longer := Count(totals, outcome), order + [sub];
    }

    /** The loop: one visit of each subscriber, in whatever order the map yields them. */
    method ForwardAll(n: NotificationModel, hasAccess: bool, ghost fates: map<Consumer, Outcome>,
                      ghost before: map<Consumer, seq<string>>)
      returns (totals: Totals, ghost order: seq<Consumer>)
      requires Foretold(fates, before, n, hasAccess) && Buffers(fates, before, {})
      modifies subscribers
      ensures Buffers(fates, before, subscribers)
      ensures IsOrderOf(order, subscribers) && totals == CountAll(fates, order)
    {
      totals, order := Totals(0, 0, 0), [];
      var todo := subscribers;
      ghost var visited := {};
      while todo != {}
        invariant todo <= subscribers && visited == subscribers - todo
        invariant Buffers(fates, before, visited) && Counted(fates, order, visited, totals)
        decreases |todo|
      {
        var sub :| sub in todo;
        totals, order := VisitAndCount(sub, n, hasAccess, totals, fates, before, visited, order);
        todo, visited := todo - {sub}, visited + {sub};
      }
    }

    /** One turn of the dispatcher loop: forward, then record, whatever the forward did. */
    method Process(n: NotificationModel)
      requires Valid() && history.Valid()
      modifies subscribers, history, history.notifications
      ensures Valid() && history.Valid()
      ensures forall s :: s in subscribers ==>
        s.channel == old(After(OutcomeFor(s, n), s.channel))
      ensures PushedTo(history.parse, history.size, old(history.Contents()), n, history.Contents())
    {
      var totals, failure := ForwardToSubscribers(n);
      history.Push(n);
    }
  }
}
