// End to end: from Kafka messages, through the dispatcher, to what a client reads.
module Pipeline {

  import opened Basics
  import opened Text
  import opened Notifications
  import opened Subscribers
  import opened Dispatching
  import opened Handler
  import opened Protocol
  import opened Invariants
  import opened Delivery
  import opened Runs
  import opened Consumption
  import opened Requests
  import opened Stream
  import opened Progress
  import opened SendOrder
  import opened Reading
  import opened EventSource
  import opened Accounting

  /** A message handled by the queue handler, or any step of the dispatcher that is not a send. */
  datatype Event = Consume(msg: FTMessage) | Other(step: Label)

  /** The steps an event takes: handling a message sends what it is admitted as, if anything. */
  function StepsOf(settings: Settings, event: Event): seq<Label> {
    match event
    case Other(l) => [l]
    case Consume(msg) =>
      match Admission(settings, msg)
      case None => []
      case Some(n) => [Send(n)]
  }

  function Steps(settings: Settings, events: seq<Event>): seq<Label> {
    if events == [] then [] else StepsOf(settings, events[0]) + Steps(settings, events[1..])
  }

  /** The notifications the consumed messages are admitted as, in order. */
  function Admitted(settings: Settings, events: seq<Event>): seq<NotificationModel> {
    if events == [] then []
    else
      (match events[0]
       case Other(_) => []
       case Consume(msg) => match Admission(settings, msg) case None => [] case Some(n) => [n])
      + Admitted(settings, events[1..])
  }

  function Consumed(events: seq<Event>): nat {
    if events == [] then 0 else (if events[0].Consume? then 1 else 0) + Consumed(events[1..])
  }

  ghost predicate IsPipelineRun(c: Config, settings: Settings, events: seq<Event>) {
    && (forall i :: 0 <= i < |events| ==> !(events[i].Other? && events[i].step.Send?))
    && Valid(c, INITIAL, Steps(settings, events))
  }

  ghost function Final(c: Config, settings: Settings, events: seq<Event>): State
    requires IsPipelineRun(c, settings, events)
  {
    Exec(c, INITIAL, Steps(settings, events))
  }

  lemma FinalIsReachable(c: Config, settings: Settings, events: seq<Event>)
    requires IsPipelineRun(c, settings, events)
    ensures Reachable(c, Final(c, settings, events))
  {
  }

  // ---------------------------------------------------------------- every send has its message

  function SentBy(labels: seq<Label>): seq<NotificationModel> {
    if labels == [] then []
    else (if labels[0].Send? then [labels[0].n] else []) + SentBy(labels[1..])
  }

  lemma SendsLog(c: Config, s: State, l: Label)
    requires Enabled(c, s, l)
    ensures Apply(c, s, l).sends == s.sends + if l.Send? then [l.n] else []
  {
  }

  lemma {:induction false} SendsAreLogged(c: Config, s: State, labels: seq<Label>)
    requires Valid(c, s, labels)
    ensures Exec(c, s, labels).sends == s.sends + SentBy(labels)
    decreases |labels|
  {
    if labels != [] {
      SendsLog(c, s, labels[0]);
      var next := Apply(c, s, labels[0]);
      SendsAreLogged(c, next, labels[1..]);
      var first, rest := if labels[0].Send? then [labels[0].n] else [], SentBy(labels[1..]);
      assert s.sends + first + rest == s.sends + (first + rest);
    }
  }

  lemma {:induction false} SentByConcat(a: seq<Label>, b: seq<Label>)
    ensures SentBy(a + b) == SentBy(a) + SentBy(b)
  {
    if a == [] {
      assert a + b == b;
    } else {
      SentByConcat(a[1..], b);
      var first, rest, others := if a[0].Send? then [a[0].n] else [], SentBy(a[1..]), SentBy(b);
      assert (a + b)[0] == a[0] && (a + b)[1..] == a[1..] + b;
      assert first + (rest + others) == first + rest + others;
    }
  }

  lemma SentByOne(l: Label)
    ensures SentBy([l]) == if l.Send? then [l.n] else []
  {
  }

  lemma {:induction false} SentIsAdmitted(settings: Settings, events: seq<Event>)
    requires forall i :: 0 <= i < |events| ==> !(events[i].Other? && events[i].step.Send?)
    ensures SentBy(Steps(settings, events)) == Admitted(settings, events)
    ensures |Admitted(settings, events)| <= Consumed(events)
  {
    if events != [] {
      var first := StepsOf(settings, events[0]);
      SentByConcat(first, Steps(settings, events[1..]));
      if first != [] {
        assert first == [first[0]];
        SentByOne(first[0]);
      }
      SentIsAdmitted(settings, events[1..]);
    }
  }

  /** What reaches Send is exactly what the messages are admitted as: at most one for each. */
  lemma OneSendPerMessage(c: Config, settings: Settings, events: seq<Event>)
    requires IsPipelineRun(c, settings, events)
    ensures Final(c, settings, events).sends == Admitted(settings, events)
    ensures |Final(c, settings, events).sends| <= Consumed(events)
  {
    SendsAreLogged(c, INITIAL, Steps(settings, events));
    SentIsAdmitted(settings, events);
  }

  lemma {:induction false} AdmittedIsListed(settings: Settings, events: seq<Event>, i: nat)
    requires i < |events| && events[i].Consume? && Admission(settings, events[i].msg).Some?
    ensures Admission(settings, events[i].msg).value in Admitted(settings, events)
  {
    if i > 0 {
      AdmittedIsListed(settings, events[1..], i - 1);
    }
  }

  /** No admissible message is overlooked, and no other message is let in. */
  lemma SentIffAdmissible(c: Config, settings: Settings, events: seq<Event>, i: nat)
    requires IsPipelineRun(c, settings, events) && i < |events| && events[i].Consume?
    ensures Admissible(settings, events[i].msg) <==>
            Admission(settings, events[i].msg).Some?
            && Admission(settings, events[i].msg).value in Final(c, settings, events).sends
  {
    AdmittedExactly(settings, events[i].msg);
    OneSendPerMessage(c, settings, events);
    if Admission(settings, events[i].msg).Some? {
      AdmittedIsListed(settings, events, i);
    }
  }

  ghost predicate ComesFrom(settings: Settings, event: Event, n: NotificationModel) {
    event.Consume? && Admission(settings, event.msg).Some?
    && Undated(Admission(settings, event.msg).value) == Undated(n)
  }

  lemma {:induction false} AdmittedHasMessage(settings: Settings, events: seq<Event>, n: NotificationModel)
    returns (i: nat)
    requires n in Admitted(settings, events)
    ensures i < |events| && events[i].Consume? && Admission(settings, events[i].msg) == Some(n)
  {
    if events[0].Consume? && Admission(settings, events[0].msg) == Some(n) {
      i := 0;
    } else {
      var j := AdmittedHasMessage(settings, events[1..], n);
      i := j + 1;
    }
  }

  /** Every forwarded notification is one that a consumed message was admitted as. */
  lemma Origin(c: Config, settings: Settings, events: seq<Event>, index: nat) returns (i: nat)
    requires IsPipelineRun(c, settings, events)
    requires index < |Final(c, settings, events).dispatched|
    ensures i < |events| && ComesFrom(settings, events[i], Final(c, settings, events).dispatched[index].n)
  {
    var s := Final(c, settings, events);
    FinalIsReachable(c, settings, events);
    var k := DispatchedWasSent(c, s, index);
    OneSendPerMessage(c, settings, events);
    i := AdmittedHasMessage(settings, events, s.sends[k]);
  }

  lemma DispatchedWasSent(c: Config, s: State, index: nat) returns (k: nat)
    requires Reachable(c, s) && index < |s.dispatched|
    ensures k < |s.sends| && Undated(s.sends[k]) == Undated(s.dispatched[index].n)
  {
    ExactlyOnce(c, s);
    var n := Undated(s.dispatched[index].n);
    assert Map(Begun, s.dispatched)[index] == n;
    assert n in multiset(Map(Begun, s.dispatched));
    assert n in multiset(Map(Undated, s.sends));
    k :| 0 <= k < |s.sends| && Map(Undated, s.sends)[k] == n;
  }

  // ---------------------------------------------------------------- isolation

  /** The reference is that of a consumed message, it is an admissible one, and tells whether this is a test. */
  ghost predicate ReferenceOk(settings: Settings, events: seq<Event>, n: NotificationModel) {
    && !HasCarouselTransactionID(n.publishReference)
    && (n.isE2ETest <==> HasE2ETestTransactionID(n.publishReference, settings.e2eTestUUIDs))
    && (HasSynthTransactionID(n.publishReference) ==> n.isE2ETest)
    && n.subscriberID == ""
    && exists i :: 0 <= i < |events| && events[i].Consume? && TransactionID(events[i].msg) == n.publishReference
  }

  /** Nothing passed to Send bears a carousel reference, or a synthetic one that is not a test. */
  lemma OnlyAdmittedReferences(c: Config, settings: Settings, events: seq<Event>, n: NotificationModel)
    requires IsPipelineRun(c, settings, events) && n in Final(c, settings, events).sends
    ensures ReferenceOk(settings, events, n)
  {
    OneSendPerMessage(c, settings, events);
    var i := AdmittedHasMessage(settings, events, n);
    AdmittedIdentity(settings, events[i].msg, n);
  }

  /** Nor does anything forwarded. */
  lemma ForwardedReferences(c: Config, settings: Settings, events: seq<Event>, index: nat)
    requires IsPipelineRun(c, settings, events)
    requires index < |Final(c, settings, events).dispatched|
    ensures ReferenceOk(settings, events, Final(c, settings, events).dispatched[index].n)
  {
    FinalIsReachable(c, settings, events);
    var k := DispatchedWasSent(c, Final(c, settings, events), index);
    OnlyAdmittedReferences(c, settings, events, Final(c, settings, events).sends[k]);
  }

  /** A standard subscriber never holds a message about a test, and no message shows it an id. */
  lemma StandardIsolation(c: Config, settings: Settings, events: seq<Event>, id: string, e: Entry)
    requires IsPipelineRun(c, settings, events)
    requires id in Final(c, settings, events).subs && e in Final(c, settings, events).subs[id].accepted
    requires Final(c, settings, events).subs[id].profile.kind.Standard?
    ensures var s := Final(c, settings, events);
      && e.index < |s.dispatched|
      && !HasE2ETestTransactionID(s.dispatched[e.index].n.publishReference, settings.e2eTestUUIDs)
      && !HasSynthTransactionID(s.dispatched[e.index].n.publishReference)
      && e.response.subscriberID == "" && e.response.publishReference == ""
      && e.response.lastModified == "" && e.response.notificationDate == ""
  {
    var s := Final(c, settings, events);
    EntryOrigin(c, settings, events, id, e);
    ForwardedReferences(c, settings, events, e.index);
  }

  lemma EntryOrigin(c: Config, settings: Settings, events: seq<Event>, id: string, e: Entry)
    requires IsPipelineRun(c, settings, events)
    requires id in Final(c, settings, events).subs && e in Final(c, settings, events).subs[id].accepted
    ensures IsOwed(c, Final(c, settings, events).dispatched, Final(c, settings, events).subs[id].profile, e)
    ensures Final(c, settings, events).subs[id].profile.id == id
  {
    FinalIsReachable(c, settings, events);
    ReachableInv(c, Final(c, settings, events));
    AcceptedIsOwed(c, Final(c, settings, events), id, e);
  }

  /** A monitoring subscriber's messages carry its own id and their message's reference. */
  lemma MonitorIdentity(c: Config, settings: Settings, events: seq<Event>, id: string, e: Entry)
    requires IsPipelineRun(c, settings, events)
    requires id in Final(c, settings, events).subs && e in Final(c, settings, events).subs[id].accepted
    requires Final(c, settings, events).subs[id].profile.kind.Monitor?
    ensures e.response.subscriberID == id
    ensures exists i :: 0 <= i < |events| && events[i].Consume?
                        && TransactionID(events[i].msg) == e.response.publishReference
  {
    EntryOrigin(c, settings, events, id, e);
    ForwardedReferences(c, settings, events, e.index);
  }

  /** A forward of a consumed message, and what of the notification is the message's. */
  lemma ForwardedContent(c: Config, settings: Settings, events: seq<Event>, i: nat, index: nat) returns (k: nat)
    requires IsPipelineRun(c, settings, events)
    requires index < |Final(c, settings, events).dispatched|
    requires i < |events| && ComesFrom(settings, events[i], Final(c, settings, events).dispatched[index].n)
    ensures events[i].msg.body.Some?
    ensures var n, event := Final(c, settings, events).dispatched[index].n, events[i].msg.body.value;
      && n.publication == event.payload.publication && n.editorialDesk == event.payload.editorialDesk
      && n.title == event.payload.title && n.lastModified == event.lastModified
      && (n.standout.Some? <==> event.payload.standout.Some?)
      && (n.standout.Some? ==> n.standout.value.scoop == event.payload.standout.value.scoop)
      && n.publishReference == TransactionID(events[i].msg)
      && (n.isE2ETest <==> HasE2ETestTransactionID(n.publishReference, settings.e2eTestUUIDs))
    ensures var n, uri := Final(c, settings, events).dispatched[index].n, events[i].msg.body.value.contentURI;
      && UUIDAt(uri, k) && (forall j :: 0 <= j < k ==> !UUIDAt(uri, j))
      && n.id == "http://www.ft.com/thing/" + uri[k..k + 36]
      && n.apiURL == settings.apiBaseURL + "/" + settings.apiUrlResource + "/" + uri[k..k + 36]
    ensures var n, p := Final(c, settings, events).dispatched[index].n, events[i].msg.body.value.payload;
      n.eventType ==
        if p.isRelatedContentNotification then "http://www.ft.com/thing/ThingChangeType/RELATEDCONTENT"
        else if p.deleted then "http://www.ft.com/thing/ThingChangeType/DELETE"
        else if p.publishCount == 1 then "http://www.ft.com/thing/ThingChangeType/CREATE"
        else settings.updateEventType
  {
    var msg, n := events[i].msg, Final(c, settings, events).dispatched[index].n;
    var admitted := Admission(settings, msg).value;
    k := AdmittedContent(settings, msg, admitted);
    AdmittedEventType(settings, msg, admitted);
    AdmittedIdentity(settings, msg, admitted);
    assert Undated(admitted) == Undated(n);
    SameButDate(admitted, n);
  }

  lemma SameButDate(a: NotificationModel, b: NotificationModel)
    requires Undated(a) == Undated(b)
    ensures a == b.(notificationDate := a.notificationDate)
  {
    assert a == Undated(a).(notificationDate := a.notificationDate);
    assert Undated(b).(notificationDate := a.notificationDate) == b.(notificationDate := a.notificationDate);
  }

  /**
   * What a subscriber holds of a message, field by field: address, id, title and scoop flag are the
   * message's own; reference, modification date and stamp are shown to monitors alone.
   */
  lemma HeldContent(c: Config, settings: Settings, events: seq<Event>, id: string, e: Entry) returns (i: nat, k: nat)
    requires IsPipelineRun(c, settings, events)
    requires id in Final(c, settings, events).subs && e in Final(c, settings, events).subs[id].accepted
    ensures i < |events| && events[i].Consume? && events[i].msg.body.Some?
    ensures var event, r := events[i].msg.body.value, e.response;
      && r.title == event.payload.title
      && (r.standout.Some? <==> event.payload.standout.Some?)
      && (r.standout.Some? ==> r.standout.value.scoop == event.payload.standout.value.scoop)
      && UUIDAt(event.contentURI, k) && (forall j :: 0 <= j < k ==> !UUIDAt(event.contentURI, j))
      && r.id == "http://www.ft.com/thing/" + event.contentURI[k..k + 36]
      && r.apiURL == settings.apiBaseURL + "/" + settings.apiUrlResource + "/" + event.contentURI[k..k + 36]
    ensures var s, r := Final(c, settings, events), e.response;
      && e.index < |s.dispatched| && c.encode(r) == Some(e.body)
      && if s.subs[id].profile.kind == Monitor then
           r.subscriberID == id && r.publishReference == TransactionID(events[i].msg)
           && r.lastModified == events[i].msg.body.value.lastModified
           && r.notificationDate == c.format(s.dispatched[e.index].stampedAt)
         else r.subscriberID == r.publishReference == r.lastModified == r.notificationDate == ""
  {
    var s := Final(c, settings, events);
    EntryOrigin(c, settings, events, id, e);
    i := Origin(c, settings, events, e.index);
    k := ForwardedContent(c, settings, events, i, e.index);
    ForwardedReferences(c, settings, events, e.index);
    ResponseMeaning(s.subs[id].profile, s.dispatched[e.index].n);
    FinalIsReachable(c, settings, events);
    DelayBound(c, s, e.index);
  }

  // ---------------------------------------------------------------- what the policy is asked

  /** The publication of a payload that a policy is asked about, if it is clear. */
  predicate PayloadAsksAbout(payload: Payload, publication: string) {
    match payload.publication
    case None => publication == ""
    case Some(uuids) =>
      var pink := "88fdde6c-2aa4-4f78-af02-9f680097cfd6";
      if pink in uuids then publication == pink else uuids == [publication]
  }

  /** A message whose publication list is empty, or has several entries and not Pink, reaches nobody. */
  lemma AmbiguousMessageReachesNobody(c: Config, settings: Settings, events: seq<Event>, i: nat, index: nat)
    requires IsPipelineRun(c, settings, events)
    requires index < |Final(c, settings, events).dispatched|
    requires i < |events| && ComesFrom(settings, events[i], Final(c, settings, events).dispatched[index].n)
    requires forall publication :: !PayloadAsksAbout(events[i].msg.body.value.payload, publication)
    ensures Receivers(Final(c, settings, events), index) == {}
  {
    var k := ForwardedContent(c, settings, events, i, index);
    FinalIsReachable(c, settings, events);
    var payload := events[i].msg.body.value.payload;
    assert payload.publication == None ==> PayloadAsksAbout(payload, "");
    if payload.publication.Some? && |payload.publication.value| == 1 {
      var uuids := payload.publication.value;
      assert uuids == [uuids[0]];
      assert PayloadAsksAbout(payload, uuids[0]);
    }
    assert !PayloadAsksAbout(payload, "88fdde6c-2aa4-4f78-af02-9f680097cfd6");
    AmbiguousPublicationReachesNobody(c, Final(c, settings, events), index);
  }

  /**
   * The policy is asked about the message's own desk and publication: its error keeps the message
   * from everybody, its refusal from everybody unless it is a test, and otherwise access is granted.
   */
  lemma MessagePolicyDecides(c: Config, settings: Settings, events: seq<Event>, i: nat, index: nat, publication: string)
    requires IsPipelineRun(c, settings, events)
    requires index < |Final(c, settings, events).dispatched|
    requires i < |events| && ComesFrom(settings, events[i], Final(c, settings, events).dispatched[index].n)
    requires PayloadAsksAbout(events[i].msg.body.value.payload, publication)
    ensures var s := Final(c, settings, events);
      var answer := c.policyAt(index)(events[i].msg.body.value.payload.editorialDesk, publication);
      && (answer == PolicyError || (answer == Deny && !s.dispatched[index].n.isE2ETest) ==> Receivers(s, index) == {})
      && (answer == Allow <==> Evaluate(c.policyAt(index), s.dispatched[index].n) == Evaluated(true))
      && (answer == Deny <==> Evaluate(c.policyAt(index), s.dispatched[index].n) == Evaluated(false))
  {
    var s := Final(c, settings, events);
    var k := ForwardedContent(c, settings, events, i, index);
    FinalIsReachable(c, settings, events);
    PolicyDecides(c, s, index, publication);
    EvaluationMeaning(c.policyAt(index), s.dispatched[index].n, publication);
  }

  /**
   * A consumed message whose transaction id contains a test UUID is held by every monitor its
   * forward passes, unless its buffer was full, and by nobody else: whatever its types and options,
   * and whether the policy allows or denies.
   */
  lemma TestMessageReachesMonitors(c: Config, settings: Settings, events: seq<Event>, i: nat, index: nat,
                                   k: nat, id: string)
    requires IsPipelineRun(c, settings, events)
    requires index < |Final(c, settings, events).dispatched|
    requires i < |events| && ComesFrom(settings, events[i], Final(c, settings, events).dispatched[index].n)
    requires k < |settings.e2eTestUUIDs| && Text.Contains(TransactionID(events[i].msg), settings.e2eTestUUIDs[k])
    requires var s := Final(c, settings, events);
      && id in s.subs && Passed(s, id, index)
      && Evaluate(c.policyAt(index), s.dispatched[index].n) != Aborted
      && c.encode(ResponseFor(s.subs[id].profile, s.dispatched[index].n)).Some?
    ensures var s := Final(c, settings, events);
      Got(s.subs[id].accepted, index) <==> s.subs[id].profile.kind == Monitor && index !in s.subs[id].refused
  {
    var s := Final(c, settings, events);
    var at := ForwardedContent(c, settings, events, i, index);
    FinalIsReachable(c, settings, events);
    TestsReachMonitors(c, s, id, index);
  }

  // ---------------------------------------------------------------- subscriptions

  /** Which typed notifications match a subscriber built from an accepted request. */
  lemma RequestMatches(lists: TypeLists, requested: seq<string>, n: NotificationModel)
    requires AreAscii(lists.supported) && IsAscii(n.subscriptionType) && n.subscriptionType != ""
    requires Resolved(lists, requested).Some?
    ensures TypeMatches(n, Resolved(lists, requested).value) <==> Admits(lists, requested, n.subscriptionType)
  {
    SubscriptionMeaning(lists, requested, n.subscriptionType);
  }

  /**
   * What a subscriber built from an accepted request is given of the typed notifications whose
   * forward has been past it, tests aside: those of the types asked for that the policy allows, if
   * they can be encoded and did not find its buffer full.
   */
  lemma RequestIsDelivered(c: Config, s: State, id: string, index: nat, lists: TypeLists, requested: seq<string>)
    requires Reachable(c, s) && id in s.subs && index < |s.dispatched| && Passed(s, id, index)
    requires AreAscii(lists.supported) && Resolved(lists, requested) == Some(s.subs[id].profile.subTypes)
    requires var n := s.dispatched[index].n; IsAscii(n.subscriptionType) && n.subscriptionType != "" && !n.isE2ETest
    ensures var n, profile := s.dispatched[index].n, s.subs[id].profile;
      Got(s.subs[id].accepted, index) <==>
        && Evaluate(c.policyAt(index), n) == Evaluated(true)
        && (n.eventType == RELATED_CONTENT_TYPE ==> profile.options.receiveInternalUnstable)
        && Admits(lists, requested, n.subscriptionType)
        && c.encode(ResponseFor(profile, n)).Some?
        && index !in s.subs[id].refused
  {
    ExactDelivery(c, s, id, index);
    RequestMatches(lists, requested, s.dispatched[index].n);
  }

  /**
   * A delete without a resolvable type, once its forward is evaluated and allowed, reaches every
   * subscriber it passes whose buffer has room, whatever that subscriber asked for.
   */
  lemma UntypedDeleteReachesAll(c: Config, settings: Settings, events: seq<Event>, i: nat, index: nat, id: string)
    requires IsPipelineRun(c, settings, events)
    requires index < |Final(c, settings, events).dispatched|
    requires i < |events| && ComesFrom(settings, events[i], Final(c, settings, events).dispatched[index].n)
    requires events[i].msg.body.value.payload.deleted
             && !events[i].msg.body.value.payload.isRelatedContentNotification
             && Header(events[i].msg, "Content-Type") !in HEADER_TYPES
             && !HasE2ETestTransactionID(TransactionID(events[i].msg), settings.e2eTestUUIDs)
    requires id in Final(c, settings, events).subs
    requires var s := Final(c, settings, events);
      var n := s.dispatched[index].n;
      && Final(c, settings, events).subs[id].joined <= index < Upto(s, id)
      && Evaluate(c.policyAt(index), n) == Evaluated(true)
      && c.encode(ResponseFor(s.subs[id].profile, n)).Some?
    ensures var s := Final(c, settings, events);
      Got(s.subs[id].accepted, index) <==> index !in s.subs[id].refused
  {
    var s := Final(c, settings, events);
    var n := s.dispatched[index].n;
    FinalIsReachable(c, settings, events);
    UntypedDeleteEligible(settings, events[i].msg, n, s.subs[id].profile);
    ExactDelivery(c, s, id, index);
  }

  lemma UntypedDeleteEligible(settings: Settings, msg: FTMessage, n: NotificationModel, profile: Profile)
    requires Admission(settings, msg).Some? && Undated(Admission(settings, msg).value) == Undated(n)
    requires msg.body.value.payload.deleted && !msg.body.value.payload.isRelatedContentNotification
    requires Header(msg, "Content-Type") !in HEADER_TYPES
    requires !HasE2ETestTransactionID(TransactionID(msg), settings.e2eTestUUIDs)
    ensures Eligible(profile, n, true)
  {
  }

  /**
   * Related content, deleted or not, reaches only subscribers of its type that may see unstable
   * content, tests aside: it never counts as a delete that everyone is told of.
   */
  lemma RelatedContentIsRestricted(c: Config, settings: Settings, events: seq<Event>, i: nat, index: nat, id: string)
    requires IsPipelineRun(c, settings, events)
    requires index < |Final(c, settings, events).dispatched|
    requires i < |events| && ComesFrom(settings, events[i], Final(c, settings, events).dispatched[index].n)
    requires events[i].msg.body.value.payload.isRelatedContentNotification
    requires !Final(c, settings, events).dispatched[index].n.isE2ETest
    requires id in Final(c, settings, events).subs && Got(Final(c, settings, events).subs[id].accepted, index)
    ensures var s := Final(c, settings, events);
      var profile, n := s.subs[id].profile, s.dispatched[index].n;
      profile.options.receiveInternalUnstable && HasType(profile.subTypes, ToLower(n.subscriptionType))
  {
    var s := Final(c, settings, events);
    FinalIsReachable(c, settings, events);
    ReachableHeld(c, s, id, index);
    var admitted := Admission(settings, events[i].msg).value;
    RelatedDeleteRouting(settings, events[i].msg, admitted, s.subs[id].profile.subTypes);
  }

  // ---------------------------------------------------------------- the history page

  function Others(labels: seq<Label>): seq<Event> {
    Map(l => Other(l), labels)
  }

  lemma {:induction false} StepsContinue(settings: Settings, events: seq<Event>, labels: seq<Label>)
    ensures Steps(settings, events + Others(labels)) == Steps(settings, events) + labels
  {
    if events != [] {
      assert (events + Others(labels))[1..] == events[1..] + Others(labels);
      StepsContinue(settings, events[1..], labels);
    } else if labels != [] {
      assert [] + Others(labels) == [Other(labels[0])] + ([] + Others(labels[1..]));
      StepsContinue(settings, [], labels[1..]);
    }
  }

  /** A continuation without sends continues the run of the pipeline. */
  lemma RunContinues(c: Config, settings: Settings, events: seq<Event>, t: State) returns (more: seq<Event>)
    requires IsPipelineRun(c, settings, events) && LeadsTo(c, Final(c, settings, events), t)
    ensures IsPipelineRun(c, settings, events + more) && Final(c, settings, events + more) == t
  {
    var labels :| SendsNothing(labels) && Valid(c, Final(c, settings, events), labels)
                  && t == Exec(c, Final(c, settings, events), labels);
    more := Others(labels);
    StepsContinue(settings, events, labels);
    ExecConcat(c, INITIAL, Steps(settings, events), labels);
  }

  lemma ConsumeFirst(c: Config, settings: Settings, msg: FTMessage, n: NotificationModel)
    requires Admission(settings, msg) == Some(n)
    ensures IsPipelineRun(c, settings, [Consume(msg)])
    ensures Final(c, settings, [Consume(msg)]) == Apply(c, INITIAL, Send(n))
  {
    assert [Consume(msg)][1..] == [];
    assert Steps(settings, [Consume(msg)]) == [Send(n)];
    assert Valid(c, INITIAL, []) && Exec(c, INITIAL, []) == INITIAL && [] + [Send(n)] == [Send(n)];
    ExecAppend(c, INITIAL, [], Send(n));
  }

  /** A history that has recorded one notification holds it. */
  lemma OnlyOneRecorded(c: Config, s: State, n: NotificationModel)
    requires Reachable(c, s) && s.loop.Idle? && c.historySize >= 1 && Forwarded(s) == [Undated(n)]
    ensures |s.history| == 1 && Undated(s.history[0]) == Undated(n)
  {
    ReachableInv(c, s);
    assert Forwarded(s) == Map(Begun, s.dispatched);
    assert |s.dispatched| == 1 && Map(Begun, s.dispatched)[0] == Undated(n);
    assert s.pushed == [s.dispatched[0].n];
    assert s.history[0] in multiset(s.history);
    assert s.history[0] in multiset(s.pushed);
  }

  /** The message's notification is a CREATE; with the usual settings, it is a first publish. */
  predicate IsCreate(settings: Settings, msg: FTMessage) {
    msg.body.Some? && EventTypeOf(settings, msg.body.value.payload) == CONTENT_CREATE_TYPE
  }

  lemma CreateMeaning(settings: Settings, msg: FTMessage)
    requires msg.body.Some?
    ensures var p := msg.body.value.payload;
      IsCreate(settings, msg) <==>
        !p.deleted && !p.isRelatedContentNotification
        && (p.publishCount == 1 || settings.updateEventType == CONTENT_CREATE_TYPE)
  {
  }

  /** Every admitted CREATE can come to stand in the history, where it keeps the page away. */
  lemma CreateBreaksPage(c: Config, settings: Settings, msg: FTMessage) returns (events: seq<Event>)
    requires c.historySize >= 1 && Admission(settings, msg).Some? && IsCreate(settings, msg)
    ensures |events| > 0 && events[0] == Consume(msg) && IsPipelineRun(c, settings, events)
    ensures !NoCreate(Final(c, settings, events).history)
  {
    var n := Admission(settings, msg).value;
    ConsumeFirst(c, settings, msg, n);
    var first := Final(c, settings, [Consume(msg)]);
    FinalIsReachable(c, settings, [Consume(msg)]);
    StayHere(c, first);
    var s := RunToNext(c, first, first, 0);
    s := RunToIdle(c, first, s);
    OnlyOneRecorded(c, s, n);
    var more := RunContinues(c, settings, [Consume(msg)], s);
    events := [Consume(msg)] + more;
    assert s.history[0].eventType == CONTENT_CREATE_TYPE;
  }

  /** Such a message: an article of the delivery configuration, published for the first time. */
  lemma PageCanBreak(c: Config) returns (settings: Settings, msg: FTMessage, events: seq<Event>)
    requires c.historySize >= 1
    ensures Header(msg, "Content-Type") == "application/vnd.ft-upp-article-internal+json"
    ensures msg.body.Some? && msg.body.value.payload.publishCount == 1
    ensures settings.updateEventType == CONTENT_UPDATE_TYPE
    ensures IsPipelineRun(c, settings, events) && !NoCreate(Final(c, settings, events).history)
  {
    var header := "application/vnd.ft-upp-article-internal+json";
    var payload := Payload("Article", "", None, "", 1, false, false, None);
    settings := Settings(_ => false, {header}, [], "", "", CONTENT_UPDATE_TYPE);
    msg := FTMessage(map["Content-Type" := header], Some(NotificationMessage(SampleURI(), "", "", "", payload)));
    SampleHasUUID();
    events := CreateBreaksPage(c, settings, msg);
  }

  /** Nothing else breaks the page: a CREATE in the history stands for a consumed, admitted CREATE. */
  lemma OnlyCreatesBreakPage(c: Config, settings: Settings, events: seq<Event>) returns (i: nat)
    requires IsPipelineRun(c, settings, events) && !NoCreate(Final(c, settings, events).history)
    ensures i < |events| && events[i].Consume?
    ensures Admission(settings, events[i].msg).Some? && IsCreate(settings, events[i].msg)
  {
    var s := Final(c, settings, events);
    var k :| 0 <= k < |s.history| && s.history[k].eventType == CONTENT_CREATE_TYPE;
    FinalIsReachable(c, settings, events);
    var index := HistoryShowsStamps(c, s, s.history[k]);
    i := Origin(c, settings, events, index);
    AdmittedTypes(settings, events[i].msg, Admission(settings, events[i].msg).value);
  }

  // ---------------------------------------------------------------- the client's side

  /** The message a frame carries. */
  function BodyOf(frame: Frame<Entry>): string {
    match frame.content
    case Beat => HEARTBEAT_MSG
    case Note(e) => e.body
  }

  /** Every byte the server has written to one subscriber. */
  function Bytes(sub: Subscription): string {
    Frames(Map(BodyOf, sub.handler.frames))
  }

  /** The encoder writes one bracketed line, with or without a line feed. */
  ghost predicate EncodesLines(c: Config) {
    forall r :: c.encode(r).Some? ==> IsBody(c.encode(r).value)
  }

  lemma {:induction false} NoteIsTaken(frames: seq<Frame<Entry>>, i: nat)
    requires i < |frames| && frames[i].content.Note?
    ensures frames[i].content.note in NotesOf(frames)
  {
    if i < |frames| - 1 {
      NoteIsTaken(frames[..|frames| - 1], i);
    }
  }

  /**
   * The client reads back, in order, exactly the messages written to its stream, and each of them
   * that is not a heartbeat is the encoded message of the forward it stands for.
   */
  lemma ClientReadsStream(c: Config, s: State, id: string)
    requires Reachable(c, s) && id in s.subs && EncodesLines(c)
    ensures Decode(Bytes(s.subs[id])) == Chomped(Map(BodyOf, s.subs[id].handler.frames))
    ensures forall e :: e in NotesOf(s.subs[id].handler.frames) ==>
      IsOwed(c, s.dispatched, s.subs[id].profile, e)
  {
    BodiesOk(c, s, id);
    StreamRoundTrip(Map(BodyOf, s.subs[id].handler.frames));
  }

  lemma BodiesOk(c: Config, s: State, id: string)
    requires Reachable(c, s) && id in s.subs && EncodesLines(c)
    ensures forall b :: b in Map(BodyOf, s.subs[id].handler.frames) ==> IsBody(b)
    ensures forall e :: e in NotesOf(s.subs[id].handler.frames) ==> IsOwed(c, s.dispatched, s.subs[id].profile, e)
  {
    var frames := s.subs[id].handler.frames;
    ReachableShape(c, s, id);
    forall e | e in NotesOf(frames)
      ensures IsOwed(c, s.dispatched, s.subs[id].profile, e) && IsBody(e.body)
    {
      assert e in s.subs[id].accepted;
      ReachableOwed(c, s, id, e);
    }
    HeartbeatIsBody();
    forall i | 0 <= i < |frames|
      ensures IsBody(BodyOf(frames[i]))
    {
      if frames[i].content.Note? {
        NoteIsTaken(frames, i);
      }
    }
  }

  lemma ReachableOwed(c: Config, s: State, id: string, e: Entry)
    requires Reachable(c, s) && id in s.subs && e in s.subs[id].accepted
    ensures IsOwed(c, s.dispatched, s.subs[id].profile, e)
  {
    ReachableInv(c, s);
    AcceptedIsOwed(c, s, id, e);
  }

  /**
   * When the last write fails half way, what gets through is the beginning of a frame: of a
   * heartbeat, or of the notification the handler had taken, which was owed. The client reads all
   * messages before it, and that one too exactly when its whole first line got through.
   */
  lemma ClientReadsCutStream(c: Config, s: State, id: string, body: string, part: string)
    requires Reachable(c, s) && id in s.subs && EncodesLines(c) && part <= FrameOf(body)
    requires body == HEARTBEAT_MSG || exists e :: e in InHand(s.subs[id].handler) && e.body == body
    ensures Decode(Bytes(s.subs[id]) + part) ==
            Chomped(Map(BodyOf, s.subs[id].handler.frames)) +
            if |part| > |DATA_FIELD + Chomp(body)| then [Chomp(body)] else []
    ensures forall e :: e in InHand(s.subs[id].handler) ==> IsOwed(c, s.dispatched, s.subs[id].profile, e)
  {
    BodiesOk(c, s, id);
    HeartbeatIsBody();
    InHandIsOwed(c, s, id);
    CutStream(Map(BodyOf, s.subs[id].handler.frames), body, part);
  }

  lemma InHandIsOwed(c: Config, s: State, id: string)
    requires Reachable(c, s) && id in s.subs && EncodesLines(c)
    ensures forall e :: e in InHand(s.subs[id].handler) ==>
      IsOwed(c, s.dispatched, s.subs[id].profile, e) && IsBody(e.body)
  {
    ReachableShape(c, s, id);
    forall e | e in InHand(s.subs[id].handler)
      ensures IsOwed(c, s.dispatched, s.subs[id].profile, e) && IsBody(e.body)
    {
      assert e in s.subs[id].accepted;
      ReachableOwed(c, s, id, e);
    }
  }

  // ---------------------------------------------------------------- from queue to client

  /** A client of a subscriber that a message is meant for can come to read that message. */
  lemma MessageReachesClient(c: Config, settings: Settings, profile: Profile, msg: FTMessage, publication: string)
    returns (events: seq<Event>, e: Entry)
    requires Admission(settings, msg).Some? && IsMeantFor(c, profile, Admission(settings, msg).value, publication)
    requires EncodesLines(c) && forall r :: c.encode(r).Some?
    ensures Consume(msg) in events && IsPipelineRun(c, settings, events)
    ensures var s := Final(c, settings, events);
      && profile.id in s.subs && e in s.subs[profile.id].accepted && e.index == 0 < |s.dispatched|
      && ComesFrom(settings, Consume(msg), s.dispatched[0].n)
      && Chomp(e.body) in Decode(Bytes(s.subs[profile.id]))
  {
    var n := Admission(settings, msg).value;
    var first := [Other(Connect(profile)), Other(Subscribe(profile.id)), Consume(msg)];
    FirstEvents(c, settings, profile, msg, n);
    var s := Final(c, settings, first);
    FinalIsReachable(c, settings, first);
    OneSubscriberOneSend(c, profile, n);
    var t := NotificationGetsThrough(c, s, profile, n, publication);
    var more := RunContinues(c, settings, first, t);
    events := first + more;
    assert events[2] == Consume(msg);
    e := NoteIsRead(c, t, profile.id);
  }

  lemma FirstEvents(c: Config, settings: Settings, profile: Profile, msg: FTMessage, n: NotificationModel)
    requires Admission(settings, msg) == Some(n)
    ensures var first := [Other(Connect(profile)), Other(Subscribe(profile.id)), Consume(msg)];
      IsPipelineRun(c, settings, first) && Steps(settings, first) == FirstSteps(profile, n)
  {
    var first := [Other(Connect(profile)), Other(Subscribe(profile.id)), Consume(msg)];
    assert first[1..] == [Other(Subscribe(profile.id)), Consume(msg)];
    assert first[1..][1..] == [Consume(msg)] && [Consume(msg)][1..] == [];
    assert Steps(settings, [Consume(msg)]) == [Send(n)];
    assert Steps(settings, first[1..]) == [Subscribe(profile.id)] + [Send(n)];
    assert Steps(settings, first) == FirstSteps(profile, n);
    OneSubscriberOneSend(c, profile, n);
  }

  /** What a stream shows of the first forward, its client reads. */
  lemma NoteIsRead(c: Config, t: State, id: string) returns (e: Entry)
    requires Reachable(c, t) && id in t.subs && EncodesLines(c) && Got(NotesOf(t.subs[id].handler.frames), 0)
    ensures e in t.subs[id].accepted && e.index == 0
    ensures Chomp(e.body) in Decode(Bytes(t.subs[id]))
  {
    var frames := t.subs[id].handler.frames;
    var k :| 0 <= k < |NotesOf(frames)| && NotesOf(frames)[k].index == 0;
    e := NotesOf(frames)[k];
    ReachableShape(c, t, id);
    assert e in NotesOf(frames) && e in t.subs[id].accepted;
    var i := NoteHasFrame(frames, e);
    ClientReadsStream(c, t, id);
    assert Chomped(Map(BodyOf, frames))[i] == Chomp(e.body);
  }

  lemma {:induction false} NoteHasFrame(frames: seq<Frame<Entry>>, e: Entry) returns (i: nat)
    requires e in NotesOf(frames)
    ensures i < |frames| && frames[i].content == Note(e)
  {
    var front, last := frames[..|frames| - 1], frames[|frames| - 1];
    if e in NotesOf(front) {
      i := NoteHasFrame(front, e);
    } else {
      i := |frames| - 1;
    }
  }

  /** A standard event-stream reader is given the same messages, one event each. */
  lemma StandardReaderReadsStream(c: Config, s: State, id: string)
    requires Reachable(c, s) && id in s.subs && EncodesLines(c)
    requires forall r :: c.encode(r).Some? ==> OnOneLine(Chomp(c.encode(r).value))
    ensures Events(Bytes(s.subs[id]), "") == Chomped(Map(BodyOf, s.subs[id].handler.frames))
    ensures s.subs[id].handler.frames != [] ==> "data: []\n\n" <= Bytes(s.subs[id])
  {
    var frames := s.subs[id].handler.frames;
    BodiesOk(c, s, id);
    forall i | 0 <= i < |frames|
      ensures OnOneLine(Chomp(BodyOf(frames[i])))
    {
      FrameBody(c, s, id, i);
    }
    FramesAreEvents(Map(BodyOf, frames));
    if frames != [] {
      HeartbeatBytes();
      ReachableHealthy(c, s, id);
      assert Map(BodyOf, frames)[0] == HEARTBEAT_MSG;
    }
  }

  lemma FrameBody(c: Config, s: State, id: string, i: nat)
    requires Reachable(c, s) && id in s.subs && EncodesLines(c) && i < |s.subs[id].handler.frames|
    ensures var body := BodyOf(s.subs[id].handler.frames[i]);
      body == HEARTBEAT_MSG == Chomp(body) || exists r :: c.encode(r) == Some(body)
  {
    BodiesOk(c, s, id);
    HeartbeatIsBody();
    var frame := s.subs[id].handler.frames[i];
    if frame.content.Note? {
      NoteIsTaken(s.subs[id].handler.frames, i);
      assert IsOwed(c, s.dispatched, s.subs[id].profile, frame.content.note);
    }
  }
}
