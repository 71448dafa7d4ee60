// From a Kafka message to at most one notification (consumer/consume.go, mapper.go, publish_event.go).
module Consumption {

  import opened Basics
  import opened Text
  import opened Notifications
  import opened Dispatching

  datatype PayloadStandout = PayloadStandout(editorsChoice: bool, exclusive: bool, scoop: bool)

  datatype Payload = Payload(
    contentType: string,
    title: string,
    publication: Option<seq<string>>,
    editorialDesk: string,
    publishCount: int,
    deleted: bool,
    isRelatedContentNotification: bool,
    standout: Option<PayloadStandout>)

  datatype NotificationMessage = NotificationMessage(
    contentURI: string,
    contentType: string,
    lastModified: string,
    messageType: string,
    payload: Payload)

  /** A queue message; its body is already decoded, None standing for malformed JSON. */
  datatype FTMessage = FTMessage(headers: map<string, string>, body: Option<NotificationMessage>)

  datatype Settings = Settings(
    uriAllowed: string -> bool,
    contentTypes: set<string>,
    e2eTestUUIDs: seq<string>,
    apiBaseURL: string,
    apiUrlResource: string,
    updateEventType: string)

  const JSON_CONTENT_TYPE := "application/json"
  const ANNOTATION_MESSAGE_TYPE := "concept-annotation"
  const CAROUSEL_MARK := "_carousel_"
  const SYNTHETIC_PREFIX := "SYNTH"

  function Header(msg: FTMessage, name: string): string {
    if name in msg.headers then msg.headers[name] else ""
  }

  function TransactionID(msg: FTMessage): string {
    Header(msg, "X-Request-Id")
  }

  /** The decoded body with the two fields that come from headers. */
  function Unmarshal(msg: FTMessage): Option<NotificationMessage> {
    match msg.body
    case None => None
    case Some(event) =>
      Some(event.(contentType := Header(msg, "Content-Type"), messageType := Header(msg, "Message-Type")))
  }

  // ---------------------------------------------------------------- transaction ids

  predicate HasSynthTransactionID(tid: string) {
    HasPrefix(tid, SYNTHETIC_PREFIX)
  }

  predicate HasE2ETestTransactionID(tid: string, e2eTestUUIDs: seq<string>) {
    exists i :: 0 <= i < |e2eTestUUIDs| && Contains(tid, e2eTestUUIDs[i])
  }

  predicate CarouselMarkAt(tid: string, i: nat) {
    OccursAt(tid, CAROUSEL_MARK, i)
    && i + |CAROUSEL_MARK| + 10 <= |tid|
    && forall k :: i + |CAROUSEL_MARK| <= k < i + |CAROUSEL_MARK| + 10 ==> '0' <= tid[k] <= '9'
  }

  /** A mark after at least one character, followed by ten digits, on a single line. */
  predicate HasCarouselTransactionID(tid: string) {
    '\n' !in tid && exists i :: 1 <= i <= |tid| && CarouselMarkAt(tid, i)
  }

  // ---------------------------------------------------------------- UUIDs

  predicate IsHex(c: char) {
    'a' <= c <= 'f' || 'A' <= c <= 'F' || '0' <= c <= '9'
  }

  predicate IsUUIDChar(position: int, c: char) {
    if position == 8 || position == 13 || position == 18 || position == 23 then c == '-' else IsHex(c)
  }

  predicate UUIDAt(s: string, i: nat) {
    i + 36 <= |s|
    && forall k :: i <= k < i + 36 ==> IsUUIDChar(k - i, s[k])
  }

  /** The leftmost UUID from a position on, or the empty string. */
  function FindUUID(s: string, from: nat): (uuid: string)
    requires from <= |s|
    ensures uuid == "" <==> forall i :: from <= i <= |s| ==> !UUIDAt(s, i)
    ensures uuid != "" ==> exists i :: from <= i && UUIDAt(s, i) && uuid == s[i..i + 36]
                                       && forall j :: from <= j < i ==> !UUIDAt(s, j)
    decreases |s| - from
  {
    if UUIDAt(s, from) then s[from..from + 36]
    else if from == |s| then ""
    else FindUUID(s, from + 1)
  }

  // ---------------------------------------------------------------- mapping

  /** The content types a delete's header can name. */
  const HEADER_TYPES: map<string, string> := map[
    "application/vnd.ft-upp-article-internal+json" := ARTICLE_CONTENT_TYPE,
    "application/vnd.ft-upp-content-package+json" := CONTENT_PACKAGE_TYPE,
    "application/vnd.ft-upp-audio+json" := AUDIO_CONTENT_TYPE,
    "application/vnd.ft-upp-live-blog-post-internal+json" := LIVE_BLOG_POST_TYPE,
    "application/vnd.ft-upp-live-blog-package-internal+json" := LIVE_BLOG_PACKAGE_TYPE,
    "application/vnd.ft-upp-page+json" := PAGE_TYPE,
    "application/vnd.ft-upp-list+json" := LIST_TYPE
  ]

  function ResolveTypeFromMessageHeader(header: string): string {
    if header in HEADER_TYPES then HEADER_TYPES[header] else ""
  }

  /** Related content outranks deletion, which outranks a first publish. */
  function EventTypeOf(settings: Settings, payload: Payload): string {
    if payload.isRelatedContentNotification then RELATED_CONTENT_TYPE
    else if payload.deleted then CONTENT_DELETE_TYPE
    else if payload.publishCount == 1 then CONTENT_CREATE_TYPE
    else settings.updateEventType
  }

  function SubscriptionTypeOf(event: NotificationMessage): string {
    if event.payload.deleted then ResolveTypeFromMessageHeader(event.contentType)
    else if event.payload.contentType == "" && event.messageType == ANNOTATION_MESSAGE_TYPE then ANNOTATIONS_TYPE
    else event.payload.contentType
  }

  /** The notification of an event; None when its content URI holds no UUID. */
  function Mapped(settings: Settings, event: NotificationMessage, tid: string): Option<NotificationModel> {
    var uuid := FindUUID(event.contentURI, 0);
    if uuid == "" then None
    else Some(NotificationModel(
      settings.apiBaseURL + "/" + settings.apiUrlResource + "/" + uuid,
      "http://www.ft.com/thing/" + uuid,
      EventTypeOf(settings, event.payload),
      "",
      event.payload.editorialDesk,
      tid,
      event.lastModified,
      "",
      event.payload.title,
      match event.payload.standout case None => None case Some(s) => Some(Standout(s.scoop)),
      SubscriptionTypeOf(event),
      false,
      event.payload.publication))
  }

  method MapNotification(settings: Settings, event: NotificationMessage, tid: string)
    returns (n: Option<NotificationModel>)
    ensures n == Mapped(settings, event, tid)
  {
    var uuid := FindUUID(event.contentURI, 0);
    if uuid == "" {
      return None;
    }
    var eventType := settings.updateEventType;
    var contentType := event.payload.contentType;
    if contentType == "" && event.messageType == ANNOTATION_MESSAGE_TYPE {
      contentType := ANNOTATIONS_TYPE;
    }
    if event.payload.publishCount == 1 {
      eventType := CONTENT_CREATE_TYPE;
    }
    if event.payload.deleted {
      eventType := CONTENT_DELETE_TYPE;
      contentType := ResolveTypeFromMessageHeader(event.contentType);
    }
    if event.payload.isRelatedContentNotification {
      eventType := RELATED_CONTENT_TYPE;
    }
    var standout: Option<Standout> := None;
    if event.payload.standout.Some? {
      standout := Some(Standout(event.payload.standout.value.scoop));
    }
    n := Some(NotificationModel(
      settings.apiBaseURL + "/" + settings.apiUrlResource + "/" + uuid, "http://www.ft.com/thing/" + uuid,
      eventType, "", event.payload.editorialDesk, tid, event.lastModified, "", event.payload.title,
      standout, contentType, false, event.payload.publication));
  }

  // ---------------------------------------------------------------- admission

  /** What the allow-lists ask of an event that is not an end-to-end test. */
  predicate IsAllowed(settings: Settings, event: NotificationMessage) {
    if event.contentType == JSON_CONTENT_TYPE then settings.uriAllowed(event.contentURI)
    else event.contentType in settings.contentTypes
  }

  /** The notification a message is admitted as, or None for a message that is passed over. */
  function Admission(settings: Settings, msg: FTMessage): Option<NotificationModel> {
    var tid := TransactionID(msg);
    var isE2ETest := HasE2ETestTransactionID(tid, settings.e2eTestUUIDs);
    match Unmarshal(msg)
    case None => None
    case Some(event) =>
      if HasCarouselTransactionID(tid) || !(isE2ETest || (!HasSynthTransactionID(tid) && IsAllowed(settings, event)))
      then None
      else
        match Mapped(settings, event, tid)
        case None => None
        case Some(n) => Some(n.(isE2ETest := isE2ETest))
  }

  class StringSet {

    var m: set<string>

    constructor ()
      ensures m == {}
    {
      m := {};
    }

    method Add(value: string)
      modifies this
      ensures m == old(m) + {value}
    {
      m := m + {value};
    }

    predicate Contains(value: string)
      reads this
    {
      value in m
    }
  }

  class QueueHandler {

    const settings: Settings
    const contentTypeAllowlist: StringSet
    /** The notifications handed to the dispatcher's Send, in call order. */
    var sent: seq<NotificationModel>

    constructor (settings: Settings, contentTypeAllowlist: StringSet)
      ensures this.settings == settings && this.contentTypeAllowlist == contentTypeAllowlist && sent == []
    {
      this.settings := settings;
      this.contentTypeAllowlist := contentTypeAllowlist;
      sent := [];
    }

    method HasE2ETest(tid: string) returns (found: bool)
      ensures found <==> HasE2ETestTransactionID(tid, settings.e2eTestUUIDs)
    {
      for i := 0 to |settings.e2eTestUUIDs|
        invariant forall j :: 0 <= j < i ==> !Text.Contains(tid, settings.e2eTestUUIDs[j])
      {
        if Text.Contains(tid, settings.e2eTestUUIDs[i]) {
          return true;
        }
      }
      return false;
    }

    /** Hands over exactly the admitted notification, if there is one. */
    method HandleMessage(msg: FTMessage)
      modifies this`sent
      ensures sent == old(sent) + match Admission(settings.(contentTypes := contentTypeAllowlist.m), msg)
                                  case None => []
                                  case Some(n) => [n]
    {
      var tid := TransactionID(msg);
      var pubEvent := Unmarshal(msg);
      if pubEvent.None? {
        return;
      }
      if HasCarouselTransactionID(tid) {
        return;
      }
      var isE2ETest := HasE2ETest(tid);
      if !isE2ETest {
        if HasSynthTransactionID(tid) {
          return;
        }
        if pubEvent.value.contentType == JSON_CONTENT_TYPE {
          if !settings.uriAllowed(pubEvent.value.contentURI) {
            return;
          }
        } else {
          if !contentTypeAllowlist.Contains(pubEvent.value.contentType) {
            return;
          }
        }
      }
      var notification := MapNotification(settings, pubEvent.value, tid);
      assert notification == Mapped(settings.(contentTypes := contentTypeAllowlist.m), pubEvent.value, tid);
      if notification.None? {
        return;
      }
      sent := sent + [notification.value.(isE2ETest := isE2ETest)];
    }
  }

  // ---------------------------------------------------------------- what admission guarantees

  /** What a message must be like to be admitted: tests skip the allow-lists, nothing skips the carousel rule. */
  ghost predicate Admissible(settings: Settings, msg: FTMessage) {
    var tid, contentType := Header(msg, "X-Request-Id"), Header(msg, "Content-Type");
    && msg.body.Some?
    && (exists i :: 0 <= i <= |msg.body.value.contentURI| && UUIDAt(msg.body.value.contentURI, i))
    && !HasCarouselTransactionID(tid)
    && (HasE2ETestTransactionID(tid, settings.e2eTestUUIDs)
        || (!HasSynthTransactionID(tid)
            && (if contentType == "application/json" then settings.uriAllowed(msg.body.value.contentURI)
                else contentType in settings.contentTypes)))
  }

  lemma AdmittedExactly(settings: Settings, msg: FTMessage)
    ensures Admission(settings, msg).Some? <==> Admissible(settings, msg)
  {
  }

  /** The event type and subscription type an admitted message ends up with. */
  lemma AdmittedTypes(settings: Settings, msg: FTMessage, n: NotificationModel)
    requires Admission(settings, msg) == Some(n)
    ensures msg.body.Some? && n.eventType == EventTypeOf(settings, msg.body.value.payload)
    ensures var p := msg.body.value.payload;
      && (n.eventType == RELATED_CONTENT_TYPE <== p.isRelatedContentNotification)
      && (n.eventType == CONTENT_DELETE_TYPE <== p.deleted && !p.isRelatedContentNotification)
      && (n.eventType == CONTENT_CREATE_TYPE <== p.publishCount == 1 && !p.deleted && !p.isRelatedContentNotification)
      && (p.publishCount != 1 && !p.deleted && !p.isRelatedContentNotification ==>
            n.eventType == settings.updateEventType)
      && n.subscriptionType ==
           if p.deleted then
             (var header := Header(msg, "Content-Type"); if header in HEADER_TYPES then HEADER_TYPES[header] else "")
           else if p.contentType == "" && Header(msg, "Message-Type") == "concept-annotation" then "Annotations"
           else p.contentType
  {
  }

  /** An admitted notification tells, by its reference alone, whether it is a test. */
  lemma AdmittedIdentity(settings: Settings, msg: FTMessage, n: NotificationModel)
    requires Admission(settings, msg) == Some(n)
    ensures n.publishReference == TransactionID(msg) && n.subscriberID == "" && n.notificationDate == ""
    ensures n.isE2ETest <==> HasE2ETestTransactionID(n.publishReference, settings.e2eTestUUIDs)
    ensures n.isE2ETest <==> exists k :: 0 <= k < |settings.e2eTestUUIDs|
                                         && Text.Contains(Header(msg, "X-Request-Id"), settings.e2eTestUUIDs[k])
    ensures !HasCarouselTransactionID(n.publishReference)
    ensures !n.isE2ETest ==> !HasSynthTransactionID(n.publishReference)
  {
  }

  /** An admitted notification carries the message's own content, under the leftmost UUID of its URI. */
  lemma AdmittedContent(settings: Settings, msg: FTMessage, n: NotificationModel) returns (i: nat)
    requires Admission(settings, msg) == Some(n)
    ensures msg.body.Some?
    ensures var event := msg.body.value;
      && n.publication == event.payload.publication && n.editorialDesk == event.payload.editorialDesk
      && n.title == event.payload.title && n.lastModified == event.lastModified
      && (n.standout.Some? <==> event.payload.standout.Some?)
      && (n.standout.Some? ==> n.standout.value.scoop == event.payload.standout.value.scoop)
    ensures var uri := msg.body.value.contentURI;
      && UUIDAt(uri, i) && (forall j :: 0 <= j < i ==> !UUIDAt(uri, j))
      && n.id == "http://www.ft.com/thing/" + uri[i..i + 36]
      && n.apiURL == settings.apiBaseURL + "/" + settings.apiUrlResource + "/" + uri[i..i + 36]
  {
    var uri := msg.body.value.contentURI;
    var uuid := FindUUID(uri, 0);
    i :| 0 <= i && UUIDAt(uri, i) && uuid == uri[i..i + 36] && forall j :: 0 <= j < i ==> !UUIDAt(uri, j);
  }

  /** The event types, spelled out. */
  lemma AdmittedEventType(settings: Settings, msg: FTMessage, n: NotificationModel)
    requires Admission(settings, msg) == Some(n)
    ensures var p := msg.body.value.payload;
      n.eventType ==
        if p.isRelatedContentNotification then "http://www.ft.com/thing/ThingChangeType/RELATEDCONTENT"
        else if p.deleted then "http://www.ft.com/thing/ThingChangeType/DELETE"
        else if p.publishCount == 1 then "http://www.ft.com/thing/ThingChangeType/CREATE"
        else settings.updateEventType
  {
  }

  /** Eight, four, four, four and twelve hexadecimal digits between dashes. */
  predicate LooksLikeUUID(u: string) {
    |u| == 36 && forall k :: 0 <= k < 36 ==>
      if k == 8 || k == 13 || k == 18 || k == 23 then u[k] == '-' else u[k] in "0123456789abcdefABCDEF"
  }

  lemma UUIDShape(s: string, i: nat)
    ensures UUIDAt(s, i) <==> i + 36 <= |s| && LooksLikeUUID(s[i..i + 36])
  {
    HexDigits();
    if i + 36 <= |s| {
      var u := s[i..i + 36];
      assert forall k :: i <= k < i + 36 ==> s[k] == u[k - i];
      assert forall k :: 0 <= k < 36 ==> u[k] == s[i + k];
      if UUIDAt(s, i) {
        forall k | 0 <= k < 36
          ensures if k == 8 || k == 13 || k == 18 || k == 23 then u[k] == '-' else u[k] in "0123456789abcdefABCDEF"
        {
          assert u[k] == s[i + k] && IsUUIDChar(i + k - i, s[i + k]);
        }
      }
    }
  }

  lemma HexDigits()
    ensures forall c :: IsHex(c) <==> c in "0123456789abcdefABCDEF"
  {
    var digits := "0123456789abcdefABCDEF";
    forall c
      ensures IsHex(c) <==> c in digits
    {
      if '0' <= c <= '9' {
        assert digits[c as int - 48] == c;
      } else if 'a' <= c <= 'f' {
        assert digits[c as int - 87] == c;
      } else if 'A' <= c <= 'F' {
        assert digits[c as int - 49] == c;
      }
    }
  }

  lemma SyntheticMeaning(tid: string)
    ensures HasSynthTransactionID(tid) <==> exists rest :: tid == "SYNTH" + rest
  {
    OccurrenceMeaning(tid, "SYNTH");
  }

  predicate AreDigits(s: string) {
    forall k :: 0 <= k < |s| ==> s[k] in "0123456789"
  }

  lemma DecimalDigits()
    ensures forall c :: '0' <= c <= '9' <==> c in "0123456789"
  {
    forall c
      ensures '0' <= c <= '9' <==> c in "0123456789"
    {
      if '0' <= c <= '9' {
        assert "0123456789"[c as int - 48] == c;
      }
    }
  }

  /** One line: something, the carousel's mark, ten digits, and anything. */
  lemma CarouselMeaning(tid: string)
    ensures HasCarouselTransactionID(tid) <==>
      '\n' !in tid
      && exists before, digits, after ::
           tid == before + "_carousel_" + digits + after && before != "" && |digits| == 10 && AreDigits(digits)
  {
    DecimalDigits();
    if i :| 1 <= i <= |tid| && CarouselMarkAt(tid, i) {
      var before, digits, after := tid[..i], tid[i + 10..i + 20], tid[i + 20..];
      assert tid == before + "_carousel_" + digits + after;
      assert before != "" && |digits| == 10 && AreDigits(digits);
    }
    if before, digits, after :|
       tid == before + "_carousel_" + digits + after && before != "" && |digits| == 10 && AreDigits(digits) {
      var i := |before|;
      assert tid[i..i + 10] == "_carousel_" && tid[i + 10..i + 20] == digits;
      forall k | i + 10 <= k < i + 20
        ensures '0' <= tid[k] <= '9'
      {
        assert tid[k] == digits[k - i - 10];
      }
      assert CarouselMarkAt(tid, i);
    }
  }

  /** The seven typed headers and their types; no other header names a type. */
  lemma HeaderMeaning(header: string)
    ensures ResolveTypeFromMessageHeader("application/vnd.ft-upp-article-internal+json") == "Article"
    ensures ResolveTypeFromMessageHeader("application/vnd.ft-upp-content-package+json") == "ContentPackage"
    ensures ResolveTypeFromMessageHeader("application/vnd.ft-upp-audio+json") == "Audio"
    ensures ResolveTypeFromMessageHeader("application/vnd.ft-upp-live-blog-post-internal+json") == "LiveBlogPost"
    ensures ResolveTypeFromMessageHeader("application/vnd.ft-upp-live-blog-package-internal+json") == "LiveBlogPackage"
    ensures ResolveTypeFromMessageHeader("application/vnd.ft-upp-page+json") == "Page"
    ensures ResolveTypeFromMessageHeader("application/vnd.ft-upp-list+json") == "List"
    ensures ResolveTypeFromMessageHeader(header) != "" ==>
      header in ["application/vnd.ft-upp-article-internal+json", "application/vnd.ft-upp-content-package+json",
                 "application/vnd.ft-upp-audio+json", "application/vnd.ft-upp-live-blog-post-internal+json",
                 "application/vnd.ft-upp-live-blog-package-internal+json", "application/vnd.ft-upp-page+json",
                 "application/vnd.ft-upp-list+json"]
  {
  }

  lemma HeadersNameDistinctTypes(header: string, other: string)
    requires header in HEADER_TYPES && other in HEADER_TYPES
    ensures ToLower(HEADER_TYPES[header]) == ToLower(HEADER_TYPES[other]) ==> header == other
  {
    assert ToLower("Page")[0] != ToLower("List")[0];
  }

  /** A subscriber of one type a header can name is told of deletes with that header or no typed one. */
  lemma OneTypeOneHeader(settings: Settings, msg: FTMessage, n: NotificationModel, own: string)
    requires Admission(settings, msg) == Some(n) && own in HEADER_TYPES
    requires msg.body.value.payload.deleted && !msg.body.value.payload.isRelatedContentNotification
    ensures var header := Header(msg, "Content-Type");
      TypeMatches(n, [HEADER_TYPES[own]]) <==> header == own || header !in HEADER_TYPES
  {
    var header := Header(msg, "Content-Type");
    DeleteRouting(settings, msg, n, [HEADER_TYPES[own]]);
    if header in HEADER_TYPES {
      HeadersNameDistinctTypes(header, own);
      assert HasType([HEADER_TYPES[own]], ToLower(HEADER_TYPES[header])) <==>
             ToLower([HEADER_TYPES[own]][0]) == ToLower(HEADER_TYPES[header]);
    }
  }

  /**
   * A delete whose header names no type matches every subscriber; one whose header names a type
   * matches exactly the subscribers of that type. Neither payload type nor publish count matters.
   */
  lemma DeleteRouting(settings: Settings, msg: FTMessage, n: NotificationModel, accepted: seq<string>)
    requires Admission(settings, msg) == Some(n)
    requires msg.body.value.payload.deleted && !msg.body.value.payload.isRelatedContentNotification
    ensures var header := Header(msg, "Content-Type");
      TypeMatches(n, accepted) <==> (header in HEADER_TYPES ==> HasType(accepted, ToLower(HEADER_TYPES[header])))
  {
  }

  /** A URI that is one UUID. */
  function SampleURI(): string {
    seq(36, k => if k == 8 || k == 13 || k == 18 || k == 23 then '-' else '0')
  }

  lemma SampleHasUUID()
    ensures UUIDAt(SampleURI(), 0) && FindUUID(SampleURI(), 0) != ""
  {
    assert UUIDAt(SampleURI(), 0);
  }

  /**
   * A placeholder's delete, as the delivery configuration admits it: its header is not empty, not
   * application/json and not one of the seven, and it matches subscribers of every type.
   */
  lemma PlaceholderDeleteMatchesAll(accepted: seq<string>)
    returns (settings: Settings, msg: FTMessage, n: NotificationModel)
    ensures Admission(settings, msg) == Some(n) && n.eventType == CONTENT_DELETE_TYPE
    ensures Header(msg, "Content-Type") == "application/vnd.ft-upp-content-placeholder-internal+json"
    ensures Header(msg, "Content-Type") !in HEADER_TYPES && Header(msg, "Content-Type") != "application/json"
    ensures TypeMatches(n, accepted)
  {
    var header := "application/vnd.ft-upp-content-placeholder-internal+json";
    settings := Settings(_ => false, {header}, [], "", "", CONTENT_UPDATE_TYPE);
    var payload := Payload("", "", None, "", 0, true, false, None);
    msg := FTMessage(map["Content-Type" := header], Some(NotificationMessage(SampleURI(), "", "", "", payload)));
    SampleHasUUID();
    n := Admission(settings, msg).value;
  }

  /** A related-content event is never a delete, so without a type it needs an untyped subscriber. */
  lemma RelatedDeleteRouting(settings: Settings, msg: FTMessage, n: NotificationModel, accepted: seq<string>)
    requires Admission(settings, msg) == Some(n)
    requires msg.body.value.payload.isRelatedContentNotification
    ensures n.eventType == RELATED_CONTENT_TYPE
    ensures TypeMatches(n, accepted) <==> HasType(accepted, ToLower(n.subscriptionType))
  {
  }
}
