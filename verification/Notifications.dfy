// Notifications and what a subscriber sees of them (dispatch/notifications.go, resources/history.go).
module Notifications {

  import opened Basics

  const ANNOTATIONS_TYPE := "Annotations"
  const ARTICLE_CONTENT_TYPE := "Article"
  const CONTENT_PACKAGE_TYPE := "ContentPackage"
  const AUDIO_CONTENT_TYPE := "Audio"
  const LIVE_BLOG_PACKAGE_TYPE := "LiveBlogPackage"
  const LIVE_BLOG_POST_TYPE := "LiveBlogPost"
  const PAGE_TYPE := "Page"
  const ALL_CONTENT_TYPE := "All"
  const LIST_TYPE := "List"

  const CONTENT_UPDATE_TYPE := "http://www.ft.com/thing/ThingChangeType/UPDATE"
  const CONTENT_CREATE_TYPE := "http://www.ft.com/thing/ThingChangeType/CREATE"
  const CONTENT_DELETE_TYPE := "http://www.ft.com/thing/ThingChangeType/DELETE"
  const RELATED_CONTENT_TYPE := "http://www.ft.com/thing/ThingChangeType/RELATEDCONTENT"

  datatype Standout = Standout(scoop: bool)

  datatype NotificationModel = NotificationModel(
    apiURL: string,
    id: string,
    eventType: string,
    subscriberID: string,
    editorialDesk: string,
    publishReference: string,
    lastModified: string,
    notificationDate: string,
    title: string,
    standout: Option<Standout>,
    subscriptionType: string,
    isE2ETest: bool,
    publication: Option<seq<string>>)

  datatype NotificationResponse = NotificationResponse(
    apiURL: string,
    id: string,
    eventType: string,
    subscriberID: string,
    publishReference: string,
    lastModified: string,
    notificationDate: string,
    title: string,
    standout: Option<Standout>)

  datatype SubscriptionOptions = SubscriptionOptions(
    receiveAdvancedNotifications: bool,
    receiveInternalUnstable: bool)

  /** The response shows everything of the notification but its event type, unchanged. */
  predicate Shows(r: NotificationResponse, n: NotificationModel) {
    && r.apiURL == n.apiURL && r.id == n.id && r.subscriberID == n.subscriberID
    && r.publishReference == n.publishReference && r.lastModified == n.lastModified
    && r.notificationDate == n.notificationDate && r.title == n.title && r.standout == n.standout
  }

  /**
   * What a subscriber with these options is shown. Options are read only for a CREATE, so absent
   * options (a nil pointer) are acceptable for every other event.
   */
  function CreateNotificationResponse(n: NotificationModel,
                                      options: Option<SubscriptionOptions>): (r: NotificationResponse)
    requires options.Some? || n.eventType != CONTENT_CREATE_TYPE
    ensures Shows(r, n)
    ensures r.eventType == CONTENT_CREATE_TYPE <==>
            n.eventType == CONTENT_CREATE_TYPE && options.value.receiveAdvancedNotifications
    ensures r.eventType != n.eventType ==> n.eventType == CONTENT_CREATE_TYPE && r.eventType == CONTENT_UPDATE_TYPE
  {
    var eventType :=
      if n.eventType == CONTENT_CREATE_TYPE && !options.value.receiveAdvancedNotifications
      then CONTENT_UPDATE_TYPE else n.eventType;
    NotificationResponse(
      n.apiURL, n.id, eventType, n.subscriberID, n.publishReference, n.lastModified,
      n.notificationDate, n.title, n.standout)
  }

  /** No first publish is among them: the condition for the history page to be rendered. */
  predicate NoCreate(notifications: seq<NotificationModel>) {
    forall i :: 0 <= i < |notifications| ==> notifications[i].eventType != CONTENT_CREATE_TYPE
  }

  /**
   * The body of the history endpoint: every retained notification rendered without options. It
   * returns no page (the service dereferences a nil pointer) exactly when a CREATE is retained.
   */
  method HistoryPage(notifications: seq<NotificationModel>) returns (page: Option<seq<NotificationResponse>>)
    ensures page.Some? <==> NoCreate(notifications)
    ensures page.Some? ==>
      |page.value| == |notifications|
      && forall i :: 0 <= i < |notifications| ==>
        Shows(page.value[i], notifications[i]) && page.value[i].eventType == notifications[i].eventType
  {
    var responses: seq<NotificationResponse> := [];
    for i := 0 to |notifications|
      invariant |responses| == i
      invariant forall j :: 0 <= j < i ==>
        notifications[j].eventType != CONTENT_CREATE_TYPE
        && responses[j] == CreateNotificationResponse(notifications[j], None)
    {
      if notifications[i].eventType == CONTENT_CREATE_TYPE {
        return None;
      }
      responses := responses + [CreateNotificationResponse(notifications[i], None)];
    }
    page := Some(responses);
  }
}
