// Subscribers: what each kind is sent and its bounded buffer (dispatch/subscribers.go).
module Subscribers {

  import opened Basics
  import opened Notifications

  const NOTIFICATION_BUFFER: nat := 16

  datatype Kind = Standard | Monitor

  /** What is fixed about a subscriber when it is created. */
  datatype Profile = Profile(id: string, kind: Kind, subTypes: seq<string>, options: SubscriptionOptions)

  /** Serialization of one notification; None stands for an encoding error. */
  type Encoder = NotificationResponse -> Option<string>

  /**
   * The response a subscriber of this kind serializes: standard ones see no monitoring field,
   * monitoring ones see all of them under their own id.
   */
  function View(profile: Profile, r: NotificationResponse): (v: NotificationResponse)
    ensures v.eventType == r.eventType && v.apiURL == r.apiURL && v.id == r.id
    ensures v.title == r.title && v.standout == r.standout
    ensures profile.kind == Standard ==>
              v.publishReference == v.lastModified == v.notificationDate == "" && v.subscriberID == r.subscriberID
    ensures profile.kind == Monitor ==>
              v.subscriberID == profile.id && v.publishReference == r.publishReference
              && v.lastModified == r.lastModified && v.notificationDate == r.notificationDate
  {
    match profile.kind
    case Standard => r.(publishReference := "", lastModified := "", notificationDate := "")
    case Monitor => r.(subscriberID := profile.id)
  }

  datatype SendResult = Accepted | EncodingFailed | LaggingBehind

  /** A subscriber together with its notification channel, which holds at most sixteen messages. */
  class Consumer {

    const profile: Profile
    var channel: seq<string>

    ghost predicate Valid()
      reads this
    {
      |channel| <= NOTIFICATION_BUFFER
    }

    constructor (profile: Profile)
      ensures this.profile == profile && channel == [] && Valid()
    {
      this.profile := profile;
      channel := [];
    }

    /** Never waits: a full channel refuses the message. */
    method Send(encode: Encoder, n: NotificationResponse) returns (result: SendResult)
      requires Valid()
      modifies this
      ensures Valid()
      ensures result == EncodingFailed <==> encode(View(profile, n)) == None
      ensures result == LaggingBehind ==> old(|channel|) == 16
      ensures result == Accepted ==> old(|channel|) < 16
      ensures channel == if result == Accepted then old(channel) + [encode(View(profile, n)).value] else old(channel)
    {
      var msg := encode(View(profile, n));
      if msg.None? {
        return EncodingFailed;
      }
      if |channel| < NOTIFICATION_BUFFER {
        channel := channel + [msg.value];
        return Accepted;
      }
      return LaggingBehind;
    }
  }
}
