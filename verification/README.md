# notifications-push, modelled and proved in Dafny

The project models the path of a notification through the service, from a Kafka message to the
bytes a subscriber reads, and proves what that path guarantees whatever the goroutines do.

`dafny verify dfyconfig.toml` checks the whole project.

## How it is organised

| file | what it holds |
|---|---|
| `Basics`, `Text` | option type, images of sequences, Go string operations |
| `Publication`, `Notifications` | the publication choice, the notification types, the response a subscriber is shown, the history page |
| `History` | the bounded history: an in-place sorted slice, proved to keep the newest notifications |
| `Subscribers`, `Dispatching` | subscriber views and bounded buffers; the forwarding loop as an object over mutable subscribers |
| `Requests` | what the types of a subscription request mean |
| `Consumption` | admission and mapping of Kafka messages |
| `Stream` | the event-stream frames and the bundled client's line loop |
| `EventSource` | a standard reader of event streams, independent of the service |
| `Handler`, `Listening` | one stream handler and its heartbeat timer: as a step machine, and as the loop itself, whose every turn is a sequence of those steps |
| `Protocol` | dispatcher, delayed senders and all stream handlers as one labelled step system |
| `Invariants`, `Delivery`, `Accounting` | what every step keeps |
| `Runs` | what holds of every run: total order, exact delivery, conservation, registration, dates, log |
| `Progress` | how many steps a forward takes under any interleaving, and how handlers get to leave |
| `SendOrder` | exactly when forwards follow the order of the sends |
| `Reading` | everything buffered can be read, heartbeats can come on time, a notification can get through |
| `NonInterference` | what certain subscribers cannot tell apart between two runs |
| `Pipeline` | Kafka messages, dispatcher, requests and client put together |

Sequential code is modelled as classes and loops, each proved against a specification function.
Concurrent code is modelled by `Protocol`: a label names one atomic action of one goroutine with
every choice it makes. A forward takes one step per subscriber while it holds the read lock, in any
order; senders, handlers, timers and clients take steps in between; registering and unregistering
wait for the lock. The step system uses the same functions (`Dispatching.Evaluate`,
`Dispatching.Offer`) that the sequential forwarding loop is proved to compute.

What can happen is proved beside what cannot: `Progress`, `SendOrder` and `Reading` construct runs in
which newcomers register, senders wake, forwards end, buffers are read, heartbeats come, handlers
leave and the loop stops; `Pipeline.MessageReachesClient` goes all the way from the queue to a client.

The policy agent, the JSON encoder, date parsing and formatting, and the content-URI pattern are
arbitrary functions. The policy may answer differently at each forward.

## Where the code does not do what one might expect

* The history endpoint renders without subscription options, which a CREATE needs. It yields a page
  exactly when no CREATE is retained (`Notifications.HistoryPage`). `Pipeline.PageCanBreak` is a
  whole run that loses the page, from a first publish of an article;
  `Pipeline.OnlyCreatesBreakPage` says that nothing but an admitted CREATE can, and
  `Pipeline.CreateMeaning` which messages those are.
* A requested type is admitted by Unicode case folding and matched by lower-casing. The two differ
  on U+017F. `Requests.AdmitsNothingIff` says which accepted requests admit no ASCII type at all:
  those that spell everything supported with that letter and ask for All, if they do, only of an
  empty list. They still match deletes without a type (`Requests.NothingButUntyped`), and
  notifications whose own type is not ASCII are not covered.
  `Requests.LongSRequestMissesItsType` is such a request; `Requests.SubscriptionMeaning` states what
  any accepted request matches.
* The repository's own README (lines 150-154) says that a delete is sent to everyone when its content-type header is empty or
  `application-json`. The code does so for every header that is not one of seven known ones, and
  the model follows the code (`Consumption.DeleteRouting`). The delivery configuration admits such a
  header, that of a content placeholder (`Consumption.PlaceholderDeleteMatchesAll`).
* Forwards need not follow the order of the sends (`SendOrder.MayBeSwapped`). As long as the loop has
  not stopped and nothing else is sent, they are bound to follow it exactly when what was forwarded,
  is held by the loop or is blocked on the channel stands in send order, and everything not yet
  blocked is the same but for its date (`SendOrder.OrderIsSafeIff`); a send keeps that up exactly when
  nothing different is still on its way to the channel (`SendOrder.SendIsSafeIff`).
* Stopping loses what has not been taken by then (`Runs.StopLosesUntaken`).
* The history hands out its live storage. A push leaves the dates in a slice of the current array,
  whenever it was handed out, alone exactly when the array was full, so that the push moved to a new
  one, or the new notification is no newer than any entry of that slice
  (`History.InMemoryHistory.Push`). An array left behind by a move does not change any more
  (`History.InMemoryHistory.PushAll`). A push that goes over the bound leaves room in the array, so
  that all later pushes sort in place. `History.KeptSliceChanges` shows a kept slice changing.

## Model

| member | source | states |
|---|---|---|
| Publication.OnlyOneOrPink | publication/publication.go:66-79 | a publication is chosen iff Pink is listed or there is exactly one; Pink wins; the empty list is its own error |
| Notifications.CreateNotificationResponse | dispatch/notifications.go:66-84 | every field but the event type is copied; the response is a CREATE iff the notification is one and the options allow it, and the only other change is from CREATE to UPDATE; options may be absent for anything but a CREATE |
| Notifications.HistoryPage | resources/history.go:14-20 | there is a page iff no CREATE is retained, and it lists every notification in order with all its fields |
| History.PushKeepsNewest | dispatch/history.go:26-37 | one push keeps the newest of everything pushed, whatever order the unstable sort gives equal dates |
| History.SortsAgreeOnDates | dispatch/history.go:31 | two sorts of the same notifications differ only in the places of equal dates |
| History.NewestIsSortedPrefix | dispatch/history.go:26-37 | evicting one at a time equals sorting everything and truncating, position by position, up to equal dates |
| History.HistoryIsNewest | dispatch/history.go:26-37 | after any sequence of pushes the history is descending, has length min(pushed, max(size, 0)), is part of what was pushed, and nothing evicted is newer than anything kept |
| History.NewestByDate | dispatch/history.go:52-58 | in terms of the parsed dates: newest first, and nothing evicted is newer than anything retained; a date that does not parse counts as the zero time |
| History.SortDescending | dispatch/history.go:31 | the in-place sort permutes exactly the slice, newest first, and leaves the spare capacity alone |
| History.InMemoryHistory.Append | dispatch/history.go:30 | appends in place while there is capacity and moves to a new array otherwise |
| History.InMemoryHistory.Push | dispatch/history.go:26-37 | the new contents are a sort of the old contents and the notification, without its last entry if too long; an array that was full is left behind unchanged, else it is sorted in place; in every slice of its first cells, handed out at any earlier time, the dates stay iff the array was full or the notification is no newer than any of those cells |
| History.InMemoryHistory.PushAll | dispatch/history.go:26-44 | over any sequence of pushes, a slice handed out before it keeps its dates iff no push made before the storage moved is newer than any of its entries; how many those are follows from length, capacity and bound |
| History.FrontKeepsDates | dispatch/history.go:30-31 | sorting in place leaves the dates of the first k cells alone iff the new notification is no newer than any of them, and never makes a cell older |
| History.InMemoryHistory.Notifications | dispatch/history.go:39-44 | returns the live storage itself |
| History.KeptSliceChanges | dispatch/history.go:26-44 | what a caller was handed by a full history of one is replaced by the next push |
| Subscribers.View | dispatch/subscribers.go:114-120 | standard subscribers see no reference and no dates; monitors see them, under their own id; everything else is passed on |
| Subscribers.Consumer.Send | dispatch/subscribers.go:101-112 | never waits; refuses a message iff encoding fails or sixteen are buffered, else appends it |
| Dispatching.ResponseMeaning | dispatch/subscribers.go:114-120 | every field of what a standard subscriber and a monitor are shown of a notification |
| Runs.PolicyDecides | dispatch/dispatcher.go:149-193 | the policy is asked about the desk and Pink, the only publication, or none; its error keeps a forward from everybody, its refusal from everybody unless the notification is a test |
| Dispatching.MatchesSubType | dispatch/dispatcher.go:217-230 | the loop computes: an untyped delete, or some accepted type equal after lower-casing |
| Dispatching.Dispatcher.ForwardOne | dispatch/dispatcher.go:177-213 | the filters in code order amount to the eligibility rule, and the buffer grows iff the message is sent |
| Dispatching.Dispatcher.ForwardAll | dispatch/dispatcher.go:177-213 | visits every subscriber exactly once in an arbitrary order; each buffer ends as foretold from the state before |
| Dispatching.Dispatcher.ForwardToSubscribers | dispatch/dispatcher.go:127-214 | buffers and counters are functions of the state before, whatever the order; the counters add up; an error is logged iff somebody was there, nobody was sent to, and the forward aborted or a send failed |
| Dispatching.CountAllIsTally | dispatch/dispatcher.go:177-213 | counters after visits in any order equal the number of subscribers of each fate |
| Dispatching.ErrorMeaning | dispatch/dispatcher.go:141-146 | the condition on the counters means: subscribers, none sent to, and aborted or some send failed |
| Dispatching.Dispatcher.Process | dispatch/dispatcher.go:47-49 | forwards, then pushes to the history whatever the forward did |
| Dispatching.Dispatcher.Subscribe | dispatch/dispatcher.go:80-96 | registers one new subscriber with an empty buffer |
| Dispatching.Dispatcher.Unsubscribe | dispatch/dispatcher.go:98-107 | removes exactly that subscriber |
| Text.FoldVersusLower | resources/push.go:221-226 | against ASCII, case folding and lower-casing agree except on U+017F and U+0130 |
| Text.CaseTables | dispatch/dispatcher.go:220-223 | lower-casing and folding, letter by letter |
| Text.TrimMeaning | bin/notifications-push-client/client.go:42 | trimming takes all space off both ends and nothing else |
| Text.OccurrenceMeaning | consumer/publish_event.go:18-33 | prefix and substring tests in terms of what stands around the part |
| Requests.ResolveSubType | resources/push.go:211-238 | the nested loops compute the contributions of the requested types; a request is accepted iff it names no type, and then gets the default, or asks for a filled All list, or for some supported type |
| Requests.AcceptedIff | resources/push.go:216-235 | the same of the specification function |
| Requests.SubscriptionMeaning | resources/push.go:211-238 | an accepted request admits a type iff it is the default of an untyped request, or in the All list of a request for All, or supported and requested in any letter case without U+017F |
| Requests.AdmitsNothingIff | resources/push.go:211-238 | an accepted request admits no ASCII type iff it names types, asks for All only of an empty list, and spells everything supported with U+017F |
| Requests.NothingButUntyped | dispatch/dispatcher.go:217-230 | of notifications with an ASCII type or none such a request matches exactly the deletes without a type |
| Requests.LongSRequestMissesItsType | resources/push.go:225-230 | a concrete accepted request that admits no ASCII type, the one it folds to included |
| Requests.SameTypesMatchSame | resources/push.go:219-232 | ASCII requests naming the same types, in any order, case or repetition, are accepted alike and match alike |
| Consumption.FindUUID | consumer/mapper.go:19 | the leftmost UUID of a string, or nothing iff there is none |
| Consumption.MapNotification | consumer/mapper.go:28-73 | the stepwise assignments compute the notification given by precedence of related, deleted and first publish |
| Consumption.OneTypeOneHeader | consumer/mapper.go:75-94 | a subscriber of one type that a header can name matches the deletes with exactly that header, and those without a typed one |
| Consumption.QueueHandler.HandleMessage | consumer/consume.go:63-122 | calls Send with exactly the admitted notification, if there is one |
| Consumption.QueueHandler.HasE2ETest | consumer/publish_event.go:24-33 | some configured test UUID occurs in the transaction id |
| Consumption.StringSet.Add | consumer/consume.go:32-34 | adds one value to the set |
| Pipeline.SentIffAdmissible | consumer/consume.go:63-122 | a consumed message reaches Send iff it decodes, its URI holds a UUID, it is no carousel message, and it is a test or a non-synthetic message its allow-list admits |
| Consumption.AdmittedIdentity | consumer/consume.go:81-111 | an admitted notification carries its transaction id, no subscriber id, and the test flag its transaction id says; never a carousel id, nor a synthetic one unless a test |
| Consumption.AdmittedContent | consumer/mapper.go:28-73 | an admitted notification carries the message's publications, desk, title, modification date and scoop flag; its id and address end in the leftmost UUID of the URI |
| Consumption.AdmittedEventType | consumer/mapper.go:35-54 | the event type of every admitted message, by precedence of related, deleted and first publish |
| Consumption.UUIDShape | consumer/mapper.go:19 | a UUID is eight, four, four, four and twelve hexadecimal digits between dashes |
| Consumption.CarouselMeaning | consumer/publish_event.go:41 | one line: something, the mark, ten digits, anything |
| Consumption.SyntheticMeaning | consumer/publish_event.go:18-21 | a synthetic id begins with SYNTH |
| Consumption.HeaderMeaning | consumer/mapper.go:75-94 | the seven typed headers and their types; no other header names a type |
| Consumption.DeleteRouting | consumer/mapper.go:46-54 | a deleted, non-related message type-matches everyone iff its header is not typed, else exactly the subscribers of the header's type |
| Consumption.PlaceholderDeleteMatchesAll | helm/notifications-push/app-configs/notifications-push_eks_delivery.yaml:10 | an admitted delete whose header is not empty, not application/json and not typed matches subscribers of any types |
| Stream.ReadEvents | bin/notifications-push-client/client.go:36-47 | the client loop yields the data of every complete non-blank line |
| Stream.ReadLine | bin/notifications-push-client/client.go:42-46 | a blank line is passed over; of any other the client takes the trimmed text without a leading field name and space |
| Stream.StreamRoundTrip | resources/push.go:150-164 | the client reads back exactly the bodies the server framed, heartbeats included, and no extra event |
| EventSource.FramesAreEvents | resources/push.go:150-164 | a reader that follows section 9.2.6 of the WHATWG HTML Standard is given exactly the bodies, one event each; the extra blank line adds none |
| EventSource.HeartbeatBytes | resources/push.go:166 | a heartbeat on the wire, byte for byte |
| Handler.ActKeepsHealthy | resources/push.go:145-200 | every step of handler or timer keeps the timer consistent with the place in the code, due exactly a period after its last reset, and every heartbeat a full period after the reset before it |
| Handler.DrainNeverBlocks | resources/push.go:181-183 | after a late Stop the channel holds a token |
| Handler.ActTakes | resources/push.go:174-184 | a notification taken from the channel is written or, after a failed write, in hand |
| Listening.Restart | resources/push.go:181-184 | stop, drain and reset leave a fresh period and an empty channel, and are steps of the step machine |
| Listening.AwaitToken | resources/push.go:185 | the wait for a token ends one period after the last reset, or at once if that is past |
| Listening.TakeTurn | resources/push.go:173-199 | one turn of the loop is a sequence of steps of the step machine, ends where the turn says, and moves the turn's message to the stream or into hand |
| Listening.ListenForNotifications | resources/push.go:145-200 | the stream is that of a run of the step machine; it shows a heartbeat, then every notification and every idle period in order until the first failed write or cancellation; no later heartbeat comes before a full period after the timer's last reset; at most the notification of the failed write is lost |
| Runs.RunKeepsInv | dispatch/dispatcher.go:44-214 | every run keeps all the invariants |
| Runs.StreamOrder | dispatch/subscribers.go:101-112 | accepted messages carry increasing forward numbers and are, in order, those written, at most one in hand, and at most sixteen buffered |
| Reading.EverythingCanBeRead | resources/push.go:173-184 | from every state and every place in its code, a served subscriber can read everything it was ever given by its own steps alone |
| Reading.HeartbeatOnTime | resources/push.go:185-193 | at the loop head a heartbeat can be written one period after the last reset, or at once if that is past |
| Reading.AnyoneCanLeave | resources/push.go:195-198 | every served subscriber can disconnect, and is then taken away alone |
| Reading.EveryWriteMayFail | resources/push.go:166-193 | every write can fail and every wait be cancelled, and the handler then returns |
| Reading.NotificationGetsThrough | dispatch/dispatcher.go:44-67 | a notification sent while a subscriber it is meant for is registered can be forwarded and written to its stream |
| Runs.TotalOrder | dispatch/dispatcher.go:177-213 | any two subscribers accept, and are shown, their common notifications in the same order |
| Runs.ExactDelivery | dispatch/dispatcher.go:174-213 | a subscriber holds a forward's message iff the forward owed it one and did not refuse it; never refused, it holds its whole eligible sequence |
| Runs.ReceivedExactly | dispatch/dispatcher.go:174-213 | the conditions for holding a message, one by one: evaluated; a monitor for a test; else allowed, of a matching type, and with the unstable option for related content; encodable; not refused |
| Runs.TestsReachMonitors | dispatch/dispatcher.go:182-187 | a test whose forward was evaluated is held by exactly the monitors it passed that had room, whatever their types and options and the policy's answer |
| Runs.RefusedOnlyAfterSixteen | dispatch/subscribers.go:15 | nobody is refused a forward before it has accepted sixteen earlier ones |
| Runs.VisitEffect | dispatch/dispatcher.go:177-213 | a visit adds exactly one message iff one is owed and the buffer has room, refuses iff one is owed and sixteen are buffered, and changes nobody else |
| Runs.DispatcherNeverStuck | dispatch/dispatcher.go:177-213 | a busy dispatcher always has a step to take, whatever the buffers hold |
| Progress.ForwardEnds | dispatch/dispatcher.go:127-213 | from the lock on, a forward and its record take exactly one step per subscriber registered then, none if aborted, and two more, whatever comes in between |
| Progress.RunToIdle | dispatch/dispatcher.go:44-54 | a busy loop can always be run to the end of its turn by its own steps, losing nothing |
| Progress.CanRegister | dispatch/dispatcher.go:109-115 | a connected newcomer registers in one step whenever no forward holds the lock, with an empty buffer |
| Progress.NewcomerRegisters | dispatch/dispatcher.go:80-96 | from every state any newcomer can connect and register |
| Progress.StopTakesEffect | dispatch/dispatcher.go:50-58 | from every state the loop can end its turn and stop, dropping nothing it has begun |
| SendOrder.RunToStamp | dispatch/dispatcher.go:62-65 | a sleeping sender can be stamped as soon as its delay is over |
| Runs.VisitOrderIrrelevant | dispatch/dispatcher.go:177-213 | with nothing in between, every order of the visits gives the same state, in one step per subscriber |
| Runs.ExactlyOnce | dispatch/dispatcher.go:44-67 | what was sent equals what waits, what the loop holds and what began to be forwarded; everything forwarded but the current one is recorded, in order |
| SendOrder.OrderIsSafeIff | dispatch/dispatcher.go:44-67 | while the loop has not stopped, every continuation without a send forwards in send order iff what was forwarded, is held or is blocked on the channel stands in send order and everything not yet blocked is the same but for its date |
| SendOrder.SendIsSafeIff | dispatch/dispatcher.go:60-67 | a send keeps the order safe iff nothing not yet blocked differs from what it sends |
| SendOrder.CalmRunIsInOrder | dispatch/dispatcher.go:44-67 | a run from the start whose every send finds nothing different still on its way forwards in send order, entry by entry: what was sent is what was forwarded, then what is blocked, then what is on its way |
| SendOrder.LaterOneFirst | dispatch/dispatcher.go:60-67 | from every reachable state whose loop has not stopped, of any two notifications not yet blocked the later-sent one can be forwarded first, whoever is registered |
| SendOrder.MayBeSwapped | dispatch/dispatcher.go:60-67 | two sends in a row can be forwarded in the opposite order |
| Runs.StoppedForGood | dispatch/dispatcher.go:50-58 | after Stop nothing is forwarded, recorded, logged or accepted by a buffer any more |
| Runs.StopLosesUntaken | dispatch/dispatcher.go:50-67 | what has not been taken when the loop stops, and whatever is sent later, is never forwarded or recorded |
| Runs.RegisteredExactly | resources/push.go:131-141 | the registered set is exactly the handlers between registering and unregistering |
| Runs.LeavingRemovesOne | dispatch/dispatcher.go:98-107 | a handler that returned is still registered, leaves as soon as no forward holds the lock, and takes only its own subscriber away |
| Progress.ReturnedHandlerLeaves | resources/push.go:137-200 | a handler returns only on a failed write or cancellation; after each such step, whatever the loop is doing, its subscriber and nobody else can be taken away in finitely many more steps |
| Runs.GoneForGood | dispatch/dispatcher.go:98-107 | nothing enters the buffer or stream of an unregistered subscriber in any continuation |
| Runs.AbortedReachesNobody | dispatch/dispatcher.go:149-173 | an aborted forward is accepted by nobody, tests included, and is recorded |
| Runs.AmbiguousPublicationReachesNobody | publication/publication.go:66-79 | neither is one with an ambiguous publication list |
| Runs.DelayBound | dispatch/dispatcher.go:60-67 | send time plus delay, stamp and receipt are in this order, and records and monitors show the stamp |
| Invariants.TimesAreClockReadings | dispatch/dispatcher.go:60-67 | every send, stamp and receipt time on record is the clock's at that step |
| Runs.HistoryShowsStamps | dispatch/dispatcher.go:47-67 | every notification in the history was forwarded and shows the date stamped on it, no earlier than its send time plus delay |
| Runs.HistoryInEveryState | dispatch/history.go:26-37 | in every state the history is the newest part of everything recorded |
| Runs.HistoryByDate | dispatch/history.go:52-58 | in every state the history shows the newest dates first and misses nothing newer |
| Runs.LogTellsTruth | dispatch/dispatcher.go:131-147 | sent counts who accepted the forward, failed who was eligible and holds no message of it, skipped who was not eligible, together everyone registered during it; an aborted forward counts nobody; an error is logged iff somebody was registered, nobody accepted, and it aborted or somebody eligible was missed |
| Runs.AudienceIsRegistered | dispatch/dispatcher.go:127-129 | those a forward has been offered to are the registered ones already visited, hence everyone registered when it ends |
| Runs.AudienceFixed | dispatch/dispatcher.go:98-115 | once a forward has ended no later joining or leaving changes whom it was offered to |
| Runs.ForwardHoldsRegistry | dispatch/dispatcher.go:127-129 | during a forward nobody joins or leaves, and sent, failed, skipped and remaining add up |
| Runs.HeartbeatSafety | resources/push.go:145-200 | in every state each handler's timer is intact at the loop head and due a period after its last reset, its drain cannot block, and every heartbeat written, or about to be, comes a full period after that reset |
| NonInterference.OutsidersSeeNoDifference | dispatch/subscribers.go:114-120 | two runs of the same steps that differ in CREATE versus UPDATE (or in reference and dates) are identical to every subscriber without advanced notifications (or every standard one) |
| NonInterference.OutsidersCannotRuleOut | dispatch/subscribers.go:114-120 | for every run and any notifications that agree with its own outside the secret, some run sends those and gives every outsider the same buffer, stream and timer |
| NonInterference.OthersUnaffected | dispatch/subscribers.go:101-112 | two runs that differ only in the steps of one subscriber's handler and timer give everybody else the same |
| NonInterference.NeverGivenCreate | dispatch/notifications.go:69-71 | a subscriber holds a CREATE iff it has the advanced option and the forward was one |
| Pipeline.OneSendPerMessage | consumer/consume.go:121 | the notifications sent are exactly what the consumed messages are admitted as, at most one each |
| Pipeline.Origin | consumer/consume.go:106-121 | every forwarded notification comes from a consumed message |
| Pipeline.OnlyAdmittedReferences | consumer/publish_event.go:18-40 | nothing passed to Send bears a carousel reference, nor a synthetic one unless a test |
| Pipeline.ForwardedReferences | consumer/publish_event.go:18-40 | nor does anything forwarded |
| Pipeline.StandardIsolation | dispatch/dispatcher.go:182-187 | no standard subscriber ever holds a message about a test, a subscriber id, a reference or a date |
| Pipeline.MonitorIdentity | dispatch/subscribers.go:181-194 | every message of a monitor carries its own id and the reference of a consumed message |
| Pipeline.ForwardedContent | consumer/mapper.go:28-73 | what of a forwarded notification is the consumed message's: publications, desk, title, dates, scoop, ids and event type |
| Pipeline.HeldContent | dispatch/subscribers.go:114-120 | every message a subscriber holds shows the consumed message's address, id, title and scoop flag, and to monitors alone its reference, its date and the stamp |
| Pipeline.AmbiguousMessageReachesNobody | publication/publication.go:66-79 | a consumed message with an ambiguous publication list is received by nobody |
| Pipeline.MessagePolicyDecides | dispatch/dispatcher.go:149-174 | the policy is asked about the message's own desk and publication, and its answer decides |
| Pipeline.TestMessageReachesMonitors | consumer/publish_event.go:24-33 | a message whose id contains a test UUID, once evaluated, is held by exactly the monitors it passed that had room |
| Pipeline.RequestIsDelivered | dispatch/dispatcher.go:174-230 | a subscriber built from an accepted request holds, tests aside, exactly the notifications of an ASCII type that passed it, that the policy allowed, that it asked for in the sense of SubscriptionMeaning, and that were encodable and not refused |
| Pipeline.UntypedDeleteReachesAll | consumer/mapper.go:46-50 | an allowed delete without a typed header reaches every subscriber it passes unless the buffer was full |
| Pipeline.RelatedContentIsRestricted | dispatch/dispatcher.go:176-204 | related content, deleted or not, is held only by subscribers of its type that may see unstable content, tests aside |
| Pipeline.CreateMeaning | consumer/mapper.go:35-54 | a message becomes a CREATE iff it is neither deleted nor related content and is a first publish, or updates are configured to be CREATEs |
| Pipeline.CreateBreaksPage | resources/history.go:14-20 | every admitted CREATE has a run after which the history page is lost |
| Pipeline.PageCanBreak | resources/history.go:14-20 | such a run for the first publish of a concrete article, with the usual event type for updates |
| Pipeline.OnlyCreatesBreakPage | consumer/mapper.go:35-54 | a lost page is due to a consumed and admitted CREATE, whatever the settings |
| Pipeline.ClientReadsStream | bin/notifications-push-client/client.go:36-57 | the client reads back, in order, the messages written to its stream, each the encoding of a forward owed to it |
| Pipeline.ClientReadsCutStream | resources/push.go:150-177 | when a failed write got part of a frame through, the client reads everything before it, and that message iff its first line is complete; it is a heartbeat or was owed |
| Pipeline.MessageReachesClient | resources/push.go:131-184 | a message meant for a subscriber can go all the way from the queue to that subscriber's client |
| Pipeline.StandardReaderReadsStream | resources/push.go:150-164 | a standard event-stream reader is given the same messages; every stream opens with the bytes of a heartbeat |

## Left out

- Stream.ReadEvents: stops at the last complete line; the client's endless loop at end of input, and its JSON decoding and logging of each event, are not modelled.
- Listening.ListenForNotifications: one handler against a given script of its surroundings; arbitrary interleavings of many handlers are in Protocol.
- Protocol: a failed write adds nothing to the record of the stream (what the client makes of a frame half written is Pipeline.ClientReadsCutStream); goroutines blocked on the inbound channel are served in the order they came, as Go's runtime does; taking a lock, evaluating the policy and stamping a date are single steps.
- Dispatching.MatchesSubType: letter case is exact when either string is ASCII; lower-casing of two strings that are both outside ASCII is not modelled, beyond the Kelvin sign and the dotted capital I.
- Text.FoldVersusLower: likewise for folding; comparisons of two strings outside ASCII are not modelled.
- History.SortDescending: an insertion sort stands for the library sort; only its contract, which fixes no order of equal dates, is used.
- The Kafka client, HTTP routing, API-gateway calls, key validation, policy headers and health checks are input and output; subscription options are arbitrary.
- The general content-URI pattern is an arbitrary predicate; the UUID and carousel patterns are scanners.
- EventSource.FramesAreEvents: event types, ids and retry times, which the service never writes, and the decoding of bytes are not part of the reader.
- Decoding of publication lists and of JSON bodies is library code; a message carries its decoded body or none.
- UUID generation: subscriber ids are distinct by assumption.
- Log text and fields other than the three counters and the verdict.
- Publications.String, Verify, client addresses, key lookup and the statistics endpoint would only add easy members.
- The JavaScript client, container and deployment files.
