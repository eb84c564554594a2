/**
 GetContactsUseCase: fetch contacts matching a filter term through a
 callback-style endpoint and fan the reply out to every subscribed listener.

 The endpoint is a function from the filter term to the one callback it
 invokes; the listener notifications it causes are returned as a trace.
 */
module GetContacts {
  import Listeners

  /** The endpoint's wire record. Its `age` (a Double) is never read and is not modelled. */
  datatype ContactSchema = ContactSchema(id: string, fullName: string, fullPhoneNumber: string, imageUrl: string)

  /** The contact handed to listeners. */
  datatype Contact = Contact(id: string, fullName: string, imageUrl: string)

  /**
   The endpoint's failure reasons. GENERAL_ERROR and NETWORK_ERROR are the ones
   the use case reacts to; `OtherReason` stands for any further value the
   endpoint's enumeration may declare.
   */
  datatype FailReason = GeneralError | NetworkError | OtherReason(name: string)

  /** The callback the endpoint invokes for one `getContacts` request. */
  datatype EndpointCallback =
    | GetContactsSucceeded(contactSchemas: seq<ContactSchema>)
    | GetContactsFailed(failReason: FailReason)

  /** Which listener method is invoked. */
  datatype Event = ContactsFetchSuccessful(contacts: seq<Contact>) | ContactsFetchFailed

  /** One invocation of a listener method. */
  datatype Notification<Id> = Notification(listener: Id, event: Event)

  /** The use case's only state: its registered listeners, in subscription order. */
  datatype UseCase<Id> = UseCase(listeners: seq<Id>)

  /** Everything one `fetchContactsAndNotify` call does. */
  datatype FetchOutcome<Id> = FetchOutcome(
    endpointRequests: seq<string>,
    notifications: seq<Notification<Id>>,
    useCase: UseCase<Id>)

  function ToContact(s: ContactSchema): Contact
  {
    Contact(s.id, s.fullName, s.imageUrl)
  }

  /**
   `contactsFromContactSchemas`: map each schema to a contact, keeping id,
   full name and image URL, dropping phone number and age, and keeping the
   length and the order of the list.
   */
  function ContactsFromContactSchemas(schemas: seq<ContactSchema>): (cs: seq<Contact>)
    ensures |cs| == |schemas|
    ensures forall i :: 0 <= i < |schemas| ==>
              cs[i].id == schemas[i].id
              && cs[i].fullName == schemas[i].fullName
              && cs[i].imageUrl == schemas[i].imageUrl
  {
    if |schemas| == 0 then []
    else [ToContact(schemas[0])] + ContactsFromContactSchemas(schemas[1..])
  }

  /** `listeners.forEach { it.<event> }`: one notification per listener, in list order. */
  function NotifyAll<Id>(listeners: seq<Id>, e: Event): (ns: seq<Notification<Id>>)
    ensures |ns| == |listeners|
    ensures forall i :: 0 <= i < |listeners| ==> ns[i].listener == listeners[i] && ns[i].event == e
  {
    if |listeners| == 0 then []
    else [Notification(listeners[0], e)] + NotifyAll(listeners[1..], e)
  }

  /** The failure reasons after which listeners hear `onContactsFetchFailed`. */
  predicate NotifiesFailure(reason: FailReason)
  {
    reason == GeneralError || reason == NetworkError
  }

  /** A reply that notifies nobody: a failure whose reason the use case ignores. */
  predicate IgnoredReply(cb: EndpointCallback)
  {
    cb.GetContactsFailed? && !NotifiesFailure(cb.failReason)
  }

  /**
   The anonymous `Callback` handed to the endpoint: the notifications the
   callback `cb` causes for `listeners`.
   */
  function OnCallback<Id>(listeners: seq<Id>, cb: EndpointCallback): (ns: seq<Notification<Id>>)
    ensures |ns| == if IgnoredReply(cb) then 0 else |listeners|
    ensures forall i :: 0 <= i < |ns| ==>
              ns[i] == Notification(listeners[i],
                                    if cb.GetContactsSucceeded? then ContactsFetchSuccessful(ContactsFromContactSchemas(cb.contactSchemas))
                                    else ContactsFetchFailed)
  {
    match cb
    case GetContactsSucceeded(schemas) =>
      NotifyAll(listeners, ContactsFetchSuccessful(ContactsFromContactSchemas(schemas)))
    case GetContactsFailed(reason) =>
      if NotifiesFailure(reason) then NotifyAll(listeners, ContactsFetchFailed) else []
  }

  /** `subscribeListener`. */
  function SubscribeListener<Id>(uc: UseCase<Id>, listener: Id): (r: UseCase<Id>)
    ensures |r.listeners| == |uc.listeners| + 1
    ensures r.listeners[..|uc.listeners|] == uc.listeners
    ensures r.listeners[|uc.listeners|] == listener
  {
    UseCase(Listeners.Subscribe(uc.listeners, listener))
  }

  /** `unsubscribeListener`. */
  function UnsubscribeListener<Id(==)>(uc: UseCase<Id>, listener: Id): (r: UseCase<Id>)
    ensures listener !in uc.listeners ==> r == uc
    ensures multiset(r.listeners) == multiset(uc.listeners) - multiset{listener}
  {
    Listeners.UnsubscribeMultiset(uc.listeners, listener);
    UseCase(Listeners.Unsubscribe(uc.listeners, listener))
  }

  /**
   `fetchContactsAndNotify`: one endpoint request with the filter term
   unchanged; the callback's reply fanned out to the listeners registered at
   that moment; the listener list itself untouched.
   */
  function FetchContactsAndNotify<Id>(uc: UseCase<Id>, filterTerm: string, endpoint: string -> EndpointCallback): (o: FetchOutcome<Id>)
    ensures o.endpointRequests == [filterTerm]
    ensures o.useCase == uc
    ensures |o.notifications| == |uc.listeners| || o.notifications == []
    ensures forall i :: 0 <= i < |o.notifications| ==> o.notifications[i].listener == uc.listeners[i]
  {
    FetchOutcome([filterTerm], OnCallback(uc.listeners, endpoint(filterTerm)), uc)
  }

  /** How many notifications in `ns` go to `listener`. */
  function NotificationsTo<Id(==)>(ns: seq<Notification<Id>>, listener: Id): nat
  {
    if |ns| == 0 then 0
    else (if ns[0].listener == listener then 1 else 0) + NotificationsTo(ns[1..], listener)
  }

  /** The fan-out reaches each listener once per registration, and no one else. */
  lemma {:induction false} NotifyAllCountsRegistrations<Id>(listeners: seq<Id>, e: Event, x: Id)
    ensures NotificationsTo(NotifyAll(listeners, e), x) == Listeners.Occurrences(listeners, x)
  {
    if |listeners| > 0 {
      var tail := listeners[1..];
      NotifyAllCountsRegistrations(tail, e, x);
      assert listeners == [listeners[0]] + tail;
      assert multiset(listeners) == multiset{listeners[0]} + multiset(tail);
      var ns := NotifyAll(listeners, e);
      assert ns == [Notification(listeners[0], e)] + NotifyAll(tail, e);
      assert ns[1..] == NotifyAll(tail, e);
    }
  }

  /**
   On a successful callback, every registered listener gets exactly the
   mapped contact list, at its position in the list.
   */
  lemma SuccessNotifiesEveryListener<Id>(uc: UseCase<Id>, filterTerm: string, endpoint: string -> EndpointCallback)
    requires endpoint(filterTerm).GetContactsSucceeded?
    ensures var o := FetchContactsAndNotify(uc, filterTerm, endpoint);
            var contacts := ContactsFromContactSchemas(endpoint(filterTerm).contactSchemas);
            |o.notifications| == |uc.listeners|
            && forall i :: 0 <= i < |uc.listeners| ==>
                 o.notifications[i] == Notification(uc.listeners[i], ContactsFetchSuccessful(contacts))
  {
  }

  /** On a failure callback, listeners hear `onContactsFetchFailed` iff the reason is GENERAL_ERROR or NETWORK_ERROR. */
  lemma FailureNotifiesIffKnownReason<Id>(uc: UseCase<Id>, filterTerm: string, endpoint: string -> EndpointCallback)
    requires endpoint(filterTerm).GetContactsFailed?
    ensures var o := FetchContactsAndNotify(uc, filterTerm, endpoint);
            var reason := endpoint(filterTerm).failReason;
            && (reason == GeneralError || reason == NetworkError ==>
                 |o.notifications| == |uc.listeners|
                 && forall i :: 0 <= i < |uc.listeners| ==>
                      o.notifications[i] == Notification(uc.listeners[i], ContactsFetchFailed))
            && (reason != GeneralError && reason != NetworkError ==> o.notifications == [])
  {
  }

  /**
   Subscribing `a` and `b` and then unsubscribing `b` leaves a use case
   whose fetch never notifies `b`, and notifies `a` exactly once unless the
   reply is an ignored failure.
   */
  lemma UnsubscribedListenerNotNotified<Id>(a: Id, b: Id, filterTerm: string, endpoint: string -> EndpointCallback)
    requires a != b
    ensures var uc := UnsubscribeListener(SubscribeListener(SubscribeListener(UseCase([]), a), b), b);
            var o := FetchContactsAndNotify(uc, filterTerm, endpoint);
            && NotificationsTo(o.notifications, b) == 0
            && NotificationsTo(o.notifications, a) == if IgnoredReply(endpoint(filterTerm)) then 0 else 1
  {
    var uc := UnsubscribeListener(SubscribeListener(SubscribeListener(UseCase([]), a), b), b);
    Listeners.UnsubscribeUndoesFreshSubscribe([a], b);
    assert uc.listeners == [a];
    FetchNotifiesRegistrations(uc, filterTerm, endpoint, a);
    FetchNotifiesRegistrations(uc, filterTerm, endpoint, b);
  }

  /**
   The fetch notifies nobody exactly when no listener is registered or the
   reply is an ignored failure; otherwise each listener is notified as many
   times as it is registered, and a listener that is not registered never.
   */
  lemma FetchNotifiesRegistrations<Id>(uc: UseCase<Id>, filterTerm: string, endpoint: string -> EndpointCallback, x: Id)
    ensures var o := FetchContactsAndNotify(uc, filterTerm, endpoint);
            && (o.notifications == [] <==> uc.listeners == [] || IgnoredReply(endpoint(filterTerm)))
            && NotificationsTo(o.notifications, x) ==
                 if IgnoredReply(endpoint(filterTerm)) then 0 else Listeners.Occurrences(uc.listeners, x)
  {
    var cb := endpoint(filterTerm);
    match cb
    case GetContactsSucceeded(schemas) =>
      NotifyAllCountsRegistrations(uc.listeners, ContactsFetchSuccessful(ContactsFromContactSchemas(schemas)), x);
    case GetContactsFailed(reason) =>
      NotifyAllCountsRegistrations(uc.listeners, ContactsFetchFailed, x);
  }
}
