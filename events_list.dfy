/** The public event list. It seeds the shared slot with its own five
    defaults when the slot is empty, follows the `'eventsUpdated'`
    notifications the dashboard sends while it is mounted, opens the
    registration dialog, and raises a participant count when told a
    registration succeeded. */
module EventsList {
  import opened Common
  import opened Catalog
  import opened Registration

  class EventsSection {
    const store: Storage
    var events: seq<Event>
    var selectedEvent: Option<Event>
    var isRegistrationOpen: bool
    /** Whether the `'eventsUpdated'` listener is registered. */
    var subscribed: bool

    constructor (store: Storage)
      ensures this.store == store
      ensures events == [] && selectedEvent == None && !isRegistrationOpen && !subscribed
    {
      this.store := store;
      events := [];
      selectedEvent := None;
      isRegistrationOpen := false;
      subscribed := false;
    }

    /** Mount: `loadEvents` takes the stored catalog as it is, or seeds the
        slot with the five defaults, then the listener is registered. */
    method Mount()
      modifies this, store
      ensures events == Loaded(old(store.events), ListDefaults)
      ensures store.events == Some(events)
      ensures subscribed
      ensures selectedEvent == old(selectedEvent) && isRegistrationOpen == old(isRegistrationOpen)
    {
      if store.events.Some? {
        events := store.events.value;
      } else {
        events := ListDefaults;
        store.events := Some(ListDefaults);
      }
      subscribed := true;
    }

    /** Unmount: the listener is removed; later notifications are not seen. */
    method Unmount()
      modifies this
      ensures !subscribed
      ensures events == old(events) && selectedEvent == old(selectedEvent)
      ensures isRegistrationOpen == old(isRegistrationOpen)
    {
      subscribed := false;
    }

    /** `handleEventsUpdate`: the published list replaces the local one
        wholesale. */
    method OnEventsUpdated(detail: seq<Event>)
      modifies this
      ensures events == detail
      ensures subscribed == old(subscribed) && selectedEvent == old(selectedEvent)
      ensures isRegistrationOpen == old(isRegistrationOpen)
    {
      events := detail;
    }

    /** `handleRegister`: select the event and open the dialog; nothing
        else changes. Only reachable through a button that is disabled while
        the event is full. */
    method HandleRegister(e: Event)
      modifies this
      ensures selectedEvent == Some(e) && isRegistrationOpen
      ensures events == old(events) && subscribed == old(subscribed)
    {
      selectedEvent := Some(e);
      isRegistrationOpen := true;
    }

    /** The dialog's `onClose`. */
    method CloseRegistration()
      modifies this
      ensures selectedEvent == None && !isRegistrationOpen
      ensures events == old(events) && subscribed == old(subscribed)
    {
      isRegistrationOpen := false;
      selectedEvent := None;
    }

    /** `handleRegistrationSuccess`: every record with the id gains one
        participant, without any capacity check, and the same list is
        written to storage. It is not published to anyone. */
    method HandleRegistrationSuccess(id: string)
      modifies this, store
      ensures events == IncrementById(old(events), id)
      ensures store.events == Some(events)
      ensures subscribed == old(subscribed) && selectedEvent == old(selectedEvent)
      ensures isRegistrationOpen == old(isRegistrationOpen)
    {
      events := IncrementById(events, id);
      store.events := Some(events);
    }

    /** Submitting the dialog: the section passes no `onSuccess` that the
        dialog uses, so a successful submission only clears the form and
        closes the dialog; no count and no stored record changes. */
    method SubmitRegistration(dialog: EventRegistration) returns (closed: bool)
      modifies this, dialog
      ensures closed <==> RequiredFilled(old(dialog.formData))
      ensures dialog.formData == if closed then EmptyRegistration else old(dialog.formData)
      ensures events == old(events) && store.events == old(store.events)
      ensures closed ==> selectedEvent == None && !isRegistrationOpen
      ensures !closed ==> selectedEvent == old(selectedEvent) && isRegistrationOpen == old(isRegistrationOpen)
      ensures subscribed == old(subscribed)
    {
      closed := dialog.HandleSubmit();
      if closed {
        CloseRegistration();
      }
    }
  }
}
