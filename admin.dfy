/** The admin dashboard: its own copy of the catalog, the add form (a draft
    record), the edit form (a copy of one record) and delete. After every
    change of its list it writes the whole list to the shared slot and
    dispatches `'eventsUpdated'` with it, which the event list receives while
    it is mounted. */
module Admin {
  import opened Common
  import opened Text
  import opened Catalog
  import opened EventsList

  // -----------------------------------------------------------------------
  // The add form

  /** A record without id and count: the add form's state. */
  datatype Draft = Draft(
    title: string,
    date: string,
    time: string,
    location: string,
    price: string,
    category: string,
    description: string,
    image: string,
    maxParticipants: int)

  /** The add form when the dashboard opens and after every successful add. */
  const DefaultDraft := Draft("", "", "", "", "", "workshop", "", "", 50)

  /** The add form's text inputs (capacity has its own, numeric, input). */
  datatype DraftField =
    DraftTitle | DraftCategory | DraftDate | DraftTime | DraftLocation | DraftPrice | DraftImage | DraftDescription

  function DraftValue(d: Draft, f: DraftField): string
  {
    match f
    case DraftTitle => d.title
    case DraftCategory => d.category
    case DraftDate => d.date
    case DraftTime => d.time
    case DraftLocation => d.location
    case DraftPrice => d.price
    case DraftImage => d.image
    case DraftDescription => d.description
  }

  /** `setNewEvent({ ...newEvent, field: value })`. */
  function WithDraftField(d: Draft, f: DraftField, v: string): (r: Draft)
    ensures DraftValue(r, f) == v
    ensures forall g :: g != f ==> DraftValue(r, g) == DraftValue(d, g)
    ensures r.maxParticipants == d.maxParticipants
  {
    match f
    case DraftTitle => d.(title := v)
    case DraftCategory => d.(category := v)
    case DraftDate => d.(date := v)
    case DraftTime => d.(time := v)
    case DraftLocation => d.(location := v)
    case DraftPrice => d.(price := v)
    case DraftImage => d.(image := v)
    case DraftDescription => d.(description := v)
  }

  /** `parseInt(value) || 50`: the parsed number, unless it is `NaN` or
      zero, which are falsy and give 50. The result is never zero but may be
      negative. */
  function CapacityFromInput(input: string): (n: int)
    ensures n != 0
    ensures ParseInt(input).Some? && ParseInt(input).value != 0 ==> n == ParseInt(input).value
    ensures ParseInt(input).None? || ParseInt(input) == Some(0) ==> n == 50
  {
    var parsed := ParseInt(input);
    if parsed.None? || parsed.value == 0 then 50 else parsed.value
  }

  /** The capacity input shows the draft's capacity; reading back what it
      shows gives the same capacity, and only zero is replaced by 50. */
  lemma CapacityInputRoundTrip(n: int)
    ensures CapacityFromInput(IntString(n)) == if n == 0 then 50 else n
  {
    ParseIntString(n);
  }

  /** A negative capacity gets through. */
  lemma NegativeCapacityAccepted()
    ensures CapacityFromInput("-5") == -5
  {
    CapacityInputRoundTrip(-5);
    assert IntString(-5) == "-5";
  }

  /** Title, date, time and location are required. */
  predicate DraftComplete(d: Draft)
  {
    d.title != "" && d.date != "" && d.time != "" && d.location != ""
  }

  /** `{ ...newEvent, id, currentParticipants: 0 }`: the draft's fields,
      the given id, no participants, and neither of the list view's
      optional fields. */
  function NewEvent(d: Draft, id: string): (e: Event)
    ensures e.id == id && e.currentParticipants == 0
    ensures e.maxParticipants == d.maxParticipants && e.image == d.image
    ensures e.spots.None? && e.registered.None?
    ensures forall f: DraftField :: f != DraftImage ==> EditValue(e, EditFieldOf(f)) == DraftValue(d, f)
  {
    Event(id, d.title, d.date, d.time, d.location, d.price, d.category,
          d.description, d.image, d.maxParticipants, 0, None, None)
  }

  /** A record added from the draft is within capacity exactly when the
      draft's capacity is not negative. */
  lemma NewEventCapacity(d: Draft, id: string)
    ensures WithinCapacity(NewEvent(d, id)) <==> d.maxParticipants >= 0
  {
  }

  // -----------------------------------------------------------------------
  // The edit form

  /** The inputs of the edit form. There is none for the capacity, the
      count, the image or the id. */
  datatype EditField =
    EditTitle | EditCategory | EditDate | EditTime | EditLocation | EditPrice | EditDescription

  /** The edit input showing the same field as a text input of the add form;
      the image has none. */
  function EditFieldOf(f: DraftField): EditField
    requires f != DraftImage
  {
    match f
    case DraftTitle => EditTitle
    case DraftCategory => EditCategory
    case DraftDate => EditDate
    case DraftTime => EditTime
    case DraftLocation => EditLocation
    case DraftPrice => EditPrice
    case DraftDescription => EditDescription
  }

  function EditValue(e: Event, f: EditField): string
  {
    match f
    case EditTitle => e.title
    case EditCategory => e.category
    case EditDate => e.date
    case EditTime => e.time
    case EditLocation => e.location
    case EditPrice => e.price
    case EditDescription => e.description
  }

  /** `setEditingEvent({ ...editingEvent, field: value })` for one of the
      edit form's inputs: that field takes the value, every other text field
      keeps its own, and id, capacity, count, image and the optional fields
      do not move. */
  function WithEditedField(e: Event, f: EditField, v: string): (r: Event)
    ensures EditValue(r, f) == v
    ensures forall g :: g != f ==> EditValue(r, g) == EditValue(e, g)
    ensures r.id == e.id && r.maxParticipants == e.maxParticipants
    ensures r.currentParticipants == e.currentParticipants && r.image == e.image
    ensures r.spots == e.spots && r.registered == e.registered
  {
    match f
    case EditTitle => e.(title := v)
    case EditCategory => e.(category := v)
    case EditDate => e.(date := v)
    case EditTime => e.(time := v)
    case EditLocation => e.(location := v)
    case EditPrice => e.(price := v)
    case EditDescription => e.(description := v)
  }

  /** A session of keystrokes in the edit form. */
  function ApplyEdits(e: Event, edits: seq<(EditField, string)>): Event
    decreases |edits|
  {
    if edits == [] then e
    else ApplyEdits(WithEditedField(e, edits[0].0, edits[0].1), edits[1..])
  }

  /** Whatever is typed into the edit form, the copy keeps the id, capacity,
      count, image and optional fields of the record it was taken from. */
  lemma {:induction false} EditsKeepFixedFields(e: Event, edits: seq<(EditField, string)>)
    ensures ApplyEdits(e, edits).id == e.id
    ensures ApplyEdits(e, edits).maxParticipants == e.maxParticipants
    ensures ApplyEdits(e, edits).currentParticipants == e.currentParticipants
    ensures ApplyEdits(e, edits).image == e.image
    ensures ApplyEdits(e, edits).spots == e.spots && ApplyEdits(e, edits).registered == e.registered
    decreases |edits|
  {
    if edits != [] {
      EditsKeepFixedFields(WithEditedField(e, edits[0].0, edits[0].1), edits[1..]);
    }
  }

  /** Saving an edit session started from a record of the list keeps the
      capacity invariant of the list, when the list had it: the copy keeps
      its record's capacity and count, and replaces every record with its id. */
  lemma SaveEditKeepsCapacity(s: seq<Event>, k: nat, edits: seq<(EditField, string)>)
    requires k < |s| && AllWithinCapacity(s)
    ensures AllWithinCapacity(ReplaceById(s, ApplyEdits(s[k], edits)))
  {
    EditsKeepFixedFields(s[k], edits);
  }

  /** The dashboard keeps the list it loaded and never listens for writes.
      When the list view has since stored a registration for `id` (raising
      record `k`, the only one with that id), a later delete of another
      record by the dashboard writes record `k` back with its old count:
      every record with `id` in the written list is the one from before the
      registration. */
  lemma StaleDashboardWriteLosesRegistration(s: seq<Event>, id: string, other: string, k: nat)
    requires k < |s| && s[k].id == id && other != id
    requires forall j :: 0 <= j < |s| && s[j].id == id ==> j == k
    ensures IncrementById(s, id)[k].currentParticipants == s[k].currentParticipants + 1
    ensures s[k] in RemoveById(s, other)
    ensures forall x :: x in RemoveById(s, other) && x.id == id ==> x == s[k]
  {
  }

  // -----------------------------------------------------------------------
  // The component

  class AdminDashboard {
    const store: Storage
    /** The page's event list, the only `'eventsUpdated'` listener. */
    const listener: EventsSection
    var events: seq<Event>
    var editingEvent: Option<Event>
    var isAddingEvent: bool
    var newEvent: Draft

    /** The dashboard shares the page's storage with the event list. */
    constructor (listener: EventsSection)
      ensures this.listener == listener && store == listener.store
      ensures events == [] && editingEvent == None && !isAddingEvent && newEvent == DefaultDraft
    {
      this.listener := listener;
      store := listener.store;
      events := [];
      editingEvent := None;
      isAddingEvent := false;
      newEvent := DefaultDraft;
    }

    /** The persist-and-broadcast effect: the slot receives the whole list
        and a mounted event list receives the same list. */
    method Publish()
      modifies store, listener
      ensures store.events == Some(events)
      ensures listener.events == if old(listener.subscribed) then events else old(listener.events)
      ensures listener.subscribed == old(listener.subscribed)
      ensures listener.selectedEvent == old(listener.selectedEvent)
      ensures listener.isRegistrationOpen == old(listener.isRegistrationOpen)
    {
      store.events := Some(events);
      if listener.subscribed {
        listener.OnEventsUpdated(events);
      }
    }

    /** Mount: a stored catalog is used as it is, otherwise the six defaults
        are used and written; then the list is published. */
    method Mount()
      modifies this, store, listener
      ensures events == Loaded(old(store.events), AdminDefaults)
      ensures store.events == Some(events)
      ensures listener.events == if old(listener.subscribed) then events else old(listener.events)
      ensures listener.subscribed == old(listener.subscribed)
      ensures listener.selectedEvent == old(listener.selectedEvent)
      ensures listener.isRegistrationOpen == old(listener.isRegistrationOpen)
      ensures editingEvent == old(editingEvent) && isAddingEvent == old(isAddingEvent)
      ensures newEvent == old(newEvent)
    {
      if store.events.Some? {
        events := store.events.value;
      } else {
        events := AdminDefaults;
        store.events := Some(AdminDefaults);
      }
      Publish();
    }

    method OpenAddForm()
      modifies this
      ensures isAddingEvent
      ensures events == old(events) && editingEvent == old(editingEvent) && newEvent == old(newEvent)
    {
      isAddingEvent := true;
    }

    /** The close button and Cancel of the add form; the draft is kept. */
    method CloseAddForm()
      modifies this
      ensures !isAddingEvent
      ensures events == old(events) && editingEvent == old(editingEvent) && newEvent == old(newEvent)
    {
      isAddingEvent := false;
    }

    method ChangeDraftField(f: DraftField, v: string)
      modifies this
      ensures newEvent == WithDraftField(old(newEvent), f, v)
      ensures events == old(events) && editingEvent == old(editingEvent)
      ensures isAddingEvent == old(isAddingEvent)
    {
      newEvent := WithDraftField(newEvent, f, v);
    }

    /** The capacity input. */
    method ChangeDraftCapacity(input: string)
      modifies this
      ensures newEvent == old(newEvent).(maxParticipants := CapacityFromInput(input))
      ensures events == old(events) && editingEvent == old(editingEvent)
      ensures isAddingEvent == old(isAddingEvent)
    {
      newEvent := newEvent.(maxParticipants := CapacityFromInput(input));
    }

    /** `handleAddEvent`, with `id` the value of `Date.now().toString()`.
        Rejected, with list, draft and storage untouched, when a required
        field is empty. Otherwise exactly one record with count 0 is
        appended, the draft returns to its defaults, the form closes and the
        new list is published. */
    method HandleAddEvent(id: string) returns (added: bool)
      modifies this, store, listener
      ensures added <==> DraftComplete(old(newEvent))
      ensures !added ==> events == old(events) && newEvent == old(newEvent)
                         && isAddingEvent == old(isAddingEvent)
                         && store.events == old(store.events)
                         && listener.events == old(listener.events)
      ensures added ==> events == old(events) + [NewEvent(old(newEvent), id)]
                        && newEvent == DefaultDraft && !isAddingEvent
                        && store.events == Some(events)
                        && listener.events == if old(listener.subscribed) then events else old(listener.events)
      ensures editingEvent == old(editingEvent)
      ensures listener.subscribed == old(listener.subscribed)
      ensures listener.selectedEvent == old(listener.selectedEvent)
      ensures listener.isRegistrationOpen == old(listener.isRegistrationOpen)
    {
      if !DraftComplete(newEvent) {
        return false;
      }
      events := events + [NewEvent(newEvent, id)];
      newEvent := DefaultDraft;
      isAddingEvent := false;
      Publish();
      added := true;
    }

    /** `handleEditEvent`: the edit form starts on a copy of the record. */
    method HandleEditEvent(e: Event)
      modifies this
      ensures editingEvent == Some(e)
      ensures events == old(events) && newEvent == old(newEvent) && isAddingEvent == old(isAddingEvent)
    {
      editingEvent := Some(e);
    }

    /** One of the edit form's inputs; they are shown only while a copy is
        being edited. */
    method ChangeEditField(f: EditField, v: string)
      requires editingEvent.Some?
      modifies this
      ensures editingEvent == Some(WithEditedField(old(editingEvent).value, f, v))
      ensures events == old(events) && newEvent == old(newEvent) && isAddingEvent == old(isAddingEvent)
    {
      editingEvent := Some(WithEditedField(editingEvent.value, f, v));
    }

    /** The edit form's Cancel. */
    method CancelEdit()
      modifies this
      ensures editingEvent == None
      ensures events == old(events) && newEvent == old(newEvent) && isAddingEvent == old(isAddingEvent)
    {
      editingEvent := None;
    }

    /** `handleSaveEdit`: nothing happens when no edit is in progress;
        otherwise every record with the copy's id becomes the copy, the edit
        ends and the list is published. */
    method HandleSaveEdit()
      modifies this, store, listener
      ensures old(editingEvent).None? ==>
        events == old(events) && store.events == old(store.events)
        && listener.events == old(listener.events)
      ensures old(editingEvent).Some? ==>
        events == ReplaceById(old(events), old(editingEvent).value)
        && store.events == Some(events)
        && listener.events == if old(listener.subscribed) then events else old(listener.events)
      ensures editingEvent == None
      ensures newEvent == old(newEvent) && isAddingEvent == old(isAddingEvent)
      ensures listener.subscribed == old(listener.subscribed)
      ensures listener.selectedEvent == old(listener.selectedEvent)
      ensures listener.isRegistrationOpen == old(listener.isRegistrationOpen)
    {
      if editingEvent.None? {
        return;
      }
      events := ReplaceById(events, editingEvent.value);
      editingEvent := None;
      Publish();
    }

    /** `handleDeleteEvent`: every record with the id is dropped, the rest
        keep their order, and the list is published. */
    method HandleDeleteEvent(id: string)
      modifies this, store, listener
      ensures events == RemoveById(old(events), id)
      ensures store.events == Some(events)
      ensures listener.events == if old(listener.subscribed) then events else old(listener.events)
      ensures editingEvent == old(editingEvent) && newEvent == old(newEvent)
      ensures isAddingEvent == old(isAddingEvent)
      ensures listener.subscribed == old(listener.subscribed)
      ensures listener.selectedEvent == old(listener.selectedEvent)
      ensures listener.isRegistrationOpen == old(listener.isRegistrationOpen)
    {
      events := RemoveById(events, id);
      Publish();
    }
  }
}
