/** The event catalog shared by the admin dashboard and the public event list:
    the `Event` record, the browser storage slot `'events'` that both
    components read and overwrite, the two default catalogs they seed it
    with, and the pure list transforms their handlers apply. */
module Catalog {
  import opened Common

  /** One event record. The first eleven fields are the record shape shared
      by every component. `spots` and `registered` exist only on the records
      the event list seeds; records that the admin dashboard seeds or adds do
      not carry them, which `None` stands for. */
  datatype Event = Event(
    id: string,
    title: string,
    date: string,
    time: string,
    location: string,
    price: string,
    category: string,
    description: string,
    image: string,
    maxParticipants: int,
    currentParticipants: int,
    spots: Option<int>,
    registered: Option<int>)

  /** The browser storage slot `'events'`. `None` means the key was never
      written; any list written to it, even the empty one, is present. */
  class Storage {
    var events: Option<seq<Event>>

    constructor (initial: Option<seq<Event>>)
      ensures events == initial
    {
      events := initial;
    }
  }

  // -----------------------------------------------------------------------
  // Capacity

  /** The only capacity test in the code: an event is full, its register
      button disabled and labelled 'Event Full', once its count has reached
      its limit. */
  predicate IsFull(e: Event)
  {
    e.currentParticipants >= e.maxParticipants
  }

  /** The invariant the code is meant to keep but does not enforce. */
  predicate WithinCapacity(e: Event)
  {
    0 <= e.currentParticipants <= e.maxParticipants
  }

  predicate AllWithinCapacity(s: seq<Event>)
  {
    forall i :: 0 <= i < |s| ==> WithinCapacity(s[i])
  }

  /** Label of the register button. */
  function RegisterButtonLabel(e: Event): (caption: string)
    ensures caption == "Event Full" <==> IsFull(e)
    ensures caption == "Register Now" <==> !IsFull(e)
  {
    if IsFull(e) then "Event Full" else "Register Now"
  }

  // -----------------------------------------------------------------------
  // Category colours (the same table in both components)

  const WorkshopColor := "bg-blue-100 text-blue-800 dark:bg-blue-900 dark:text-blue-200"
  const CulturalColor := "bg-purple-100 text-purple-800 dark:bg-purple-900 dark:text-purple-200"
  const CompetitionColor := "bg-green-100 text-green-800 dark:bg-green-900 dark:text-green-200"
  const CareerColor := "bg-orange-100 text-orange-800 dark:bg-orange-900 dark:text-orange-200"

  const CategoryColors: map<string, string> := map[
    "workshop" := WorkshopColor,
    "cultural" := CulturalColor,
    "competition" := CompetitionColor,
    "career" := CareerColor]

  /** Badge colour of a category: its entry in the table, and the workshop
      colour for any category the table does not list. */
  function CategoryColor(category: string): (color: string)
    ensures category in CategoryColors ==> color == CategoryColors[category]
    ensures category !in CategoryColors ==> color == WorkshopColor
  {
    if category in CategoryColors then CategoryColors[category] else WorkshopColor
  }

  // -----------------------------------------------------------------------
  // Seeding

  /** What a component's load step puts in its list: the stored catalog as
      it is, or, when the slot is empty, its own defaults. */
  function Loaded(slot: Option<seq<Event>>, defaults: seq<Event>): seq<Event>
  {
    if slot.Some? then slot.value else defaults
  }

  /** Seeding is idempotent and the first seeder decides: once a load has
      run, every later load returns the same catalog, whatever defaults the
      later component carries. */
  lemma LoadAfterLoad(slot: Option<seq<Event>>, first: seq<Event>, later: seq<Event>)
    ensures Loaded(Some(Loaded(slot, first)), later) == Loaded(slot, first)
    ensures slot.None? ==> Loaded(Some(Loaded(slot, first)), later) == first
  {
  }

  // -----------------------------------------------------------------------
  // List transforms

  /** The records whose id is `id`. */
  function CountId(s: seq<Event>, id: string): (n: nat)
    ensures n <= |s|
    ensures n == 0 <==> forall i :: 0 <= i < |s| ==> s[i].id != id
  {
    if s == [] then 0 else (if s[0].id == id then 1 else 0) + CountId(s[1..], id)
  }

  /** `s.map(e => e.id === edited.id ? edited : e)`: every record carrying
      the edited id becomes the edited copy; the others stay where they are. */
  function ReplaceById(s: seq<Event>, edited: Event): (r: seq<Event>)
    ensures |r| == |s|
    ensures forall i :: 0 <= i < |s| ==> r[i].id == s[i].id
    ensures forall i :: 0 <= i < |s| ==> r[i] == (if s[i].id == edited.id then edited else s[i])
  {
    seq(|s|, i requires 0 <= i < |s| => if s[i].id == edited.id then edited else s[i])
  }

  /** Saving the same edit twice is saving it once. */
  lemma ReplaceIdempotent(s: seq<Event>, edited: Event)
    ensures ReplaceById(ReplaceById(s, edited), edited) == ReplaceById(s, edited)
  {
  }

  /** Saving an edit whose id no record carries changes nothing. */
  lemma ReplaceAbsent(s: seq<Event>, edited: Event)
    requires CountId(s, edited.id) == 0
    ensures ReplaceById(s, edited) == s
  {
  }

  /** `s.filter(e => e.id !== id)`. */
  function RemoveById(s: seq<Event>, id: string): (r: seq<Event>)
    ensures |r| == |s| - CountId(s, id)
    ensures forall i :: 0 <= i < |r| ==> r[i].id != id
    ensures forall x :: x in r <==> x in s && x.id != id
  {
    if s == [] then []
    else (if s[0].id == id then [] else [s[0]]) + RemoveById(s[1..], id)
  }

  /** The filter works record by record and keeps the order of what it
      keeps: removing from a concatenation is concatenating the removals. */
  lemma {:induction false} RemoveConcat(a: seq<Event>, b: seq<Event>, id: string)
    ensures RemoveById(a + b, id) == RemoveById(a, id) + RemoveById(b, id)
  {
    if a == [] {
      assert a + b == b;
    } else {
      var ab := a + b;
      assert ab[0] == a[0] && ab[1..] == a[1..] + b;
      RemoveConcat(a[1..], b, id);
      var head := if a[0].id == id then [] else [a[0]];
      var ra, rb := RemoveById(a[1..], id), RemoveById(b, id);
      calc {
        RemoveById(ab, id);
        { RemoveCons(ab, id); }
        head + RemoveById(a[1..] + b, id);
        head + (ra + rb);
        (head + ra) + rb;
        { RemoveCons(a, id); }
        RemoveById(a, id) + rb;
      }
    }
  }

  lemma RemoveCons(s: seq<Event>, id: string)
    requires s != []
    ensures RemoveById(s, id) == (if s[0].id == id then [] else [s[0]]) + RemoveById(s[1..], id)
  {
  }

  /** Removing an id no record carries changes nothing. */
  lemma {:induction false} RemoveAbsent(s: seq<Event>, id: string)
    requires CountId(s, id) == 0
    ensures RemoveById(s, id) == s
  {
    if s != [] {
      RemoveAbsent(s[1..], id);
    }
  }

  /** Deleting twice is deleting once. */
  lemma RemoveIdempotent(s: seq<Event>, id: string)
    ensures RemoveById(RemoveById(s, id), id) == RemoveById(s, id)
  {
    RemoveAbsent(RemoveById(s, id), id);
  }

  /** The per-record increment of a registration. */
  function Incremented(e: Event): Event
  {
    e.(currentParticipants := e.currentParticipants + 1)
  }

  /** `s.map(e => e.id === id ? { ...e, currentParticipants: e.currentParticipants + 1 } : e)`:
      the count of each record with that id goes up by exactly one, nothing
      else about any record changes, and nothing is checked. */
  function IncrementById(s: seq<Event>, id: string): (r: seq<Event>)
    ensures |r| == |s|
    ensures forall i :: 0 <= i < |s| ==>
      r[i].currentParticipants == s[i].currentParticipants + (if s[i].id == id then 1 else 0)
    ensures forall i :: 0 <= i < |s| ==>
      r[i].(currentParticipants := s[i].currentParticipants) == s[i]
  {
    seq(|s|, i requires 0 <= i < |s| => if s[i].id == id then Incremented(s[i]) else s[i])
  }

  /** Sum of the counts: the "Total Participants" figure of the dashboard. */
  function TotalParticipants(s: seq<Event>): int
  {
    if s == [] then 0 else s[0].currentParticipants + TotalParticipants(s[1..])
  }

  /** A registration adds one participant per record that carries the id:
      one when ids are unique, none when the id is gone. */
  lemma {:induction false} IncrementTotal(s: seq<Event>, id: string)
    ensures TotalParticipants(IncrementById(s, id)) == TotalParticipants(s) + CountId(s, id)
  {
    if s != [] {
      IncrementTotal(s[1..], id);
      assert IncrementById(s, id)[1..] == IncrementById(s[1..], id);
    }
  }

  /** The increment on a full event takes its count past its limit. */
  lemma IncrementOverbooks(s: seq<Event>, id: string, k: nat)
    requires k < |s| && s[k].id == id && IsFull(s[k])
    ensures IncrementById(s, id)[k].currentParticipants > IncrementById(s, id)[k].maxParticipants
  {
  }

  /** Guarded use only: registering for an id none of whose records is full
      keeps every record within its capacity. */
  lemma GuardedIncrementKeepsCapacity(s: seq<Event>, id: string)
    requires AllWithinCapacity(s)
    requires forall i :: 0 <= i < |s| && s[i].id == id ==> !IsFull(s[i])
    ensures AllWithinCapacity(IncrementById(s, id))
  {
  }

  /** `n` registrations in a row. There is no limit: every record with the
      id has gained exactly `n`, whatever its capacity, and nothing else
      about any record changes. */
  function IncrementTimes(s: seq<Event>, id: string, n: nat): (r: seq<Event>)
    ensures |r| == |s|
    ensures forall k :: 0 <= k < |s| ==>
      r[k].currentParticipants == s[k].currentParticipants + (if s[k].id == id then n else 0)
    ensures forall k :: 0 <= k < |s| ==>
      r[k].(currentParticipants := s[k].currentParticipants) == s[k]
  {
    if n == 0 then s else IncrementById(IncrementTimes(s, id, n - 1), id)
  }

  // -----------------------------------------------------------------------
  // Default catalogs

  /** The six records the admin dashboard seeds an empty slot with. */
  const AdminDefaults: seq<Event> := [
    Event("1", "AI & Machine Learning Workshop", "2024-11-15", "10:00 AM - 4:00 PM",
          "Tech Lab, Building A", "\U{20B9}500", "workshop",
          "Learn the fundamentals of AI and ML with hands-on projects and expert guidance.",
          "https://images.unsplash.com/photo-1485827404703-89b55fcc595e?w=400", 50, 23, None, None),
    Event("2", "Annual Cultural Festival", "2024-11-20", "6:00 PM - 11:00 PM",
          "Main Auditorium", "Free", "cultural",
          "Celebrate diversity with music, dance, and cultural performances from around the world.",
          "https://images.unsplash.com/photo-1492684223066-81342ee5ff30?w=400", 500, 234, None, None),
    Event("3", "Startup Pitch Competition", "2024-11-25", "2:00 PM - 6:00 PM",
          "Innovation Hub", "\U{20B9}200", "competition",
          "Present your innovative ideas to industry experts and win exciting prizes.",
          "https://images.unsplash.com/photo-1556761175-b413da4baf72?w=400", 30, 18, None, None),
    Event("4", "Robotics Challenge", "2024-12-01", "9:00 AM - 5:00 PM",
          "Engineering Lab", "\U{20B9}800", "competition",
          "Build and program robots to compete in exciting challenges and obstacles.",
          "https://images.unsplash.com/photo-1518709268805-4e9042af2176?w=400", 40, 15, None, None),
    Event("5", "Photography Workshop", "2024-12-05", "11:00 AM - 3:00 PM",
          "Art Studio", "\U{20B9}300", "workshop",
          "Master the art of photography with professional techniques and equipment.",
          "https://images.unsplash.com/photo-1452587925148-ce544e77e70d?w=400", 25, 12, None, None),
    Event("6", "Career Fair 2024", "2024-12-10", "10:00 AM - 4:00 PM",
          "Campus Grounds", "Free", "career",
          "Connect with top companies and explore internship and job opportunities.",
          "https://images.unsplash.com/photo-1521737711867-e3b97375f902?w=400", 1000, 456, None, None)
  ]

  /** The five records the event list seeds an empty slot with; each also
      carries `spots: 50, registered: 30`. */
  const ListDefaults: seq<Event> := [
    Event("1", "AI & Machine Learning Workshop", "2024-11-15", "10:00 AM - 4:00 PM",
          "Tech Lab, Building A", "\U{20B9}500", "workshop",
          "Learn the fundamentals of AI and ML with hands-on projects and expert guidance.",
          "https://images.unsplash.com/photo-1485827404703-89b55fcc595e?w=400", 50, 23, Some(50), Some(30)),
    Event("2", "Annual Cultural Festival", "2024-11-20", "6:00 PM - 11:00 PM",
          "Main Auditorium", "Free", "cultural",
          "Celebrate diversity with music, dance, and cultural performances from around the world.",
          "https://images.unsplash.com/photo-1492684223066-81342ee5ff30?w=400", 500, 234, Some(50), Some(30)),
    Event("3", "Startup Pitch Competition", "2024-11-25", "2:00 PM - 6:00 PM",
          "Innovation Hub", "\U{20B9}200", "competition",
          "Present your innovative ideas to industry experts and win exciting prizes.",
          "https://images.unsplash.com/photo-1556761175-b413da4baf72?w=400", 30, 18, Some(50), Some(30)),
    Event("4", "Photography Workshop", "2024-12-05", "11:00 AM - 3:00 PM",
          "Art Studio", "\U{20B9}300", "workshop",
          "Master the art of photography with professional techniques and equipment.",
          "https://images.unsplash.com/photo-1452587925148-ce544e77e70d?w=400", 25, 12, Some(50), Some(30)),
    Event("5", "Career Fair 2024", "2024-12-10", "10:00 AM - 4:00 PM",
          "Campus Grounds", "Free", "career",
          "Connect with top companies and explore internship and job opportunities.",
          "https://images.unsplash.com/photo-1521737711867-e3b97375f902?w=400", 1000, 456, Some(50), Some(30))
  ]

  /** The dashboard's default catalog respects the capacity invariant, and
      its ids are '1' to '6' in order. */
  lemma AdminDefaultsShape()
    ensures AllWithinCapacity(AdminDefaults) && |AdminDefaults| == 6
    ensures forall i :: 0 <= i < 6 ==> AdminDefaults[i].id == ["1", "2", "3", "4", "5", "6"][i]
  {
  }

  /** The list's default catalog respects the capacity invariant, and its
      ids are '1' to '5' in order. */
  lemma ListDefaultsShape()
    ensures AllWithinCapacity(ListDefaults) && |ListDefaults| == 5
    ensures forall i :: 0 <= i < 5 ==> ListDefaults[i].id == ["1", "2", "3", "4", "5"][i]
  {
  }

  /** The two default catalogs disagree on id '4', so whichever component
      seeds the empty slot first decides what that id names. */
  lemma DefaultsDisagreeOnId4()
    ensures AdminDefaults[3].id == ListDefaults[3].id == "4"
    ensures AdminDefaults[3].title == "Robotics Challenge"
    ensures ListDefaults[3].title == "Photography Workshop"
    ensures Loaded(Some(Loaded(None, AdminDefaults)), ListDefaults)[3].title == "Robotics Challenge"
    ensures Loaded(Some(Loaded(None, ListDefaults)), AdminDefaults)[3].title == "Photography Workshop"
  {
  }
}
