/**
 Waypoint numbers (lib/waypointOrder.ts): one number per pinned place, counted over the whole trip.
 */
module WaypointOrder {
  import opened Options
  import opened Lists

  datatype TimelineEntry = TimelineEntry(entityType: string, entityId: string)

  datatype DayPlan = DayPlan(day: int, timeline: seq<TimelineEntry>)

  datatype MapPlace = MapPlace(entityType: string, entityId: string, latitude: Option<real>, longitude: Option<real>)

  datatype Placement = Placement(sequence: int, days: seq<int>)

  predicate IsPhysical(entityType: string) {
    entityType in ["visit_stop", "dining_stop", "lodging_stay"]
  }

  predicate IsPinnedKind(kind: string) {
    kind in {"visit", "dining", "lodging"}
  }

  /** A place the map puts a pin on: physical, with both coordinates. */
  predicate HasPin(p: MapPlace) {
    IsPhysical(p.entityType) && p.latitude.Some? && p.longitude.Some?
  }

  function PinnedMapPlaceIds(places: seq<MapPlace>): (ids: seq<string>)
    ensures forall id :: id in ids <==> exists i | 0 <= i < |places| :: HasPin(places[i]) && places[i].entityId == id
  {
    if places == [] then []
    else
      assert places == places[..|places| - 1] + [places[|places| - 1]];
      var before := PinnedMapPlaceIds(places[..|places| - 1]);
      if HasPin(places[|places| - 1]) then before + [places[|places| - 1].entityId] else before
  }

  /** A pin stands for a place to visit, to eat or to stay at whose both coordinates are known. */
  predicate IsPin(p: MapPlace) {
    p.entityType in {"visit_stop", "dining_stop", "lodging_stay"} && p.latitude.Some? && p.longitude.Some?
  }

  lemma PinMeans(p: MapPlace)
    ensures HasPin(p) <==> IsPin(p)
  {
  }

  /** The ids of exactly the pins, in the order of the map's list: `at` says where each stands in it. */
  ghost predicate ListsPins(places: seq<MapPlace>, ids: seq<string>, at: seq<nat>) {
    && |at| == |ids| && (forall k, l | 0 <= k < l < |at| :: at[k] < at[l])
    && (forall k | 0 <= k < |at| :: at[k] < |places| && IsPin(places[at[k]]) && places[at[k]].entityId == ids[k])
    && forall i | 0 <= i < |places| && IsPin(places[i]) :: i in at
  }

  lemma {:induction false} PinsKeepOrder(places: seq<MapPlace>) returns (at: seq<nat>)
    ensures ListsPins(places, PinnedMapPlaceIds(places), at)
  {
    hide IsPin, HasPin;
    at := [];
    if places != [] {
      var n := |places| - 1;
      at := PinsKeepOrder(places[..n]);
      PinMeans(places[n]);
      var before := at;
      if HasPin(places[n]) {
        at := at + [n];
        assert at[|before|] == n;
      }
      assert forall i | i in before :: i in at;
      forall i | 0 <= i < |places| && IsPin(places[i])
        ensures i in at
      {
        if i < n { assert places[..n][i] == places[i]; }
      }
    }
  }

  /* ----- What the trip offers, in order ----- */

  /** A pinned place met in the timeline on a day, or only on the map. */
  datatype Visit = Visit(id: string, day: Option<int>)

  predicate Counts(e: TimelineEntry, pinned: seq<string>) {
    IsPhysical(e.entityType) && e.entityId in pinned
  }

  function DayVisits(day: int, timeline: seq<TimelineEntry>, pinned: seq<string>): seq<Visit> {
    if timeline == [] then []
    else
      var before, last := DayVisits(day, timeline[..|timeline| - 1], pinned), timeline[|timeline| - 1];
      if Counts(last, pinned) then before + [Visit(last.entityId, Some(day))] else before
  }

  function TripVisits(days: seq<DayPlan>, pinned: seq<string>): seq<Visit> {
    if days == [] then []
    else TripVisits(days[..|days| - 1], pinned) + DayVisits(days[|days| - 1].day, days[|days| - 1].timeline, pinned)
  }

  function MapOnly(ids: seq<string>): (r: seq<Visit>)
    ensures |r| == |ids|
  {
    seq(|ids|, i requires 0 <= i < |ids| => Visit(ids[i], None))
  }

  function Ids(visits: seq<Visit>): (r: seq<string>)
    ensures |r| == |visits|
  {
    seq(|visits|, i requires 0 <= i < |visits| => visits[i].id)
  }

  function DaysOf(visits: seq<Visit>, id: string): seq<int> {
    if visits == [] then []
    else
      var before, last := DaysOf(visits[..|visits| - 1], id), visits[|visits| - 1];
      if last.id == id && last.day.Some? then before + [last.day.value] else before
  }

  /* ----- The numbering ----- */

  /** How many places the visits reach. */
  function Reached(visits: seq<Visit>): nat {
    |Distinct(Ids(visits))|
  }

  /** The number of a place: its position among the places in order of first appearance. */
  function NumberOf(visits: seq<Visit>, id: string): int
    requires id in Ids(visits)
  {
    IndexOf(Distinct(Ids(visits)), id) + 1
  }

  /** Each place met gets the position of its first appearance, and the days it was met on, each once. */
  ghost predicate Numbers(order: map<string, Placement>, visits: seq<Visit>) {
    && (forall id :: id in order <==> id in Ids(visits))
    && forall id | id in order :: order[id] == Placement(NumberOf(visits, id), Distinct(DaysOf(visits, id)))
  }

  lemma NumbersStart(order: map<string, Placement>, visits: seq<Visit>)
    requires order == map[] && visits == []
    ensures Numbers(order, visits) && Reached(visits) == 0 && Numbering(order, 1, visits)
  {
  }

  /** One more visit: a new place takes the next number, a known one keeps its number and gains the day if it is new. */
  function Offer(order: map<string, Placement>, next: int, v: Visit): map<string, Placement> {
    if v.id !in order then order[v.id := Placement(next, if v.day.Some? then [v.day.value] else [])]
    else if v.day.Some? && v.day.value !in order[v.id].days then
      order[v.id := Placement(order[v.id].sequence, order[v.id].days + [v.day.value])]
    else order
  }

  lemma NumbersStep(order: map<string, Placement>, visits: seq<Visit>, v: Visit)
    requires Numbers(order, visits)
    ensures Numbers(Offer(order, Reached(visits) + 1, v), visits + [v])
    ensures Reached(visits + [v]) == if v.id in order then Reached(visits) else Reached(visits) + 1
  {
    hide Distinct, DaysOf, Ids, IndexOf;
    var next := Offer(order, Reached(visits) + 1, v);
    IdsStep(visits, v);
    forall id | id in next
      ensures id in Ids(visits + [v])
                && next[id] == Placement(NumberOf(visits + [v], id), Distinct(DaysOf(visits + [v], id)))
    {
      hide NumberOf, Numbers;
      PlacementStep(order, visits, v, id);
    }
    assert forall id :: id in Ids(visits + [v]) ==> id in next;
  }

  lemma PlacementStep(order: map<string, Placement>, visits: seq<Visit>, v: Visit, id: string)
    requires Numbers(order, visits) && id in Offer(order, Reached(visits) + 1, v)
    ensures id in Ids(visits + [v])
    ensures Offer(order, Reached(visits) + 1, v)[id]
              == Placement(NumberOf(visits + [v], id), Distinct(DaysOf(visits + [v], id)))
  {
    hide Distinct, DaysOf, Ids, IndexOf;
    IdsStep(visits, v);
    DaysStep(visits, v, id);
    if id in order {
      IndexOfPrefix(Distinct(Ids(visits)), [v.id], id);
    } else {
      IndexAfterAdd(Distinct(Ids(visits)), v.id, id);
      NoDays(visits, id);
      DistinctNone(DaysOf(visits, id));
    }
  }

  lemma DistinctNone(days: seq<int>)
    ensures days == [] ==> Distinct(days) == []
  {
  }

  lemma IdsStep(visits: seq<Visit>, v: Visit)
    ensures Ids(visits + [v]) == Ids(visits) + [v.id]
    ensures Distinct(Ids(visits + [v])) == Add(Distinct(Ids(visits)), v.id)
  {
    assert (Ids(visits) + [v.id])[..|visits|] == Ids(visits);
  }

  lemma DaysStep(visits: seq<Visit>, v: Visit, id: string)
    ensures DaysOf(visits + [v], id)
         == if v.id == id && v.day.Some? then DaysOf(visits, id) + [v.day.value] else DaysOf(visits, id)
    ensures Distinct(DaysOf(visits + [v], id))
         == if v.id == id && v.day.Some? then Add(Distinct(DaysOf(visits, id)), v.day.value)
             else Distinct(DaysOf(visits, id))
  {
    assert (visits + [v])[..|visits|] == visits;
    var days := DaysOf(visits, id);
    if v.day.Some? {
      assert (days + [v.day.value])[..|days|] == days;
    }
  }

  lemma {:induction false} NoDays(visits: seq<Visit>, id: string)
    requires id !in Ids(visits)
    ensures DaysOf(visits, id) == []
  {
    if visits != [] {
      var init := visits[..|visits| - 1];
      assert visits[|visits| - 1].id == Ids(visits)[|visits| - 1];
      assert forall i | 0 <= i < |init| :: Ids(init)[i] == Ids(visits)[i];
      NoDays(init, id);
    }
  }

  /** What the trip offers the numbering: its timeline, then the pins the timeline never reaches. */
  function Offered(days: seq<DayPlan>, mapPlaceIds: seq<string>): seq<Visit> {
    TripVisits(days, mapPlaceIds) + MapOnly(mapPlaceIds)
  }

  /** The state of the numbering after some visits. */
  ghost predicate Numbering(order: map<string, Placement>, next: int, visits: seq<Visit>) {
    Numbers(order, visits) && next == Reached(visits) + 1
  }

  lemma NumberingStep(order: map<string, Placement>, next: int, visits: seq<Visit>, v: Visit)
    requires Numbering(order, next, visits)
    ensures Numbering(Offer(order, next, v), if v.id in order then next else next + 1, visits + [v])
  {
    hide Numbers, Offer, Reached;
    NumbersStep(order, visits, v);
  }

  lemma EntryStep(order: map<string, Placement>, next: int, visits: seq<Visit>, plan: DayPlan, pinned: seq<string>,
                  j: nat)
    requires j < |plan.timeline| && Numbering(order, next, visits + DayVisits(plan.day, plan.timeline[..j], pinned))
    ensures var entry, after := plan.timeline[j], visits + DayVisits(plan.day, plan.timeline[..j + 1], pinned);
            if Counts(entry, pinned) then
              Numbering(Offer(order, next, Visit(entry.entityId, Some(plan.day))),
                        if entry.entityId in order then next else next + 1, after)
            else Numbering(order, next, after)
  {
    var entry := plan.timeline[j];
    var v := Visit(entry.entityId, Some(plan.day));
    DayVisitsStep(plan, pinned, j, visits);
    hide Numbering, Offer, DayVisits, Counts;
    if Counts(entry, pinned) {
      NumberingStep(order, next, visits + DayVisits(plan.day, plan.timeline[..j], pinned), v);
    }
  }

  lemma DayVisitsStep(plan: DayPlan, pinned: seq<string>, j: nat, visits: seq<Visit>)
    requires j < |plan.timeline|
    ensures var entry := plan.timeline[j];
            visits + DayVisits(plan.day, plan.timeline[..j + 1], pinned)
            == (if Counts(entry, pinned) then
                visits + DayVisits(plan.day, plan.timeline[..j], pinned) + [Visit(entry.entityId, Some(plan.day))]
                else visits + DayVisits(plan.day, plan.timeline[..j], pinned))
  {
    hide Counts;
    assert plan.timeline[..j + 1][..j] == plan.timeline[..j];
  }

  /** The timeline of one day. */
  method NumberDay(plan: DayPlan, pinned: seq<string>, before: map<string, Placement>, first: int,
                   ghost visits: seq<Visit>)
    returns (order: map<string, Placement>, next: int)
    requires Numbering(before, first, visits)
    ensures Numbering(order, next, visits + DayVisits(plan.day, plan.timeline, pinned))
  {
    order, next := before, first;
    assert visits + DayVisits(plan.day, plan.timeline[..0], pinned) == visits;
    assert plan.timeline[..|plan.timeline|] == plan.timeline;
    hide Numbering, DayVisits, IsPhysical;
    for j := 0 to |plan.timeline|
      invariant Numbering(order, next, visits + DayVisits(plan.day, plan.timeline[..j], pinned))
    {
      EntryStep(order, next, visits, plan, pinned, j);
      var entry := plan.timeline[j];
      if IsPhysical(entry.entityType) && entry.entityId in pinned {
        if entry.entityId !in order {
          order := order[entry.entityId := Placement(next, [plan.day])];
          next := next + 1;
        } else {
          var current := order[entry.entityId];
          if plan.day !in current.days {
            order := order[entry.entityId := Placement(current.sequence, current.days + [plan.day])];
          }
        }
      }
    }
  }

  lemma TripVisitsStep(days: seq<DayPlan>, pinned: seq<string>, i: nat)
    requires i < |days|
    ensures TripVisits(days[..i + 1], pinned)
              == TripVisits(days[..i], pinned) + DayVisits(days[i].day, days[i].timeline, pinned)
  {
    assert days[..i + 1][..i] == days[..i];
  }

  lemma PinStep(order: map<string, Placement>, next: int, visits: seq<Visit>, ids: seq<string>, i: nat)
    requires i < |ids| && Numbering(order, next, visits + MapOnly(ids[..i]))
    ensures Numbering(Offer(order, next, Visit(ids[i], None)), if ids[i] in order then next else next + 1,
                      visits + MapOnly(ids[..i + 1]))
  {
    hide Numbering, Offer;
    NumberingStep(order, next, visits + MapOnly(ids[..i]), Visit(ids[i], None));
    assert visits + MapOnly(ids[..i]) + [Visit(ids[i], None)] == visits + MapOnly(ids[..i + 1]);
  }

  /** buildWaypointOrder. */
  method BuildWaypointOrder(days: seq<DayPlan>, mapPlaceIds: seq<string>) returns (order: map<string, Placement>)
    ensures Numbers(order, Offered(days, mapPlaceIds))
  {
    order := map[];
    var next := 1;
    NumbersStart(order, TripVisits(days[..0], mapPlaceIds));
    assert days[..|days|] == days && mapPlaceIds[..|mapPlaceIds|] == mapPlaceIds;
    ghost var visits := TripVisits(days, mapPlaceIds);
    assert visits + MapOnly(mapPlaceIds[..0]) == visits;
    hide Numbering, DayVisits, TripVisits, MapOnly, Numbers;
    for i := 0 to |days|
      invariant Numbering(order, next, TripVisits(days[..i], mapPlaceIds))
    {
      TripVisitsStep(days, mapPlaceIds, i);
      order, next := NumberDay(days[i], mapPlaceIds, order, next, TripVisits(days[..i], mapPlaceIds));
    }
    for i := 0 to |mapPlaceIds|
      invariant Numbering(order, next, visits + MapOnly(mapPlaceIds[..i]))
    {
      PinStep(order, next, visits, mapPlaceIds, i);
      if mapPlaceIds[i] !in order {
        order := order[mapPlaceIds[i] := Placement(next, [])];
        next := next + 1;
      }
    }
    NumberingHolds(order, next, visits + MapOnly(mapPlaceIds));
  }

  lemma NumberingHolds(order: map<string, Placement>, next: int, visits: seq<Visit>)
    requires Numbering(order, next, visits)
    ensures Numbers(order, visits)
  {
  }

  /* ----- What the numbers mean ----- */

  /** The places of the numbering, in order: those the timeline reaches, by first appearance, then the other pins. */
  function Places(days: seq<DayPlan>, mapPlaceIds: seq<string>): seq<string> {
    Distinct(Ids(Offered(days, mapPlaceIds)))
  }

  /** Exactly the pinned places are numbered, and their numbers run from 1 to their count, each used once. */
  lemma NumbersAreABijection(order: map<string, Placement>, days: seq<DayPlan>, mapPlaceIds: seq<string>)
    requires Numbers(order, Offered(days, mapPlaceIds))
    ensures forall id :: id in order <==> id in mapPlaceIds
    ensures forall id | id in order :: 1 <= order[id].sequence <= |Places(days, mapPlaceIds)|
    ensures forall a, b | a in order && b in order && order[a].sequence == order[b].sequence :: a == b
    ensures forall i | 0 <= i < |Places(days, mapPlaceIds)| ::
              Places(days, mapPlaceIds)[i] in order && order[Places(days, mapPlaceIds)[i]].sequence == i + 1
    ensures |order| == |Places(days, mapPlaceIds)|
  {
    hide Offered, Ids, Distinct, DaysOf, IndexOf;
    var places := Places(days, mapPlaceIds);
    OfferedIds(days, mapPlaceIds);
    forall i | 0 <= i < |places|
      ensures places[i] in order && order[places[i]].sequence == i + 1
    {
      IndexOfUnique(places, i);
    }
    SameSize(places, order.Keys);
  }

  lemma {:induction false} SameSize(places: seq<string>, keys: set<string>)
    requires NoDuplicates(places) && forall id :: id in keys <==> id in places
    ensures |keys| == |places|
  {
    if places == [] {
      assert keys == {};
    } else {
      var init, last := places[..|places| - 1], places[|places| - 1];
      assert places == init + [last];
      SameSize(init, keys - {last});
    }
  }

  lemma OfferedIds(days: seq<DayPlan>, mapPlaceIds: seq<string>)
    ensures Ids(Offered(days, mapPlaceIds)) == Ids(TripVisits(days, mapPlaceIds)) + mapPlaceIds
    ensures forall id :: id in Ids(Offered(days, mapPlaceIds)) <==> id in mapPlaceIds
  {
    var visits := TripVisits(days, mapPlaceIds);
    TripVisitsArePinned(days, mapPlaceIds);
    assert Offered(days, mapPlaceIds) == visits + MapOnly(mapPlaceIds);
    hide Offered, TripVisits;
    IdsArePinned(visits, mapPlaceIds);
    assert Ids(visits + MapOnly(mapPlaceIds)) == Ids(visits) + mapPlaceIds;
    hide Ids, MapOnly;
  }

  lemma IdsArePinned(visits: seq<Visit>, pinned: seq<string>)
    requires forall v | v in visits :: v.id in pinned
    ensures forall id | id in Ids(visits) :: id in pinned
  {
    forall i | 0 <= i < |visits|
      ensures Ids(visits)[i] in pinned
    {
      assert visits[i] in visits;
    }
  }

  lemma {:induction false} DayVisitsArePinned(day: int, timeline: seq<TimelineEntry>, pinned: seq<string>)
    ensures forall v | v in DayVisits(day, timeline, pinned) :: v.id in pinned && v.day == Some(day)
    ensures forall id :: Visit(id, Some(day)) in DayVisits(day, timeline, pinned) <==>
              exists i | 0 <= i < |timeline| :: Counts(timeline[i], pinned) && timeline[i].entityId == id
  {
    hide IsPhysical;
    if timeline != [] {
      var init := timeline[..|timeline| - 1];
      DayVisitsArePinned(day, init, pinned);
      assert timeline == init + [timeline[|timeline| - 1]];
    }
  }

  lemma {:induction false} TripVisitsArePinned(days: seq<DayPlan>, pinned: seq<string>)
    ensures forall v | v in TripVisits(days, pinned) :: v.id in pinned && v.day.Some?
  {
    hide DayVisits;
    if days != [] {
      TripVisitsArePinned(days[..|days| - 1], pinned);
      DayVisitsArePinned(days[|days| - 1].day, days[|days| - 1].timeline, pinned);
    }
  }

  /** The entry is a stop or a stay at the place, and the place has a pin. */
  predicate Visits(e: TimelineEntry, pinned: seq<string>, id: string) {
    e.entityType in {"visit_stop", "dining_stop", "lodging_stay"} && e.entityId == id && id in pinned
  }

  lemma VisitsMeans(e: TimelineEntry, pinned: seq<string>, id: string)
    ensures Visits(e, pinned, id) <==> Counts(e, pinned) && e.entityId == id
  {
  }

  /** The timeline of some day visits the place. */
  ghost predicate VisitedOn(days: seq<DayPlan>, pinned: seq<string>, id: string, day: int) {
    exists d, e | 0 <= d < |days| && 0 <= e < |days[d].timeline| ::
      days[d].day == day && Visits(days[d].timeline[e], pinned, id)
  }

  /** The days of a place are exactly the days whose timeline visits it, each listed once. */
  lemma DaysAreTheVisits(order: map<string, Placement>, days: seq<DayPlan>, mapPlaceIds: seq<string>, id: string,
                         day: int)
    requires Numbers(order, Offered(days, mapPlaceIds)) && id in order
    ensures NoDuplicates(order[id].days)
    ensures day in order[id].days <==> VisitedOn(days, mapPlaceIds, id, day)
  {
    DaysOfMeans(Offered(days, mapPlaceIds), id, day);
    TripVisitsMean(days, mapPlaceIds, id, day);
    assert Visit(id, Some(day)) !in MapOnly(mapPlaceIds);
    hide Distinct, DaysOf, TripVisits, MapOnly, VisitedOn, NumberOf;
  }

  lemma {:induction false} DaysOfMeans(visits: seq<Visit>, id: string, day: int)
    ensures day in DaysOf(visits, id) <==> Visit(id, Some(day)) in visits
  {
    if visits != [] {
      var init, last := visits[..|visits| - 1], visits[|visits| - 1];
      assert visits == init + [last];
      DaysOfMeans(init, id, day);
    }
  }

  lemma {:induction false} TripVisitsMean(days: seq<DayPlan>, pinned: seq<string>, id: string, day: int)
    ensures Visit(id, Some(day)) in TripVisits(days, pinned) <==> VisitedOn(days, pinned, id, day)
  {
    hide DayVisits, Counts;
    if days != [] {
      var init, last := days[..|days| - 1], days[|days| - 1];
      assert days == init + [last];
      TripVisitsMean(init, pinned, id, day);
      DayVisitsArePinned(last.day, last.timeline, pinned);
      VisitedStep(init, last, pinned, id, day);
      hide VisitedOn;
      var v := Visit(id, Some(day));
      assert v in DayVisits(last.day, last.timeline, pinned) ==> last.day == day;
    }
  }

  lemma VisitedStep(init: seq<DayPlan>, last: DayPlan, pinned: seq<string>, id: string, day: int)
    ensures VisitedOn(init + [last], pinned, id, day) <==>
              || VisitedOn(init, pinned, id, day)
              || (last.day == day && exists e | 0 <= e < |last.timeline| ::
                    Counts(last.timeline[e], pinned) && last.timeline[e].entityId == id)
  {
    forall e
      ensures Visits(e, pinned, id) <==> Counts(e, pinned) && e.entityId == id
    {
      VisitsMeans(e, pinned, id);
    }
    hide Counts, Visits;
    var days := init + [last];
    assert days[|init|] == last;
    assert forall d | 0 <= d < |init| :: days[d] == init[d];
  }

  /** Numbers follow first appearance along the trip; pins the timeline never reaches come after all it reaches. */
  lemma NumbersFollowTheTrip(order: map<string, Placement>, days: seq<DayPlan>, mapPlaceIds: seq<string>, a: string,
                             b: string)
    requires Numbers(order, Offered(days, mapPlaceIds)) && a in order && b in order
    ensures var visited := Ids(TripVisits(days, mapPlaceIds));
            && (a in visited && b in visited ==>
                  (order[a].sequence < order[b].sequence <==> IndexOf(visited, a) < IndexOf(visited, b)))
            && (a in visited && b !in visited ==> order[a].sequence < order[b].sequence)
            && (a !in visited && b !in visited ==>
                  a in mapPlaceIds && b in mapPlaceIds &&
                  (order[a].sequence < order[b].sequence <==> IndexOf(mapPlaceIds, a) < IndexOf(mapPlaceIds, b)))
  {
    var visited, all := Ids(TripVisits(days, mapPlaceIds)), Ids(Offered(days, mapPlaceIds));
    OfferedIds(days, mapPlaceIds);
    hide Offered, TripVisits, Ids, Distinct, IndexOf, DaysOf;
    DistinctByFirstAppearance(all, a, b);
    IndexInJoin(visited, mapPlaceIds, a);
    IndexInJoin(visited, mapPlaceIds, b);
  }

  lemma {:induction false} IndexInJoin(a: seq<string>, b: seq<string>, x: string)
    requires x in b
    ensures x in a + b
    ensures (if x in a then IndexOf(a + b, x) == IndexOf(a, x) < |a| else IndexOf(a + b, x) == |a| + IndexOf(b, x))
    decreases |a|
  {
    assert x in a + b;
    if a == [] {
      assert a + b == b;
    } else if a[0] != x {
      assert (a + b)[1..] == a[1..] + b;
      IndexInJoin(a[1..], b, x);
    }
  }

  /* ----- Reading a number ----- */

  /** waypointSequenceFor. */
  function WaypointSequenceFor(order: map<string, Placement>, kind: string, id: string): Option<int> {
    if IsPinnedKind(kind) && id in order then Some(order[id].sequence) else None
  }

  /**
   A stop has a number exactly when the map puts a pin on it, and two stops share a number only if they are one place.
   */
  lemma NumberIffPin(order: map<string, Placement>, days: seq<DayPlan>, places: seq<MapPlace>, kind: string, a: string,
                     b: string)
    requires Numbers(order, Offered(days, PinnedMapPlaceIds(places)))
    ensures WaypointSequenceFor(order, kind, a).Some? <==>
              && kind in {"visit", "dining", "lodging"}
              && exists i | 0 <= i < |places| :: IsPin(places[i]) && places[i].entityId == a
    ensures WaypointSequenceFor(order, kind, a).Some? ==>
              WaypointSequenceFor(order, kind, a) == WaypointSequenceFor(order, kind, b) ==> a == b
  {
    hide *;
    NumbersAreABijection(order, days, PinnedMapPlaceIds(places));
    PinnedIsListed(places, a);
    NumberRead(order, kind, a);
    NumberRead(order, kind, b);
  }

  lemma NumberRead(order: map<string, Placement>, kind: string, id: string)
    ensures WaypointSequenceFor(order, kind, id)
         == if kind in {"visit", "dining", "lodging"} && id in order then Some(order[id].sequence) else None
  {
  }

  lemma PinnedIsListed(places: seq<MapPlace>, id: string)
    ensures id in PinnedMapPlaceIds(places) <==>
              exists i | 0 <= i < |places| :: IsPin(places[i]) && places[i].entityId == id
  {
    hide PinnedMapPlaceIds, HasPin, IsPin;
    forall i | 0 <= i < |places|
      ensures HasPin(places[i]) <==> IsPin(places[i])
    {
      PinMeans(places[i]);
    }
  }
}
