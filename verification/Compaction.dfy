/**
 _compact_sanitized_result (agents/utils.py): what of a tool result the model is shown.

 Values are JSON as Python holds it: text is a list of code points, a dict keeps its insertion order, and a number is
 carried as the text Python prints for it.
 */
module Compaction {
  import opened Options

  datatype Value =
    | Null
    | Flag(b: bool)
    | Number(token: string)
    | Text(s: string)
    | List(items: seq<Value>)
    | Dict(entries: seq<Entry>)

  datatype Entry = Entry(key: string, value: Value)

  const PLACE_RESULT_CAP: nat := 12
  const ROUTE_RESULT_CAP: nat := 8
  const GENERIC_LIST_CAP: nat := 16
  const STRING_FIELD_CAP: nat := 400
  const STRING_TOP_CAP: nat := 800

  function PlaceKeys(): seq<string> {
    ["place_id", "name", "address", "provider_place_type", "provider_country_code", "provider", "latitude", "longitude",
     "aliases", "station_code"]
  }

  function RouteKeys(): seq<string> {
    ["route_id", "mode", "transport_class", "selected_mode", "from_endpoint", "to_endpoint", "from_place_id",
     "to_place_id", "departure_at", "arrival_at", "duration_minutes", "distance_meters", "cost", "segments", "provider",
     "train_no", "prices"]
  }

  predicate IsResults(key: string) { key == "results" }

  predicate IsRoutes(key: string) { key == "routes" }

  /** Keys whose value is passed on untouched. */
  predicate IsVerbatim(key: string) {
    key in ["success", "error", "message", "type", "question", "options", "selection_type", "allow_free_input",
        "provider"]
  }

  /** Keys kept in a nested endpoint-like object. */
  predicate IsNestedKey(key: string) {
    key in PlaceKeys() || key in ["name", "place_id", "latitude", "longitude", "station_code"]
  }

  predicate IsSpace(c: char) {
    var n := c as int;
    || 0x09 <= n <= 0x0d || 0x1c <= n <= 0x20 || n == 0x85 || n == 0xa0 || n == 0x1680 || 0x2000 <= n <= 0x200a
    || n == 0x2028 || n == 0x2029 || n == 0x202f || n == 0x205f || n == 0x3000
  }

  /** The characters Python takes for white space. */
  const WHITE_SPACE :=
    "\t\n\U{B}\U{C}\r\U{1C}\U{1D}\U{1E}\U{1F} \U{85}\U{A0}\U{1680}\U{2000}\U{2001}\U{2002}\U{2003}\U{2004}\U{2005}"
    + "\U{2006}\U{2007}\U{2008}\U{2009}\U{200A}\U{2028}\U{2029}\U{202F}\U{205F}\U{3000}"

  lemma SpacesAre(c: char)
    ensures IsSpace(c) <==> c in WHITE_SPACE
  {
  }

  function RStrip(s: string): (r: string)
    ensures r <= s && (r != [] ==> !IsSpace(r[|r| - 1]))
    ensures forall i | |r| <= i < |s| :: IsSpace(s[i])
  {
    if s != [] && IsSpace(s[|s| - 1]) then RStrip(s[..|s| - 1]) else s
  }

  /** Text no longer than the cap stays; longer text is cut and marked with an ellipsis. */
  function Clip(s: string, cap: nat): (r: string)
    requires cap > 0
    ensures |r| <= cap && (|s| <= cap ==> r == s)
    ensures |s| > cap ==> r != [] && r[|r| - 1] == '\U{2026}' && r[..|r| - 1] == RStrip(s[..cap - 1]) <= s
  {
    if |s| <= cap then s else RStrip(s[..cap - 1]) + ['\U{2026}']
  }

  function Smaller(a: nat, b: nat): nat {
    if a <= b then a else b
  }

  /** The first items of a list, at most `cap`. */
  function First(items: seq<Value>, cap: nat): (r: seq<Value>)
    ensures |r| == Smaller(|items|, cap) && r <= items
  {
    items[..Smaller(|items|, cap)]
  }

  predicate IsScalar(v: Value) {
    !v.List? && !v.Dict?
  }

  predicate AllScalar(items: seq<Value>) {
    forall i | 0 <= i < |items| :: IsScalar(items[i])
  }

  function Lookup(entries: seq<Entry>, key: string): Option<Value> {
    if entries == [] then None else if entries[0].key == key then Some(entries[0].value) else Lookup(entries[1..], key)
  }

  /* ----- Identity fields of a place or a route ----- */

  function ClipText(v: Value): Value {
    if v.Text? then Text(Clip(v.s, STRING_FIELD_CAP)) else v
  }

  function NestedEntries(entries: seq<Entry>): seq<Entry> {
    if entries == [] then []
    else if IsNestedKey(entries[0].key) then
        [Entry(entries[0].key, ClipText(entries[0].value))] + NestedEntries(entries[1..])
    else NestedEntries(entries[1..])
  }

  function IdentityField(v: Value): Value {
    match v
    case Text(s) => ClipText(v)
    case Dict(entries) => Dict(NestedEntries(entries))
    case List(items) => List(First(items, GENERIC_LIST_CAP))
    case _ => v
  }

  /** _compact_mapping_fields: the listed keys the item has, in the order of the list. */
  function IdentityFields(entries: seq<Entry>, keys: seq<string>): seq<Entry> {
    if keys == [] then []
    else
      var found := Lookup(entries, keys[0]);
      var rest := IdentityFields(entries, keys[1..]);
      if found.Some? then [Entry(keys[0], IdentityField(found.value))] + rest else rest
  }

  function Identity(v: Value, keys: seq<string>): Value {
    if v.Dict? then Dict(IdentityFields(v.entries, keys)) else v
  }

  function Identities(items: seq<Value>, keys: seq<string>, cap: nat): (r: seq<Value>)
    ensures |r| == Smaller(|items|, cap)
  {
    seq(Smaller(|items|, cap), i requires 0 <= i < Smaller(|items|, cap) => Identity(items[i], keys))
  }

  /* ----- The whole result ----- */

  function Compact(v: Value): Value
    decreases v, 1
  {
    match v
    case Text(s) => Text(Clip(s, STRING_TOP_CAP))
    case List(items) => List(CompactFirst(items, v))
    case Dict(entries) =>
      Dict(seq(|entries|, i requires 0 <= i < |entries| =>
        Entry(entries[i].key, CompactValue(entries[i].key, entries[i].value))))
    case _ => v
  }

  function CompactFirst(items: seq<Value>, owner: Value): (r: seq<Value>)
    requires forall i | 0 <= i < |items| :: items[i] < owner
    ensures |r| == Smaller(|items|, GENERIC_LIST_CAP)
    ensures forall i | 0 <= i < |r| :: r[i] == Compact(items[i])
    decreases owner, 0
  {
    seq(Smaller(|items|, GENERIC_LIST_CAP), i requires 0 <= i < Smaller(|items|, GENERIC_LIST_CAP) => Compact(items[i]))
  }

  /** What becomes of the value under a key of the result. */
  function CompactValue(key: string, v: Value): Value
    decreases v, 2
  {
    if IsResults(key) && v.List? then List(Identities(v.items, PlaceKeys(), PLACE_RESULT_CAP))
    else if IsRoutes(key) && v.List? then List(Identities(v.items, RouteKeys(), ROUTE_RESULT_CAP))
    else if IsVerbatim(key) then v
    else match v
      case Text(s) => ClipText(v)
      case List(items) =>
        if items != [] && AllScalar(items) then List(First(items, GENERIC_LIST_CAP)) else List(CompactFirst(items, v))
      case Dict(_) => Compact(v)
      case _ => v
  }

  /* ----- Compacting twice is compacting once ----- */

  lemma ClipTextTwice(v: Value)
    ensures ClipText(ClipText(v)) == ClipText(v)
  {
  }

  lemma {:induction false} NestedTwice(entries: seq<Entry>)
    ensures NestedEntries(NestedEntries(entries)) == NestedEntries(entries)
  {
    hide IsNestedKey, ClipText;
    if entries != [] {
      NestedTwice(entries[1..]);
      ClipTextTwice(entries[0].value);
    }
  }

  lemma IdentityFieldTwice(v: Value)
    ensures IdentityField(IdentityField(v)) == IdentityField(v)
  {
    hide NestedEntries;
    if v.Dict? {
      NestedTwice(v.entries);
    } else {
      ClipTextTwice(v);
    }
  }

  lemma {:induction false} LookupIdentity(entries: seq<Entry>, keys: seq<string>, key: string)
    requires key in keys
    ensures var found := Lookup(entries, key);
            Lookup(IdentityFields(entries, keys), key) == if found.Some? then Some(IdentityField(found.value)) else None
  {
    hide IdentityField;
    if keys[0] == key {
      if Lookup(entries, key).None? { NotPicked(entries, keys, key); }
    } else {
      LookupIdentity(entries, keys[1..], key);
    }
  }

  lemma {:induction false} NotPicked(entries: seq<Entry>, keys: seq<string>, key: string)
    requires Lookup(entries, key).None?
    ensures Lookup(IdentityFields(entries, keys), key).None?
  {
    hide IdentityField;
    if keys != [] {
      NotPicked(entries, keys[1..], key);
    }
  }

  lemma {:induction false} SameFields(a: seq<Entry>, b: seq<Entry>, keys: seq<string>)
    requires forall k | k in keys :: var x, y := Lookup(a, k), Lookup(b, k);
               x.Some? == y.Some? && (x.Some? ==> IdentityField(x.value) == IdentityField(y.value))
    ensures IdentityFields(a, keys) == IdentityFields(b, keys)
  {
    hide IdentityField, Lookup;
    if keys != [] {
      SameFields(a, b, keys[1..]);
    }
  }

  lemma IdentityTwice(v: Value, keys: seq<string>)
    ensures Identity(Identity(v, keys), keys) == Identity(v, keys)
  {
    if v.Dict? {
      hide IdentityField, IdentityFields, Lookup;
      forall k | k in keys
        ensures var x, y := Lookup(IdentityFields(v.entries, keys), k), Lookup(v.entries, k);
                x.Some? == y.Some? && (x.Some? ==> IdentityField(x.value) == IdentityField(y.value))
      {
        LookupIdentity(v.entries, keys, k);
        if Lookup(v.entries, k).Some? { IdentityFieldTwice(Lookup(v.entries, k).value); }
      }
      SameFields(IdentityFields(v.entries, keys), v.entries, keys);
    }
  }

  lemma IdentitiesTwice(items: seq<Value>, keys: seq<string>, cap: nat)
    ensures Identities(Identities(items, keys, cap), keys, cap) == Identities(items, keys, cap)
  {
    hide Identity;
    var once := Identities(items, keys, cap);
    forall i | 0 <= i < |once|
      ensures Identity(once[i], keys) == once[i]
    {
      IdentityTwice(items[i], keys);
    }
  }

  lemma {:induction false} CompactTwice(v: Value)
    ensures Compact(Compact(v)) == Compact(v)
    decreases v, 0
  {
    match v
    case List(items) =>
      forall i | 0 <= i < |items|
        ensures Compact(Compact(items[i])) == Compact(items[i])
      {
        CompactTwice(items[i]);
      }
      CompactFirstTwice(items, v);
    case Dict(entries) =>
      hide CompactValue;
      forall i | 0 <= i < |entries|
        ensures CompactValue(entries[i].key, CompactValue(entries[i].key, entries[i].value))
                  == CompactValue(entries[i].key, entries[i].value)
      {
        CompactValueTwice(entries[i].key, entries[i].value);
      }
      DictTwice(v);
    case _ =>
  }

  lemma CompactFirstTwice(items: seq<Value>, owner: Value)
    requires forall i | 0 <= i < |items| :: items[i] < owner
    requires forall i | 0 <= i < |items| :: Compact(Compact(items[i])) == Compact(items[i])
    ensures Compact(List(CompactFirst(items, owner))) == List(CompactFirst(items, owner))
  {
    hide CompactValue;
    var once := CompactFirst(items, owner);
    assert Compact(List(once)) == List(CompactFirst(once, List(once)));
  }

  lemma DictTwice(v: Value)
    requires v.Dict?
    requires forall i | 0 <= i < |v.entries| ::
      CompactValue(v.entries[i].key, CompactValue(v.entries[i].key, v.entries[i].value))
          == CompactValue(v.entries[i].key, v.entries[i].value)
    ensures Compact(Compact(v)) == Compact(v)
  {
    hide CompactValue;
    var once := Compact(v);
    assert forall i | 0 <= i < |once.entries| ::
           once.entries[i] == Entry(v.entries[i].key, CompactValue(v.entries[i].key, v.entries[i].value));
    assert Compact(once).entries == once.entries;
  }

  lemma {:induction false} CompactValueTwice(key: string, v: Value)
    ensures CompactValue(key, CompactValue(key, v)) == CompactValue(key, v)
    decreases v, 1
  {
    hide IsResults, IsRoutes, IsVerbatim, PlaceKeys, RouteKeys;
    if IsResults(key) && v.List? {
      IdentitiesTwice(v.items, PlaceKeys(), PLACE_RESULT_CAP);
    } else if IsRoutes(key) && v.List? {
      IdentitiesTwice(v.items, RouteKeys(), ROUTE_RESULT_CAP);
    } else if IsVerbatim(key) {
    } else {
      match v
      case Text(_) => ClipTextTwice(v);
      case Dict(_) => CompactTwice(v);
      case List(items) =>
        forall i | 0 <= i < |items|
          ensures Compact(Compact(items[i])) == Compact(items[i])
        {
          CompactTwice(items[i]);
        }
      case _ =>
    }
  }

  /* ----- What survives ----- */

  /** No key of a result is lost or moved, and each key's value is compacted by itself. */
  lemma {:induction false} LookupSurvives(v: Value, key: string)
    requires v.Dict?
    ensures Compact(v).Dict? && |Compact(v).entries| == |v.entries|
    ensures forall i | 0 <= i < |v.entries| :: Compact(v).entries[i].key == v.entries[i].key
    ensures var found := Lookup(v.entries, key);
            Lookup(Compact(v).entries, key) == if found.Some? then Some(CompactValue(key, found.value)) else None
    decreases |v.entries|
  {
    hide CompactValue;
    if v.entries != [] {
      var rest := Dict(v.entries[1..]);
      LookupSurvives(rest, key);
      assert Compact(v).entries[1..] == Compact(rest).entries;
    }
  }

  /** The text itself if it fits; else its start, without white space at the cut, and an ellipsis. */
  predicate ClippedTo(was: string, now: string, cap: nat)
    requires cap > 0
  {
    if |was| <= cap then now == was
    else
      && 0 < |now| <= cap && now[|now| - 1] == '\U{2026}'
      && (forall j | 0 <= j < |now| - 1 :: now[j] == was[j])
      && (forall j | |now| - 1 <= j < cap - 1 :: IsSpace(was[j]))
      && (|now| > 1 ==> !IsSpace(now[|now| - 2]))
  }

  lemma ClipMeans(s: string, cap: nat)
    requires cap > 0
    ensures ClippedTo(s, Clip(s, cap), cap)
  {
    if |s| > cap {
      var r := RStrip(s[..cap - 1]);
      assert Clip(s, cap) == r + ['\U{2026}'];
      assert forall j | |r| <= j < cap - 1 :: s[..cap - 1][j] == s[j];
      assert forall j | 0 <= j < |r| :: r[j] == s[..cap - 1][j];
    }
  }

  /** A text is clipped, any other value stays. */
  predicate TextClipped(was: Value, now: Value) {
    if was.Text? then now.Text? && ClippedTo(was.s, now.s, 400) else now == was
  }

  /** An object keeps exactly these keys, each with a value made from its own. */
  ghost predicate KeepsKeys(was: seq<Entry>, now: seq<Entry>, keys: seq<string>, kept: (Value, Value) -> bool) {
    forall k ::
      && (Lookup(now, k).Some? <==> k in keys && Lookup(was, k).Some?)
      && (Lookup(now, k).Some? ==> kept(Lookup(was, k).value, Lookup(now, k).value))
  }

  /** What becomes of an identity field: a nested object keeps the keys of a place, a list its first 16 items. */
  ghost predicate FieldKept(was: Value, now: Value) {
    match was
    case Dict(entries) =>
      && now.Dict?
      && KeepsKeys(entries, now.entries,
                   ["place_id", "name", "address", "provider_place_type", "provider_country_code", "provider",
                    "latitude", "longitude", "aliases", "station_code"], TextClipped)
    case List(items) => now == List(if |items| <= 16 then items else items[..16])
    case _ => TextClipped(was, now)
  }

  /** The first items of a results or routes list stay, in order, each with exactly its listed fields. */
  ghost predicate IdentitiesSurvive(before: seq<Value>, after: seq<Value>, keys: seq<string>, cap: nat) {
    && |after| == Smaller(|before|, cap)
    && forall i | 0 <= i < |after| ::
         if before[i].Dict? then after[i].Dict? && IdentitySurvives(before[i].entries, after[i].entries, keys)
         else after[i] == before[i]
  }

  ghost predicate IdentitySurvives(before: seq<Entry>, after: seq<Entry>, keys: seq<string>) {
    forall k ::
      && (Lookup(after, k).Some? <==> k in keys && Lookup(before, k).Some?)
      && (Lookup(after, k).Some? ==> FieldKept(Lookup(before, k).value, Lookup(after, k).value))
  }

  lemma {:induction false} LookupNested(entries: seq<Entry>, key: string)
    ensures var found := Lookup(entries, key);
            Lookup(NestedEntries(entries), key)
            == if IsNestedKey(key) && found.Some? then Some(ClipText(found.value)) else None
  {
    hide IsNestedKey, ClipText;
    if entries != [] {
      LookupNested(entries[1..], key);
    }
  }

  lemma NestedKeysAre(key: string)
    ensures IsNestedKey(key) <==>
              key in ["place_id", "name", "address", "provider_place_type", "provider_country_code", "provider",
                      "latitude", "longitude", "aliases", "station_code"]
  {
    var keys := ["place_id", "name", "address", "provider_place_type", "provider_country_code", "provider",
                 "latitude", "longitude", "aliases", "station_code"];
    assert PlaceKeys() == keys;
    assert keys[0] == "place_id" && keys[1] == "name" && keys[6] == "latitude" && keys[7] == "longitude"
           && keys[9] == "station_code";
  }

  lemma ClipTextMeans(v: Value)
    ensures TextClipped(v, ClipText(v))
  {
    if v.Text? { ClipMeans(v.s, STRING_FIELD_CAP); }
    hide ClippedTo, Clip;
  }

  lemma FieldIsKept(v: Value)
    ensures FieldKept(v, IdentityField(v))
  {
    hide Lookup, NestedEntries, ClipText, TextClipped, IsNestedKey;
    if v.Dict? {
      var now := NestedEntries(v.entries);
      forall k
        ensures var found := Lookup(v.entries, k);
                Lookup(now, k) == if IsNestedKey(k) && found.Some? then Some(ClipText(found.value)) else None
        ensures IsNestedKey(k) <==>
                  k in ["place_id", "name", "address", "provider_place_type", "provider_country_code", "provider",
                        "latitude", "longitude", "aliases", "station_code"]
        ensures Lookup(v.entries, k).Some? ==>
                  TextClipped(Lookup(v.entries, k).value, ClipText(Lookup(v.entries, k).value))
      {
        LookupNested(v.entries, k);
        NestedKeysAre(k);
        if Lookup(v.entries, k).Some? { ClipTextMeans(Lookup(v.entries, k).value); }
      }
    } else if !v.List? {
      ClipTextMeans(v);
      if !v.Text? { NotTextKept(v); }
    }
  }

  lemma NotTextKept(v: Value)
    requires !v.Text?
    ensures TextClipped(v, v)
  {
  }

  lemma {:induction false} NotListed(entries: seq<Entry>, keys: seq<string>, key: string)
    requires key !in keys
    ensures Lookup(IdentityFields(entries, keys), key).None?
  {
    hide IdentityField;
    if keys != [] {
      NotListed(entries, keys[1..], key);
    }
  }

  lemma IdentityKeepsFields(entries: seq<Entry>, keys: seq<string>)
    ensures IdentitySurvives(entries, IdentityFields(entries, keys), keys)
  {
    hide Lookup, IdentityFields, IdentityField, FieldKept;
    forall k
      ensures var was, now := Lookup(entries, k), Lookup(IdentityFields(entries, keys), k);
              && (now.Some? <==> k in keys && was.Some?)
              && (now.Some? ==> FieldKept(was.value, now.value))
    {
      if k in keys {
        LookupIdentity(entries, keys, k);
        if Lookup(entries, k).Some? { FieldIsKept(Lookup(entries, k).value); }
      } else {
        NotListed(entries, keys, k);
      }
    }
  }

  lemma IdentitiesKeepFields(items: seq<Value>, keys: seq<string>, cap: nat)
    ensures IdentitiesSurvive(items, Identities(items, keys, cap), keys, cap)
  {
    hide IdentitySurvives, IdentityFields;
    forall i | 0 <= i < Smaller(|items|, cap) && items[i].Dict?
      ensures IdentitySurvives(items[i].entries, Identities(items, keys, cap)[i].entries, keys)
    {
      IdentityKeepsFields(items[i].entries, keys);
    }
  }

  /**
   However often a result is compacted, its first 12 places are all there, in order, each with exactly the listed
   fields it has: texts up to 400 characters and numbers as they are, lists by their first 16 items.
   */
  lemma PlacesSurvive(v: Value, places: seq<Value>)
    requires v.Dict? && Lookup(v.entries, "results") == Some(List(places))
    ensures var c := Compact(v);
            && c.Dict? && Compact(c) == c
            && var kept := Lookup(c.entries, "results");
               kept.Some? && kept.value.List? &&
               IdentitiesSurvive(places, kept.value.items,
                                 ["place_id", "name", "address", "provider_place_type", "provider_country_code",
                                  "provider", "latitude", "longitude", "aliases", "station_code"], 12)
  {
    KeysNamed(List(places), List([]));
    hide PlaceKeys, Compact, CompactValue, Lookup, IdentitiesSurvive;
    CompactTwice(v);
    LookupSurvives(v, "results");
    IdentitiesKeepFields(places, PlaceKeys(), PLACE_RESULT_CAP);
  }

  /** And so are its first 8 routes. */
  lemma RoutesSurvive(v: Value, routes: seq<Value>)
    requires v.Dict? && Lookup(v.entries, "routes") == Some(List(routes))
    ensures var c := Compact(v);
            && c.Dict? && Compact(c) == c
            && var kept := Lookup(c.entries, "routes");
               kept.Some? && kept.value.List? &&
               IdentitiesSurvive(routes, kept.value.items,
                                 ["route_id", "mode", "transport_class", "selected_mode", "from_endpoint",
                                     "to_endpoint",
                                  "from_place_id", "to_place_id", "departure_at", "arrival_at", "duration_minutes",
                                  "distance_meters", "cost", "segments", "provider", "train_no", "prices"], 8)
  {
    KeysNamed(List([]), List(routes));
    hide RouteKeys, Compact, CompactValue, Lookup, IdentitiesSurvive;
    CompactTwice(v);
    LookupSurvives(v, "routes");
    IdentitiesKeepFields(routes, RouteKeys(), ROUTE_RESULT_CAP);
  }

  lemma KeysNamed(places: Value, routes: Value)
    requires places.List? && routes.List?
    ensures CompactValue("results", places) == List(Identities(places.items, PlaceKeys(), PLACE_RESULT_CAP))
    ensures CompactValue("routes", routes) == List(Identities(routes.items, RouteKeys(), ROUTE_RESULT_CAP))
    ensures PlaceKeys()
         == ["place_id", "name", "address", "provider_place_type", "provider_country_code", "provider", "latitude",
             "longitude", "aliases", "station_code"]
    ensures RouteKeys()
         == ["route_id", "mode", "transport_class", "selected_mode", "from_endpoint", "to_endpoint", "from_place_id",
             "to_place_id", "departure_at", "arrival_at", "duration_minutes", "distance_meters", "cost", "segments",
             "provider", "train_no", "prices"]
  {
    assert "routes"[1] == 'o' && "results"[1] == 'e';
    hide Identities;
  }

  /* ----- The whole result, told by what is kept ----- */

  /** What the model is shown of a value: texts up to 800 characters, the first 16 items, every key of an object. */
  ghost predicate Shows(v: Value, w: Value)
    decreases v, 1
  {
    match v
    case Text(s) => w.Text? && ClippedTo(s, w.s, 800)
    case List(items) => w.List? && ShowsFirst(v, w.items)
    case Dict(entries) =>
      && w.Dict? && |w.entries| == |entries|
      && forall i | 0 <= i < |entries| ::
           w.entries[i].key == entries[i].key && ShowsUnder(entries[i].key, entries[i].value, w.entries[i].value)
    case _ => w == v
  }

  /** The first 16 items, each compacted by itself. */
  ghost predicate ShowsFirst(v: Value, shown: seq<Value>)
    requires v.List?
    decreases v, 0
  {
    && |shown| == (if |v.items| <= 16 then |v.items| else 16)
    && forall i | 0 <= i < |shown| :: Shows(v.items[i], shown[i])
  }

  /** Under a key: places and routes by their listed fields, the fields of the envelope untouched, the rest clipped. */
  ghost predicate ShowsUnder(key: string, v: Value, w: Value)
    decreases v, 2
  {
    if v.List? && key == "results" then
      w.List? && IdentitiesSurvive(v.items, w.items, PlaceKeys(), 12)
    else if v.List? && key == "routes" then
      w.List? && IdentitiesSurvive(v.items, w.items, RouteKeys(), 8)
    else if key in ["success", "error", "message", "type", "question", "options", "selection_type", "allow_free_input",
                    "provider"] then w == v
    else
      match v
      case List(items) =>
        if items != [] && forall x | x in items :: !x.List? && !x.Dict?
        then w == List(if |items| <= 16 then items else items[..16])
        else w.List? && ShowsFirst(v, w.items)
      case Dict(_) => Shows(v, w)
      case _ => TextClipped(v, w)
  }

  lemma {:induction false} CompactShows(v: Value)
    ensures Shows(v, Compact(v))
    decreases v, 0
  {
    hide ClippedTo, Clip, CompactValue, ShowsUnder;
    match v
    case Text(s) => ClipMeans(s, STRING_TOP_CAP);
    case List(items) =>
      forall i | 0 <= i < |items|
        ensures Shows(items[i], Compact(items[i]))
      {
        CompactShows(items[i]);
      }
    case Dict(entries) =>
      forall i | 0 <= i < |entries|
        ensures ShowsUnder(entries[i].key, entries[i].value, CompactValue(entries[i].key, entries[i].value))
      {
        ValueShows(entries[i].key, entries[i].value);
      }
    case _ =>
  }

  lemma {:induction false} ValueShows(key: string, v: Value)
    ensures ShowsUnder(key, v, CompactValue(key, v))
    decreases v, 1
  {
    hide PlaceKeys, RouteKeys, IdentitiesSurvive, Identities, Shows, Compact, TextClipped, ClipText;
    if v.List? {
      IdentitiesKeepFields(v.items, PlaceKeys(), PLACE_RESULT_CAP);
      IdentitiesKeepFields(v.items, RouteKeys(), ROUTE_RESULT_CAP);
      forall i | 0 <= i < |v.items|
        ensures Shows(v.items[i], Compact(v.items[i]))
      {
        CompactShows(v.items[i]);
      }
      assert AllScalar(v.items) <==> forall x | x in v.items :: !x.List? && !x.Dict?;
    } else if v.Dict? {
      CompactShows(v);
    } else {
      ClipTextMeans(v);
      if !v.Text? { NotTextKept(v); }
    }
  }
}
