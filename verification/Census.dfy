/**
 The corpus place census (scripts/corpus_place_census.py): one row per chunk, resumable, with early exits.

 The resolver is a function that never errors; chunks are given in the order of the seeded shuffle.
 */
module Census {
  import opened Options

  datatype Hit = Hit(inScope: bool, infrastructure: bool)

  /** What the provider answers for a mention in a country. */
  datatype Entry = Entry(visit: seq<Hit>, dining: seq<Hit>)

  datatype Chunk = Chunk(id: string, proposals: seq<string>)

  datatype Row = Row(id: string, proposed: nat, capped: bool, hitStop: Option<string>,
      hitInfrastructure: Option<string>, hitAnywhere: bool)

  type Resolver = (string, string) -> Entry

  datatype Config = Config(cap: int, limit: int, countries: seq<string>, resolve: Resolver)

  /** in_scope_hits. */
  function InScopeHits(entry: Entry): seq<Hit> {
    ScopedOf(entry.visit + entry.dining)
  }

  function ScopedOf(hits: seq<Hit>): seq<Hit> {
    if hits == [] then [] else (if hits[0].inScope then [hits[0]] else []) + ScopedOf(hits[1..])
  }

  predicate Names(entry: Entry) { entry.visit != [] || entry.dining != [] }

  predicate NamesInScope(entry: Entry) {
    exists h | h in entry.visit + entry.dining :: h.inScope
  }

  predicate NamesStop(entry: Entry) {
    exists h | h in entry.visit + entry.dining :: h.inScope && !h.infrastructure
  }

  lemma {:induction false} ScopedMeans(hits: seq<Hit>, h: Hit)
    ensures h in ScopedOf(hits) <==> h in hits && h.inScope
  {
    if hits != [] {
      ScopedMeans(hits[1..], h);
    }
  }

  /** Python's slice of the first `cap` items, with a negative cap counted from the end. */
  function Capped(proposals: seq<string>, cap: int): (r: seq<string>)
    ensures r <= proposals
    ensures cap >= 0 ==> |r| <= cap && (|r| < cap ==> r == proposals)
    ensures cap < 0 ==> |proposals| + cap <= |r| && (|r| > 0 ==> |r| == |proposals| + cap)
  {
    if cap >= |proposals| then proposals
    else if cap >= 0 then proposals[..cap]
    else if -cap <= |proposals| then proposals[..|proposals| + cap]
    else []
  }

  /* ----- The scan of one chunk ----- */

  /** What the scan has found so far. */
  datatype Found = Found(stop: Option<string>, infrastructure: Option<string>, anywhere: bool)

  function Noted(f: Found, mention: string, entry: Entry): Found {
    var g := f.(anywhere := f.anywhere || Names(entry));
    if NamesStop(entry) then g.(stop := Some(mention))
    else if NamesInScope(entry) && g.infrastructure.None? then g.(infrastructure := Some(mention))
    else g
  }

  /** A mention tried in each country until one names a stop. */
  function TryCountries(cfg: Config, f: Found, mention: string, countries: seq<string>): Found
    decreases |countries|
  {
    if countries == [] then f
    else
      var entry := cfg.resolve(mention, countries[0]);
      if NamesStop(entry) then Noted(f, mention, entry)
      else TryCountries(cfg, Noted(f, mention, entry), mention, countries[1..])
  }

  /** Mentions tried until one has hit a stop. */
  function TryMentions(cfg: Config, f: Found, mentions: seq<string>): Found
    decreases |mentions|
  {
    if mentions == [] then f
    else
      var g := TryCountries(cfg, f, mentions[0], cfg.countries);
      if Truthy(g.stop) then g else TryMentions(cfg, g, mentions[1..])
  }

  const NOTHING := Found(None, None, false)

  function RowOf(cfg: Config, chunk: Chunk): Row {
    var f := TryMentions(cfg, NOTHING, Capped(chunk.proposals, cfg.cap));
    Row(chunk.id, |chunk.proposals|, |chunk.proposals| > cfg.cap, f.stop, f.infrastructure,
        f.anywhere || Truthy(f.stop) || Truthy(f.infrastructure))
  }

  /* ----- The memo ----- */

  function Key(country: string, mention: string): string {
    country + "|" + mention
  }

  predicate NoBar(countries: seq<string>) {
    forall i | 0 <= i < |countries| :: '|' !in countries[i]
  }

  /** Keys tell mentions apart as long as no country has a bar in it. */
  lemma KeyIsInjective(c: string, m: string, d: string, n: string)
    requires '|' !in c && '|' !in d && Key(c, m) == Key(d, n)
    ensures c == d && m == n
  {
    var key := Key(c, m);
    assert key[|c|] == '|' && key[|d|] == '|';
    assert forall i | 0 <= i < |c| :: key[i] == c[i];
    assert forall i | 0 <= i < |d| :: key[i] == d[i];
    assert |c| == |d|;
    assert c == key[..|c|] && d == key[..|d|] && m == key[|c| + 1..] && n == key[|d| + 1..];
  }

  /** Every remembered answer is the resolver's. */
  ghost predicate Remembers(cfg: Config, resolutions: map<string, Entry>) {
    forall c, m | c in cfg.countries && Key(c, m) in resolutions :: resolutions[Key(c, m)] == cfg.resolve(m, c)
  }

  lemma RemembersOneMore(cfg: Config, resolutions: map<string, Entry>, country: string, mention: string)
    requires NoBar(cfg.countries) && Remembers(cfg, resolutions) && country in cfg.countries
    ensures Remembers(cfg, resolutions[Key(country, mention) := cfg.resolve(mention, country)])
  {
    forall c, m | c in cfg.countries && Key(c, m) == Key(country, mention)
      ensures c == country && m == mention
    {
      KeyIsInjective(c, m, country, mention);
    }
    hide Key;
  }

  /* ----- The loops ----- */

  lemma ScopedMeanings(entry: Entry)
    ensures NamesInScope(entry) <==> InScopeHits(entry) != []
    ensures NamesStop(entry) <==> exists i | 0 <= i < |InScopeHits(entry)| :: !InScopeHits(entry)[i].infrastructure
  {
    hide ScopedOf;
    var hits := entry.visit + entry.dining;
    forall h
      ensures h in ScopedOf(hits) <==> h in hits && h.inScope
    {
      ScopedMeans(hits, h);
    }
    assert InScopeHits(entry) == ScopedOf(hits);
    if NamesInScope(entry) {
      var h :| h in hits && h.inScope;
      assert h in ScopedOf(hits);
    }
    if InScopeHits(entry) != [] {
      assert InScopeHits(entry)[0] in ScopedOf(hits);
    }
    if NamesStop(entry) {
      var h :| h in hits && h.inScope && !h.infrastructure;
      assert h in ScopedOf(hits);
    }
    if i :| 0 <= i < |InScopeHits(entry)| && !InScopeHits(entry)[i].infrastructure {
      assert InScopeHits(entry)[i] in hits;
    }
  }

  /** The country loop for one mention. */
  method ScanMention(cfg: Config, mention: string, resolutions: map<string, Entry>, before: Found)
    returns (found: Found, memo: map<string, Entry>)
    requires NoBar(cfg.countries) && Remembers(cfg, resolutions)
    ensures found == TryCountries(cfg, before, mention, cfg.countries)
    ensures Remembers(cfg, memo)
  {
    found, memo := before, resolutions;
    assert cfg.countries[0..] == cfg.countries;
    var j := 0;
    while j < |cfg.countries|
      invariant j <= |cfg.countries| && Remembers(cfg, memo)
      invariant TryCountries(cfg, before, mention, cfg.countries)
                == TryCountries(cfg, found, mention, cfg.countries[j..])
    {
      hide Remembers, Key, NamesStop, NamesInScope, InScopeHits, NoBar;
      var country := cfg.countries[j];
      var key := Key(country, mention);
      if key !in memo {
        RemembersOneMore(cfg, memo, country, mention);
        memo := memo[key := cfg.resolve(mention, country)];
      }
      Recalls(cfg, memo, country, mention);
      var entry := memo[key];
      assert cfg.countries[j..][1..] == cfg.countries[j + 1..];
      ScopedMeanings(entry);
      if !found.anywhere && (entry.visit != [] || entry.dining != []) {
        found := found.(anywhere := true);
      }
      var scoped := InScopeHits(entry);
      if exists i :: 0 <= i < |scoped| && !scoped[i].infrastructure {
        found := found.(stop := Some(mention));
        return;
      }
      if scoped != [] && found.infrastructure.None? {
        found := found.(infrastructure := Some(mention));
      }
      j := j + 1;
    }
  }

  lemma Recalls(cfg: Config, memo: map<string, Entry>, country: string, mention: string)
    requires Remembers(cfg, memo) && country in cfg.countries && Key(country, mention) in memo
    ensures memo[Key(country, mention)] == cfg.resolve(mention, country)
  {
  }

  /** The mention loop for one chunk. */
  method ScanChunk(cfg: Config, chunk: Chunk, resolutions: map<string, Entry>)
    returns (row: Row, memo: map<string, Entry>)
    requires NoBar(cfg.countries) && Remembers(cfg, resolutions)
    ensures row == RowOf(cfg, chunk) && Remembers(cfg, memo)
    ensures row.id == chunk.id && row.proposed == |chunk.proposals| && (row.capped <==> |chunk.proposals| > cfg.cap)
  {
    hide Remembers, NoBar, TryCountries;
    var mentions := Capped(chunk.proposals, cfg.cap);
    var found := NOTHING;
    memo := resolutions;
    var i := 0;
    assert mentions[0..] == mentions;
    while i < |mentions|
      invariant i <= |mentions| && Remembers(cfg, memo)
      invariant TryMentions(cfg, NOTHING, mentions) == TryMentions(cfg, found, mentions[i..])
    {
      assert mentions[i..][1..] == mentions[i + 1..];
      found, memo := ScanMention(cfg, mentions[i], memo, found);
      if Truthy(found.stop) {
        break;
      }
      i := i + 1;
    }
    row := Row(chunk.id, |chunk.proposals|, |chunk.proposals| > cfg.cap, found.stop, found.infrastructure,
               found.anywhere || Truthy(found.stop) || Truthy(found.infrastructure));
  }

  /* ----- The early exits change no count ----- */

  /** The three questions the report counts answers to. */
  datatype Question = AStop | AnythingInScope | AnyPlace

  predicate Answers(entry: Entry, q: Question) {
    match q
    case AStop => NamesStop(entry)
    case AnythingInScope => NamesInScope(entry)
    case AnyPlace => Names(entry)
  }

  predicate FoundSays(f: Found, q: Question) {
    match q
    case AStop => Truthy(f.stop)
    case AnythingInScope => Truthy(f.stop) || Truthy(f.infrastructure)
    case AnyPlace => f.anywhere
  }

  predicate RowSays(row: Row, q: Question) {
    match q
    case AStop => Truthy(row.hitStop)
    case AnythingInScope => Truthy(row.hitStop) || Truthy(row.hitInfrastructure)
    case AnyPlace => row.hitAnywhere
  }

  ghost predicate SomeCountry(cfg: Config, mention: string, countries: seq<string>, q: Question) {
    exists c | c in countries :: Answers(cfg.resolve(mention, c), q)
  }

  ghost predicate SomeMention(cfg: Config, mentions: seq<string>, q: Question) {
    exists m | m in mentions :: SomeCountry(cfg, m, cfg.countries, q)
  }

  /** An exhaustive scan of the capped mentions in every country, with no early exit. */
  ghost predicate Exhaustive(cfg: Config, chunk: Chunk, q: Question) {
    SomeMention(cfg, Capped(chunk.proposals, cfg.cap), q)
  }

  /** A stop is in scope, what is in scope is a place; a scan keeps the same order, and never holds an empty mention. */
  ghost predicate Ordered(f: Found) {
    && (Truthy(f.stop) || Truthy(f.infrastructure) ==> f.anywhere)
    && (f.stop.Some? ==> Truthy(f.stop)) && (f.infrastructure.Some? ==> Truthy(f.infrastructure))
  }

  lemma NotedSays(f: Found, mention: string, entry: Entry, q: Question)
    requires mention != "" && Ordered(f)
    ensures FoundSays(Noted(f, mention, entry), q) <==> FoundSays(f, q) || Answers(entry, q)
    ensures Ordered(Noted(f, mention, entry))
    ensures NamesStop(entry) ==>
              Answers(entry, q) && FoundSays(Noted(f, mention, entry), q) && Truthy(Noted(f, mention, entry).stop)
    ensures !NamesStop(entry) ==> Noted(f, mention, entry).stop == f.stop
  {
    var hits := entry.visit + entry.dining;
    if NamesStop(entry) {
      var h :| h in hits && h.inScope && !h.infrastructure;
      assert NamesInScope(entry);
    }
    if NamesInScope(entry) {
      var h :| h in hits && h.inScope;
      assert Names(entry);
    }
    hide NamesStop, NamesInScope, Names;
  }

  lemma {:induction false} CountriesSay(cfg: Config, f: Found, mention: string, countries: seq<string>, q: Question)
    requires mention != "" && Ordered(f)
    ensures var g := TryCountries(cfg, f, mention, countries);
            && Ordered(g) && (FoundSays(g, q) <==> FoundSays(f, q) || SomeCountry(cfg, mention, countries, q))
    decreases |countries|
  {
    hide Noted, Answers, NamesStop, Ordered, FoundSays;
    if countries != [] {
      var entry := cfg.resolve(mention, countries[0]);
      NotedSays(f, mention, entry, q);
      SomeCountrySplits(cfg, mention, countries, q);
      hide SomeCountry;
      if !NamesStop(entry) {
        CountriesSay(cfg, Noted(f, mention, entry), mention, countries[1..], q);
      }
    }
  }

  lemma SomeCountrySplits(cfg: Config, mention: string, countries: seq<string>, q: Question)
    requires countries != []
    ensures SomeCountry(cfg, mention, countries, q) <==>
              Answers(cfg.resolve(mention, countries[0]), q) || SomeCountry(cfg, mention, countries[1..], q)
  {
    hide Answers;
    assert countries == [countries[0]] + countries[1..];
  }

  lemma {:induction false} MentionsSay(cfg: Config, f: Found, mentions: seq<string>, q: Question)
    requires "" !in mentions && Ordered(f) && !Truthy(f.stop)
    ensures var g := TryMentions(cfg, f, mentions);
            && Ordered(g) && (FoundSays(g, q) <==> FoundSays(f, q) || SomeMention(cfg, mentions, q))
    decreases |mentions|
  {
    hide TryCountries, SomeCountry, Ordered;
    if mentions != [] {
      var g := TryCountries(cfg, f, mentions[0], cfg.countries);
      CountriesSay(cfg, f, mentions[0], cfg.countries, q);
      SomeMentionSplits(cfg, mentions, q);
      hide SomeMention, FoundSays;
      if Truthy(g.stop) {
        StopSaysAll(g, q);
      } else {
        MentionsSay(cfg, g, mentions[1..], q);
      }
    }
  }

  lemma SomeMentionSplits(cfg: Config, mentions: seq<string>, q: Question)
    requires mentions != []
    ensures SomeMention(cfg, mentions, q) <==>
              SomeCountry(cfg, mentions[0], cfg.countries, q) || SomeMention(cfg, mentions[1..], q)
  {
    hide SomeCountry;
    assert mentions == [mentions[0]] + mentions[1..];
  }

  lemma StopSaysAll(f: Found, q: Question)
    requires Ordered(f) && Truthy(f.stop)
    ensures FoundSays(f, q)
  {
  }

  /** Each verdict of a row is the verdict of the exhaustive scan. */
  lemma RowTellsTheTruth(cfg: Config, chunk: Chunk, q: Question)
    requires "" !in chunk.proposals
    ensures RowSays(RowOf(cfg, chunk), q) <==> Exhaustive(cfg, chunk, q)
  {
    var mentions := Capped(chunk.proposals, cfg.cap);
    MentionsSay(cfg, NOTHING, mentions, q);
    hide TryMentions, Capped, SomeMention;
  }

  /** An empty mention in scope, first in the list, hides everything in scope that is no stop. */
  lemma EmptyMentionHidesScope(cfg: Config, chunk: Chunk, rest: seq<string>)
    requires Capped(chunk.proposals, cfg.cap) == [""] + rest
    requires SomeCountry(cfg, "", cfg.countries, AnythingInScope)
    requires forall m, c | (m == "" || m in rest) && c in cfg.countries :: !NamesStop(cfg.resolve(m, c))
    ensures !RowSays(RowOf(cfg, chunk), AnythingInScope) && Exhaustive(cfg, chunk, AnythingInScope)
  {
    var mentions := [""] + rest;
    assert mentions[0] == "" && mentions[1..] == rest && "" in mentions;
    var f := TryCountries(cfg, NOTHING, "", cfg.countries);
    EmptyIsNoted(cfg, NOTHING, "", cfg.countries);
    StaysNoted(cfg, f, rest);
    assert TryMentions(cfg, NOTHING, mentions) == TryMentions(cfg, f, mentions[1..]);
    hide TryMentions, TryCountries, SomeCountry, Capped;
  }

  /** Without a stop, the first mention in scope is the one noted, and it stays. */
  lemma {:induction false} EmptyIsNoted(cfg: Config, f: Found, mention: string, countries: seq<string>)
    requires f.stop == None && forall c | c in countries :: !NamesStop(cfg.resolve(mention, c))
    ensures var g := TryCountries(cfg, f, mention, countries);
            g.stop == None && (f.infrastructure.Some? ==> g.infrastructure == f.infrastructure)
            && (f.infrastructure.None? && SomeCountry(cfg, mention, countries, AnythingInScope) ==>
                  g.infrastructure == Some(mention))
    decreases |countries|
  {
    hide NamesStop, NamesInScope, Names;
    if countries != [] {
      SomeCountrySplits(cfg, mention, countries, AnythingInScope);
      hide SomeCountry;
      EmptyIsNoted(cfg, Noted(f, mention, cfg.resolve(mention, countries[0])), mention, countries[1..]);
    }
  }

  lemma {:induction false} StaysNoted(cfg: Config, f: Found, mentions: seq<string>)
    requires f.stop == None && f.infrastructure == Some("")
    requires forall m, c | m in mentions && c in cfg.countries :: !NamesStop(cfg.resolve(m, c))
    ensures TryMentions(cfg, f, mentions).stop == None && TryMentions(cfg, f, mentions).infrastructure == Some("")
    decreases |mentions|
  {
    hide NamesStop, SomeCountry, TryCountries;
    if mentions != [] {
      EmptyIsNoted(cfg, f, mentions[0], cfg.countries);
      StaysNoted(cfg, TryCountries(cfg, f, mentions[0], cfg.countries), mentions[1..]);
    }
  }

  /* ----- The report ----- */

  function RowsOf(cfg: Config, chunks: seq<Chunk>): (rows: seq<Row>)
    ensures |rows| == |chunks|
    ensures forall i | 0 <= i < |rows| :: rows[i] == RowOf(cfg, chunks[i])
  {
    seq(|chunks|, i requires 0 <= i < |chunks| => RowOf(cfg, chunks[i]))
  }

  function CountRows(rows: seq<Row>, q: Question): nat {
    if rows == [] then 0 else CountRows(rows[1..], q) + (if RowSays(rows[0], q) then 1 else 0)
  }

  ghost function CountChunks(cfg: Config, chunks: seq<Chunk>, q: Question): nat {
    if chunks == [] then 0 else CountChunks(cfg, chunks[1..], q) + (if Exhaustive(cfg, chunks[0], q) then 1 else 0)
  }

  /** The three counts of the report are those of an exhaustive scan. */
  lemma {:induction false} CountsAreExhaustive(cfg: Config, chunks: seq<Chunk>, q: Question)
    requires forall i | 0 <= i < |chunks| :: "" !in chunks[i].proposals
    ensures CountRows(RowsOf(cfg, chunks), q) == CountChunks(cfg, chunks, q)
  {
    hide RowOf, RowSays, Exhaustive;
    if chunks != [] {
      CountsAreExhaustive(cfg, chunks[1..], q);
      RowTellsTheTruth(cfg, chunks[0], q);
      assert RowsOf(cfg, chunks)[1..] == RowsOf(cfg, chunks[1..]);
    }
  }

  /* ----- The census, whole or resumed ----- */

  function IdsOf(rows: seq<Row>): set<string> {
    set i | 0 <= i < |rows| :: rows[i].id
  }

  predicate UniqueIds(chunks: seq<Chunk>) {
    forall i, j | 0 <= i < j < |chunks| :: chunks[i].id != chunks[j].id
  }

  /** The rows the loop ends with from chunk `i` on. */
  function Continue(cfg: Config, chunks: seq<Chunk>, i: nat, visited: set<string>, rows: seq<Row>): seq<Row>
    requires i <= |chunks|
    decreases |chunks| - i
  {
    if i == |chunks| then rows
    else if chunks[i].id in visited then Continue(cfg, chunks, i + 1, visited, rows)
    else if cfg.limit != 0 && |rows| >= cfg.limit then rows
    else Continue(cfg, chunks, i + 1, visited, rows + [RowOf(cfg, chunks[i])])
  }

  /** What a flush writes to disk. */
  datatype Saved = Saved(rows: seq<Row>, resolutions: map<string, Entry>)

  /** The main loop, from what an earlier census left on disk. */
  method RunCensus(cfg: Config, chunks: seq<Chunk>, saved: Saved) returns (rows: seq<Row>, flushes: seq<Saved>)
    requires NoBar(cfg.countries) && Remembers(cfg, saved.resolutions)
    ensures rows == Continue(cfg, chunks, 0, IdsOf(saved.rows), saved.rows)
    ensures flushes != [] && flushes[|flushes| - 1].rows == rows
    ensures forall i | 0 <= i < |flushes| ::
              saved.rows <= flushes[i].rows <= rows && Remembers(cfg, flushes[i].resolutions)
    ensures forall n | |saved.rows| < n <= |rows| && n % 10 == 0 ::
              Flushed(flushes, rows[..n])
  {
    rows, flushes := saved.rows, [];
    var memo := saved.resolutions;
    var visited := IdsOf(saved.rows);
    var i := 0;
    hide Remembers, NoBar, RowOf;
    while i < |chunks|
      invariant i <= |chunks| && Remembers(cfg, memo)
      invariant Continue(cfg, chunks, 0, visited, saved.rows) == Continue(cfg, chunks, i, visited, rows)
      invariant saved.rows <= rows
      invariant forall k | 0 <= k < |flushes| ::
                saved.rows <= flushes[k].rows <= rows && Remembers(cfg, flushes[k].resolutions)
      invariant forall n | |saved.rows| < n <= |rows| && n % 10 == 0 :: Flushed(flushes, rows[..n])
    {
      if chunks[i].id !in visited {
        if cfg.limit != 0 && |rows| >= cfg.limit {
          break;
        }
        var row;
        row, memo := ScanChunk(cfg, chunks[i], memo);
        ghost var before, done := rows, flushes;
        rows := rows + [row];
        if |rows| % 10 == 0 {
          flushes := flushes + [Saved(rows, memo)];
          FlushedMore(done, Saved(rows, memo), rows);
        }
        forall n | |saved.rows| < n <= |before| && n % 10 == 0
          ensures Flushed(flushes, rows[..n])
        {
          assert rows[..n] == before[..n];
          FlushedMore(done, Saved(rows, memo), rows[..n]);
        }
        assert rows[..|rows|] == rows;
      }
      i := i + 1;
    }
    forall n | |saved.rows| < n <= |rows| && n % 10 == 0
      ensures Flushed(flushes + [Saved(rows, memo)], rows[..n])
    {
      FlushedMore(flushes, Saved(rows, memo), rows[..n]);
    }
    flushes := flushes + [Saved(rows, memo)];
  }

  predicate Flushed(flushes: seq<Saved>, rows: seq<Row>) {
    exists i | 0 <= i < |flushes| :: flushes[i].rows == rows
  }

  lemma FlushedMore(flushes: seq<Saved>, last: Saved, rows: seq<Row>)
    ensures Flushed(flushes, rows) || last.rows == rows ==> Flushed(flushes + [last], rows)
  {
    if i :| 0 <= i < |flushes| && flushes[i].rows == rows {
      assert (flushes + [last])[i].rows == rows;
    }
    assert (flushes + [last])[|flushes|] == last;
  }

  /** How many chunks a census of these many visits. */
  function Quota(cfg: Config, n: nat): nat {
    if cfg.limit == 0 || cfg.limit > n then n else if cfg.limit < 0 then 0 else cfg.limit
  }

  lemma {:induction false} SkipsVisited(cfg: Config, chunks: seq<Chunk>, i: nat, k: nat, visited: set<string>,
                                        rows: seq<Row>)
    requires i <= k <= |chunks| && forall j | i <= j < k :: chunks[j].id in visited
    ensures Continue(cfg, chunks, i, visited, rows) == Continue(cfg, chunks, k, visited, rows)
    decreases k - i
  {
    if i < k {
      SkipsVisited(cfg, chunks, i + 1, k, visited, rows);
    }
  }

  lemma {:induction false} VisitsTheRest(cfg: Config, chunks: seq<Chunk>, i: nat, visited: set<string>)
    requires i <= Quota(cfg, |chunks|) && forall j | i <= j < |chunks| :: chunks[j].id !in visited
    ensures Continue(cfg, chunks, i, visited, RowsOf(cfg, chunks[..i])) == RowsOf(cfg, chunks[..Quota(cfg, |chunks|)])
    decreases |chunks| - i
  {
    hide RowOf;
    if i < Quota(cfg, |chunks|) {
      assert RowsOf(cfg, chunks[..i]) + [RowOf(cfg, chunks[i])] == RowsOf(cfg, chunks[..i + 1]);
      VisitsTheRest(cfg, chunks, i + 1, visited);
    }
  }

  /** A census resumed from any prefix of its rows ends with the rows of one that was never interrupted. */
  lemma ResumeIsHarmless(cfg: Config, chunks: seq<Chunk>, saved: seq<Row>)
    requires UniqueIds(chunks) && saved <= Continue(cfg, chunks, 0, {}, [])
    ensures Continue(cfg, chunks, 0, IdsOf(saved), saved) == Continue(cfg, chunks, 0, {}, [])
    ensures Continue(cfg, chunks, 0, {}, []) == RowsOf(cfg, chunks[..Quota(cfg, |chunks|)])
  {
    hide RowOf;
    assert RowsOf(cfg, chunks[..0]) == [];
    VisitsTheRest(cfg, chunks, 0, {});
    var k := |saved|;
    assert saved == RowsOf(cfg, chunks[..k]);
    RowIds(cfg, chunks, k);
    SkipsVisited(cfg, chunks, 0, k, IdsOf(saved), saved);
    VisitsTheRest(cfg, chunks, k, IdsOf(saved));
  }

  lemma RowIds(cfg: Config, chunks: seq<Chunk>, k: nat)
    requires k <= |chunks| && UniqueIds(chunks)
    ensures forall j | 0 <= j < |chunks| :: chunks[j].id in IdsOf(RowsOf(cfg, chunks[..k])) <==> j < k
  {
    hide TryMentions;
    var rows := RowsOf(cfg, chunks[..k]);
    assert forall j | 0 <= j < k :: rows[j].id == chunks[j].id;
  }

  /**
   The counts a census reports, however often it was interrupted, are those of an exhaustive scan of what it visited.
   */
  lemma ReportIsExhaustive(cfg: Config, chunks: seq<Chunk>, saved: seq<Row>, q: Question)
    requires UniqueIds(chunks) && saved <= Continue(cfg, chunks, 0, {}, [])
    requires forall i | 0 <= i < |chunks| :: "" !in chunks[i].proposals
    ensures CountRows(Continue(cfg, chunks, 0, IdsOf(saved), saved), q)
         == CountChunks(cfg, chunks[..Quota(cfg, |chunks|)], q)
  {
    ResumeIsHarmless(cfg, chunks, saved);
    hide Continue, CountRows, CountChunks, RowsOf;
    CountsAreExhaustive(cfg, chunks[..Quota(cfg, |chunks|)], q);
  }
}
