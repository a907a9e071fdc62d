/**
 The views of `mapa_eleitoral`: the cached dropdown getters, the cached
 candidate aggregation, the selection fallbacks of the home page, the AJAX
 endpoints and the cache-clearing view (views.py lines 48-96 and 141-197).
 */
module Views {
  import opened Wrappers
  import opened Order
  import opened Records
  import opened Aggregation
  import opened Config
  import opened CacheStore

  /**
   What the views read from outside: the record store, `settings.DEBUG`, and
   the digest `safe_key` applies (MD5 in the source).
   */
  datatype Env = Env(db: seq<Record>, debug: bool, digest: string -> string)

  /** The query parameters `ano`, `partido`, `candidato` of a request, each possibly absent. */
  datatype Request = Request(ano: Option<string>, partido: Option<string>, candidato: Option<string>)

  /**
   The context `home.html` is rendered with; `mapInput` is the data handed to
   the map generator, present exactly when a map is produced.
   */
  datatype Page = Page(
    years: seq<string>,
    parties: seq<string>,
    candidates: seq<string>,
    year: string,
    party: string,
    candidate: string,
    info: Option<CandidateInfo>,
    mapInput: Option<CandidateData>)

  /** The JSON lists of `get_filter_data_ajax`. */
  datatype FilterData = FilterData(anos: seq<string>, partidos: seq<string>, candidatos: seq<string>)

  /** A `JsonResponse`: its status and its one field. */
  datatype Response = Response(status: int, field: string, message: string)

  const DEFAULT_YEAR := "2024"
  const DEFAULT_PARTY := "PSD"
  const DEFAULT_CANDIDATE := "EDUARDO PAES"
  const YEARS_KEY := "anos_eleicao"

  /** The key of a party list: the year, or `all` when none is given (line 57). */
  function PartiesKey(digest: string -> string, ano: Option<string>): (key: string)
    ensures !IsCandidateDataKey(key) && key != YEARS_KEY
  {
    KeyKindsDisjoint(digest, [if Given(ano) then ano.value else "all"], []);
    SafeKey(digest, "partidos", [if Given(ano) then ano.value else "all"])
  }

  /** The key of a candidate list: `str` of both parameters (line 65). */
  function CandidatesKey(digest: string -> string, partido: Option<string>, ano: Option<string>): (key: string)
    ensures !IsCandidateDataKey(key) && key != YEARS_KEY
    ensures forall a :: key != PartiesKey(digest, a)
  {
    KeyKindsDisjoint(digest, [Str(partido), Str(ano)], []);
    forall a ensures SafeKey(digest, "candidatos", [Str(partido), Str(ano)]) != PartiesKey(digest, a) {
      KeyKindsDisjoint(digest, [if Given(a) then a.value else "all"], [Str(partido), Str(ano)]);
    }
    SafeKey(digest, "candidatos", [Str(partido), Str(ano)])
  }

  /** The key of a candidate's data (line 68): never the key of a list. */
  function CandidateDataKey(digest: string -> string, candidato: string, partido: string, ano: string): (key: string)
    ensures IsCandidateDataKey(key)
  {
    KeyKindsDisjoint(digest, [candidato, partido, ano], []);
    SafeKey(digest, "complete_data", [candidato, partido, ano])
  }

  /** An absent or empty year is keyed as the year `all` (`ano or 'all'`, line 57). */
  lemma AbsentYearKeyedAsAll(digest: string -> string)
    ensures PartiesKey(digest, None) == PartiesKey(digest, Some("")) == PartiesKey(digest, Some("all"))
  {
  }

  /** An absent party is keyed as the party `None` (`str(None)`, line 65). */
  lemma AbsentPartyKeyedAsNone(digest: string -> string, ano: Option<string>)
    ensures CandidatesKey(digest, None, ano) == CandidatesKey(digest, Some("None"), ano)
  {
  }

  /** `get_cached_anos` (lines 48-51). */
  method GetCachedAnos(c: Cache, env: Env) returns (anos: seq<string>)
    requires c.Valid()
    modifies c
    ensures c.Valid()
    ensures c.Served(YEARS_KEY, YearsQuery(env.db), Ttl(env.debug, "anos_eleicao"), anos)
    ensures anos == ListServed(old(c.entries), YEARS_KEY, YearsQuery(env.db))
    ensures Extends(old(c.entries), c.entries, {YEARS_KEY})
    ensures Stores(old(c.entries), c.entries, YEARS_KEY, Names(anos), Ttl(env.debug, "anos_eleicao"))
  {
    KeyKindsDisjoint(env.digest, [], []);
    anos := c.CachedQs(YEARS_KEY, YearsQuery(env.db), Ttl(env.debug, "anos_eleicao"));
  }

  /** `get_cached_partidos` (lines 53-57). */
  method GetCachedPartidos(c: Cache, env: Env, ano: Option<string>) returns (partidos: seq<string>)
    requires c.Valid()
    modifies c
    ensures c.Valid()
    ensures c.Served(PartiesKey(env.digest, ano), PartiesQuery(env.db, ano), Ttl(env.debug, "partidos"), partidos)
    ensures partidos == ListServed(old(c.entries), PartiesKey(env.digest, ano), PartiesQuery(env.db, ano))
    ensures Extends(old(c.entries), c.entries, {PartiesKey(env.digest, ano)})
    ensures Stores(old(c.entries), c.entries, PartiesKey(env.digest, ano), Names(partidos), Ttl(env.debug, "partidos"))
  {
    KeyKindsDisjoint(env.digest, [if Given(ano) then ano.value else "all"], []);
    partidos := c.CachedQs(PartiesKey(env.digest, ano), PartiesQuery(env.db, ano), Ttl(env.debug, "partidos"));
  }

  /** `get_cached_candidatos` (lines 59-65). */
  method GetCachedCandidatos(c: Cache, env: Env, partido: Option<string>, ano: Option<string>)
    returns (candidatos: seq<string>)
    requires c.Valid()
    modifies c
    ensures c.Valid()
    ensures c.Served(CandidatesKey(env.digest, partido, ano), CandidatesQuery(env.db, partido, ano),
      Ttl(env.debug, "candidatos"), candidatos)
    ensures candidatos == ListServed(old(c.entries), CandidatesKey(env.digest, partido, ano),
      CandidatesQuery(env.db, partido, ano))
    ensures Extends(old(c.entries), c.entries, {CandidatesKey(env.digest, partido, ano)})
    ensures Stores(old(c.entries), c.entries, CandidatesKey(env.digest, partido, ano), Names(candidatos),
      Ttl(env.debug, "candidatos"))
  {
    KeyKindsDisjoint(env.digest, [Str(partido), Str(ano)], []);
    candidatos := c.CachedQs(CandidatesKey(env.digest, partido, ano), CandidatesQuery(env.db, partido, ano),
      Ttl(env.debug, "candidatos"));
  }

  /**
   `get_complete_candidate_data` (lines 67-96). A stored value is returned as
   it is, without a query. Otherwise the rows are queried; when none match the
   result is `None` and nothing is stored, so "no data" is never memoised;
   when some match, their aggregate is stored and returned.
   */
  method GetCompleteCandidateData(c: Cache, env: Env, candidato: string, partido: string, ano: string)
    returns (d: Option<CandidateData>)
    requires c.Valid()
    modifies c
    ensures c.Valid()
    ensures var key := CandidateDataKey(env.digest, candidato, partido, ano);
      if key in old(c.entries) then
        && old(c.entries)[key].value.Complete?
        && d == Some(old(c.entries)[key].value.data)
        && c.entries == old(c.entries) && c.queries == old(c.queries)
      else
        && d == ComputeCandidateData(env.db, candidato, partido, ano)
        && c.queries == old(c.queries) + 1
        && c.entries == if d.None? then old(c.entries)
           else old(c.entries)[key := Entry(Complete(d.value), Ttl(env.debug, "complete_data"))]
    ensures d == DataServed(old(c.entries), CandidateDataKey(env.digest, candidato, partido, ano),
      ComputeCandidateData(env.db, candidato, partido, ano))
    ensures Extends(old(c.entries), c.entries, {CandidateDataKey(env.digest, candidato, partido, ano)})
    ensures d.Some? ==> Stores(old(c.entries), c.entries, CandidateDataKey(env.digest, candidato, partido, ano),
      Complete(d.value), Ttl(env.debug, "complete_data"))
  {
    var key := CandidateDataKey(env.digest, candidato, partido, ano);
    ghost var before := c.entries;
    var data := c.Get(key);
    if data.Some? && Truthy(data.value) {
      d := Some(data.value.data);
    } else {
      c.queries := c.queries + 1;
      var valores := SortByNeighbourhood(Matching(env.db, ano, partido, candidato));
      if |valores| == 0 {
        d := None;
      } else {
        var votes, total := FoldVotes(valores);
        var info := CandidateInfo(valores[0].ballotName, valores[0].office, ano, total);
        d := Some(CandidateData(votes, total, info));
        c.Set(key, Complete(d.value), Ttl(env.debug, "complete_data"));
      }
    }
    DataOutcome(before, c.entries, key, d, ComputeCandidateData(env.db, candidato, partido, ano),
      Ttl(env.debug, "complete_data"));
  }

  /** `request.GET.get('ano') or '2024'`: never checked against the list of years. */
  function ResolveYear(ano: Option<string>): (y: string)
    ensures y != ""
    ensures Given(ano) ==> y == ano.value
    ensures !Given(ano) ==> y == DEFAULT_YEAR
  {
    if Given(ano) then ano.value else DEFAULT_YEAR
  }

  /**
   `request.GET.get(name) or (preferred if preferred in options else (options[0] if options else ''))`
   (lines 145 and 147): a supplied value wins without being checked against
   the options; otherwise the preferred default if offered, else the first
   option, else the empty string.
   */
  function ResolveChoice(p: Option<string>, options: seq<string>, preferred: string): (r: string)
    ensures Given(p) ==> r == p.value && r != ""
    ensures !Given(p) && options != [] ==> r in options
    ensures !Given(p) && preferred in options ==> r == preferred
    ensures !Given(p) && preferred !in options && options != [] ==> r == options[0]
    ensures !Given(p) && options == [] ==> r == ""
  {
    if Given(p) then p.value
    else if preferred in options then preferred
    else if options != [] then options[0]
    else ""
  }

  /** `if candidato and ano` (line 150): the party is not looked at. */
  predicate MapAttempted(candidato: string, ano: string): (attempted: bool)
    ensures attempted ==> |candidato| > 0 && |ano| > 0
    ensures !attempted ==> candidato == [] || ano == []
  {
    candidato != "" && ano != ""
  }

  /** The resolved year is never empty, so a map is attempted exactly when a candidate is selected. */
  lemma MapAttemptedIffCandidate(ano: Option<string>, candidato: string)
    ensures MapAttempted(candidato, ResolveYear(ano)) <==> candidato != ""
  {
  }

  /**
   The page `home_view` renders when the cache holds nothing: every list is
   the record store's answer and the map data is computed afresh.
   */
  function ColdPage(db: seq<Record>, req: Request): (page: Page)
    ensures page.year != ""
    ensures Descending(page.years) && Ascending(page.parties) && Ascending(page.candidates)
    ensures page.mapInput.Some? <==> page.info.Some?
    ensures page.mapInput.Some? ==>
      && page.candidate != ""
      && page.info == Some(page.mapInput.value.info)
      && page.mapInput.value.info.name == page.candidate
      && page.mapInput.value.info.year == page.year
  {
    var ano := ResolveYear(req.ano);
    var partidos := PartiesQuery(db, Some(ano));
    var partido := ResolveChoice(req.partido, partidos, DEFAULT_PARTY);
    var candidatos := CandidatesQuery(db, Some(partido), Some(ano));
    var candidato := ResolveChoice(req.candidato, candidatos, DEFAULT_CANDIDATE);
    var d := if MapAttempted(candidato, ano) then ComputeCandidateData(db, candidato, partido, ano) else None;
    Page(YearsQuery(db), partidos, candidatos, ano, partido, candidato,
      if d.Some? then Some(d.value.info) else None, d)
  }

  /** The dropdown lists and the selected year, party and candidate of a page. */
  datatype Selection = Selection(
    years: seq<string>,
    parties: seq<string>,
    candidates: seq<string>,
    year: string,
    party: string,
    candidate: string)

  /**
   The selection part of `home_view` (lines 142-147): year, party and
   candidate resolved in turn, each list coming through the cache under its
   key; the entries already present stay as they are.
   */
  method SelectFilters(c: Cache, env: Env, req: Request) returns (sel: Selection)
    requires c.Valid()
    modifies c
    ensures c.Valid()
    ensures sel.year == ResolveYear(req.ano)
    ensures sel.party == ResolveChoice(req.partido, sel.parties, DEFAULT_PARTY)
    ensures sel.candidate == ResolveChoice(req.candidato, sel.candidates, DEFAULT_CANDIDATE)
    ensures sel.years == ListServed(old(c.entries), YEARS_KEY, YearsQuery(env.db))
    ensures sel.parties == ListServed(old(c.entries), PartiesKey(env.digest, Some(sel.year)),
      PartiesQuery(env.db, Some(sel.year)))
    ensures sel.candidates == ListServed(old(c.entries), CandidatesKey(env.digest, Some(sel.party), Some(sel.year)),
      CandidatesQuery(env.db, Some(sel.party), Some(sel.year)))
    ensures Extends(old(c.entries), c.entries,
      {YEARS_KEY, PartiesKey(env.digest, Some(sel.year)), CandidatesKey(env.digest, Some(sel.party), Some(sel.year))})
    ensures Stores(old(c.entries), c.entries, YEARS_KEY, Names(sel.years), Ttl(env.debug, "anos_eleicao"))
    ensures Stores(old(c.entries), c.entries, PartiesKey(env.digest, Some(sel.year)), Names(sel.parties),
      Ttl(env.debug, "partidos"))
    ensures Stores(old(c.entries), c.entries, CandidatesKey(env.digest, Some(sel.party), Some(sel.year)),
      Names(sel.candidates), Ttl(env.debug, "candidatos"))
  {
    ghost var e0 := c.entries;
    var anos := GetCachedAnos(c, env);
    var ano := ResolveYear(req.ano);
    ghost var e1 := c.entries;
    var partidos := GetCachedPartidos(c, env, Some(ano));
    var partido := ResolveChoice(req.partido, partidos, DEFAULT_PARTY);
    ghost var e2 := c.entries;
    var candidatos := GetCachedCandidatos(c, env, Some(partido), Some(ano));
    var candidato := ResolveChoice(req.candidato, candidatos, DEFAULT_CANDIDATE);
    ghost var yk, pk := YEARS_KEY, PartiesKey(env.digest, Some(ano));
    ghost var ck := CandidatesKey(env.digest, Some(partido), Some(ano));
    ServedUnaffected(e0, e1, {yk}, pk);
    ServedUnaffected(e0, e1, {yk}, ck);
    ServedUnaffected(e1, e2, {pk}, ck);
    ExtendsTransitive(e0, e1, e2, {yk}, {pk});
    ExtendsTransitive(e0, e2, c.entries, {yk, pk}, {ck});
    sel := Selection(anos, partidos, candidatos, ano, partido, candidato);
  }

  /**
   The page `home_view` renders given the cache entries it starts from: each
   list is the stored one or the store's answer, and the candidate's data the
   stored one or the aggregate. On an empty cache it is the cold page.
   */
  function PageFor(entries: map<string, Entry>, env: Env, req: Request): (page: Page)
    ensures page.year == ResolveYear(req.ano)
    ensures page.party == ResolveChoice(req.partido, page.parties, DEFAULT_PARTY)
    ensures page.candidate == ResolveChoice(req.candidato, page.candidates, DEFAULT_CANDIDATE)
    ensures page.mapInput.Some? ==> page.candidate != "" && page.info == Some(page.mapInput.value.info)
    ensures page.mapInput.None? ==> page.info.None?
    ensures entries == map[] ==> page == ColdPage(env.db, req)
  {
    var ano := ResolveYear(req.ano);
    var partidos := ListServed(entries, PartiesKey(env.digest, Some(ano)), PartiesQuery(env.db, Some(ano)));
    var partido := ResolveChoice(req.partido, partidos, DEFAULT_PARTY);
    var candidatos := ListServed(entries, CandidatesKey(env.digest, Some(partido), Some(ano)),
      CandidatesQuery(env.db, Some(partido), Some(ano)));
    var candidato := ResolveChoice(req.candidato, candidatos, DEFAULT_CANDIDATE);
    var d := if !MapAttempted(candidato, ano) then None
      else DataServed(entries, CandidateDataKey(env.digest, candidato, partido, ano),
        ComputeCandidateData(env.db, candidato, partido, ano));
    Page(ListServed(entries, YEARS_KEY, YearsQuery(env.db)), partidos, candidatos, ano, partido, candidato,
      if d.Some? then Some(d.value.info) else None, d)
  }

  /**
   The map step of `home_view` (lines 148-154): the candidate's data is asked
   for only when a candidate and a year are selected, and the summary is
   shown exactly when data came back.
   */
  method MapData(c: Cache, env: Env, candidato: string, partido: string, ano: string)
    returns (info: Option<CandidateInfo>, mapInput: Option<CandidateData>)
    requires c.Valid()
    modifies c
    ensures c.Valid()
    ensures mapInput == if !MapAttempted(candidato, ano) then None
      else DataServed(old(c.entries), CandidateDataKey(env.digest, candidato, partido, ano),
        ComputeCandidateData(env.db, candidato, partido, ano))
    ensures info == if mapInput.Some? then Some(mapInput.value.info) else None
    ensures Extends(old(c.entries), c.entries, {CandidateDataKey(env.digest, candidato, partido, ano)})
    ensures mapInput.Some? ==> Stores(old(c.entries), c.entries, CandidateDataKey(env.digest, candidato, partido, ano),
      Complete(mapInput.value), Ttl(env.debug, "complete_data"))
    ensures mapInput.None? ==> c.entries == old(c.entries)
  {
    info, mapInput := None, None;
    if MapAttempted(candidato, ano) {
      var d := GetCompleteCandidateData(c, env, candidato, partido, ano);
      mapInput := d;
      if d.Some? {
        info := Some(d.value.info);
      }
    }
  }

  /**
   The selection step may add only the three list keys and the map step only
   the data key, which is none of them: so the map step sees the data entry
   the page started from, the lists stored by the first step survive the
   second, and together they add only those four keys.
   */
  lemma ComposeHome(e0: map<string, Entry>, e3: map<string, Entry>, e4: map<string, Entry>,
                    yk: string, pk: string, ck: string, dk: string)
    requires Extends(e0, e3, {yk, pk, ck}) && Extends(e3, e4, {dk})
    requires IsCandidateDataKey(dk)
    requires !IsCandidateDataKey(yk) && !IsCandidateDataKey(pk) && !IsCandidateDataKey(ck)
    ensures Extends(e0, e4, {yk, pk, ck, dk})
    ensures dk in e3 <==> dk in e0
    ensures dk in e0 ==> e3[dk] == e0[dk]
    ensures forall k :: k in e3 ==> k in e4 && e4[k] == e3[k]
  {
    assert dk != yk && dk != pk && dk != ck;
  }

  /**
   `home_view` (lines 141-165): resolves year, party and candidate in turn,
   each list coming through the cache, and asks for the candidate's data only
   when a candidate and a year are selected. Every entry already in the cache
   stays as it was; the only entries added are the three lists and the
   candidate's data.
   */
  method HomeView(c: Cache, env: Env, req: Request) returns (page: Page)
    requires c.Valid()
    modifies c
    ensures c.Valid()
    ensures page == PageFor(old(c.entries), env, req)
    ensures Extends(old(c.entries), c.entries,
      {YEARS_KEY, PartiesKey(env.digest, Some(page.year)),
       CandidatesKey(env.digest, Some(page.party), Some(page.year)),
       CandidateDataKey(env.digest, page.candidate, page.party, page.year)})
    ensures Stores(old(c.entries), c.entries, YEARS_KEY, Names(page.years), Ttl(env.debug, "anos_eleicao"))
    ensures Stores(old(c.entries), c.entries, PartiesKey(env.digest, Some(page.year)), Names(page.parties),
      Ttl(env.debug, "partidos"))
    ensures Stores(old(c.entries), c.entries, CandidatesKey(env.digest, Some(page.party), Some(page.year)),
      Names(page.candidates), Ttl(env.debug, "candidatos"))
    ensures page.mapInput.Some? ==>
      Stores(old(c.entries), c.entries, CandidateDataKey(env.digest, page.candidate, page.party, page.year),
        Complete(page.mapInput.value), Ttl(env.debug, "complete_data"))
    ensures page.mapInput.None? ==> var k := CandidateDataKey(env.digest, page.candidate, page.party, page.year);
      (k in c.entries <==> k in old(c.entries))
    ensures old(c.entries) == map[] ==> page == ColdPage(env.db, req)
  {
    ghost var e0 := c.entries;
    var sel := SelectFilters(c, env, req);
    ghost var e3 := c.entries;
    var info, mapInput := MapData(c, env, sel.candidate, sel.party, sel.year);
    KeyKindsDisjoint(env.digest, [], []);
    ComposeHome(e0, e3, c.entries, YEARS_KEY, PartiesKey(env.digest, Some(sel.year)),
      CandidatesKey(env.digest, Some(sel.party), Some(sel.year)),
      CandidateDataKey(env.digest, sel.candidate, sel.party, sel.year));
    page := Page(sel.years, sel.parties, sel.candidates, sel.year, sel.party, sel.candidate, info, mapInput);
  }

  /**
   With an empty record store the page never fails: no years, parties or
   candidates are offered, party and candidate are whatever was supplied or
   empty, the year is the supplied one or 2024, and no map is drawn.
   */
  lemma EmptyStorePage(req: Request)
    ensures var page := ColdPage([], req);
      && page.years == [] && page.parties == [] && page.candidates == []
      && page.year == (if Given(req.ano) then req.ano.value else DEFAULT_YEAR)
      && page.party == (if Given(req.partido) then req.partido.value else "")
      && page.candidate == (if Given(req.candidato) then req.candidato.value else "")
      && page.info.None? && page.mapInput.None?
  {
    var page := ColdPage([], req);
    NoMemberIsEmpty(page.years);
    NoMemberIsEmpty(page.parties);
    NoMemberIsEmpty(page.candidates);
    NoDataIffNoRows([], page.candidate, page.party, page.year);
  }

  /**
   On a cold cache a map is drawn exactly when a candidate is selected and
   some row carries the selected (year, party, candidate).
   */
  lemma ColdPageMap(db: seq<Record>, req: Request)
    ensures var page := ColdPage(db, req);
      page.mapInput.Some? <==>
        (page.candidate != ""
         && exists rec :: rec in db && rec.year == page.year && rec.party == page.party
              && rec.ballotName == page.candidate)
  {
    var page := ColdPage(db, req);
    NoDataIffNoRows(db, page.candidate, page.party, page.year);
  }

  /**
   When nothing is supplied and the default is not offered, the fallback is
   the first option alphabetically, and it is a value the store holds for the
   selected year (and, for a candidate, the selected party).
   */
  lemma ColdPageFallbacks(db: seq<Record>, req: Request)
    ensures var page := ColdPage(db, req);
      && (!Given(req.partido) && DEFAULT_PARTY !in page.parties && page.parties != [] ==>
            && (forall q :: q in page.parties && q != page.party ==> Less(page.party, q))
            && exists rec :: rec in db && rec.party == page.party && rec.year == page.year)
      && (!Given(req.candidato) && DEFAULT_CANDIDATE !in page.candidates && page.candidates != [] ==>
            && (forall q :: q in page.candidates && q != page.candidate ==> Less(page.candidate, q))
            && exists rec :: rec in db && rec.ballotName == page.candidate && rec.year == page.year
                 && (page.party != "" ==> rec.party == page.party))
  {
    var page := ColdPage(db, req);
    if !Given(req.partido) && DEFAULT_PARTY !in page.parties && page.parties != [] {
      FirstIsLeast(page.parties);
    }
    if !Given(req.candidato) && DEFAULT_CANDIDATE !in page.candidates && page.candidates != [] {
      FirstIsLeast(page.candidates);
    }
  }

  /** `get_anos_ajax` (lines 168-169). */
  method AnosAjax(c: Cache, env: Env) returns (anos: seq<string>)
    requires c.Valid()
    modifies c
    ensures c.Valid()
    ensures c.Served(YEARS_KEY, YearsQuery(env.db), Ttl(env.debug, "anos_eleicao"), anos)
  {
    anos := GetCachedAnos(c, env);
  }

  /** `get_candidatos_ajax` (lines 171-174): no party, no candidates, and the cache is not touched. */
  method CandidatosAjax(c: Cache, env: Env, partido: Option<string>, ano: Option<string>)
    returns (candidatos: seq<string>)
    requires c.Valid()
    modifies c
    ensures c.Valid()
    ensures !Given(partido) ==> candidatos == [] && c.entries == old(c.entries) && c.queries == old(c.queries)
    ensures Given(partido) ==> c.Served(CandidatesKey(env.digest, partido, ano),
      CandidatesQuery(env.db, partido, ano), Ttl(env.debug, "candidatos"), candidatos)
  {
    if Given(partido) {
      candidatos := GetCachedCandidatos(c, env, partido, ano);
    } else {
      candidatos := [];
    }
  }

  /** `get_partidos_ajax` (lines 176-179): no year, no parties, and the cache is not touched. */
  method PartidosAjax(c: Cache, env: Env, ano: Option<string>) returns (partidos: seq<string>)
    requires c.Valid()
    modifies c
    ensures c.Valid()
    ensures !Given(ano) ==> partidos == [] && c.entries == old(c.entries) && c.queries == old(c.queries)
    ensures Given(ano) ==> c.Served(PartiesKey(env.digest, ano), PartiesQuery(env.db, ano),
      Ttl(env.debug, "partidos"), partidos)
  {
    if Given(ano) {
      partidos := GetCachedPartidos(c, env, ano);
    } else {
      partidos := [];
    }
  }

  /**
   `get_filter_data_ajax` (lines 181-188): the years always; the parties only
   with a year; the candidates only with both a year and a party.
   */
  method FilterDataAjax(c: Cache, env: Env, ano: Option<string>, partido: Option<string>)
    returns (data: FilterData)
    requires c.Valid()
    modifies c
    ensures c.Valid()
    ensures !Given(ano) ==> data.partidos == []
    ensures !(Given(ano) && Given(partido)) ==> data.candidatos == []
    ensures data.anos == ListServed(old(c.entries), YEARS_KEY, YearsQuery(env.db))
    ensures Given(ano) ==>
      data.partidos == ListServed(old(c.entries), PartiesKey(env.digest, ano), PartiesQuery(env.db, ano))
    ensures Given(ano) && Given(partido) ==>
      data.candidatos == ListServed(old(c.entries), CandidatesKey(env.digest, partido, ano),
        CandidatesQuery(env.db, partido, ano))
    ensures Extends(old(c.entries), c.entries,
      {YEARS_KEY}
      + (if Given(ano) then {PartiesKey(env.digest, ano)} else {})
      + (if Given(ano) && Given(partido) then {CandidatesKey(env.digest, partido, ano)} else {}))
    ensures Stores(old(c.entries), c.entries, YEARS_KEY, Names(data.anos), Ttl(env.debug, "anos_eleicao"))
    ensures Given(ano) ==>
      Stores(old(c.entries), c.entries, PartiesKey(env.digest, ano), Names(data.partidos), Ttl(env.debug, "partidos"))
    ensures Given(ano) && Given(partido) ==>
      Stores(old(c.entries), c.entries, CandidatesKey(env.digest, partido, ano), Names(data.candidatos),
        Ttl(env.debug, "candidatos"))
    ensures old(c.entries) == map[] ==> data == FilterData(
      YearsQuery(env.db),
      if Given(ano) then PartiesQuery(env.db, ano) else [],
      if Given(ano) && Given(partido) then CandidatesQuery(env.db, partido, ano) else [])
  {
    ghost var e0 := c.entries;
    ghost var pk, ck := PartiesKey(env.digest, ano), CandidatesKey(env.digest, partido, ano);
    var anos := GetCachedAnos(c, env);
    ghost var e1 := c.entries;
    var partidos: seq<string> := [];
    if Given(ano) {
      partidos := GetCachedPartidos(c, env, ano);
    }
    ghost var pks: set<string> := if Given(ano) then {pk} else {};
    ghost var e2 := c.entries;
    ServedUnaffected(e0, e1, {YEARS_KEY}, pk);
    ServedUnaffected(e0, e1, {YEARS_KEY}, ck);
    ServedUnaffected(e1, e2, pks, ck);
    ExtendsTransitive(e0, e1, e2, {YEARS_KEY}, pks);
    var candidatos: seq<string> := [];
    if Given(ano) && Given(partido) {
      candidatos := GetCachedCandidatos(c, env, partido, ano);
    }
    ghost var cks: set<string> := if Given(ano) && Given(partido) then {ck} else {};
    ExtendsTransitive(e0, e2, c.entries, {YEARS_KEY} + pks, cks);
    data := FilterData(anos, partidos, candidatos);
  }

  /** `clear_cache_view` (lines 191-193): refused with 403 unless the user is a superuser. */
  method ClearCacheView(c: Cache, isSuperuser: bool) returns (resp: Response)
    requires c.Valid()
    modifies c
    ensures c.Valid() && c.queries == old(c.queries)
    ensures !isSuperuser ==> resp == Response(403, "error", "Acesso negado") && c.entries == old(c.entries)
    ensures isSuperuser ==> resp.status == 200 && c.entries == map[]
  {
    if !isSuperuser {
      return Response(403, "error", "Acesso negado");
    }
    c.Clear();
    resp := Response(200, "success", "Cache limpo com sucesso");
  }

  /** `cache_stats_view` (lines 195-197): the same refusal; statistics are a placeholder. */
  function CacheStatsView(isSuperuser: bool): (resp: Response)
    ensures resp.status == 403 <==> !isSuperuser
    ensures !isSuperuser ==> resp.field == "error"
  {
    if !isSuperuser then Response(403, "error", "Acesso negado")
    else Response(200, "msg", "Stats ainda não implementadas")
  }
}
