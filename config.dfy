/**
 The cache time-to-live table `CACHE_TIMES` (seconds per result kind) and the
 clamp that `settings.DEBUG` applies to it (views.py lines 16-24).
 */
module Config {

  /** The cap on every time-to-live under DEBUG. */
  const DEBUG_CAP := 300

  function Min(a: int, b: int): int {
    if a <= b then a else b
  }

  /** The kinds the comprehension of views.py line 16 gives a day each. */
  function DayLongKinds(): set<string> {
    {"geojson_data", "map_html", "candidato_info"}
  }

  /**
   The table as configured: three kinds at a day, built by a comprehension,
   merged with five explicit entries (`|` lets the right-hand side win).
   */
  function ConfiguredTimes(): (times: map<string, int>)
    ensures times.Keys == DayLongKinds() + {"anos_eleicao", "partidos", "candidatos", "votos_bairro", "complete_data"}
    ensures forall k :: k in times ==> times[k] >= DEBUG_CAP
  {
    (map k | k in DayLongKinds() :: 86400)
    + map[
      "anos_eleicao" := 86400,
      "partidos" := 43200,
      "candidatos" := 43200,
      "votos_bairro" := 21600,
      "complete_data" := 43200]
  }

  /** Every entry of `times` capped at `cap`. */
  function Clamped(times: map<string, int>, cap: int): (clamped: map<string, int>)
    ensures clamped.Keys == times.Keys
    ensures forall k :: k in clamped ==> clamped[k] <= cap && clamped[k] <= times[k]
    ensures forall k :: k in clamped ==> clamped[k] == times[k] || clamped[k] == cap
  {
    map k | k in times :: Min(times[k], cap)
  }

  /**
   The DEBUG loop of line 24: visits every key once, replacing its value by
   the smaller of that value and 300, updating the dictionary in place.
   */
  method ClampForDebug(times: map<string, int>) returns (clamped: map<string, int>)
    ensures clamped.Keys == times.Keys
    ensures forall k :: k in clamped ==> clamped[k] <= DEBUG_CAP && clamped[k] <= times[k]
    ensures forall k :: k in clamped ==> clamped[k] == times[k] || clamped[k] == DEBUG_CAP
    ensures clamped == Clamped(times, DEBUG_CAP)
  {
    clamped := times;
    var pending := times.Keys;
    while pending != {}
      invariant pending <= times.Keys
      invariant clamped.Keys == times.Keys
      invariant forall k :: k in clamped ==>
        clamped[k] == if k in pending then times[k] else Min(times[k], DEBUG_CAP)
      decreases pending
    {
      var k :| k in pending;
      clamped := clamped[k := Min(clamped[k], DEBUG_CAP)];
      pending := pending - {k};
    }
  }

  /** `CACHE_TIMES` once the module is loaded, for a given `settings.DEBUG`. */
  function CacheTimes(debug: bool): (times: map<string, int>)
    ensures times.Keys == ConfiguredTimes().Keys
  {
    if debug then Clamped(ConfiguredTimes(), DEBUG_CAP) else ConfiguredTimes()
  }

  /** The time-to-live of one result kind. */
  function Ttl(debug: bool, kind: string): int
    requires kind in ConfiguredTimes()
  {
    CacheTimes(debug)[kind]
  }

  /** Outside DEBUG the configured values stand: a day, half a day, a quarter of a day. */
  lemma ConfiguredValues()
    ensures CacheTimes(false).Keys ==
      {"geojson_data", "map_html", "candidato_info", "anos_eleicao", "partidos",
       "candidatos", "votos_bairro", "complete_data"}
    ensures CacheTimes(false)["partidos"] == 43200 && CacheTimes(false)["candidatos"] == 43200
    ensures CacheTimes(false)["votos_bairro"] == 21600 && CacheTimes(false)["complete_data"] == 43200
    ensures CacheTimes(false)["anos_eleicao"] == 86400 && CacheTimes(false)["geojson_data"] == 86400
    ensures CacheTimes(false)["map_html"] == 86400 && CacheTimes(false)["candidato_info"] == 86400
  {
  }

  /**
   Under DEBUG no entry exceeds 300 or its configured value, and the kinds are
   the same; since every configured value is at least 300, all become 300.
   */
  lemma DebugTimesCapped()
    ensures CacheTimes(true).Keys == CacheTimes(false).Keys
    ensures forall k :: k in CacheTimes(true) ==>
      CacheTimes(true)[k] <= DEBUG_CAP && CacheTimes(true)[k] <= CacheTimes(false)[k]
    ensures forall k :: k in CacheTimes(true) ==> CacheTimes(true)[k] == DEBUG_CAP
  {
    var c := ConfiguredTimes();
    assert forall k :: k in c ==> c[k] >= DEBUG_CAP;
  }
}
