/**
 Worked cases of the views' behaviour: the three-row aggregation example,
 two candidates whose data share one cache key, and a repeated lookup.
 */
module Scenarios {
  import opened Wrappers
  import opened Records
  import opened Aggregation
  import opened CacheStore
  import opened Views

  /** Two polling places in Centro (100 and 50 votes) and one in Zona Sul (30). */
  function ThreeRows(): seq<Record> {
    [ Record("2024", "PSD", "EDUARDO PAES", "PREFEITO", "Centro", Whole(100)),
      Record("2024", "PSD", "EDUARDO PAES", "PREFEITO", "Centro", Whole(50)),
      Record("2024", "PSD", "EDUARDO PAES", "PREFEITO", "Zona Sul", Whole(30)) ]
  }

  /** The rows of one neighbourhood are added: Centro 150, Zona Sul 30, total 180. */
  lemma ThreeRowsAggregate()
    ensures ComputeCandidateData(ThreeRows(), "EDUARDO PAES", "PSD", "2024")
      == Some(CandidateData(map["Centro" := 150, "Zona Sul" := 30], 180,
           CandidateInfo("EDUARDO PAES", "PREFEITO", "2024", 180)))
  {
    ThreeRowsMatch();
    SortThreeRows();
    ThreeRowsSums();
  }

  /** All three rows belong to the requested triple. */
  lemma ThreeRowsMatch()
    ensures Matching(ThreeRows(), "2024", "PSD", "EDUARDO PAES") == ThreeRows()
  {
    MatchingKeepsAll(ThreeRows(), "2024", "PSD", "EDUARDO PAES");
  }

  lemma ThreeRowsSums()
    ensures VotesByNeighbourhood(ThreeRows()) == map["Centro" := 150, "Zona Sul" := 30]
    ensures TotalVotes(ThreeRows()) == 180
  {
    var db := ThreeRows();
    assert Neighbourhoods(db) == {"Centro", "Zona Sul"} by {
      assert db[0] in db && db[2] in db;
    }
    assert VotesIn(db[2..], "Centro") == 0 && VotesIn(db[2..], "Zona Sul") == 30;
    assert VotesIn(db[1..], "Centro") == 50 && VotesIn(db[1..], "Zona Sul") == 30;
    assert VotesIn(db, "Centro") == 150 && VotesIn(db, "Zona Sul") == 30;
    assert TotalVotes(db[2..]) == 30 && TotalVotes(db[1..]) == 80;
  }

  /** The rows are already in neighbourhood order, and the sort is stable. */
  lemma SortThreeRows()
    ensures SortByNeighbourhood(ThreeRows()) == ThreeRows()
  {
    var db := ThreeRows();
    assert SortByNeighbourhood(db[2..]) == db[2..];
    assert !Order.Less("Zona Sul", "Centro");
    assert SortByNeighbourhood(db[1..]) == db[1..];
    Order.LessIrreflexive("Centro");
    assert SortByNeighbourhood(db) == [db[0]] + db[1..];
  }

  /**
   Asking for candidate `A_B` of party `C` after candidate `A` of party `B_C`
   returns the data of `A`: both triples join to `A_B_C_2024`, so they share
   one cache key whatever the digest.
   */
  method CollidingCandidates(digest: string -> string) returns (got: Option<CandidateData>)
    ensures got.Some? && got.value.info.name == "A"
  {
    var db := [Record("2024", "B_C", "A", "VEREADOR", "Centro", Whole(10))];
    var env := Env(db, false, digest);
    var c := new Cache();
    OneRowHasData(db);
    var first := GetCompleteCandidateData(c, env, "A", "B_C", "2024");
    CollidingKeys(digest);
    got := GetCompleteCandidateData(c, env, "A_B", "C", "2024");
  }

  lemma OneRowHasData(db: seq<Record>)
    requires db == [Record("2024", "B_C", "A", "VEREADOR", "Centro", Whole(10))]
    ensures var d := ComputeCandidateData(db, "A", "B_C", "2024");
      d.Some? && d.value.info.name == "A"
  {
    assert db[0] in Matching(db, "2024", "B_C", "A");
    NoDataIffNoRows(db, "A", "B_C", "2024");
    InfoFromFirstRow(db, "A", "B_C", "2024");
  }

  /** `(A, B_C, 2024)` and `(A_B, C, 2024)` join to the same text. */
  lemma CollidingKeys(digest: string -> string)
    ensures CandidateDataKey(digest, "A", "B_C", "2024") == CandidateDataKey(digest, "A_B", "C", "2024")
  {
    SafeKeyCollides(digest, "complete_data", [], "A", "B", ["C", "2024"]);
    SafeKeyCollides(digest, "complete_data", ["A"], "B", "C", ["2024"]);
    assert "A" + "_" + "B" == "A_B" && "B" + "_" + "C" == "B_C";
    assert [] + ["A" + "_" + "B"] + ["C", "2024"] == ["A_B", "C", "2024"];
    assert ["A"] + ["B" + "_" + "C"] + ["2024"] == ["A", "B_C", "2024"];
    assert [] + ["A", "B"] + ["C", "2024"] == ["A"] + ["B", "C"] + ["2024"];
  }

  /**
   Asking twice for the same triple: data found the first time is returned
   again with at most one query in all; no data is asked for again, since it
   was never stored.
   */
  method RepeatedLookup(c: Cache, env: Env, candidato: string, partido: string, ano: string)
    returns (d1: Option<CandidateData>, d2: Option<CandidateData>)
    requires c.Valid()
    modifies c
    ensures c.Valid()
    ensures d1.Some? ==> d2 == d1 && c.queries <= old(c.queries) + 1
    ensures d1.None? ==> d2.None? && c.queries == old(c.queries) + 2 && c.entries == old(c.entries)
  {
    d1 := GetCompleteCandidateData(c, env, candidato, partido, ano);
    d2 := GetCompleteCandidateData(c, env, candidato, partido, ano);
  }
}
