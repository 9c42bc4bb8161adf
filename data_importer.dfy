/**
 * The import layer: filtering fetched observation-block rows by program
 * priority, attaching exposure counts, and assembling the query text.
 *
 * The database is not modelled: the rows a query returns are inputs, and
 * each row is already decoded (its JSON blob read, its numbers converted).
 */
module DataImporter {
  import opened Wrappers
  import opened Decimal

  /** sys.maxsize on a 64-bit interpreter, the default for every upper bound. */
  const MaxSize := 0x7fff_ffff_ffff_ffff

  const MissingConfigurationMessage := "Error :: Cannot import without database configuration"

  /** Connection settings; only their presence matters here. */
  datatype DbConfig = DbConfig(settings: map<string, string>)

  /** A fetched observing_blocks row, with the program priority read from its data blob. */
  datatype ObservationRow = ObservationRow(observationBlockId: int, programPriority: int)

  /** A converted block; exposureCount is None when no count is known for its id. */
  datatype ObservationBlock = ObservationBlock(observationBlockId: int, programPriority: int, exposureCount: Option<int>)

  /** A row of the per-block exposure count query. */
  datatype ExposureRow = ExposureRow(observingBlockId: int, exposureCount: int)

  /** RuntimeError: no database configuration; TypeError: `int(None)` on a missing keyword argument. */
  datatype ImportError = RuntimeError(message: string) | TypeError

  /** The query text sent and the blocks built from the rows it returned. */
  datatype QueryOutcome = QueryOutcome(sql: string, blocks: seq<ObservationBlock>)

  /** Python's `dict.get(k)`. */
  function Lookup(m: map<int, int>, k: int): (r: Option<int>)
    ensures r.Some? <==> k in m
    ensures r.Some? ==> r.value == m[k]
  {
    if k in m then Some(m[k]) else None
  }

  function ToBlock(row: ObservationRow, exposureCountData: map<int, int>): ObservationBlock
  {
    ObservationBlock(row.observationBlockId, row.programPriority, Lookup(exposureCountData, row.observationBlockId))
  }

  // ---------------------------------------------------------------------------
  // Conversion of fetched rows

  /** The rows whose program priority is at most the bound, in order, as blocks with their exposure counts. */
  function Converted(values: seq<ObservationRow>, maxProgramPriority: int, exposureCountData: map<int, int>)
    : (blocks: seq<ObservationBlock>)
    ensures |blocks| <= |values|
    ensures forall b :: b in blocks ==>
      b.programPriority <= maxProgramPriority &&
      b.exposureCount == Lookup(exposureCountData, b.observationBlockId)
  {
    if values == [] then []
    else
      var init := Converted(values[..|values| - 1], maxProgramPriority, exposureCountData);
      var row := values[|values| - 1];
      if row.programPriority <= maxProgramPriority then init + [ToBlock(row, exposureCountData)] else init
  }

  /**
   * The output is an order-preserving selection of the input: there are
   * strictly increasing indices, exactly those of the rows within the bound,
   * whose rows are the output's blocks one by one.
   */
  lemma {:induction false} ConvertedSelectsInOrder(values: seq<ObservationRow>, maxProgramPriority: int,
                                                   exposureCountData: map<int, int>)
    returns (indices: seq<nat>)
    ensures |indices| == |Converted(values, maxProgramPriority, exposureCountData)|
    ensures forall k :: 0 <= k < |indices| ==>
      indices[k] < |values| &&
      Converted(values, maxProgramPriority, exposureCountData)[k] == ToBlock(values[indices[k]], exposureCountData)
    ensures forall k, l :: 0 <= k < l < |indices| ==> indices[k] < indices[l]
    ensures forall j :: 0 <= j < |values| ==> (values[j].programPriority <= maxProgramPriority <==> j in indices)
  {
    if values == [] {
      indices := [];
    } else {
      var n := |values| - 1;
      var init := values[..n];
      indices := ConvertedSelectsInOrder(init, maxProgramPriority, exposureCountData);
      assert forall j :: 0 <= j < n ==> values[j] == init[j];
      if values[n].programPriority <= maxProgramPriority {
        indices := indices + [n];
      }
    }
  }

  /** Raising the priority bound never drops a block. */
  lemma {:induction false} ConvertedMonotone(values: seq<ObservationRow>, lower: int, upper: int,
                                             exposureCountData: map<int, int>)
    requires lower <= upper
    ensures forall b :: b in Converted(values, lower, exposureCountData) ==> b in Converted(values, upper, exposureCountData)
    ensures |Converted(values, lower, exposureCountData)| <= |Converted(values, upper, exposureCountData)|
  {
    if values != [] {
      ConvertedMonotone(values[..|values| - 1], lower, upper, exposureCountData);
    }
  }

  /** With a bound no row exceeds, every row is kept. */
  lemma {:induction false} ConvertedKeepsAll(values: seq<ObservationRow>, maxProgramPriority: int,
                                             exposureCountData: map<int, int>)
    requires forall j :: 0 <= j < |values| ==> values[j].programPriority <= maxProgramPriority
    ensures |Converted(values, maxProgramPriority, exposureCountData)| == |values|
  {
    if values != [] {
      ConvertedKeepsAll(values[..|values| - 1], maxProgramPriority, exposureCountData);
    }
  }

  /** The conversion loop: decode each row, keep it if its program priority is within the bound. */
  method ConvertToCfht(values: seq<ObservationRow>, maxProgramPriority: int, exposureCountData: map<int, int>)
    returns (observationBlocks: seq<ObservationBlock>)
    ensures observationBlocks == Converted(values, maxProgramPriority, exposureCountData)
  {
    observationBlocks := [];
    for i := 0 to |values|
      invariant observationBlocks == Converted(values[..i], maxProgramPriority, exposureCountData)
    {
      assert values[..i + 1][..i] == values[..i];
      var lineValues := values[i];
      var newBlock := ObservationBlock(lineValues.observationBlockId, lineValues.programPriority, None);
      if lineValues.programPriority <= maxProgramPriority {
        newBlock := newBlock.(exposureCount := Lookup(exposureCountData, newBlock.observationBlockId));
        observationBlocks := observationBlocks + [newBlock];
      }
    }
    assert values[..|values|] == values;
  }

  // ---------------------------------------------------------------------------
  // Exposure counts

  /** The map filled row by row; a later row for the same id overwrites an earlier one. */
  function ExposureCounts(rows: seq<ExposureRow>): (counts: map<int, int>)
    ensures forall id :: id in counts ==> exists j :: 0 <= j < |rows| && rows[j] == ExposureRow(id, counts[id])
  {
    if rows == [] then map[]
    else
      var last := rows[|rows| - 1];
      ExposureCounts(rows[..|rows| - 1])[last.observingBlockId := last.exposureCount]
  }

  /** The map has a key exactly for each id some row carries. */
  lemma {:induction false} ExposureCountsKeys(rows: seq<ExposureRow>)
    ensures forall id :: id in ExposureCounts(rows) <==> exists j :: 0 <= j < |rows| && rows[j].observingBlockId == id
  {
    if rows != [] {
      var n := |rows| - 1;
      ExposureCountsKeys(rows[..n]);
      assert forall j :: 0 <= j < n ==> rows[..n][j] == rows[j];
    }
  }

  /** The value for an id is the count of the last row carrying it. */
  lemma {:induction false} ExposureCountsLastWins(rows: seq<ExposureRow>)
    ensures forall j :: 0 <= j < |rows| ==>
      (forall k :: j < k < |rows| ==> rows[k].observingBlockId != rows[j].observingBlockId) ==>
      rows[j].observingBlockId in ExposureCounts(rows) &&
      ExposureCounts(rows)[rows[j].observingBlockId] == rows[j].exposureCount
  {
    if rows != [] {
      var n := |rows| - 1;
      var init, last := rows[..n], rows[n];
      ExposureCountsLastWins(init);
      forall j | 0 <= j < |rows| && (forall k :: j < k < |rows| ==> rows[k].observingBlockId != rows[j].observingBlockId)
        ensures rows[j].observingBlockId in ExposureCounts(rows)
        ensures ExposureCounts(rows)[rows[j].observingBlockId] == rows[j].exposureCount
      {
        if j < n {
          assert init[j] == rows[j];
          assert forall k :: j < k < |init| ==> init[k] == rows[k];
          assert rows[n].observingBlockId != rows[j].observingBlockId;
        }
      }
    }
  }

  /** The exposure count fold, after the configuration check. */
  method GetExposureCountsPerObservationId(dbConfig: Option<DbConfig>, rawRows: seq<ExposureRow>)
    returns (r: Result<map<int, int>, ImportError>)
    ensures dbConfig.None? ==> r == Failure(RuntimeError(MissingConfigurationMessage))
    ensures dbConfig.Some? ==> r == Success(ExposureCounts(rawRows))
  {
    if dbConfig.None? {
      return Failure(RuntimeError(MissingConfigurationMessage));
    }
    var final: map<int, int> := map[];
    for i := 0 to |rawRows|
      invariant final == ExposureCounts(rawRows[..i])
    {
      assert rawRows[..i + 1][..i] == rawRows[..i];
      var sub := rawRows[i];
      final := final[sub.observingBlockId := sub.exposureCount];
    }
    assert rawRows[..|rawRows|] == rawRows;
    r := Success(final);
  }

  // ---------------------------------------------------------------------------
  // Query text

  /** The fixed text of the select statement, before its priority bound. */
  const SelectPrefix := "SELECT * FROM observing_blocks WHERE priority <= "

  /** The fixed texts of the three optional clauses, each before its bound. */
  const RemainingChancesPrefix := " AND remaining_observing_chances < "
  const DurationMinPrefix := " AND contiguous_exposure_time_millis >= "
  const DurationMaxPrefix := " AND contiguous_exposure_time_millis <= "

  /**
   * A fixed text followed by `str(n)`: the result ends with the decimal text
   * of n, so it ends on a digit and n reads back exactly from its tail.
   */
  function Clause(prefix: string, n: int): (s: string)
    ensures |prefix| + |IntToString(n)| == |s| && s[..|prefix|] == prefix
    ensures s[|s| - |IntToString(n)|..] == IntToString(n)
    ensures ParseInt(s[|s| - |IntToString(n)|..]) == n
    ensures '0' <= s[|s| - 1] <= '9'
  {
    IntToStringRoundTrip(n);
    prefix + IntToString(n)
  }

  /** The select statement up to, but not including, its terminator. */
  function SelectCondition(maxObservationPriority: int): string
  {
    Clause(SelectPrefix, maxObservationPriority)
  }

  /** The clauses whose bounds are positive, in their fixed order, with nothing in between. */
  function OptionalClauses(maxRemainingObservingChances: int, observationDurationMin: int,
                           observationDurationMax: int): string
  {
    (if maxRemainingObservingChances > 0 then Clause(RemainingChancesPrefix, maxRemainingObservingChances) else "") +
    (if observationDurationMin > 0 then Clause(DurationMinPrefix, observationDurationMin) else "") +
    (if observationDurationMax > 0 then Clause(DurationMaxPrefix, observationDurationMax) else "")
  }

  /** One `sql += clause` step guarded by its bound being positive. */
  function AppendWhen(sql: string, bound: int, clause: string): (r: string)
    ensures bound > 0 ==> |r| == |sql| + |clause| && r[..|sql|] == sql && r[|sql|..] == clause
    ensures bound <= 0 ==> r == sql
  {
    if bound > 0 then sql + clause else sql
  }

  /** Three guarded steps in a row append exactly the clauses whose bounds are positive, in order. */
  lemma ThreeAppendsConcat(sql: string, bound1: int, clause1: string, bound2: int, clause2: string,
                           bound3: int, clause3: string)
    ensures AppendWhen(AppendWhen(AppendWhen(sql, bound1, clause1), bound2, clause2), bound3, clause3)
         == sql + ((if bound1 > 0 then clause1 else "") + (if bound2 > 0 then clause2 else "") +
                   (if bound3 > 0 then clause3 else ""))
  {
    var k1, k2, k3 := if bound1 > 0 then clause1 else "", if bound2 > 0 then clause2 else "",
                      if bound3 > 0 then clause3 else "";
    assert AppendWhen(sql, bound1, clause1) == sql + k1;
    assert AppendWhen(sql + k1, bound2, clause2) == sql + k1 + k2;
    assert AppendWhen(sql + k1 + k2, bound3, clause3) == sql + k1 + k2 + k3;
    assert sql + k1 + k2 + k3 == sql + (k1 + k2 + k3);
  }

  /** The three guarded steps in a row: `sql` followed by exactly the clauses whose bounds are positive. */
  function WithClauses(sql: string, maxRemainingObservingChances: int, observationDurationMin: int,
                       observationDurationMax: int): (r: string)
    ensures r == sql + OptionalClauses(maxRemainingObservingChances, observationDurationMin, observationDurationMax)
  {
    ThreeAppendsConcat(sql, maxRemainingObservingChances, Clause(RemainingChancesPrefix, maxRemainingObservingChances),
                       observationDurationMin, Clause(DurationMinPrefix, observationDurationMin),
                       observationDurationMax, Clause(DurationMaxPrefix, observationDurationMax));
    var withRemaining := AppendWhen(sql, maxRemainingObservingChances, Clause(RemainingChancesPrefix, maxRemainingObservingChances));
    var withMin := AppendWhen(withRemaining, observationDurationMin, Clause(DurationMinPrefix, observationDurationMin));
    AppendWhen(withMin, observationDurationMax, Clause(DurationMaxPrefix, observationDurationMax))
  }

  /** One guarded step keeps the text so far as a prefix and, when it appends, ends on the clause's digit. */
  lemma AppendWhenShape(sql: string, bound: int, clause: string)
    requires |clause| > 0 && '0' <= clause[|clause| - 1] <= '9'
    ensures var r := AppendWhen(sql, bound, clause);
      |sql| <= |r| && r[..|sql|] == sql && (|r| == |sql| <==> bound <= 0) &&
      (bound > 0 ==> '0' <= r[|r| - 1] <= '9')
  {
  }

  /** Three guarded steps in a row, for any clauses that end on a digit. */
  lemma ThreeAppendsShape(sql: string, bound1: int, clause1: string, bound2: int, clause2: string,
                          bound3: int, clause3: string)
    requires |clause1| > 0 && '0' <= clause1[|clause1| - 1] <= '9'
    requires |clause2| > 0 && '0' <= clause2[|clause2| - 1] <= '9'
    requires |clause3| > 0 && '0' <= clause3[|clause3| - 1] <= '9'
    ensures var r := AppendWhen(AppendWhen(AppendWhen(sql, bound1, clause1), bound2, clause2), bound3, clause3);
      |sql| <= |r| && r[..|sql|] == sql &&
      (|r| == |sql| <==> bound1 <= 0 && bound2 <= 0 && bound3 <= 0) &&
      (|r| > |sql| ==> '0' <= r[|r| - 1] <= '9')
  {
    var r1 := AppendWhen(sql, bound1, clause1);
    var r2 := AppendWhen(r1, bound2, clause2);
    var r3 := AppendWhen(r2, bound3, clause3);
    AppendWhenShape(sql, bound1, clause1);
    AppendWhenShape(r1, bound2, clause2);
    AppendWhenShape(r2, bound3, clause3);
    assert r2[..|sql|] == r2[..|r1|][..|sql|];
    assert r3[..|sql|] == r3[..|r2|][..|sql|];
  }

  /**
   * Appending clauses keeps what was there as a prefix, adds nothing exactly
   * when no bound is positive, and otherwise leaves a digit (the end of a
   * number) as the last character.
   */
  lemma WithClausesShape(sql: string, maxRemainingObservingChances: int, observationDurationMin: int,
                         observationDurationMax: int)
    ensures var r := WithClauses(sql, maxRemainingObservingChances, observationDurationMin, observationDurationMax);
      |sql| <= |r| && r[..|sql|] == sql &&
      (|r| == |sql| <==> maxRemainingObservingChances <= 0 && observationDurationMin <= 0 && observationDurationMax <= 0) &&
      (|r| > |sql| ==> '0' <= r[|r| - 1] <= '9')
  {
    ThreeAppendsShape(sql, maxRemainingObservingChances, Clause(RemainingChancesPrefix, maxRemainingObservingChances),
                      observationDurationMin, Clause(DurationMinPrefix, observationDurationMin),
                      observationDurationMax, Clause(DurationMaxPrefix, observationDurationMax));
  }

  /** The query as written: the optional clauses follow the statement terminator. */
  function ObservationsQuery(maxObservationPriority: int, maxRemainingObservingChances: int,
                             observationDurationMin: int, observationDurationMax: int): (sql: string)
    ensures var head := SelectCondition(maxObservationPriority) + ";";
      |head| <= |sql| && sql[..|head|] == head
    ensures sql == SelectCondition(maxObservationPriority) + ";" +
                   OptionalClauses(maxRemainingObservingChances, observationDurationMin, observationDurationMax)
  {
    WithClausesShape(SelectCondition(maxObservationPriority) + ";", maxRemainingObservingChances,
                     observationDurationMin, observationDurationMax);
    WithClauses(SelectCondition(maxObservationPriority) + ";", maxRemainingObservingChances,
                observationDurationMin, observationDurationMax)
  }

  /** The first of three concatenated texts is a prefix of the whole. */
  lemma ConcatPrefix(a: string, b: string, c: string)
    ensures |a + b + c| == |a| + |b| + |c| && (a + b + c)[..|a|] == a
  {
    assert (a + b + c)[..|a|] == (a + (b + c))[..|a|];
  }

  /** The query with the clauses before the terminator, which ends it. */
  function IntendedObservationsQuery(maxObservationPriority: int, maxRemainingObservingChances: int,
                                     observationDurationMin: int, observationDurationMax: int): (sql: string)
    ensures |sql| > 0 && sql[|sql| - 1] == ';'
    ensures var head := SelectCondition(maxObservationPriority);
      |head| < |sql| && sql[..|head|] == head
    ensures sql == SelectCondition(maxObservationPriority) +
                   OptionalClauses(maxRemainingObservingChances, observationDurationMin, observationDurationMax) + ";"
  {
    var head := SelectCondition(maxObservationPriority);
    var clauses := OptionalClauses(maxRemainingObservingChances, observationDurationMin, observationDurationMax);
    ConcatPrefix(head, clauses, ";");
    WithClauses(head, maxRemainingObservingChances, observationDurationMin, observationDurationMax) + ";"
  }

  /**
   * As soon as one optional bound is positive, the written query carries text
   * after its terminator, whereas the intended one always ends there; without
   * any, the two are the same text.
   */
  lemma QueryClausesFollowTerminator(maxObservationPriority: int, maxRemainingObservingChances: int,
                                     observationDurationMin: int, observationDurationMax: int)
    ensures var sql := ObservationsQuery(maxObservationPriority, maxRemainingObservingChances,
                                         observationDurationMin, observationDurationMax);
      (sql[|sql| - 1] == ';' <==>
        maxRemainingObservingChances <= 0 && observationDurationMin <= 0 && observationDurationMax <= 0)
    ensures (maxRemainingObservingChances <= 0 && observationDurationMin <= 0 && observationDurationMax <= 0) ==>
      ObservationsQuery(maxObservationPriority, maxRemainingObservingChances, observationDurationMin, observationDurationMax)
      == IntendedObservationsQuery(maxObservationPriority, maxRemainingObservingChances, observationDurationMin, observationDurationMax)
  {
    WithClausesShape(SelectCondition(maxObservationPriority) + ";", maxRemainingObservingChances,
                     observationDurationMin, observationDurationMax);
  }

  /** With the default bounds exactly one clause is appended: the duration maximum. */
  lemma ObservationsQueryDefaults()
    ensures ObservationsQuery(MaxSize, -1, -1, MaxSize)
         == SelectCondition(MaxSize) + ";" + Clause(DurationMaxPrefix, MaxSize)
  {
  }

  /** The query text grown clause by clause, as the importer does before sending it. */
  method BuildObservationsQuery(maxObservationPriority: int, maxRemainingObservingChances: int,
                                observationDurationMin: int, observationDurationMax: int) returns (sql: string)
    ensures sql == ObservationsQuery(maxObservationPriority, maxRemainingObservingChances,
                                     observationDurationMin, observationDurationMax)
  {
    sql := SelectCondition(maxObservationPriority) + ";";
    if maxRemainingObservingChances > 0 {
      sql := sql + Clause(RemainingChancesPrefix, maxRemainingObservingChances);
    }
    if observationDurationMin > 0 {
      sql := sql + Clause(DurationMinPrefix, observationDurationMin);
    }
    if observationDurationMax > 0 {
      sql := sql + Clause(DurationMaxPrefix, observationDurationMax);
    }
  }

  // ---------------------------------------------------------------------------
  // Database-facing entry points

  /** Every stored block, with no priority bound beyond sys.maxsize. */
  method GetAllObservations(dbConfig: Option<DbConfig>, fetchedRows: seq<ObservationRow>, exposureRows: seq<ExposureRow>)
    returns (r: Result<seq<ObservationBlock>, ImportError>)
    ensures dbConfig.None? ==> r == Failure(RuntimeError(MissingConfigurationMessage))
    ensures dbConfig.Some? ==> r == Success(Converted(fetchedRows, MaxSize, ExposureCounts(exposureRows)))
    ensures dbConfig.Some? && (forall j :: 0 <= j < |fetchedRows| ==> fetchedRows[j].programPriority <= MaxSize)
      ==> |r.value| == |fetchedRows|
  {
    if dbConfig.None? {
      return Failure(RuntimeError(MissingConfigurationMessage));
    }
    var counts := GetExposureCountsPerObservationId(dbConfig, exposureRows);
    var blocks := ConvertToCfht(fetchedRows, MaxSize, counts.value);
    if forall j :: 0 <= j < |fetchedRows| ==> fetchedRows[j].programPriority <= MaxSize {
      ConvertedKeepsAll(fetchedRows, MaxSize, counts.value);
    }
    r := Success(blocks);
  }

  /**
   * The query is assembled step by step; `fetchedRows` stands for what the
   * database returns for it.
   */
  method GetObservations(dbConfig: Option<DbConfig>, maxObservationPriority: int, maxProgramPriority: int,
                         maxRemainingObservingChances: int, observationDurationMin: int, observationDurationMax: int,
                         fetchedRows: seq<ObservationRow>, exposureRows: seq<ExposureRow>)
    returns (r: Result<QueryOutcome, ImportError>)
    ensures dbConfig.None? ==> r == Failure(RuntimeError(MissingConfigurationMessage))
    ensures dbConfig.Some? ==> r == Success(QueryOutcome(
      ObservationsQuery(maxObservationPriority, maxRemainingObservingChances, observationDurationMin, observationDurationMax),
      Converted(fetchedRows, maxProgramPriority, ExposureCounts(exposureRows))))
  {
    if dbConfig.None? {
      return Failure(RuntimeError(MissingConfigurationMessage));
    }
    var sql := BuildObservationsQuery(maxObservationPriority, maxRemainingObservingChances,
                                      observationDurationMin, observationDurationMax);
    var counts := GetExposureCountsPerObservationId(dbConfig, exposureRows);
    var blocks := ConvertToCfht(fetchedRows, maxProgramPriority, counts.value);
    r := Success(QueryOutcome(sql, blocks));
  }

  /** The names of the keyword arguments, each converted with `int(...)`. */
  const QueryArgumentNames := ["max_observation_priority", "max_program_priority",
                               "max_remaining_observing_chances", "observation_duration_min",
                               "observation_duration_max"]

  /** Keyword-argument form: a missing argument reaches `int(None)` and raises TypeError. */
  method GetObservationsWithArgs(dbConfig: Option<DbConfig>, kwargs: map<string, int>,
                                 fetchedRows: seq<ObservationRow>, exposureRows: seq<ExposureRow>)
    returns (r: Result<QueryOutcome, ImportError>)
    ensures dbConfig.None? ==> r == Failure(RuntimeError(MissingConfigurationMessage))
    ensures dbConfig.Some? && (exists k :: k in QueryArgumentNames && k !in kwargs) ==> r == Failure(TypeError)
    ensures dbConfig.Some? && (forall k :: k in QueryArgumentNames ==> k in kwargs) ==>
      r == Success(QueryOutcome(
        ObservationsQuery(kwargs["max_observation_priority"], kwargs["max_remaining_observing_chances"],
                          kwargs["observation_duration_min"], kwargs["observation_duration_max"]),
        Converted(fetchedRows, kwargs["max_program_priority"], ExposureCounts(exposureRows))))
  {
    if dbConfig.None? {
      return Failure(RuntimeError(MissingConfigurationMessage));
    }
    if exists k :: k in QueryArgumentNames && k !in kwargs {
      return Failure(TypeError);
    }
    r := GetObservations(dbConfig, kwargs["max_observation_priority"], kwargs["max_program_priority"],
                         kwargs["max_remaining_observing_chances"], kwargs["observation_duration_min"],
                         kwargs["observation_duration_max"], fetchedRows, exposureRows);
  }
}
