/**
 * Result export (src/utils/result_exporter.py). `export_results` adds three
 * derived metrics to every result record (watt-hours per thousand tokens,
 * kilowatt-hours per token, grams of CO2), validates the list against an
 * optional JSON schema and writes it out. The schema file, the validator's
 * verdict and whether the write succeeds are parameters; the list written is
 * the method's result.
 */
module Exporter {
  import opened Wrappers
  import opened Json

  /** The exceptions `export_results` raises: ValueError for the schema cases, IOError for the write, TypeError from arithmetic on non-numbers. */
  datatype ExportError =
    | TypeError
    | NotConforming
    | SchemaNotFound
    | SchemaNotJson
    | WriteFailed

  /** The optional `schema_path`: absent (or empty), naming no file, naming a file that is not JSON, or a schema with the validator's verdict on the list. */
  datatype SchemaFile = NoSchema | SchemaMissing | SchemaMalformed | Schema(conforms: bool)

  /** The three derived metrics, before rounding. */
  datatype Metrics = Metrics(whPer1kTokens: real, kwhPerToken: real, gCo2: real)

  const WhPer1kKey := "wh_per_1k_tokens"
  const KwhPerTokenKey := "energy_kwh_per_token"
  const GCo2Key := "g_co2"

  function MetricKeys(): set<string> {
    {WhPer1kKey, KwhPerTokenKey, GCo2Key}
  }

  /**
   * The metrics for `totalTokens` tokens and `netWh` watt-hours at a grid
   * intensity of `co2Intensity` g/kWh; both per-token figures are 0 when
   * there are no tokens.
   */
  function ComputeMetrics(totalTokens: real, netWh: real, co2Intensity: real): (m: Metrics)
    ensures totalTokens > 0.0 ==> m.whPer1kTokens * totalTokens == netWh * 1000.0
    ensures totalTokens > 0.0 ==> m.kwhPerToken * totalTokens * 1000.0 == netWh
    ensures totalTokens <= 0.0 ==> m.whPer1kTokens == 0.0 && m.kwhPerToken == 0.0
    ensures m.gCo2 * 1000.0 == netWh * co2Intensity
  {
    var whPer1k := if totalTokens > 0.0 then (netWh / totalTokens) * 1000.0 else 0.0;
    var kwhPerToken := if totalTokens > 0.0 then (netWh / 1000.0) / totalTokens else 0.0;
    var energyKwh := netWh / 1000.0;
    Metrics(whPer1k, kwhPerToken, energyKwh * co2Intensity)
  }

  /** The values the loop body reads, with their defaults: the net energy falls back to the raw energy. */
  function TokensPrompt(rec: Record): Json { Get(rec, "tokens_prompt", JInt(0)) }
  function TokensCompletion(rec: Record): Json { Get(rec, "tokens_completion", JInt(0)) }
  function NetEnergy(rec: Record): (v: Json)
    ensures "energy_wh_net" in rec ==> v == rec["energy_wh_net"]
    ensures "energy_wh_net" !in rec && "energy_wh_raw" in rec ==> v == rec["energy_wh_raw"]
    ensures "energy_wh_net" !in rec && "energy_wh_raw" !in rec ==> v == JReal(0.0)
  {
    Get(rec, "energy_wh_net", Get(rec, "energy_wh_raw", JReal(0.0)))
  }

  /**
   * One pass of the loop: `{**result, <the three metrics>}`. Adding the token
   * counts, comparing the total with 0 or dividing the net energy raises
   * TypeError unless all three values are numbers.
   */
  function EnrichRecord(rec: Record, co2Intensity: real): (r: Result<Record, ExportError>)
    ensures r.Success? <==>
              AsNumber(TokensPrompt(rec)).Some? && AsNumber(TokensCompletion(rec)).Some?
              && AsNumber(NetEnergy(rec)).Some?
    ensures r.Failure? ==> r.error == TypeError
    ensures r.Success? ==> r.value.Keys == rec.Keys + MetricKeys()
    ensures r.Success? ==> forall k :: k in rec && k !in MetricKeys() ==> r.value[k] == rec[k]
    ensures r.Success? ==>
              var m := ComputeMetrics(AsNumber(TokensPrompt(rec)).value + AsNumber(TokensCompletion(rec)).value,
                                      AsNumber(NetEnergy(rec)).value, co2Intensity);
              r.value[WhPer1kKey] == JReal(m.whPer1kTokens) && r.value[KwhPerTokenKey] == JReal(m.kwhPerToken)
              && r.value[GCo2Key] == JReal(m.gCo2)
  {
    match (AsNumber(TokensPrompt(rec)), AsNumber(TokensCompletion(rec)), AsNumber(NetEnergy(rec)))
    case (Some(prompt), Some(completion), Some(netWh)) =>
      var m := ComputeMetrics(prompt + completion, netWh, co2Intensity);
      Success(rec[WhPer1kKey := JReal(m.whPer1kTokens)][KwhPerTokenKey := JReal(m.kwhPerToken)][GCo2Key := JReal(m.gCo2)])
    case _ => Failure(TypeError)
  }

  /** The loop over all records: the enriched list, or the error of the first record that fails. */
  function EnrichAll(results: seq<Record>, co2Intensity: real): (r: Result<seq<Record>, ExportError>)
    ensures r.Success? <==> forall i :: 0 <= i < |results| ==> EnrichRecord(results[i], co2Intensity).Success?
    ensures r.Success? ==> |r.value| == |results|
    ensures r.Success? ==> forall i :: 0 <= i < |results| ==> r.value[i] == EnrichRecord(results[i], co2Intensity).value
    ensures r.Failure? ==> r.error == TypeError
  {
    if results == [] then Success([])
    else
      var init := results[..|results| - 1];
      match EnrichAll(init, co2Intensity)
      case Failure(e) => Failure(e)
      case Success(enriched) =>
        match EnrichRecord(results[|results| - 1], co2Intensity)
        case Failure(e) => Failure(e)
        case Success(last) => Success(enriched + [last])
  }

  /** Schema validation, when a schema path is given: the ValueError cases in the order the code meets them. */
  function CheckSchema(schema: SchemaFile): (r: Outcome<ExportError>)
    ensures r.Fail? <==> schema != NoSchema && schema != Schema(true)
  {
    match schema
    case NoSchema => Pass
    case SchemaMissing => Fail(SchemaNotFound)
    case SchemaMalformed => Fail(SchemaNotJson)
    case Schema(conforms) => if conforms then Pass else Fail(NotConforming)
  }

  /** What `export_results` ends in: an error, or the list written to the output file. */
  function ExportOutcome(results: seq<Record>, co2Intensity: real, schema: SchemaFile, writeOk: bool)
    : (r: Result<seq<Record>, ExportError>)
    ensures r.Success? <==> EnrichAll(results, co2Intensity).Success? && CheckSchema(schema) == Pass && writeOk
    ensures r.Success? ==> r.value == EnrichAll(results, co2Intensity).value && |r.value| == |results|
    ensures EnrichAll(results, co2Intensity).Failure? ==> r == Failure(TypeError)
    ensures EnrichAll(results, co2Intensity).Success? && CheckSchema(schema).Fail? ==> r == Failure(CheckSchema(schema).error)
    ensures EnrichAll(results, co2Intensity).Success? && CheckSchema(schema) == Pass && !writeOk ==> r == Failure(WriteFailed)
  {
    match EnrichAll(results, co2Intensity)
    case Failure(e) => Failure(e)
    case Success(enriched) =>
      match CheckSchema(schema)
      case Fail(e) => Failure(e)
      case Pass => if writeOk then Success(enriched) else Failure(WriteFailed)
  }

  /**
   * `export_results`: enriches every record in order, validates the list if
   * a schema is given, and writes it; the result is the list written.
   */
  method ExportResults(results: seq<Record>, co2Intensity: real, schema: SchemaFile, writeOk: bool)
    returns (r: Result<seq<Record>, ExportError>)
    ensures r == ExportOutcome(results, co2Intensity, schema, writeOk)
  {
    var enrichedResults: seq<Record> := [];
    for i := 0 to |results|
      invariant EnrichAll(results[..i], co2Intensity) == Success(enrichedResults)
    {
      assert results[..i + 1][..i] == results[..i];
      var enriched := EnrichRecord(results[i], co2Intensity);
      if enriched.Failure? {
        EnrichAllFailsOnPrefix(results, i + 1, co2Intensity);
        return Failure(enriched.error);
      }
      enrichedResults := enrichedResults + [enriched.value];
    }
    assert results[..|results|] == results;
    var validation := CheckSchema(schema);
    if validation.Fail? {
      return Failure(validation.error);
    }
    if !writeOk {
      return Failure(WriteFailed);
    }
    r := Success(enrichedResults);
  }

  /** `validate_result_schema`: true when the list conforms, ValueError in every other case. */
  function ValidateResultSchema(schema: SchemaFile): (r: Result<bool, ExportError>)
    ensures r.Success? <==> schema == Schema(true)
    ensures r.Success? ==> r.value
    ensures r.Failure? ==> r.error != TypeError && r.error != WriteFailed
  {
    match schema
    case NoSchema => Failure(SchemaNotFound)
    case SchemaMissing => Failure(SchemaNotFound)
    case SchemaMalformed => Failure(SchemaNotJson)
    case Schema(conforms) => if conforms then Success(true) else Failure(NotConforming)
  }

  // ---------------------------------------------------------------------
  // Properties

  /** A failing record fails every longer prefix of the list. */
  lemma {:induction false} EnrichAllFailsOnPrefix(results: seq<Record>, n: nat, co2Intensity: real)
    requires 0 < n <= |results|
    requires EnrichRecord(results[n - 1], co2Intensity).Failure?
    ensures EnrichAll(results[..n], co2Intensity) == Failure(TypeError)
  {
    assert results[..n][n - 1] == results[n - 1];
  }

  /** Watt-hours per thousand tokens is one million times kilowatt-hours per token. */
  lemma PerTokenFiguresAgree(totalTokens: real, netWh: real, co2Intensity: real)
    ensures ComputeMetrics(totalTokens, netWh, co2Intensity).whPer1kTokens
            == ComputeMetrics(totalTokens, netWh, co2Intensity).kwhPerToken * 1000000.0
  {
    var m := ComputeMetrics(totalTokens, netWh, co2Intensity);
    if totalTokens > 0.0 {
      assert m.kwhPerToken * 1000000.0 * totalTokens == m.whPer1kTokens * totalTokens;
    }
  }

  /**
   * Enriching an enriched record changes nothing: the metrics are computed
   * from keys the enrichment does not touch, and written over themselves.
   */
  lemma EnrichIdempotent(rec: Record, co2Intensity: real)
    requires EnrichRecord(rec, co2Intensity).Success?
    ensures EnrichRecord(EnrichRecord(rec, co2Intensity).value, co2Intensity) == EnrichRecord(rec, co2Intensity)
  {
    var once := EnrichRecord(rec, co2Intensity).value;
    assert TokensPrompt(once) == TokensPrompt(rec);
    assert TokensCompletion(once) == TokensCompletion(rec);
    assert NetEnergy(once) == NetEnergy(rec);
    var twice := EnrichRecord(once, co2Intensity).value;
    assert twice == once;
  }

  /** A record without `energy_wh_net` is measured by its `energy_wh_raw`; with neither, by zero. */
  lemma NetDefaultsToRaw(rec: Record)
    requires "energy_wh_net" !in rec
    ensures "energy_wh_raw" in rec ==> NetEnergy(rec) == rec["energy_wh_raw"]
    ensures "energy_wh_raw" !in rec ==> NetEnergy(rec) == JReal(0.0)
  {
  }

  /** An explicit `null` for the net energy is not replaced by the raw energy: the record fails with TypeError. */
  lemma NullNetEnergyFails(rec: Record, co2Intensity: real)
    requires "energy_wh_net" in rec && rec["energy_wh_net"] == JNull
    ensures EnrichRecord(rec, co2Intensity) == Failure(TypeError)
  {
  }

  /** No schema, or a conforming one, and a successful write: the list written is the enriched list. */
  lemma ExportWritesEnriched(results: seq<Record>, co2Intensity: real, schema: SchemaFile)
    requires schema == NoSchema || schema == Schema(true)
    requires forall i :: 0 <= i < |results| ==> EnrichRecord(results[i], co2Intensity).Success?
    ensures ExportOutcome(results, co2Intensity, schema, true).Success?
    ensures |ExportOutcome(results, co2Intensity, schema, true).value| == |results|
    ensures forall i :: 0 <= i < |results| ==>
              ExportOutcome(results, co2Intensity, schema, true).value[i] == EnrichRecord(results[i], co2Intensity).value
  {
  }
}
