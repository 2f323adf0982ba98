/**
 * The result record `run_test` builds for each completed prompt
 * (src/main.py): the measured fields, the device fields, the test set's and
 * the question's metadata when not None, and the tags when not None.
 */
module Records {
  import opened Json
  import opened Energy
  import Device
  import Text

  /** What `generate` returned and how long it took, with the meter's reading. */
  datatype Completion = Completion(
    text: string,
    tokensPrompt: int,
    tokensCompletion: int,
    durationS: real,
    responseTimeS: real,
    energy: MeterReading)

  /** The settings of one `run-test` invocation that go into every record. */
  datatype RunContext = RunContext(
    model: string,
    provider: string,
    region: string,
    device: Device.DeviceInfo,
    metadata: Record,
    selectedTestSet: string)

  /** The measured part of the record, always present. */
  function MeasuredFields(prompt: Json, c: Completion, ctx: RunContext): (fields: Record)
    ensures fields.Keys == MeasuredKeys()
    ensures fields["energy_wh_net"] == fields["energy_wh_raw"] == JReal(c.energy.energyWhRaw)
    ensures fields["tokens_prompt"] == JInt(c.tokensPrompt) && fields["tokens_completion"] == JInt(c.tokensCompletion)
  {
    map["prompt" := prompt, "completion" := JStr(c.text),
        "tokens_prompt" := JInt(c.tokensPrompt), "tokens_completion" := JInt(c.tokensCompletion),
        "duration_s" := JReal(c.durationS), "response_time_s" := JReal(c.responseTimeS),
        "energy_wh_raw" := JReal(c.energy.energyWhRaw), "energy_wh_net" := JReal(c.energy.energyWhRaw),
        "provider" := JStr(ctx.provider), "model" := JStr(ctx.model), "region" := JStr(ctx.region),
        "notice" := JNull, "sampling_ms" := JInt(c.energy.samplingMs)]
  }

  function MeasuredKeys(): set<string> {
    {"prompt", "completion", "tokens_prompt", "tokens_completion", "duration_s", "response_time_s",
     "energy_wh_raw", "energy_wh_net", "provider", "model", "region", "notice", "sampling_ms"}
  }

  /** `metadata_fields`, in order: the test set's id, name, goal and notes, and the question's own fields. */
  function MetadataFields(question: Record, ctx: RunContext): (fields: seq<(string, Json)>)
    ensures |fields| == 10
    ensures forall i :: 0 <= i < |fields| ==> fields[i].0 in MetadataKeys()
    ensures DistinctKeys(fields)
    ensures "id" !in ctx.metadata ==> fields[0] == ("testset_id", JStr(ctx.selectedTestSet))
    ensures "name" !in ctx.metadata ==> fields[1] == ("testset_name", JStr(ctx.selectedTestSet))
  {
    [("testset_id", Get(ctx.metadata, "id", JStr(ctx.selectedTestSet))),
     ("testset_name", Get(ctx.metadata, "name", JStr(ctx.selectedTestSet))),
     ("testset_goal", Get(ctx.metadata, "goal", JNull)),
     ("testset_notes", Get(ctx.metadata, "notes_for_experimenter", JNull)),
     ("question_id", Get(question, "id", JNull)),
     ("question_difficulty", Get(question, "difficulty", JNull)),
     ("question_task_type", Get(question, "task_type", JNull)),
     ("expected_answer_description", Get(question, "expected_answer_description", JNull)),
     ("max_output_tokens_hint", Get(question, "max_output_tokens_hint", JNull)),
     ("energy_relevance", Get(question, "energy_relevance", JNull))]
  }

  function MetadataKeys(): set<string> {
    {"testset_id", "testset_name", "testset_goal", "testset_notes", "question_id", "question_difficulty",
     "question_task_type", "expected_answer_description", "max_output_tokens_hint", "energy_relevance"}
  }

  /** No device field overwrites a measured one. */
  lemma MeasuredKeysNotDevice()
    ensures MeasuredKeys() !! Device.RequiredKeys() + Device.OptionalKeys()
  {
  }

  /** No metadata field and not the tags overwrite a measured one. */
  lemma MeasuredKeysNotMetadata()
    ensures MeasuredKeys() !! MetadataKeys() + {"tags"}
  {
  }

  /** Neither the metadata nor the tags overwrite a device field, and the tags overwrite no metadata. */
  lemma DeviceKeysDisjoint()
    ensures Device.OptionalKeys() !! MetadataKeys() + {"tags"}
    ensures "tags" !in Device.RequiredKeys() + MetadataKeys()
    ensures Device.RequiredKeys() !! Device.OptionalKeys() + MetadataKeys()
  {
  }

  /** No key is listed twice. */
  predicate DistinctKeys(fields: seq<(string, Json)>) {
    forall j, k :: 0 <= j < k < |fields| ==> fields[j].0 != fields[k].0
  }

  /** Only metadata keys are added. */
  lemma MetadataAdded(question: Record, ctx: RunContext)
    ensures NonNull(MetadataFields(question, ctx)).Keys <= MetadataKeys()
  {
    NonNullKeys(MetadataFields(question, ctx));
  }

  /** `base_result`: the measured fields, the required device fields and the truthy optional device fields. */
  function BaseRecord(prompt: Json, c: Completion, ctx: RunContext): (base: Record)
    ensures base.Keys == MeasuredKeys() + Device.RequiredKeys() + Device.OptionalFields(ctx.device).Keys
    ensures base["energy_wh_net"] == base["energy_wh_raw"] == JReal(c.energy.energyWhRaw)
    ensures base["tokens_prompt"] == JInt(c.tokensPrompt) && base["tokens_completion"] == JInt(c.tokensCompletion)
  {
    MeasuredKeysNotDevice();
    MeasuredFields(prompt, c, ctx) + Device.RequiredFields(ctx.device) + Device.OptionalFields(ctx.device)
  }

  /** The fields whose value is not None, later ones winning. */
  function NonNull(fields: seq<(string, Json)>): Record {
    if fields == [] then map[]
    else
      var last := fields[|fields| - 1];
      var init := NonNull(fields[..|fields| - 1]);
      if last.1 != JNull then init[last.0 := last.1] else init
  }

  /** Only listed keys are added, never with a None value, and every field that is not None is added. */
  lemma {:induction false} NonNullKeys(fields: seq<(string, Json)>)
    ensures forall k :: k in NonNull(fields) ==> NonNull(fields)[k] != JNull
    ensures forall i :: 0 <= i < |fields| && fields[i].1 != JNull ==> fields[i].0 in NonNull(fields)
    ensures forall k :: k in NonNull(fields) ==> exists i :: 0 <= i < |fields| && fields[i].0 == k
  {
    if fields != [] {
      var init := fields[..|fields| - 1];
      NonNullKeys(init);
      assert forall i :: 0 <= i < |init| ==> init[i] == fields[i];
    }
  }

  /** With each key listed once, a key is added exactly when its value is not None, and with that value. */
  lemma {:induction false} NonNullDistinct(fields: seq<(string, Json)>, i: nat)
    requires i < |fields|
    requires DistinctKeys(fields)
    ensures fields[i].0 in NonNull(fields) <==> fields[i].1 != JNull
    ensures fields[i].0 in NonNull(fields) ==> NonNull(fields)[fields[i].0] == fields[i].1
  {
    var init := fields[..|fields| - 1];
    if i < |fields| - 1 {
      assert init[i] == fields[i];
      assert DistinctKeys(init) by {
        forall j, k | 0 <= j < k < |init| ensures init[j].0 != init[k].0 {
          assert init[j] == fields[j] && init[k] == fields[k];
        }
      }
      NonNullDistinct(init, i);
    } else {
      NonNullKeys(init);
    }
  }

  /** The `for key, value in metadata_fields.items()` loop: adds every field whose value is not None. */
  method AddNonNull(base: Record, fields: seq<(string, Json)>) returns (result: Record)
    ensures result == base + NonNull(fields)
  {
    result := base;
    for i := 0 to |fields|
      invariant result == base + NonNull(fields[..i])
    {
      assert fields[..i + 1][..i] == fields[..i];
      if fields[i].1 != JNull {
        result := result[fields[i].0 := fields[i].1];
      }
    }
    assert fields[..|fields|] == fields;
  }

  /** `base_result` with the fields that are not None, then the tags if not None. */
  function WithMetadata(base: Record, fields: seq<(string, Json)>, tags: Json): (r: Record)
    ensures r.Keys == base.Keys + NonNull(fields).Keys + (if tags != JNull then {"tags"} else {})
    ensures tags != JNull ==> r["tags"] == tags
    ensures forall k :: k in NonNull(fields) && k != "tags" ==> r[k] == NonNull(fields)[k]
    ensures forall k :: k in base && k !in NonNull(fields) && k != "tags" ==> r[k] == base[k]
  {
    var result := base + NonNull(fields);
    if tags != JNull then result["tags" := tags] else result
  }

  /** The record of a completed prompt: the base record, the non-None metadata and the tags if not None. */
  function PromptRecord(prompt: Json, question: Record, c: Completion, ctx: RunContext): (rec: Record)
    ensures MeasuredKeys() + Device.RequiredKeys() <= rec.Keys
    ensures rec["energy_wh_net"] == rec["energy_wh_raw"] == JReal(c.energy.energyWhRaw)
    ensures rec["tokens_prompt"] == JInt(c.tokensPrompt) && rec["tokens_completion"] == JInt(c.tokensCompletion)
    ensures "tags" in rec <==> Get(question, "tags", JNull) != JNull
  {
    MeasuredKeysNotMetadata();
    DeviceKeysDisjoint();
    MetadataAdded(question, ctx);
    WithMetadata(BaseRecord(prompt, c, ctx), MetadataFields(question, ctx), Get(question, "tags", JNull))
  }

  /** The optional device fields of the record are the truthy ones, with their values. */
  lemma PromptRecordDeviceFields(prompt: Json, question: Record, c: Completion, ctx: RunContext)
    ensures forall k :: k in Device.OptionalKeys() ==>
              (k in PromptRecord(prompt, question, c, ctx) <==> k in Device.OptionalFields(ctx.device))
              && (k in Device.OptionalFields(ctx.device) ==>
                    PromptRecord(prompt, question, c, ctx)[k] == Device.OptionalFields(ctx.device)[k])
  {
    var rec := PromptRecord(prompt, question, c, ctx);
    var base := BaseRecord(prompt, c, ctx);
    var extra := Device.OptionalFields(ctx.device);
    var added := NonNull(MetadataFields(question, ctx));
    MeasuredKeysNotDevice();
    DeviceKeysDisjoint();
    MetadataAdded(question, ctx);
    assert rec == (if Get(question, "tags", JNull) != JNull then (base + added)["tags" := Get(question, "tags", JNull)] else base + added);
    forall k | k in Device.OptionalKeys()
      ensures k in rec <==> k in extra
      ensures k in extra ==> rec[k] == extra[k]
    {
      assert k !in added && k != "tags";
      assert k !in MeasuredKeys() + Device.RequiredKeys();
      assert k in base <==> k in extra;
      if k in extra {
        assert base[k] == extra[k];
      }
    }
  }

  /** No metadata field's key is a key of the base record or "tags". */
  lemma MetadataKeyNotInBase(prompt: Json, question: Record, c: Completion, ctx: RunContext, i: nat)
    requires i < |MetadataFields(question, ctx)|
    ensures MetadataFields(question, ctx)[i].0 !in BaseRecord(prompt, c, ctx)
    ensures MetadataFields(question, ctx)[i].0 != "tags"
  {
    MeasuredKeysNotMetadata();
    DeviceKeysDisjoint();
  }

  /** Each metadata field is in the record exactly when its value is not None, and then with that value. */
  lemma PromptRecordMetadata(prompt: Json, question: Record, c: Completion, ctx: RunContext, i: nat)
    requires i < |MetadataFields(question, ctx)|
    ensures var rec := PromptRecord(prompt, question, c, ctx);
            var field := MetadataFields(question, ctx)[i];
            (field.0 in rec <==> field.1 != JNull) && (field.0 in rec ==> rec[field.0] == field.1)
  {
    MetadataKeyNotInBase(prompt, question, c, ctx, i);
    WithMetadataField(BaseRecord(prompt, c, ctx), MetadataFields(question, ctx), Get(question, "tags", JNull), i);
  }

  /**
   * A field with a key listed once, neither in the base record nor "tags",
   * is in the record exactly when its value is not None, and then with that
   * value.
   */
  lemma WithMetadataField(base: Record, fields: seq<(string, Json)>, tags: Json, i: nat)
    requires i < |fields| && DistinctKeys(fields)
    requires fields[i].0 !in base && fields[i].0 != "tags"
    ensures fields[i].0 in WithMetadata(base, fields, tags) <==> fields[i].1 != JNull
    ensures fields[i].0 in WithMetadata(base, fields, tags) ==> WithMetadata(base, fields, tags)[fields[i].0] == fields[i].1
  {
    NonNullDistinct(fields, i);
  }

  /** `base_result` and the optional device fields, step by step. */
  method BuildBaseRecord(prompt: Json, c: Completion, ctx: RunContext) returns (baseResult: Record)
    ensures baseResult == BaseRecord(prompt, c, ctx)
  {
    baseResult := MeasuredFields(prompt, c, ctx) + Device.RequiredFields(ctx.device);
    var device := ctx.device;
    if Text.Present(device.cpuModel) {
      baseResult := baseResult["cpu_model" := JStr(device.cpuModel.value)];
    }
    if Text.Present(device.gpuModel) {
      baseResult := baseResult["gpu_model" := JStr(device.gpuModel.value)];
    }
    if Device.PresentReal(device.ramGb) {
      baseResult := baseResult["ram_gb" := JReal(device.ramGb.value)];
    }
    if Text.Present(device.chipArchitecture) {
      baseResult := baseResult["chip_architecture" := JStr(device.chipArchitecture.value)];
    }
    assert baseResult == Device.WithOptionalFields(MeasuredFields(prompt, c, ctx) + Device.RequiredFields(device), device);
  }

  /** The loop body for one record, step by step. */
  method BuildRecord(prompt: Json, question: Record, c: Completion, ctx: RunContext) returns (result: Record)
    ensures result == PromptRecord(prompt, question, c, ctx)
  {
    var baseResult := BuildBaseRecord(prompt, c, ctx);
    var fields := MetadataFields(question, ctx);
    var withFields := AddNonNull(baseResult, fields);
    var tags := Get(question, "tags", JNull);
    result := if tags != JNull then withFields["tags" := tags] else withFields;
    assert result == WithMetadata(baseResult, fields, tags);
  }

}
