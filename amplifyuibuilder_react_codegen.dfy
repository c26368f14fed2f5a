/**
 * ReactStartCodegenJobData: five optional fields, each with a "has been set"
 * flag, read from and written to a JSON object.
 *
 * Reading (operator=) sets a field and its flag exactly when the key is present
 * and leaves every other field alone; writing (Jsonize) emits a key exactly when
 * its flag is set. The three enum fields go through their generated mappers.
 */
module AmplifyUIBuilder {
  import opened AwsCore

  /** JSON values that occur in this object: strings and booleans. */
  datatype JVal = JStr(s: string) | JBool(b: bool)

  /** A JSON object (JsonValue / JsonView), by its members. */
  type JsonObject = map<string, JVal>

  const ModuleKey := "module"
  const TargetKey := "target"
  const ScriptKey := "script"
  const RenderTypeDeclarationsKey := "renderTypeDeclarations"
  const InlineSourceMapKey := "inlineSourceMap"

  /** The keys this object reads and writes. */
  const Keys: set<string> := {ModuleKey, TargetKey, ScriptKey, RenderTypeDeclarationsKey, InlineSourceMapKey}

  /** JsonView::GetString: the member's text, or empty when it is absent or not a string. */
  function GetString(json: JsonObject, key: string): string {
    if key in json && json[key].JStr? then json[key].s else ""
  }

  /** JsonView::GetBool: the member's truth value, or false when it is absent or not a boolean. */
  function GetBool(json: JsonObject, key: string): bool {
    key in json && json[key].JBool? && json[key].b
  }

  /**
   * A generated enum mapper (JSModuleMapper, JSTargetMapper, JSScriptMapper),
   * given by its two directions; its code is not part of this model.
   */
  datatype EnumMapper = EnumMapper(forName: string -> int32, nameFor: int32 -> string)

  datatype Mappers = Mappers(jsModule: EnumMapper, jsTarget: EnumMapper, jsScript: EnumMapper)

  /** The value NOT_SET of JSModule, JSTarget and JSScript. */
  const NOT_SET: int32 := 0

  /** The state of a ReactStartCodegenJobData object, by value. */
  datatype CodegenJobData = CodegenJobData(
    jsModule: int32, jsModuleHasBeenSet: bool,
    jsTarget: int32, jsTargetHasBeenSet: bool,
    jsScript: int32, jsScriptHasBeenSet: bool,
    renderTypeDeclarations: bool, renderTypeDeclarationsHasBeenSet: bool,
    inlineSourceMap: bool, inlineSourceMapHasBeenSet: bool)

  /** The state the default constructor leaves. */
  function DefaultData(): (d: CodegenJobData)
    ensures !d.jsModuleHasBeenSet && !d.jsTargetHasBeenSet && !d.jsScriptHasBeenSet
    ensures !d.renderTypeDeclarationsHasBeenSet && !d.inlineSourceMapHasBeenSet
    ensures d.jsModule == NOT_SET && d.jsTarget == NOT_SET && d.jsScript == NOT_SET
    ensures !d.renderTypeDeclarations && !d.inlineSourceMap
  {
    CodegenJobData(NOT_SET, false, NOT_SET, false, NOT_SET, false, false, false, false, false)
  }

  /** operator=(JsonView) on the value `d`. */
  function Assigned(d: CodegenJobData, json: JsonObject, mappers: Mappers): (r: CodegenJobData)
    // no flag is ever cleared
    ensures d.jsModuleHasBeenSet ==> r.jsModuleHasBeenSet
    ensures d.jsTargetHasBeenSet ==> r.jsTargetHasBeenSet
    ensures d.jsScriptHasBeenSet ==> r.jsScriptHasBeenSet
    ensures d.renderTypeDeclarationsHasBeenSet ==> r.renderTypeDeclarationsHasBeenSet
    ensures d.inlineSourceMapHasBeenSet ==> r.inlineSourceMapHasBeenSet
  {
    CodegenJobData(
      if ModuleKey in json then mappers.jsModule.forName(GetString(json, ModuleKey)) else d.jsModule,
      d.jsModuleHasBeenSet || ModuleKey in json,
      if TargetKey in json then mappers.jsTarget.forName(GetString(json, TargetKey)) else d.jsTarget,
      d.jsTargetHasBeenSet || TargetKey in json,
      if ScriptKey in json then mappers.jsScript.forName(GetString(json, ScriptKey)) else d.jsScript,
      d.jsScriptHasBeenSet || ScriptKey in json,
      if RenderTypeDeclarationsKey in json then GetBool(json, RenderTypeDeclarationsKey) else d.renderTypeDeclarations,
      d.renderTypeDeclarationsHasBeenSet || RenderTypeDeclarationsKey in json,
      if InlineSourceMapKey in json then GetBool(json, InlineSourceMapKey) else d.inlineSourceMap,
      d.inlineSourceMapHasBeenSet || InlineSourceMapKey in json)
  }

  /** The JSON constructor: default construction followed by operator=. */
  function FromJson(json: JsonObject, mappers: Mappers): (r: CodegenJobData)
    // each flag records whether its key was present
    ensures r.jsModuleHasBeenSet == (ModuleKey in json) && r.jsTargetHasBeenSet == (TargetKey in json)
    ensures r.jsScriptHasBeenSet == (ScriptKey in json)
    ensures r.renderTypeDeclarationsHasBeenSet == (RenderTypeDeclarationsKey in json)
    ensures r.inlineSourceMapHasBeenSet == (InlineSourceMapKey in json)
    // an absent key leaves its field at the default
    ensures ModuleKey !in json ==> r.jsModule == NOT_SET
    ensures TargetKey !in json ==> r.jsTarget == NOT_SET
    ensures ScriptKey !in json ==> r.jsScript == NOT_SET
    ensures RenderTypeDeclarationsKey !in json ==> !r.renderTypeDeclarations
    ensures InlineSourceMapKey !in json ==> !r.inlineSourceMap
  {
    Assigned(DefaultData(), json, mappers)
  }

  /** Jsonize on the value `d`. */
  function Payload(d: CodegenJobData, mappers: Mappers): (payload: JsonObject)
    // a key is emitted exactly when its flag is set, and no other key ever is
    ensures ModuleKey in payload <==> d.jsModuleHasBeenSet
    ensures TargetKey in payload <==> d.jsTargetHasBeenSet
    ensures ScriptKey in payload <==> d.jsScriptHasBeenSet
    ensures RenderTypeDeclarationsKey in payload <==> d.renderTypeDeclarationsHasBeenSet
    ensures InlineSourceMapKey in payload <==> d.inlineSourceMapHasBeenSet
    ensures payload.Keys <= Keys
    // enums are written as their mapper's names, booleans as JSON booleans
    ensures d.jsModuleHasBeenSet ==> payload[ModuleKey] == JStr(mappers.jsModule.nameFor(d.jsModule))
    ensures d.jsTargetHasBeenSet ==> payload[TargetKey] == JStr(mappers.jsTarget.nameFor(d.jsTarget))
    ensures d.jsScriptHasBeenSet ==> payload[ScriptKey] == JStr(mappers.jsScript.nameFor(d.jsScript))
    ensures d.renderTypeDeclarationsHasBeenSet ==> payload[RenderTypeDeclarationsKey] == JBool(d.renderTypeDeclarations)
    ensures d.inlineSourceMapHasBeenSet ==> payload[InlineSourceMapKey] == JBool(d.inlineSourceMap)
  {
    var p0: JsonObject := map[];
    var p1 := if d.jsModuleHasBeenSet then p0[ModuleKey := JStr(mappers.jsModule.nameFor(d.jsModule))] else p0;
    var p2 := if d.jsTargetHasBeenSet then p1[TargetKey := JStr(mappers.jsTarget.nameFor(d.jsTarget))] else p1;
    var p3 := if d.jsScriptHasBeenSet then p2[ScriptKey := JStr(mappers.jsScript.nameFor(d.jsScript))] else p2;
    var p4 := if d.renderTypeDeclarationsHasBeenSet
      then p3[RenderTypeDeclarationsKey := JBool(d.renderTypeDeclarations)] else p3;
    if d.inlineSourceMapHasBeenSet then p4[InlineSourceMapKey := JBool(d.inlineSourceMap)] else p4
  }

  /** The enum mappers give back every value of `d` that is set and goes through them. */
  predicate MappersRoundTrip(d: CodegenJobData, mappers: Mappers) {
    && (d.jsModuleHasBeenSet ==> mappers.jsModule.forName(mappers.jsModule.nameFor(d.jsModule)) == d.jsModule)
    && (d.jsTargetHasBeenSet ==> mappers.jsTarget.forName(mappers.jsTarget.nameFor(d.jsTarget)) == d.jsTarget)
    && (d.jsScriptHasBeenSet ==> mappers.jsScript.forName(mappers.jsScript.nameFor(d.jsScript)) == d.jsScript)
  }

  /** `r` has the flags of `d`, the values of `d` where set, and the defaults elsewhere. */
  predicate SetPartOf(r: CodegenJobData, d: CodegenJobData) {
    && r.jsModuleHasBeenSet == d.jsModuleHasBeenSet
    && r.jsTargetHasBeenSet == d.jsTargetHasBeenSet
    && r.jsScriptHasBeenSet == d.jsScriptHasBeenSet
    && r.renderTypeDeclarationsHasBeenSet == d.renderTypeDeclarationsHasBeenSet
    && r.inlineSourceMapHasBeenSet == d.inlineSourceMapHasBeenSet
    && r.jsModule == (if d.jsModuleHasBeenSet then d.jsModule else NOT_SET)
    && r.jsTarget == (if d.jsTargetHasBeenSet then d.jsTarget else NOT_SET)
    && r.jsScript == (if d.jsScriptHasBeenSet then d.jsScript else NOT_SET)
    && r.renderTypeDeclarations == (d.renderTypeDeclarationsHasBeenSet && d.renderTypeDeclarations)
    && r.inlineSourceMap == (d.inlineSourceMapHasBeenSet && d.inlineSourceMap)
  }

  /** A JSON object of the shape Jsonize produces: known keys only, each with the right kind of value. */
  predicate WellFormed(json: JsonObject) {
    && json.Keys <= Keys
    && (ModuleKey in json ==> json[ModuleKey].JStr?)
    && (TargetKey in json ==> json[TargetKey].JStr?)
    && (ScriptKey in json ==> json[ScriptKey].JStr?)
    && (RenderTypeDeclarationsKey in json ==> json[RenderTypeDeclarationsKey].JBool?)
    && (InlineSourceMapKey in json ==> json[InlineSourceMapKey].JBool?)
  }

  /** The enum mappers give back every name present in `json` that goes through them. */
  predicate MappersKeepNames(json: JsonObject, mappers: Mappers) {
    && (ModuleKey in json ==>
          mappers.jsModule.nameFor(mappers.jsModule.forName(GetString(json, ModuleKey))) == GetString(json, ModuleKey))
    && (TargetKey in json ==>
          mappers.jsTarget.nameFor(mappers.jsTarget.forName(GetString(json, TargetKey))) == GetString(json, TargetKey))
    && (ScriptKey in json ==>
          mappers.jsScript.nameFor(mappers.jsScript.forName(GetString(json, ScriptKey))) == GetString(json, ScriptKey))
  }

  // ---------------------------------------------------------------------------
  // Properties of the JSON binding

  /** A default object serialises to the empty JSON object. */
  lemma DefaultSerializesEmpty(mappers: Mappers)
    ensures Payload(DefaultData(), mappers) == map[]
  {
  }

  /**
   * Serialise then deserialise: the flags come back, and so does every set value,
   * provided the enum mappers give back the enum values; unset fields come back
   * at their defaults.
   */
  lemma RoundTrip(d: CodegenJobData, mappers: Mappers)
    requires MappersRoundTrip(d, mappers)
    ensures SetPartOf(FromJson(Payload(d, mappers), mappers), d)
  {
  }

  /**
   * Deserialise then serialise: a well-formed JSON object comes back unchanged,
   * provided the enum mappers give back its names (for instance through the
   * overflow table of an unknown name).
   */
  lemma ReverseRoundTrip(json: JsonObject, mappers: Mappers)
    requires WellFormed(json) && MappersKeepNames(json, mappers)
    ensures Payload(FromJson(json, mappers), mappers) == json
  {
  }

  /**
   * operator= on a present key: the field takes the value read from the JSON
   * object (through the enum mapper, for the enum fields) and its flag is set.
   */
  lemma AssignSetsPresentKeys(d: CodegenJobData, json: JsonObject, mappers: Mappers)
    ensures ModuleKey in json ==>
              Assigned(d, json, mappers).jsModuleHasBeenSet &&
              Assigned(d, json, mappers).jsModule == mappers.jsModule.forName(GetString(json, ModuleKey))
    ensures TargetKey in json ==>
              Assigned(d, json, mappers).jsTargetHasBeenSet &&
              Assigned(d, json, mappers).jsTarget == mappers.jsTarget.forName(GetString(json, TargetKey))
    ensures ScriptKey in json ==>
              Assigned(d, json, mappers).jsScriptHasBeenSet &&
              Assigned(d, json, mappers).jsScript == mappers.jsScript.forName(GetString(json, ScriptKey))
    ensures RenderTypeDeclarationsKey in json ==>
              Assigned(d, json, mappers).renderTypeDeclarationsHasBeenSet &&
              Assigned(d, json, mappers).renderTypeDeclarations == GetBool(json, RenderTypeDeclarationsKey)
    ensures InlineSourceMapKey in json ==>
              Assigned(d, json, mappers).inlineSourceMapHasBeenSet &&
              Assigned(d, json, mappers).inlineSourceMap == GetBool(json, InlineSourceMapKey)
  {
  }

  /**
   * operator= on an absent key: the field and its flag stay as they were. With
   * the lemma above, a flag is never cleared.
   */
  lemma AssignKeepsAbsentKeys(d: CodegenJobData, json: JsonObject, mappers: Mappers)
    ensures ModuleKey !in json ==>
              Assigned(d, json, mappers).jsModule == d.jsModule &&
              Assigned(d, json, mappers).jsModuleHasBeenSet == d.jsModuleHasBeenSet
    ensures TargetKey !in json ==>
              Assigned(d, json, mappers).jsTarget == d.jsTarget &&
              Assigned(d, json, mappers).jsTargetHasBeenSet == d.jsTargetHasBeenSet
    ensures ScriptKey !in json ==>
              Assigned(d, json, mappers).jsScript == d.jsScript &&
              Assigned(d, json, mappers).jsScriptHasBeenSet == d.jsScriptHasBeenSet
    ensures RenderTypeDeclarationsKey !in json ==>
              Assigned(d, json, mappers).renderTypeDeclarations == d.renderTypeDeclarations &&
              Assigned(d, json, mappers).renderTypeDeclarationsHasBeenSet == d.renderTypeDeclarationsHasBeenSet
    ensures InlineSourceMapKey !in json ==>
              Assigned(d, json, mappers).inlineSourceMap == d.inlineSourceMap &&
              Assigned(d, json, mappers).inlineSourceMapHasBeenSet == d.inlineSourceMapHasBeenSet
  {
  }

  /** Applying the same JSON object twice has the effect of applying it once. */
  lemma AssignIdempotent(d: CodegenJobData, json: JsonObject, mappers: Mappers)
    ensures Assigned(Assigned(d, json, mappers), json, mappers) == Assigned(d, json, mappers)
  {
  }

  /** An object holding no key of this type leaves the object unchanged. */
  lemma AssignIgnoresOtherKeys(d: CodegenJobData, json: JsonObject, mappers: Mappers)
    requires json.Keys !! Keys
    ensures Assigned(d, json, mappers) == d
  {
  }

  /** The C++ object, updated in place. */
  class ReactStartCodegenJobData {
    var jsModule: int32
    var jsModuleHasBeenSet: bool
    var jsTarget: int32
    var jsTargetHasBeenSet: bool
    var jsScript: int32
    var jsScriptHasBeenSet: bool
    var renderTypeDeclarations: bool
    var renderTypeDeclarationsHasBeenSet: bool
    var inlineSourceMap: bool
    var inlineSourceMapHasBeenSet: bool

    /** The object's state as a value. */
    function Value(): CodegenJobData
      reads this
    {
      CodegenJobData(jsModule, jsModuleHasBeenSet, jsTarget, jsTargetHasBeenSet, jsScript, jsScriptHasBeenSet,
                     renderTypeDeclarations, renderTypeDeclarationsHasBeenSet, inlineSourceMap, inlineSourceMapHasBeenSet)
    }

    /** The default constructor: enums NOT_SET, booleans false, no flag set. */
    constructor ()
      ensures Value() == DefaultData()
    {
      jsModule, jsModuleHasBeenSet := NOT_SET, false;
      jsTarget, jsTargetHasBeenSet := NOT_SET, false;
      jsScript, jsScriptHasBeenSet := NOT_SET, false;
      renderTypeDeclarations, renderTypeDeclarationsHasBeenSet := false, false;
      inlineSourceMap, inlineSourceMapHasBeenSet := false, false;
    }

    /** The JSON constructor: the default initialisers, then operator=. */
    constructor FromJsonView(json: JsonObject, mappers: Mappers)
      ensures Value() == FromJson(json, mappers)
    {
      jsModule, jsModuleHasBeenSet := NOT_SET, false;
      jsTarget, jsTargetHasBeenSet := NOT_SET, false;
      jsScript, jsScriptHasBeenSet := NOT_SET, false;
      renderTypeDeclarations, renderTypeDeclarationsHasBeenSet := false, false;
      inlineSourceMap, inlineSourceMapHasBeenSet := false, false;
      new;
      Assign(json, mappers);
    }

    /** operator=(JsonView): one key at a time, each present key sets its field and flag. */
    method Assign(json: JsonObject, mappers: Mappers)
      modifies this
      ensures Value() == Assigned(old(Value()), json, mappers)
    {
      if ModuleKey in json {
        jsModule := mappers.jsModule.forName(GetString(json, ModuleKey));
        jsModuleHasBeenSet := true;
      }
      if TargetKey in json {
        jsTarget := mappers.jsTarget.forName(GetString(json, TargetKey));
        jsTargetHasBeenSet := true;
      }
      if ScriptKey in json {
        jsScript := mappers.jsScript.forName(GetString(json, ScriptKey));
        jsScriptHasBeenSet := true;
      }
      if RenderTypeDeclarationsKey in json {
        renderTypeDeclarations := GetBool(json, RenderTypeDeclarationsKey);
        renderTypeDeclarationsHasBeenSet := true;
      }
      if InlineSourceMapKey in json {
        inlineSourceMap := GetBool(json, InlineSourceMapKey);
        inlineSourceMapHasBeenSet := true;
      }
    }

    /** Jsonize: builds the payload by successive WithString / WithBool calls. */
    method Jsonize(mappers: Mappers) returns (payload: JsonObject)
      ensures payload == Payload(Value(), mappers)
    {
      payload := map[];
      if jsModuleHasBeenSet {
        payload := payload[ModuleKey := JStr(mappers.jsModule.nameFor(jsModule))];
      }
      if jsTargetHasBeenSet {
        payload := payload[TargetKey := JStr(mappers.jsTarget.nameFor(jsTarget))];
      }
      if jsScriptHasBeenSet {
        payload := payload[ScriptKey := JStr(mappers.jsScript.nameFor(jsScript))];
      }
      if renderTypeDeclarationsHasBeenSet {
        payload := payload[RenderTypeDeclarationsKey := JBool(renderTypeDeclarations)];
      }
      if inlineSourceMapHasBeenSet {
        payload := payload[InlineSourceMapKey := JBool(inlineSourceMap)];
      }
    }
  }
}
