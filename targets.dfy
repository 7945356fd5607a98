/** `InitTargets`: the settings of `az iot ops init` turned into deployment
    parameters. Kubernetes names are sanitised, optional integers normalised,
    the broker configuration map is built and range-checked, the template's
    parameters are filled from the targets, and the instance template's
    child resources are renamed under the instance name. */
module Targets {
  import opened Common

  // ---------------------------------------------------------------------
  // Names and integers

  /** `_sanitize_k8s_name`: a falsy name (`None` or "") is returned as it is;
      any other name is lower-cased with every "_" replaced by "-". */
  function SanitizeK8sName(name: Option<string>): (r: Option<string>)
    ensures name.None? || name == Some("") ==> r == name
    ensures name.Some? ==> r.Some? && |r.value| == |name.value|
  {
    match name
    case None => None
    case Some(s) => if s == "" then name else Some(ReplaceChar(Lower(s), '_', '-'))
  }

  /** A name Kubernetes accepts as far as sanitising goes: no "_" and no
      upper-case letter. */
  ghost predicate IsSanitized(s: string) {
    forall i :: 0 <= i < |s| ==> s[i] != '_' && !IsUpper(s[i])
  }

  /** What sanitising does to one character. */
  function SanitizeChar(c: char): char {
    if LowerChar(c) == '_' then '-' else LowerChar(c)
  }

  lemma SanitizeK8sNameAt(s: string, i: nat)
    requires i < |s|
    ensures SanitizeK8sName(Some(s)).value[i] == SanitizeChar(s[i])
  {
    LowerAt(s, i);
    ReplaceCharAt(Lower(s), '_', '-', i);
  }

  /** A non-empty name comes out as the same-length string of its sanitised
      characters, with no "_" and no upper-case letter left. */
  lemma SanitizeK8sNameIsSafe(s: string)
    requires s != ""
    ensures |SanitizeK8sName(Some(s)).value| == |s|
    ensures forall i :: 0 <= i < |s| ==> SanitizeK8sName(Some(s)).value[i] == SanitizeChar(s[i])
    ensures IsSanitized(SanitizeK8sName(Some(s)).value)
  {
    forall i | 0 <= i < |s|
      ensures SanitizeK8sName(Some(s)).value[i] == SanitizeChar(s[i])
    {
      SanitizeK8sNameAt(s, i);
    }
  }

  /** Sanitising leaves a name unchanged exactly when it is already safe. */
  lemma SanitizeK8sNameFixpoint(s: string)
    ensures SanitizeK8sName(Some(s)) == Some(s) <==> IsSanitized(s)
  {
    if s != "" {
      SanitizeK8sNameIsSafe(s);
      if IsSanitized(s) {
        var r := SanitizeK8sName(Some(s)).value;
        forall i | 0 <= i < |s| ensures r[i] == s[i] {
          assert !IsUpper(s[i]) && s[i] != '_';
          assert LowerChar(s[i]) == s[i];
        }
        assert r == s;
      }
    }
  }

  /** `_sanitize_k8s_name` is idempotent. */
  lemma SanitizeK8sNameIdempotent(name: Option<string>)
    ensures SanitizeK8sName(SanitizeK8sName(name)) == SanitizeK8sName(name)
  {
    if name.Some? && name.value != "" {
      SanitizeK8sNameIsSafe(name.value);
      SanitizeK8sNameFixpoint(SanitizeK8sName(name).value);
    }
  }

  /** `_sanitize_int`: `None` stays `None`, an integer is kept as `int(value)`,
      which is the value itself. */
  function SanitizeInt(value: Option<int>): (r: Option<int>)
    ensures value.None? ==> r.None?
    ensures value.Some? ==> r == Some(value.value)
  {
    match value
    case None => None
    case Some(v) => Some(v)
  }

  // ---------------------------------------------------------------------
  // Template parameters

  type Resource = map<string, Json>

  /** A deployment template blueprint: its declared parameter names and its
      resources by key. `copy()` gives a fresh, independent template. */
  class Template {
    var parameters: set<string>
    var resources: map<string, Resource>

    constructor (parameters: set<string>, resources: map<string, Resource>)
      ensures this.parameters == parameters && this.resources == resources
    {
      this.parameters := parameters;
      this.resources := resources;
    }

    method Copy() returns (t: Template)
      ensures fresh(t) && t.parameters == parameters && t.resources == resources
    {
      t := new Template(parameters, resources);
    }
  }

  /** The deployment parameters `_handle_apply_targets` passes: a target
      becomes `{"value": v}` exactly when the template declares it and its
      value is truthy. */
  function Deployed(paramToTarget: map<string, Json>, builtIns: set<string>): (r: map<string, Json>)
    ensures forall p :: p in r <==> p in paramToTarget && p in builtIns && Truthy(paramToTarget[p])
    ensures forall p :: p in r ==> r[p] == JObj(map["value" := paramToTarget[p]])
  {
    map p | p in paramToTarget && p in builtIns && Truthy(paramToTarget[p]) :: JObj(map["value" := paramToTarget[p]])
  }

  /** The loop of `_handle_apply_targets`, over the targets one at a time. */
  method DeployParams(paramToTarget: map<string, Json>, builtIns: set<string>) returns (deployParams: map<string, Json>)
    ensures deployParams == Deployed(paramToTarget, builtIns)
  {
    deployParams := map[];
    var remaining := paramToTarget.Keys;
    while remaining != {}
      invariant remaining <= paramToTarget.Keys
      invariant forall p :: p in deployParams <==>
        p in paramToTarget && p !in remaining && p in builtIns && Truthy(paramToTarget[p])
      invariant forall p :: p in deployParams ==> deployParams[p] == JObj(map["value" := paramToTarget[p]])
      decreases remaining
    {
      var p :| p in remaining;
      if p in builtIns && Truthy(paramToTarget[p]) {
        deployParams := deployParams[p := JObj(map["value" := paramToTarget[p]])];
      }
      remaining := remaining - {p};
    }
    assert deployParams.Keys == Deployed(paramToTarget, builtIns).Keys;
  }

  /** `_handle_apply_targets`: copy the blueprint and fill its parameters. */
  method HandleApplyTargets(paramToTarget: map<string, Json>, blueprint: Template)
    returns (template: Template, deployParams: map<string, Json>)
    ensures fresh(template)
    ensures template.parameters == blueprint.parameters && template.resources == blueprint.resources
    ensures deployParams == Deployed(paramToTarget, blueprint.parameters)
  {
    template := blueprint.Copy();
    deployParams := DeployParams(paramToTarget, template.parameters);
  }

  // ---------------------------------------------------------------------
  // Broker configuration

  /** The definition of one broker setting in the template's
      `_1.BrokerConfig` type: its `type`, `minValue` and `maxValue`. */
  datatype PropDef = PropDef(typ: Option<string>, minValue: Option<int>, maxValue: Option<int>)

  /** The seven broker settings, in the order they are processed. */
  const BrokerSettingNames: seq<string> := [
    "frontendReplicas", "frontendWorkers", "backendRedundancyFactor",
    "backendWorkers", "backendPartitions", "memoryProfile", "serviceType"
  ]

  function BrokerSettings(frontendReplicas: Option<int>, frontendWorkers: Option<int>,
                          backendRedundancyFactor: Option<int>, backendWorkers: Option<int>,
                          backendPartitions: Option<int>, memoryProfile: Option<string>,
                          serviceType: Option<string>): (s: seq<(string, Json)>)
    ensures |s| == |BrokerSettingNames| && forall i :: 0 <= i < |s| ==> s[i].0 == BrokerSettingNames[i]
  {
    [("frontendReplicas", OptInt(frontendReplicas)), ("frontendWorkers", OptInt(frontendWorkers)),
     ("backendRedundancyFactor", OptInt(backendRedundancyFactor)), ("backendWorkers", OptInt(backendWorkers)),
     ("backendPartitions", OptInt(backendPartitions)), ("memoryProfile", OptStr(memoryProfile)),
     ("serviceType", OptStr(serviceType))]
  }

  /** The error line for an out-of-range setting; a bound of 0 is falsy and
      is left out of the line. */
  function RangeMessage(name: string, minValue: int, maxValue: int): string {
    name + " value range"
    + (if minValue != 0 then " min:" + IntToString(minValue) else "")
    + (if maxValue != 0 then " max:" + IntToString(maxValue) else "")
  }

  /** Checking an int value against its bounds; `Ok(Some(line))` is an error
      line. With exactly one bound Python compares an int with `None`, which
      raises a TypeError. */
  function RangeCheck(name: string, v: int, d: PropDef): Result<Option<string>> {
    if d.minValue.None? && d.maxValue.None? then Ok(None)
    else if d.minValue.None? || d.maxValue.None? then Err(TypeError)
    else if v < d.minValue.value || v > d.maxValue.value then Ok(Some(RangeMessage(name, d.minValue.value, d.maxValue.value)))
    else Ok(None)
  }

  /** Whether a setting is range-checked at all: the definition is not empty,
      the value is an int and the setting is defined with type "int". */
  predicate IsChecked(name: string, v: Json, def: map<string, PropDef>) {
    def != map[] && v.JInt? && name in def && def[name].typ == Some("int")
  }

  function SettingCheck(name: string, v: Json, def: map<string, PropDef>): Result<Option<string>> {
    if IsChecked(name, v, def) then RangeCheck(name, v.i, def[name]) else Ok(None)
  }

  /** The processed map and the error lines gathered so far. */
  datatype Processed = Processed(config: map<string, Json>, errors: seq<string>)

  /** The loop of `get_broker_config_target_map` over a prefix of the
      settings: `None` values are skipped, every other value is kept, and
      checked values add their error lines in order. */
  function ProcessSettings(settings: seq<(string, Json)>, def: map<string, PropDef>): Result<Processed>
    decreases |settings|
  {
    if settings == [] then Ok(Processed(map[], []))
    else
      var prev := ProcessSettings(settings[..|settings| - 1], def);
      var last := settings[|settings| - 1];
      if prev.Err? || last.1.JNull? then prev
      else
        match SettingCheck(last.0, last.1, def)
        case Err(e) => Err(e)
        case Ok(line) =>
          Ok(Processed(prev.value.config[last.0 := last.1],
                       prev.value.errors + (if line.Some? then [line.value] else [])))
  }

  /** `get_broker_config_target_map`: the processed map, or one
      InvalidArgumentValueError whose message joins all error lines with
      "\n". */
  function BrokerConfigTargetMap(settings: seq<(string, Json)>, def: map<string, PropDef>): Result<map<string, Json>> {
    match ProcessSettings(settings, def)
    case Err(e) => Err(e)
    case Ok(p) => if p.errors == [] then Ok(p.config) else Err(InvalidArgumentValue(Join(p.errors, "\n")))
  }

  /** The loop of `get_broker_config_target_map`, step by step. */
  method GetBrokerConfigTargetMap(settings: seq<(string, Json)>, def: map<string, PropDef>)
    returns (r: Result<map<string, Json>>)
    ensures r == BrokerConfigTargetMap(settings, def)
  {
    var processed: map<string, Json> := map[];
    var errors: seq<string> := [];
    for i := 0 to |settings|
      invariant ProcessSettings(settings[..i], def) == Ok(Processed(processed, errors))
    {
      ghost var next := settings[..i + 1];
      assert next[..i] == settings[..i] && next[i] == settings[i];
      assert ProcessSettings(next, def) == (
        if settings[i].1.JNull? then Ok(Processed(processed, errors))
        else match SettingCheck(settings[i].0, settings[i].1, def)
          case Err(e) => Err(e)
          case Ok(line) => Ok(Processed(processed[settings[i].0 := settings[i].1], errors + (if line.Some? then [line.value] else []))));
      var (name, v) := settings[i];
      assert name == settings[i].0 && v == settings[i].1;
      assert errors + [] == errors;
      if v.JNull? {
        continue;
      }
      processed := processed[name := v];
      if def == map[] {
        assert SettingCheck(name, v, def) == Ok(None);
        continue;
      }
      if v.JInt? && name in def && def[name].typ == Some("int") {
        var minValue, maxValue := def[name].minValue, def[name].maxValue;
        if minValue.None? && maxValue.None? {
          continue;
        }
        if minValue.None? || maxValue.None? {
          ProcessSettingsErrSticks(settings, def, i + 1);
          assert settings[..|settings|] == settings;
          return Err(TypeError);
        }
        if v.i < minValue.value || v.i > maxValue.value {
          errors := errors + [RangeMessage(name, minValue.value, maxValue.value)];
        }
      }
    }
    assert settings[..|settings|] == settings;
    if errors != [] {
      return Err(InvalidArgumentValue(Join(errors, "\n")));
    }
    return Ok(processed);
  }

  /** Every failure of the loop is the TypeError, and once it is raised no
      later setting changes the outcome. */
  lemma {:induction false} ProcessSettingsErrSticks(settings: seq<(string, Json)>, def: map<string, PropDef>, n: nat)
    requires n <= |settings| && ProcessSettings(settings[..n], def).Err?
    ensures ProcessSettings(settings, def) == Err(TypeError)
    decreases |settings|
  {
    ErrIsTypeError(settings[..n], def);
    if n < |settings| {
      assert settings[..|settings| - 1][..n] == settings[..n];
      ProcessSettingsErrSticks(settings[..|settings| - 1], def, n);
    } else {
      assert settings[..n] == settings;
    }
  }

  lemma {:induction false} ErrIsTypeError(settings: seq<(string, Json)>, def: map<string, PropDef>)
    ensures ProcessSettings(settings, def).Err? ==> ProcessSettings(settings, def).error == TypeError
    decreases |settings|
  {
    if settings != [] {
      ErrIsTypeError(settings[..|settings| - 1], def);
    }
  }

  /** The names of a list of settings are pairwise distinct, as the keys of
      a Python dict are. */
  ghost predicate DistinctNames(settings: seq<(string, Json)>) {
    forall i, j :: 0 <= i < j < |settings| ==> settings[i].0 != settings[j].0
  }

  /** Every key of the processed map is the name of some setting. */
  lemma {:induction false} ProcessedKeys(settings: seq<(string, Json)>, def: map<string, PropDef>)
    requires ProcessSettings(settings, def).Ok?
    ensures forall k :: k in ProcessSettings(settings, def).value.config ==>
      exists i :: 0 <= i < |settings| && settings[i].0 == k
    decreases |settings|
  {
    if settings != [] {
      var init := settings[..|settings| - 1];
      ProcessedKeys(init, def);
      var m := ProcessSettings(settings, def).value.config;
      forall k | k in m
        ensures exists i :: 0 <= i < |settings| && settings[i].0 == k
      {
        if k != settings[|settings| - 1].0 {
          var i :| 0 <= i < |init| && init[i].0 == k;
          assert settings[i].0 == k;
        }
      }
    }
  }

  /** The processed map holds exactly the settings whose value is not
      `None`, with their values unchanged. */
  lemma {:induction false} ProcessedEntry(settings: seq<(string, Json)>, def: map<string, PropDef>, i: nat)
    requires DistinctNames(settings) && ProcessSettings(settings, def).Ok? && i < |settings|
    ensures settings[i].0 in ProcessSettings(settings, def).value.config <==> !settings[i].1.JNull?
    ensures !settings[i].1.JNull? ==> ProcessSettings(settings, def).value.config[settings[i].0] == settings[i].1
    decreases |settings|
  {
    var init := settings[..|settings| - 1];
    assert DistinctNames(init);
    if i < |init| {
      assert init[i] == settings[i];
      assert settings[i].0 != settings[|settings| - 1].0;
      ProcessedEntry(init, def, i);
    } else {
      ProcessedKeys(init, def);
    }
  }

  /** A setting that is checked and out of its two bounds. */
  predicate Violates(name: string, v: Json, def: map<string, PropDef>) {
    && IsChecked(name, v, def)
    && def[name].minValue.Some? && def[name].maxValue.Some?
    && (v.i < def[name].minValue.value || v.i > def[name].maxValue.value)
  }

  /** A setting that is checked against a definition with only one bound. */
  predicate HalfBounded(name: string, v: Json, def: map<string, PropDef>) {
    IsChecked(name, v, def) && (def[name].minValue.None? != def[name].maxValue.None?)
  }

  /** The error line of every setting out of its range, in the order of the
      settings. */
  function ViolationLines(settings: seq<(string, Json)>, def: map<string, PropDef>): seq<string>
    decreases |settings|
  {
    if settings == [] then []
    else
      var last := settings[|settings| - 1];
      ViolationLines(settings[..|settings| - 1], def)
      + (if Violates(last.0, last.1, def)
         then [RangeMessage(last.0, def[last.0].minValue.value, def[last.0].maxValue.value)]
         else [])
  }

  /** Without one-bound definitions the loop never raises, and its error
      lines are those of the settings out of their ranges, in order. */
  lemma {:induction false} OneLinePerViolation(settings: seq<(string, Json)>, def: map<string, PropDef>)
    requires forall i :: 0 <= i < |settings| ==> !HalfBounded(settings[i].0, settings[i].1, def)
    ensures ProcessSettings(settings, def).Ok?
    ensures ProcessSettings(settings, def).value.errors == ViolationLines(settings, def)
    decreases |settings|
  {
    if settings != [] {
      OneLinePerViolation(settings[..|settings| - 1], def);
    }
  }

  /** In that case the map is rejected exactly when some setting is out of
      range, with one InvalidArgumentValueError whose message is those
      settings' lines joined by newlines. Bounds checking applies to int
      settings only. */
  lemma {:induction false} RejectedIffViolation(settings: seq<(string, Json)>, def: map<string, PropDef>)
    requires forall i :: 0 <= i < |settings| ==> !HalfBounded(settings[i].0, settings[i].1, def)
    ensures BrokerConfigTargetMap(settings, def).Err?
        <==> exists i :: 0 <= i < |settings| && Violates(settings[i].0, settings[i].1, def)
    ensures BrokerConfigTargetMap(settings, def).Err? ==>
      BrokerConfigTargetMap(settings, def) == Err(InvalidArgumentValue(Join(ViolationLines(settings, def), "\n")))
    decreases |settings|
  {
    OneLinePerViolation(settings, def);
    ViolationCounted(settings, def);
  }

  lemma {:induction false} ViolationCounted(settings: seq<(string, Json)>, def: map<string, PropDef>)
    ensures ViolationLines(settings, def) != []
        <==> exists i :: 0 <= i < |settings| && Violates(settings[i].0, settings[i].1, def)
    decreases |settings|
  {
    if settings != [] {
      var init := settings[..|settings| - 1];
      ViolationCounted(init, def);
      if exists i :: 0 <= i < |init| && Violates(init[i].0, init[i].1, def) {
        var i :| 0 <= i < |init| && Violates(init[i].0, init[i].1, def);
        assert settings[i] == init[i];
      }
      if exists i :: 0 <= i < |settings| && Violates(settings[i].0, settings[i].1, def) {
        var i :| 0 <= i < |settings| && Violates(settings[i].0, settings[i].1, def);
        if i < |init| {
          assert settings[i] == init[i];
        }
      }
    }
  }

  /** With an empty definition, or with no bounds anywhere, nothing is
      rejected. */
  lemma {:induction false} UnboundedAcceptsAll(settings: seq<(string, Json)>, def: map<string, PropDef>)
    requires forall n :: n in def ==> def[n].minValue.None? && def[n].maxValue.None?
    ensures BrokerConfigTargetMap(settings, def).Ok?
    decreases |settings|
  {
    forall i | 0 <= i < |settings|
      ensures !HalfBounded(settings[i].0, settings[i].1, def)
    {
    }
    OneLinePerViolation(settings, def);
    forall i | 0 <= i < |settings|
      ensures !Violates(settings[i].0, settings[i].1, def)
    {
    }
    ViolationCounted(settings, def);
  }

  /** A checked int setting whose definition has only one bound raises the
      TypeError, whatever else is wrong. */
  lemma HalfBoundRaises(settings: seq<(string, Json)>, def: map<string, PropDef>, k: nat)
    requires k < |settings| && HalfBounded(settings[k].0, settings[k].1, def)
    ensures BrokerConfigTargetMap(settings, def) == Err(TypeError)
  {
    var prefix := settings[..k + 1];
    assert prefix[..k] == settings[..k];
    assert prefix[k] == settings[k];
    assert ProcessSettings(prefix, def).Err?;
    ProcessSettingsErrSticks(settings, def, k + 1);
  }

  /** For the seven broker settings, an accepted map has only those keys, and
      holds exactly the ones that were given, unchanged. */
  lemma BrokerConfigKeys(settings: seq<(string, Json)>, def: map<string, PropDef>)
    requires |settings| == |BrokerSettingNames| && forall i :: 0 <= i < |settings| ==> settings[i].0 == BrokerSettingNames[i]
    requires BrokerConfigTargetMap(settings, def).Ok?
    ensures var m := BrokerConfigTargetMap(settings, def).value;
      && m.Keys <= set n | n in BrokerSettingNames
      && (forall i :: 0 <= i < |settings| ==> (settings[i].0 in m <==> !settings[i].1.JNull?))
      && (forall i :: 0 <= i < |settings| && !settings[i].1.JNull? ==> m[settings[i].0] == settings[i].1)
  {
    assert DistinctNames(settings);
    ProcessedKeys(settings, def);
    forall i | 0 <= i < |settings|
      ensures var m := BrokerConfigTargetMap(settings, def).value;
        (settings[i].0 in m <==> !settings[i].1.JNull?) && (!settings[i].1.JNull? ==> m[settings[i].0] == settings[i].1)
    {
      ProcessedEntry(settings, def, i);
    }
  }

  // ---------------------------------------------------------------------
  // The instance template

  /** The names of the broker and dataflow children, `DEFAULT_BROKER`,
      `DEFAULT_BROKER_AUTHN`, `DEFAULT_BROKER_LISTENER`,
      `DEFAULT_DATAFLOW_PROFILE` and `DEFAULT_DATAFLOW_ENDPOINT`. */
  datatype ChildNames = ChildNames(broker: string, authn: string, listener: string,
                                   dataflowProfile: string, dataflowEndpoint: string)

  const InstanceKey := "aioInstance"
  const BrokerKey := "broker"
  const AuthnKey := "broker_authn"
  const ListenerKey := "broker_listener"
  const ProfileKey := "dataflow_profile"
  const EndpointKey := "dataflow_endpoint"
  const InsecureListenerKey := "broker_listener_insecure"

  const RenamedKeys: set<string> := {InstanceKey, BrokerKey, AuthnKey, ListenerKey, ProfileKey, EndpointKey}

  /** What the instance template blueprint holds: the six resources looked
      up by key, the instance with a `properties` object. */
  predicate InstanceTemplateShape(resources: map<string, Resource>) {
    && RenamedKeys <= resources.Keys
    && "properties" in resources[InstanceKey]
    && resources[InstanceKey]["properties"].JObj?
  }

  /** The six resources `get_ops_instance_template` looks up by key. The
      Python dictionaries are shared with the template, so editing them
      edits the template; the model edits this record and stores it back. */
  datatype InstanceChildren = InstanceChildren(instance: Resource, broker: Resource, authn: Resource,
                                               listener: Resource, dataflowProfile: Resource,
                                               dataflowEndpoint: Resource)

  /** `template.get_resource_by_key` for the six keys. */
  function Children(resources: map<string, Resource>): InstanceChildren
    requires RenamedKeys <= resources.Keys
  {
    InstanceChildren(resources[InstanceKey], resources[BrokerKey], resources[AuthnKey],
                     resources[ListenerKey], resources[ProfileKey], resources[EndpointKey])
  }

  /** The template after its six resources were edited in place. */
  function Store(resources: map<string, Resource>, c: InstanceChildren): (r: map<string, Resource>)
    requires RenamedKeys <= resources.Keys
    ensures r.Keys == resources.Keys
  {
    resources[InstanceKey := c.instance][BrokerKey := c.broker][AuthnKey := c.authn]
             [ListenerKey := c.listener][ProfileKey := c.dataflowProfile][EndpointKey := c.dataflowEndpoint]
  }

  /** Each of the six keys holds its edited resource; every other key is
      left alone. */
  lemma StoreFrame(resources: map<string, Resource>, c: InstanceChildren)
    requires RenamedKeys <= resources.Keys
    ensures var r := Store(resources, c);
      && r[InstanceKey] == c.instance && r[BrokerKey] == c.broker && r[AuthnKey] == c.authn
      && r[ListenerKey] == c.listener && r[ProfileKey] == c.dataflowProfile && r[EndpointKey] == c.dataflowEndpoint
      && (forall k :: k in resources && k !in RenamedKeys ==> r[k] == resources[k])
  {
  }

  /** Storing back what was looked up changes nothing. */
  lemma StoreChildren(resources: map<string, Resource>)
    requires RenamedKeys <= resources.Keys
    ensures Store(resources, Children(resources)) == resources
  {
  }

  /** The instance is named `instance_name` itself and each child lies
      below "<instance_name>/", the broker's authn and listener below
      "<instance_name>/<broker>/". */
  lemma ChildrenUnderInstance(c: InstanceChildren, instanceName: string, names: ChildNames)
    ensures var e := RenameUnderInstance(c, instanceName, names);
      && e.instance["name"] == JStr(instanceName)
      && StartsWith(e.broker["name"].s, instanceName + "/")
      && StartsWith(e.dataflowProfile["name"].s, instanceName + "/")
      && StartsWith(e.dataflowEndpoint["name"].s, instanceName + "/")
      && StartsWith(e.authn["name"].s, instanceName + "/" + names.broker + "/")
      && StartsWith(e.listener["name"].s, instanceName + "/" + names.broker + "/")
  {
    var p := instanceName + "/";
    var q := p + names.broker + "/";
    assert (p + names.broker)[..|p|] == p;
    assert (p + names.dataflowProfile)[..|p|] == p;
    assert (p + names.dataflowEndpoint)[..|p|] == p;
    assert (q + names.authn)[..|q|] == q;
    assert (q + names.listener)[..|q|] == q;
  }

  /** `resource["name"] = name`. */
  function Rename(resource: Resource, name: string): Resource {
    resource["name" := JStr(name)]
  }

  /** The renaming under a truthy `instance_name`: the instance takes that
      name and each child a path below it. */
  function RenameUnderInstance(c: InstanceChildren, instanceName: string, names: ChildNames): InstanceChildren {
    InstanceChildren(
      Rename(c.instance, instanceName),
      Rename(c.broker, instanceName + "/" + names.broker),
      Rename(c.authn, instanceName + "/" + names.broker + "/" + names.authn),
      Rename(c.listener, instanceName + "/" + names.broker + "/" + names.listener),
      Rename(c.dataflowProfile, instanceName + "/" + names.dataflowProfile),
      Rename(c.dataflowEndpoint, instanceName + "/" + names.dataflowEndpoint))
  }

  /** The loop that builds `userAssignedIdentities`: one empty object per
      identity given. */
  method UserIdentityPayload(identities: seq<string>) returns (payload: map<string, Json>)
    ensures payload == IdentityPayload(identities)
  {
    payload := map[];
    for i := 0 to |identities|
      invariant payload.Keys == Elements(identities[..i])
      invariant forall mi :: mi in payload ==> payload[mi] == JObj(map[])
    {
      payload := payload[identities[i] := JObj(map[])];
      assert Elements(identities[..i + 1]) == Elements(identities[..i]) + {identities[i]} by {
        assert identities[..i + 1] == identities[..i] + [identities[i]];
      }
    }
    assert identities[..|identities|] == identities;
  }

  /** The keyword arguments of `InitTargets.__init__` that the model keeps. */
  datatype InitArgs = InitArgs(
    clusterName: string,
    resourceGroupName: string,
    schemaRegistryResourceId: Option<string>,
    clusterNamespace: string,
    location: Option<string>,
    customLocationName: Option<string>,
    disableRsyncRules: Option<bool>,
    instanceName: Option<string>,
    instanceDescription: Option<string>,
    enableFaultTolerance: Option<bool>,
    dataflowProfileInstances: int,
    customBrokerConfig: Option<map<string, Json>>,
    brokerMemoryProfile: Option<string>,
    brokerServiceType: Option<string>,
    brokerBackendPartitions: Option<int>,
    brokerBackendWorkers: Option<int>,
    brokerBackendRedundancyFactor: Option<int>,
    brokerFrontendWorkers: Option<int>,
    brokerFrontendReplicas: Option<int>,
    addInsecureListener: Option<bool>,
    kubernetesDistro: string,
    containerRuntimeSocket: Option<string>,
    trustSource: string,
    miUserAssignedIdentities: Option<seq<string>>,
    tags: Option<map<string, Json>>)

  /** The broker settings of a set of arguments, after `_sanitize_int`. */
  function ArgsBrokerSettings(args: InitArgs): seq<(string, Json)> {
    BrokerSettings(SanitizeInt(args.brokerFrontendReplicas), SanitizeInt(args.brokerFrontendWorkers),
                   SanitizeInt(args.brokerBackendRedundancyFactor), SanitizeInt(args.brokerBackendWorkers),
                   SanitizeInt(args.brokerBackendPartitions), args.brokerMemoryProfile, args.brokerServiceType)
  }

  class InitTargets {
    const clusterName: string
    const safeClusterName: string
    const resourceGroupName: string
    const schemaRegistryResourceId: Option<string>
    const clusterNamespace: string
    const location: Option<string>
    const customLocationName: Option<string>
    const deployResourceSyncRules: bool
    const instanceName: Option<string>
    const instanceDescription: Option<string>
    const enableFaultTolerance: Option<bool>
    const dataflowProfileInstances: Option<int>
    const addInsecureListener: Option<bool>
    const brokerMemoryProfile: Option<string>
    const brokerServiceType: Option<string>
    const brokerBackendPartitions: Option<int>
    const brokerBackendWorkers: Option<int>
    const brokerBackendRedundancyFactor: Option<int>
    const brokerFrontendWorkers: Option<int>
    const brokerFrontendReplicas: Option<int>
    const brokerConfig: map<string, Json>
    var customBrokerConfig: Json
    const kubernetesDistro: string
    const containerRuntimeSocket: Option<string>
    const trustSource: string
    const miUserAssignedIdentities: Option<seq<string>>
    const tags: Option<map<string, Json>>

    /** The field assignments of `__init__`, given the broker map it built. */
    constructor (args: InitArgs, brokerConfig: map<string, Json>)
      ensures clusterName == args.clusterName
      ensures safeClusterName == SanitizeK8sName(Some(args.clusterName)).value
      ensures resourceGroupName == args.resourceGroupName
      ensures schemaRegistryResourceId == args.schemaRegistryResourceId
      ensures clusterNamespace == SanitizeK8sName(Some(args.clusterNamespace)).value
      ensures location == args.location
      ensures customLocationName == SanitizeK8sName(args.customLocationName)
      ensures deployResourceSyncRules == !IsTrue(args.disableRsyncRules)
      ensures instanceName == SanitizeK8sName(args.instanceName)
      ensures instanceDescription == args.instanceDescription
      ensures enableFaultTolerance == args.enableFaultTolerance
      ensures dataflowProfileInstances == Some(args.dataflowProfileInstances)
      ensures addInsecureListener == args.addInsecureListener
      ensures brokerMemoryProfile == args.brokerMemoryProfile
      ensures brokerServiceType == args.brokerServiceType
      ensures brokerBackendPartitions == args.brokerBackendPartitions
      ensures brokerBackendWorkers == args.brokerBackendWorkers
      ensures brokerBackendRedundancyFactor == args.brokerBackendRedundancyFactor
      ensures brokerFrontendWorkers == args.brokerFrontendWorkers
      ensures brokerFrontendReplicas == args.brokerFrontendReplicas
      ensures this.brokerConfig == brokerConfig
      ensures customBrokerConfig == (if args.customBrokerConfig.Some? then JObj(args.customBrokerConfig.value) else JNull)
      ensures kubernetesDistro == args.kubernetesDistro
      ensures containerRuntimeSocket == args.containerRuntimeSocket
      ensures trustSource == args.trustSource
      ensures miUserAssignedIdentities == args.miUserAssignedIdentities
      ensures tags == args.tags
    {
      clusterName := args.clusterName;
      safeClusterName := SanitizeK8sName(Some(args.clusterName)).value;
      resourceGroupName := args.resourceGroupName;
      schemaRegistryResourceId := args.schemaRegistryResourceId;
      clusterNamespace := SanitizeK8sName(Some(args.clusterNamespace)).value;
      location := args.location;
      customLocationName := SanitizeK8sName(args.customLocationName);
      deployResourceSyncRules := !IsTrue(args.disableRsyncRules);
      instanceName := SanitizeK8sName(args.instanceName);
      instanceDescription := args.instanceDescription;
      enableFaultTolerance := args.enableFaultTolerance;
      dataflowProfileInstances := SanitizeInt(Some(args.dataflowProfileInstances));
      addInsecureListener := args.addInsecureListener;
      brokerMemoryProfile := args.brokerMemoryProfile;
      brokerServiceType := args.brokerServiceType;
      brokerBackendPartitions := SanitizeInt(args.brokerBackendPartitions);
      brokerBackendWorkers := SanitizeInt(args.brokerBackendWorkers);
      brokerBackendRedundancyFactor := SanitizeInt(args.brokerBackendRedundancyFactor);
      brokerFrontendWorkers := SanitizeInt(args.brokerFrontendWorkers);
      brokerFrontendReplicas := SanitizeInt(args.brokerFrontendReplicas);
      this.brokerConfig := brokerConfig;
      customBrokerConfig := if args.customBrokerConfig.Some? then JObj(args.customBrokerConfig.value) else JNull;
      kubernetesDistro := args.kubernetesDistro;
      containerRuntimeSocket := args.containerRuntimeSocket;
      trustSource := args.trustSource;
      miUserAssignedIdentities := args.miUserAssignedIdentities;
      tags := args.tags;
    }

    /** The `param_to_target` map of `get_ops_instance_template`. */
    function InstanceParamTargets(clExtensionIds: seq<string>): map<string, Json> {
      map[
        "clusterName" := JStr(clusterName),
        "clusterNamespace" := JStr(clusterNamespace),
        "clusterLocation" := OptStr(location),
        "customLocationName" := OptStr(customLocationName),
        "clExtentionIds" := JArr(seq(|clExtensionIds|, i requires 0 <= i < |clExtensionIds| => JStr(clExtensionIds[i]))),
        "deployResourceSyncRules" := JBool(deployResourceSyncRules),
        "schemaRegistryId" := OptStr(schemaRegistryResourceId),
        "defaultDataflowinstanceCount" := OptInt(dataflowProfileInstances),
        "brokerConfig" := JObj(brokerConfig),
        "trustConfig" := JStr("")
      ]
    }

    /** `get_ops_instance_template`: fill the parameters, then edit the
        instance template's resources as `InstanceResources` describes;
        a custom broker configuration holding `properties` is replaced by
        that value for good. `insecureListener` stands for
        `get_insecure_listener`. */
    method GetOpsInstanceTemplate(clExtensionIds: seq<string>, blueprint: Template, names: ChildNames,
                                  insecureListener: (Option<string>, string) -> Resource)
      returns (template: Template, parameters: map<string, Json>)
      requires InstanceTemplateShape(blueprint.resources)
      modifies this
      ensures fresh(template) && template.parameters == blueprint.parameters
      ensures parameters == Deployed(InstanceParamTargets(clExtensionIds), blueprint.parameters)
      ensures template.resources == InstanceResources(blueprint.resources, instanceDescription, tags, instanceName, names,
        IdentityOf(miUserAssignedIdentities), old(customBrokerConfig),
        if IsTrue(addInsecureListener) then Some(insecureListener(instanceName, names.broker)) else None)
      ensures customBrokerConfig == UnwrapBrokerConfig(old(customBrokerConfig))
    {
      var targets := InstanceParamTargets(clExtensionIds);
      template, parameters := HandleApplyTargets(targets, blueprint);
      var identity := IdentityFor(miUserAssignedIdentities);
      var insecure := if IsTrue(addInsecureListener) then Some(insecureListener(instanceName, names.broker)) else None;
      var edited := InstanceResources(blueprint.resources, instanceDescription, tags, instanceName, names,
                                      identity, customBrokerConfig, insecure);
      template.resources := edited;
      customBrokerConfig := UnwrapBrokerConfig(customBrokerConfig);
    }
  }

  /** `if self.mi_user_assigned_identities:` around the payload loop. */
  method IdentityFor(identities: Option<seq<string>>) returns (identity: Option<map<string, Json>>)
    ensures identity == IdentityOf(identities)
  {
    identity := None;
    if identities.Some? && identities.value != [] {
      var payload := UserIdentityPayload(identities.value);
      identity := Some(payload);
    }
  }

  /** The identity payload `get_ops_instance_template` builds: one only
      when there are user-assigned identities. */
  function IdentityOf(identities: Option<seq<string>>): Option<map<string, Json>> {
    if identities.Some? && identities.value != [] then Some(IdentityPayload(identities.value)) else None
  }

  /** The `{}` per user-assigned identity that `userAssignedIdentities`
      holds. */
  function IdentityPayload(identities: seq<string>): map<string, Json> {
    map mi | mi in Elements(identities) :: JObj(map[])
  }

  function Elements(s: seq<string>): set<string> {
    set i | 0 <= i < |s| :: s[i]
  }

  /** The instance's `identity`. */
  function IdentityJson(payload: map<string, Json>): Json {
    JObj(map["type" := JStr("UserAssigned"), "userAssignedIdentities" := JObj(payload)])
  }

  /** A custom broker configuration that holds a `properties` key is
      replaced by that value before use. */
  function UnwrapBrokerConfig(config: Json): Json {
    if Truthy(config) && config.JObj? && "properties" in config.fields then config.fields["properties"] else config
  }

  /** The instance with its description set and, when there are any, its
      tags. */
  function DescribeInstance(instance: Resource, description: Option<string>, tags: Option<map<string, Json>>): (r: Resource)
    requires "properties" in instance && instance["properties"].JObj?
    ensures r.Keys == instance.Keys + (if tags.Some? && tags.value != map[] then {"tags"} else {})
    ensures r["properties"] == JObj(instance["properties"].fields["description" := OptStr(description)])
    ensures tags.Some? && tags.value != map[] ==> r["tags"] == JObj(tags.value)
    ensures forall k :: k in instance && k != "properties" && k != "tags" ==> r[k] == instance[k]
  {
    var described := instance["properties" := JObj(instance["properties"].fields["description" := OptStr(description)])];
    if tags.Some? && tags.value != map[] then described["tags" := JObj(tags.value)] else described
  }

  /** What the five edits of `get_ops_instance_template` make of the six
      resources, in the source's order. */
  function EditChildren(c: InstanceChildren, description: Option<string>, tags: Option<map<string, Json>>,
                        instanceName: Option<string>, names: ChildNames, identity: Option<map<string, Json>>,
                        customBrokerConfig: Json): InstanceChildren
    requires "properties" in c.instance && c.instance["properties"].JObj?
  {
    var described := c.(instance := DescribeInstance(c.instance, description, tags));
    Configure(Identify(NameChildren(described, instanceName, names), identity), customBrokerConfig)
  }

  /** Field `f` is the same in both resources, present or absent alike. */
  predicate KeepsField(a: Resource, b: Resource, f: string) {
    (f in a <==> f in b) && (f in a ==> a[f] == b[f])
  }

  /** The renaming happens only under a truthy `instance_name`, and touches
      nothing but names. */
  function NameChildren(c: InstanceChildren, instanceName: Option<string>, names: ChildNames): (r: InstanceChildren)
    ensures !TruthyStr(instanceName) ==> r == c
    ensures KeepsField(c.instance, r.instance, "properties") && KeepsField(c.instance, r.instance, "tags")
    ensures KeepsField(c.broker, r.broker, "properties")
  {
    if TruthyStr(instanceName) then RenameUnderInstance(c, instanceName.value, names) else c
  }

  /** The instance's identity is set only when there is one, and nothing
      else changes. */
  function Identify(c: InstanceChildren, identity: Option<map<string, Json>>): (r: InstanceChildren)
    ensures r.(instance := c.instance) == c
    ensures identity.None? ==> r == c
    ensures identity.Some? ==> "identity" in r.instance && r.instance["identity"] == IdentityJson(identity.value)
    ensures KeepsField(c.instance, r.instance, "name") && KeepsField(c.instance, r.instance, "properties")
    ensures KeepsField(c.instance, r.instance, "tags")
  {
    if identity.Some? then c.(instance := c.instance["identity" := IdentityJson(identity.value)]) else c
  }

  /** The broker's properties are replaced only by a truthy custom
      configuration, and nothing else changes. */
  function Configure(c: InstanceChildren, customBrokerConfig: Json): (r: InstanceChildren)
    ensures r.(broker := c.broker) == c
    ensures !Truthy(customBrokerConfig) ==> r == c
    ensures Truthy(customBrokerConfig) ==>
      "properties" in r.broker && r.broker["properties"] == UnwrapBrokerConfig(customBrokerConfig)
    ensures KeepsField(c.broker, r.broker, "name")
  {
    if Truthy(customBrokerConfig)
    then c.(broker := c.broker["properties" := UnwrapBrokerConfig(customBrokerConfig)])
    else c
  }

  /** The resources of the instance template after `get_ops_instance_template`;
      `insecure` is the insecure listener when one is added. */
  function InstanceResources(resources: map<string, Resource>, description: Option<string>,
                             tags: Option<map<string, Json>>, instanceName: Option<string>, names: ChildNames,
                             identity: Option<map<string, Json>>, customBrokerConfig: Json,
                             insecure: Option<Resource>): map<string, Resource>
    requires InstanceTemplateShape(resources)
  {
    Assemble(resources, EditChildren(Children(resources), description, tags, instanceName, names,
                                     identity, customBrokerConfig), insecure)
  }

  /** `template.content` once the six resources hold `c` and the insecure
      listener, if any, was added by `add_resource`. */
  function Assemble(resources: map<string, Resource>, c: InstanceChildren, insecure: Option<Resource>): map<string, Resource>
    requires RenamedKeys <= resources.Keys
  {
    var stored := Store(resources, c);
    if insecure.Some? then stored[InsecureListenerKey := insecure.value] else stored
  }

  lemma AssembleFrame(resources: map<string, Resource>, c: InstanceChildren, insecure: Option<Resource>)
    requires RenamedKeys <= resources.Keys
    ensures var r := Assemble(resources, c, insecure);
      && r.Keys == resources.Keys + (if insecure.Some? then {InsecureListenerKey} else {})
      && r[InstanceKey] == c.instance && r[BrokerKey] == c.broker && r[AuthnKey] == c.authn
      && r[ListenerKey] == c.listener && r[ProfileKey] == c.dataflowProfile && r[EndpointKey] == c.dataflowEndpoint
      && (insecure.Some? ==> r[InsecureListenerKey] == insecure.value)
      && (forall k :: k in resources && k !in RenamedKeys && k != InsecureListenerKey ==> r[k] == resources[k])
  {
    StoreFrame(resources, c);
    assert InsecureListenerKey !in RenamedKeys;
  }

  /** The edit stores the six resources back, adds the insecure listener
      when there is one and leaves every other resource alone. */
  lemma InstanceResourcesFrame(resources: map<string, Resource>, description: Option<string>,
                               tags: Option<map<string, Json>>, instanceName: Option<string>, names: ChildNames,
                               identity: Option<map<string, Json>>, customBrokerConfig: Json, insecure: Option<Resource>)
    requires InstanceTemplateShape(resources)
    ensures var r := InstanceResources(resources, description, tags, instanceName, names, identity, customBrokerConfig, insecure);
      var c := EditChildren(Children(resources), description, tags, instanceName, names, identity, customBrokerConfig);
      && r.Keys == resources.Keys + (if insecure.Some? then {InsecureListenerKey} else {})
      && r[InstanceKey] == c.instance && r[BrokerKey] == c.broker && r[AuthnKey] == c.authn
      && r[ListenerKey] == c.listener && r[ProfileKey] == c.dataflowProfile && r[EndpointKey] == c.dataflowEndpoint
      && (insecure.Some? ==> r[InsecureListenerKey] == insecure.value)
      && (forall k :: k in resources && k !in RenamedKeys && k != InsecureListenerKey ==> r[k] == resources[k])
  {
    var c := EditChildren(Children(resources), description, tags, instanceName, names, identity, customBrokerConfig);
    AssembleFrame(resources, c, insecure);
  }

  /** Under a truthy `instance_name` the instance is named after it and each
      child is named below it; the later edits keep those names. */
  lemma EditChildrenNamed(c: InstanceChildren, description: Option<string>, tags: Option<map<string, Json>>,
                             instanceName: Option<string>, names: ChildNames, identity: Option<map<string, Json>>,
                             customBrokerConfig: Json)
    requires "properties" in c.instance && c.instance["properties"].JObj? && TruthyStr(instanceName)
    ensures var e := EditChildren(c, description, tags, instanceName, names, identity, customBrokerConfig);
      var n := instanceName.value;
      && "name" in e.instance && e.instance["name"] == JStr(n)
      && "name" in e.broker && e.broker["name"] == JStr(n + "/" + names.broker)
      && "name" in e.authn && e.authn["name"] == JStr(n + "/" + names.broker + "/" + names.authn)
      && "name" in e.listener && e.listener["name"] == JStr(n + "/" + names.broker + "/" + names.listener)
      && "name" in e.dataflowProfile && e.dataflowProfile["name"] == JStr(n + "/" + names.dataflowProfile)
      && "name" in e.dataflowEndpoint && e.dataflowEndpoint["name"] == JStr(n + "/" + names.dataflowEndpoint)
  {
    var described := c.(instance := DescribeInstance(c.instance, description, tags));
    var named := NameChildren(described, instanceName, names);
    var identified := Identify(named, identity);
    assert EditChildren(c, description, tags, instanceName, names, identity, customBrokerConfig) == Configure(identified, customBrokerConfig);
    assert named == RenameUnderInstance(described, instanceName.value, names);
  }

  /** Without a truthy `instance_name` nothing is renamed: the instance and
      the broker keep whatever name they had, and the authn, listener,
      dataflow profile and endpoint are untouched. */
  lemma EditChildrenUnnamed(c: InstanceChildren, description: Option<string>, tags: Option<map<string, Json>>,
                             instanceName: Option<string>, names: ChildNames, identity: Option<map<string, Json>>,
                             customBrokerConfig: Json)
    requires "properties" in c.instance && c.instance["properties"].JObj? && !TruthyStr(instanceName)
    ensures var e := EditChildren(c, description, tags, instanceName, names, identity, customBrokerConfig);
      && KeepsField(c.instance, e.instance, "name") && KeepsField(c.broker, e.broker, "name")
      && e.authn == c.authn && e.listener == c.listener
      && e.dataflowProfile == c.dataflowProfile && e.dataflowEndpoint == c.dataflowEndpoint
  {
    var described := c.(instance := DescribeInstance(c.instance, description, tags));
    var named := NameChildren(described, instanceName, names);
    var identified := Identify(named, identity);
    assert EditChildren(c, description, tags, instanceName, names, identity, customBrokerConfig) == Configure(identified, customBrokerConfig);
    assert named == described;
    assert KeepsField(c.instance, described.instance, "name");
  }

  /** The instance carries the description, the tags when there are any and
      the identity when there is one. */
  lemma EditChildrenInstance(c: InstanceChildren, description: Option<string>, tags: Option<map<string, Json>>,
                             instanceName: Option<string>, names: ChildNames, identity: Option<map<string, Json>>,
                             customBrokerConfig: Json)
    requires "properties" in c.instance && c.instance["properties"].JObj?
    ensures var e := EditChildren(c, description, tags, instanceName, names, identity, customBrokerConfig);
      && "properties" in e.instance
      && e.instance["properties"] == JObj(c.instance["properties"].fields["description" := OptStr(description)])
      && (tags.Some? && tags.value != map[] ==> "tags" in e.instance && e.instance["tags"] == JObj(tags.value))
      && (identity.Some? ==> "identity" in e.instance && e.instance["identity"] == IdentityJson(identity.value))
  {
    var described := c.(instance := DescribeInstance(c.instance, description, tags));
    var named := NameChildren(described, instanceName, names);
    var identified := Identify(named, identity);
    assert EditChildren(c, description, tags, instanceName, names, identity, customBrokerConfig) == Configure(identified, customBrokerConfig);
    assert EditChildren(c, description, tags, instanceName, names, identity, customBrokerConfig).instance == identified.instance;
  }

  /** The broker carries a truthy custom configuration as its properties;
      with neither that nor an instance name it is left as it was. */
  lemma EditChildrenBroker(c: InstanceChildren, description: Option<string>, tags: Option<map<string, Json>>,
                             instanceName: Option<string>, names: ChildNames, identity: Option<map<string, Json>>,
                             customBrokerConfig: Json)
    requires "properties" in c.instance && c.instance["properties"].JObj?
    ensures var e := EditChildren(c, description, tags, instanceName, names, identity, customBrokerConfig);
      && (Truthy(customBrokerConfig) ==>
            "properties" in e.broker && e.broker["properties"] == UnwrapBrokerConfig(customBrokerConfig))
      && (!Truthy(customBrokerConfig) && !TruthyStr(instanceName) ==> e.broker == c.broker)
  {
    var described := c.(instance := DescribeInstance(c.instance, description, tags));
    var named := NameChildren(described, instanceName, names);
    var identified := Identify(named, identity);
    assert EditChildren(c, description, tags, instanceName, names, identity, customBrokerConfig) == Configure(identified, customBrokerConfig);
    assert identified.broker == named.broker;
  }

  /** `InitTargets.__init__`: sanitise the arguments and build the broker
      configuration map, whose validation may raise. */
  method NewInitTargets(args: InitArgs, brokerConfigDef: map<string, PropDef>) returns (r: Result<InitTargets>)
    ensures r.Err? <==> BrokerConfigTargetMap(ArgsBrokerSettings(args), brokerConfigDef).Err?
    ensures r.Err? ==> r.error == BrokerConfigTargetMap(ArgsBrokerSettings(args), brokerConfigDef).error
    ensures r.Ok? ==> (fresh(r.value)
      && r.value.brokerConfig == BrokerConfigTargetMap(ArgsBrokerSettings(args), brokerConfigDef).value
      && r.value.clusterNamespace == SanitizeK8sName(Some(args.clusterNamespace)).value
      && r.value.instanceName == SanitizeK8sName(args.instanceName)
      && r.value.customLocationName == SanitizeK8sName(args.customLocationName))
  {
    var config := GetBrokerConfigTargetMap(ArgsBrokerSettings(args), brokerConfigDef);
    if config.Err? {
      return Err(config.error);
    }
    var t := new InitTargets(args, config.value);
    return Ok(t);
  }
}
