/** The argument handling of the `az iot ops` commands: which checks
    `check` runs, what `init` derives before it deploys (or why it stops),
    and the defaults `support_bundle` hands to the bundle builder. */
module Commands {
  import opened Common
  import Targets

  // ---------------------------------------------------------------------
  // support_bundle

  /** One day, the default of `log_age_seconds`. */
  const DefaultLogAgeSeconds: int := 60 * 60 * 24
  /** `OpsServiceType.auto.value`: every deployed service. */
  const AutoService := "auto"

  /** The arguments `support_bundle` passes to the bundle builder. */
  datatype BundleRequest = BundleRequest(opsService: string, bundlePath: string, logAgeSeconds: int,
                                         includeMqTraces: Option<bool>)

  /** `support_bundle`: `None` stands for an argument left out, and
      `bundlePath` for `get_bundle_path`. */
  function SupportBundle(logAgeSeconds: Option<int>, opsService: Option<string>, bundleDir: Option<string>,
                         includeMqTraces: Option<bool>, bundlePath: Option<string> -> string): BundleRequest
  {
    BundleRequest(opsService.GetOr(AutoService), bundlePath(bundleDir), logAgeSeconds.GetOr(DefaultLogAgeSeconds),
                  includeMqTraces)
  }

  /** Left out, the log age is a day (86400 seconds) and the service is
      `auto`; given, each argument reaches the builder unchanged. */
  lemma SupportBundleDefaults(logAgeSeconds: Option<int>, opsService: Option<string>, bundleDir: Option<string>,
                              includeMqTraces: Option<bool>, bundlePath: Option<string> -> string)
    ensures var r := SupportBundle(logAgeSeconds, opsService, bundleDir, includeMqTraces, bundlePath);
      && (logAgeSeconds.None? ==> r.logAgeSeconds == 86400)
      && (opsService.None? ==> r.opsService == "auto")
      && (logAgeSeconds.Some? ==> r.logAgeSeconds == logAgeSeconds.value)
      && (opsService.Some? ==> r.opsService == opsService.value)
      && r.bundlePath == bundlePath(bundleDir) && r.includeMqTraces == includeMqTraces
  {
  }

  // ---------------------------------------------------------------------
  // check

  /** Which checks run, by cases: a flag set to true alone switches the
      other kind off; otherwise an unset pre-deployment flag means "when
      not deployed" and an unset post-deployment flag means "yes". */
  function ChecksToRun(pre: Option<bool>, post: Option<bool>, isDeployed: bool): (bool, bool) {
    if IsTrue(pre) then (true, IsTrue(post))
    else if IsTrue(post) then (false, true)
    else (pre.None? && !isDeployed, post.None?)
  }

  /** `check`'s resolution of `pre_deployment_checks` and
      `post_deployment_checks`; `isDeployed` stands for
      `ORC_API_V1.is_deployed()`. */
  method ResolveChecks(pre: Option<bool>, post: Option<bool>, isDeployed: bool) returns (runPre: bool, runPost: bool)
    ensures (runPre, runPost) == ChecksToRun(pre, post, isDeployed)
  {
    runPre := if pre.None? then !isDeployed else pre.value;
    runPost := if post.None? then true else post.value;
    if IsTrue(pre) && !IsTrue(post) {
      runPost := false;
    }
    if IsTrue(post) && !IsTrue(pre) {
      runPre := false;
    }
  }

  /** The cases the command's help describes. */
  lemma ChecksCases(pre: Option<bool>, post: Option<bool>, isDeployed: bool)
    ensures pre.None? && post.None? ==> ChecksToRun(pre, post, isDeployed) == (!isDeployed, true)
    ensures IsTrue(pre) && !IsTrue(post) ==> ChecksToRun(pre, post, isDeployed) == (true, false)
    ensures IsTrue(post) && !IsTrue(pre) ==> ChecksToRun(pre, post, isDeployed) == (false, true)
    ensures IsTrue(pre) && IsTrue(post) ==> ChecksToRun(pre, post, isDeployed) == (true, true)
    ensures pre == Some(false) ==> !ChecksToRun(pre, post, isDeployed).0
    ensures post == Some(false) ==> !ChecksToRun(pre, post, isDeployed).1
  {
  }

  /** No check at all runs exactly when post-deployment checks are turned
      off and pre-deployment checks are turned off too, or left unset on a
      deployed cluster. */
  lemma NoChecksOnlyWhen(pre: Option<bool>, post: Option<bool>, isDeployed: bool)
    ensures !ChecksToRun(pre, post, isDeployed).0 && !ChecksToRun(pre, post, isDeployed).1
        <==> post == Some(false) && (pre == Some(false) || (pre.None? && isDeployed))
  {
    // An optional flag that is set and not true is `Some(false)`.
    if pre.Some? && !pre.value { assert pre == Some(false); }
    if post.Some? && !post.value { assert post == Some(false); }
  }

  // ---------------------------------------------------------------------
  // init

  const InstanceSuffix := "-ops-instance"
  const CustomLocationSuffix := "-ops-init-cl"
  const CaKeyRequired := "When using --ca-file, --ca-key-file is required."
  const CaFileMissing := "Provided CA file does not exist."
  const CaKeyMissing := "Provided CA private key file does not exist."

  /** `csi_driver_config` as it reaches `deploy`: a falsy list as given, a
      non-empty one assembled into a dictionary. */
  datatype CsiConfig = Given(raw: Option<seq<string>>) | Assembled(settings: map<string, string>)

  /** The arguments `init` derives for `deploy`; the others it passes on
      unchanged. */
  datatype DeployRequest = DeployRequest(clusterName: string, clusterNamespace: string, instanceName: string,
                                         customLocationName: string, csiDriverConfig: CsiConfig,
                                         mqBrokerConfig: Option<Json>, noPreflight: bool)

  datatype InitOutcome = NothingToDo | Deploy(request: DeployRequest)

  /** `init` has nothing to do: no TLS, no Key Vault, no deployment and no
      preflight. */
  predicate NothingToDoFlags(noTls: Option<bool>, keyvaultResourceId: Option<string>, noDeploy: Option<bool>,
                             noPreflight: bool) {
    IsTrue(noTls) && !TruthyStr(keyvaultResourceId) && IsTrue(noDeploy) && noPreflight
  }

  /** The cluster name lower-cased with "_" replaced by "-". */
  function SafeClusterName(clusterName: string): string {
    ReplaceChar(Lower(clusterName), '_', '-')
  }

  function DefaultInstanceName(clusterName: string): string {
    SafeClusterName(clusterName) + InstanceSuffix
  }

  /** `randomChars` stands for `url_safe_random_chars(5)`. */
  function DefaultCustomLocation(clusterName: string, randomChars: string): string {
    Lower(clusterName) + "-" + Lower(randomChars) + CustomLocationSuffix
  }

  /** `init` up to the call of `deploy`. `noPreflight` is the environment
      flag, `pathExists` stands for `os.path.exists`, `assembleNargs` for
      `assemble_nargs_to_dict` and `readConfig` for reading and parsing the
      broker configuration file. */
  method Init(clusterName: string, clusterNamespace: string, instanceName: Option<string>,
              customLocationName: Option<string>, noTls: Option<bool>, keyvaultResourceId: Option<string>,
              noDeploy: Option<bool>, noPreflight: bool, randomChars: string,
              tlsCaPath: Option<string>, tlsCaKeyPath: Option<string>, pathExists: string -> bool,
              csiDriverConfig: Option<seq<string>>, assembleNargs: seq<string> -> map<string, string>,
              mqBrokerConfigFile: Option<string>, readConfig: string -> Json)
    returns (r: Result<InitOutcome>)
    ensures r == Ok(NothingToDo) <==> NothingToDoFlags(noTls, keyvaultResourceId, noDeploy, noPreflight)
    ensures r.Err? ==> !NothingToDoFlags(noTls, keyvaultResourceId, noDeploy, noPreflight) && TruthyStr(tlsCaPath)
    ensures !NothingToDoFlags(noTls, keyvaultResourceId, noDeploy, noPreflight) && TruthyStr(tlsCaPath) ==>
      (&& (!TruthyStr(tlsCaKeyPath) ==> r == Err(InvalidArgumentValue(CaKeyRequired)))
       && (TruthyStr(tlsCaKeyPath) && !pathExists(tlsCaPath.value) ==> r == Err(InvalidArgumentValue(CaFileMissing)))
       && (TruthyStr(tlsCaKeyPath) && pathExists(tlsCaPath.value) && !pathExists(tlsCaKeyPath.value) ==>
             r == Err(InvalidArgumentValue(CaKeyMissing)))
       && (TruthyStr(tlsCaKeyPath) && pathExists(tlsCaPath.value) && pathExists(tlsCaKeyPath.value) ==> r.Ok?))
    ensures r.Ok? && r.value.Deploy? ==>
      (var d := r.value.request;
       && d.clusterName == clusterName
       && d.clusterNamespace == Lower(clusterNamespace)
       && d.instanceName == (if TruthyStr(instanceName) then instanceName.value else DefaultInstanceName(clusterName))
       && d.customLocationName == (if TruthyStr(customLocationName) then customLocationName.value
                                   else DefaultCustomLocation(clusterName, randomChars))
       && d.csiDriverConfig == (if csiDriverConfig.Some? && csiDriverConfig.value != []
                                then Assembled(assembleNargs(csiDriverConfig.value)) else Given(csiDriverConfig))
       && d.mqBrokerConfig == (if TruthyStr(mqBrokerConfigFile) then Some(readConfig(mqBrokerConfigFile.value)) else None)
       && d.noPreflight == noPreflight)
  {
    if IsTrue(noTls) && !TruthyStr(keyvaultResourceId) && IsTrue(noDeploy) && noPreflight {
      return Ok(NothingToDo);
    }

    var namespace := Lower(clusterNamespace);
    var clusterNameLowered := Lower(clusterName);
    var safeClusterName := ReplaceChar(clusterNameLowered, '_', '-');

    var instance := instanceName;
    if !TruthyStr(instance) {
      instance := Some(safeClusterName + InstanceSuffix);
    }
    var customLocation := customLocationName;
    if !TruthyStr(customLocation) {
      customLocation := Some(clusterNameLowered + "-" + Lower(randomChars) + CustomLocationSuffix);
    }

    if TruthyStr(tlsCaPath) {
      if !TruthyStr(tlsCaKeyPath) {
        return Err(InvalidArgumentValue(CaKeyRequired));
      }
      if !pathExists(tlsCaPath.value) {
        return Err(InvalidArgumentValue(CaFileMissing));
      }
      if !pathExists(tlsCaKeyPath.value) {
        return Err(InvalidArgumentValue(CaKeyMissing));
      }
    }

    var csi := Given(csiDriverConfig);
    if csiDriverConfig.Some? && csiDriverConfig.value != [] {
      csi := Assembled(assembleNargs(csiDriverConfig.value));
    }

    var mqBrokerConfig := None;
    if TruthyStr(mqBrokerConfigFile) {
      mqBrokerConfig := Some(readConfig(mqBrokerConfigFile.value));
    }

    return Ok(Deploy(DeployRequest(clusterName, namespace, instance.value, customLocation.value, csi,
                                   mqBrokerConfig, noPreflight)));
  }

  /** The default instance name is the sanitised cluster name (as
      `_sanitize_k8s_name` would give it) followed by "-ops-instance", so it
      has no "_" and no upper-case letter. */
  lemma DefaultInstanceNameIsSafe(clusterName: string)
    ensures SafeClusterName(clusterName) == Targets.SanitizeK8sName(Some(clusterName)).value
    ensures |DefaultInstanceName(clusterName)| == |clusterName| + |InstanceSuffix|
    ensures DefaultInstanceName(clusterName)[|clusterName|..] == InstanceSuffix
    ensures Targets.IsSanitized(DefaultInstanceName(clusterName))
  {
    var safe := SafeClusterName(clusterName);
    var n := safe + InstanceSuffix;
    if clusterName != "" {
      Targets.SanitizeK8sNameIsSafe(clusterName);
    }
    assert Targets.IsSanitized(safe);
    assert Targets.IsSanitized(InstanceSuffix);
    forall i | 0 <= i < |n|
      ensures n[i] != '_' && !IsUpper(n[i])
    {
      if i < |safe| {
        assert n[i] == safe[i];
      } else {
        assert n[i] == InstanceSuffix[i - |safe|];
      }
    }
    assert n[|clusterName|..] == InstanceSuffix;
  }

  /** The default custom location only lower-cases the cluster name: an
      "_" in the cluster name stays in the custom location name. */
  lemma DefaultCustomLocationKeepsUnderscores(clusterName: string, randomChars: string)
    ensures DefaultCustomLocation(clusterName, randomChars)[..|clusterName|] == Lower(clusterName)
    ensures forall i :: 0 <= i < |clusterName| && clusterName[i] == '_' ==>
      DefaultCustomLocation(clusterName, randomChars)[i] == '_'
    ensures DefaultCustomLocation(clusterName, randomChars)[|clusterName| + 1 + |randomChars|..]
      == CustomLocationSuffix
  {
    ConcatParts(Lower(clusterName), "-", Lower(randomChars), CustomLocationSuffix);
    forall i | 0 <= i < |clusterName| && clusterName[i] == '_'
      ensures DefaultCustomLocation(clusterName, randomChars)[i] == '_'
    {
      LowerAt(clusterName, i);
    }
  }

  /** The first and the last part of a four-part concatenation. */
  lemma ConcatParts(a: string, b: string, c: string, d: string)
    ensures (a + b + c + d)[..|a|] == a
    ensures (a + b + c + d)[|a| + |b| + |c|..] == d
    ensures forall i :: 0 <= i < |a| ==> (a + b + c + d)[i] == a[i]
  {
  }
}
