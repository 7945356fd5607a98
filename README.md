# Azure IoT Operations CLI: init targets, upgrade planning and argument handling

This project models in Dafny the decision and transform logic of the
`az iot ops` CLI extension, and proves properties of it. It covers four
pieces.

- **`InitTargets`** (`targets.dfy`, module `Targets`) turns the arguments of
  `az iot ops init` into deployment parameters:
  - Kubernetes names are sanitised: lower-cased, with `_` replaced by `-`.
  - Optional integers are normalised.
  - A target becomes a deployment parameter only when the template declares
    it and its value is truthy.
  - The seven broker settings are gathered into a map and range-checked
    against the template's `_1.BrokerConfig` definition.
  - The instance template's resources are edited: the instance gets its
    description, tags and identity, the six child resources are renamed
    under the instance name, the broker gets a custom configuration, and an
    insecure listener is added when requested.

  The class keeps the fields `__init__` sets. `GetOpsInstanceTemplate`
  edits a fresh copy of the template blueprint.
- **`UpgradeManager`** (`upgrade.dfy`, module `Upgrade`) is a class whose
  methods update `require_instance_upgrade`, `instance`,
  `extensions_to_update`, `sr_resource_id` and `new_aio_version`:
  - It finds the instance through the old API and falls back to the new one.
  - It orders the cluster's extensions in the fixed dependency order.
  - It plans one PATCH per extension that is behind on version or
    release train.
  - It back-fills the schema registry id and builds the display text.
  - It stops when there is nothing to do or the prompt is declined.
  - Otherwise it prepares an old instance, sends the PATCHes in order,
    checks their statuses and re-creates the instance.

  Each method is proved against a specification function:
  `PlanUpdates`, `DisplayText`, `ResolveInstance`, `ProcessSpec`,
  `UpgradeFrom`, `WorkSpec` and, for the instance body left behind,
  `FinishInstance`. The lemmas about those functions state what the upgrade
  promises.
- **Command argument handling** (`commands.dfy`, module `Commands`):
  - Which checks `check` runs, given `--pre`, `--post` and whether the
    platform is deployed.
  - What `init` derives before it calls `deploy`: the "nothing to do"
    short-circuit, the lower-cased namespace, the default instance and
    custom location names, and the order of the CA file checks.
  - The defaults `support_bundle` passes to the bundle builder.
- **`ClusterExtensions.update`** (`clusters.dfy`, module `Clusters`) removes
  "-preview" from both versions and compares them as plain strings. It
  returns nothing when no update is needed; otherwise it sends the PATCH
  body through `begin_update` and passes on its poller or its error.

`common.dfy` (module `Common`) holds the shared model:
- `Option`, `Result` and the CLI's error classes;
- a JSON value type for the dictionaries the code builds;
- Python truthiness;
- the Python string operations the code relies on: `lower` (on ASCII
  letters), one-character `replace`, `replace(pat, "")`, `join`, `str(int)`
  and the `<=` ordering of `str`.

How the outside world is represented:
- Every Azure call is a function-typed parameter (an oracle) or a value
  describing its outcome. These include the resource and instance lookups,
  `extensions.update`, `begin_create_or_update` with
  `wait_for_terminal_state`, `ops.get` and `begin_update`.
- So are `packaging.version` comparison, `os.path.exists`,
  `assemble_nargs_to_dict`, reading the broker configuration file,
  `url_safe_random_chars(5)`, `get_bundle_path` and `get_insecure_listener`.

## Model

| member | source | states |
|---|---|---|
| Targets.SanitizeK8sName | azext_edge/edge/providers/orchestration/targets.py:99-105 | `None` and `""` come back unchanged; any other name comes back as a string of the same length |
| Targets.SanitizeK8sNameAt | azext_edge/edge/providers/orchestration/targets.py:102-105 | each character of a sanitised name is the input character lower-cased, with `_` turned into `-` |
| Targets.SanitizeK8sNameIsSafe | azext_edge/edge/providers/orchestration/targets.py:102-105 | a non-empty name keeps its length and is mapped character by character, leaving no `_` and no upper-case letter |
| Targets.SanitizeK8sNameFixpoint | azext_edge/edge/providers/orchestration/targets.py:99-105 | sanitising leaves a name unchanged if and only if it has no `_` and no upper-case letter |
| Targets.SanitizeK8sNameIdempotent | azext_edge/edge/providers/orchestration/targets.py:99-105 | sanitising twice is the same as sanitising once |
| Targets.SanitizeInt | azext_edge/edge/providers/orchestration/targets.py:107-110 | `None` stays `None`; an integer is kept as it is |
| Targets.Template.constructor | azext_edge/edge/providers/orchestration/targets.py:115-116 | a template holds the given parameter names and resources |
| Targets.Template.Copy | azext_edge/edge/providers/orchestration/targets.py:115 | `copy()` gives a fresh template with the same parameters and resources |
| Targets.Deployed | azext_edge/edge/providers/orchestration/targets.py:118-124 | a target is a deployment parameter if and only if the template declares it and its value is truthy, and its entry is `{"value": v}` |
| Targets.DeployParams | azext_edge/edge/providers/orchestration/targets.py:118-124 | the loop over the targets builds exactly the `Deployed` map |
| Targets.HandleApplyTargets | azext_edge/edge/providers/orchestration/targets.py:112-124 | returns a fresh copy of the blueprint and the `Deployed` parameters for the copy's declared names |
| Targets.BrokerSettings | azext_edge/edge/providers/orchestration/targets.py:222-230 | the seven broker settings, in their processing order |
| Targets.GetBrokerConfigTargetMap | azext_edge/edge/providers/orchestration/targets.py:221-263 | the loop, with its skips, error lines and early TypeError, gives the result of `BrokerConfigTargetMap` |
| Targets.ProcessSettingsErrSticks | azext_edge/edge/providers/orchestration/targets.py:243-251 | once the loop has raised, the whole call raises the TypeError, whatever settings follow |
| Targets.ErrIsTypeError | azext_edge/edge/providers/orchestration/targets.py:243-251 | the only exception the loop itself raises is the TypeError of a comparison with `None` |
| Targets.ProcessedKeys | azext_edge/edge/providers/orchestration/targets.py:231-238 | every key of the processed map is the name of a setting |
| Targets.ProcessedEntry | azext_edge/edge/providers/orchestration/targets.py:235-238 | with distinct names, a setting is in the map if and only if it is not `None`, with its value unchanged |
| Targets.RangeMessage | azext_edge/edge/providers/orchestration/targets.py:252-258 | the error line of an out-of-range setting: its name, " value range", then " min:" and " max:" with each bound that is not 0 (falsy); its uses are stated by `RejectedIffViolation` |
| Targets.ProcessSettings | azext_edge/edge/providers/orchestration/targets.py:231-258 | the loop over a prefix of the settings: `None` values skipped, the rest kept, error lines gathered in order, TypeError on a one-bound definition; stated by `ProcessSettingsErrSticks`, `ProcessedEntry` and `OneLinePerViolation` |
| Targets.BrokerConfigTargetMap | azext_edge/edge/providers/orchestration/targets.py:221-263 | the processed map when there are no error lines, otherwise one InvalidArgumentValueError with the lines joined by newlines; stated by `RejectedIffViolation`, `HalfBoundRaises` and `BrokerConfigKeys` |
| Targets.ViolationLines | azext_edge/edge/providers/orchestration/targets.py:251-258 | the reference list of error lines: one `RangeMessage` per setting out of its two bounds, in the settings' order; the loop is tied to it by `OneLinePerViolation` |
| Targets.OneLinePerViolation | azext_edge/edge/providers/orchestration/targets.py:243-258 | with no one-bound definitions the loop does not raise, and its error lines are exactly the `RangeMessage` lines of the out-of-range int settings, in the settings' order |
| Targets.ViolationCounted | azext_edge/edge/providers/orchestration/targets.py:251-258 | there is an error line if and only if some setting is out of its range |
| Targets.RejectedIffViolation | azext_edge/edge/providers/orchestration/targets.py:240-261 | with no one-bound definitions, the map is rejected if and only if some setting violates its bounds, and the error is one InvalidArgumentValueError whose message joins with "\n" the `RangeMessage` of each violating setting, in the order of the settings |
| Targets.UnboundedAcceptsAll | azext_edge/edge/providers/orchestration/targets.py:240-249 | an empty definition, or one without bounds, rejects nothing |
| Targets.HalfBoundRaises | azext_edge/edge/providers/orchestration/targets.py:248-251 | an int setting defined with only one bound makes the call raise TypeError |
| Targets.BrokerConfigKeys | azext_edge/edge/providers/orchestration/targets.py:222-238 | an accepted map has only the seven setting names as keys and holds exactly the non-`None` settings, values unchanged |
| Targets.Store | azext_edge/edge/providers/orchestration/targets.py:180-190 | writing the six looked-up resources back keeps the template's keys |
| Targets.StoreFrame | azext_edge/edge/providers/orchestration/targets.py:180-190 | each of the six keys holds its edited resource and every other resource is untouched |
| Targets.StoreChildren | azext_edge/edge/providers/orchestration/targets.py:180-190 | writing back the resources as they were looked up changes nothing |
| Targets.ChildrenUnderInstance | azext_edge/edge/providers/orchestration/targets.py:192-198 | the renamed instance is called `instance_name`; the broker, dataflow profile and endpoint lie under `"<instance_name>/"`; authn and listener lie under `"<instance_name>/<broker>/"` |
| Targets.UserIdentityPayload | azext_edge/edge/providers/orchestration/targets.py:200-203 | the loop gives one empty object per identity, keyed by the identity |
| Targets.InitTargets.constructor | azext_edge/edge/providers/orchestration/targets.py:63-97 | each field is its argument, sanitised where `__init__` sanitises it; `deploy_resource_sync_rules` is `not disable_rsync_rules` |
| Targets.UnwrapBrokerConfig | azext_edge/edge/providers/orchestration/targets.py:208-211 | a custom broker configuration that is an object with a `properties` key is replaced by that value; any other is used as it is; stated by `Configure` and `EditChildrenBroker` |
| Targets.EditChildren | azext_edge/edge/providers/orchestration/targets.py:180-211 | the five edits of the six looked-up resources in the source's order (describe, rename, identity, custom broker); stated by `EditChildrenNamed`, `EditChildrenUnnamed`, `EditChildrenInstance` and `EditChildrenBroker` |
| Targets.InstanceResources | azext_edge/edge/providers/orchestration/targets.py:164-219 | the blueprint's resources with the edited children stored back and the insecure listener added when requested; stated by `InstanceResourcesFrame` |
| Targets.InitTargets.GetOpsInstanceTemplate | azext_edge/edge/providers/orchestration/targets.py:164-219 | returns a fresh template whose resources are `InstanceResources` of the blueprint, and the `Deployed` parameters of the ten targets; a custom broker configuration holding `properties` is replaced by that value |
| Targets.IdentityFor | azext_edge/edge/providers/orchestration/targets.py:200-206 | an identity payload is built only when identities are given and the list is not empty |
| Targets.DescribeInstance | azext_edge/edge/providers/orchestration/targets.py:180-184 | the instance gets the description in its properties and, when they are truthy, the tags; every other field is kept |
| Targets.NameChildren | azext_edge/edge/providers/orchestration/targets.py:192-198 | renaming happens only under a truthy `instance_name` and does not touch properties or tags |
| Targets.Identify | azext_edge/edge/providers/orchestration/targets.py:200-206 | only the instance changes, and only by gaining `identity` of type UserAssigned when there is a payload |
| Targets.Configure | azext_edge/edge/providers/orchestration/targets.py:208-211 | only the broker changes, and only by taking a truthy custom configuration, unwrapped from `properties`, as its properties |
| Targets.AssembleFrame | azext_edge/edge/providers/orchestration/targets.py:213-219 | the insecure listener is added under its key when requested; the six edited resources are in place and nothing else changes |
| Targets.InstanceResourcesFrame | azext_edge/edge/providers/orchestration/targets.py:164-219 | the edited template holds the six edited children, the listener when requested, and every other resource unchanged |
| Targets.EditChildrenNamed | azext_edge/edge/providers/orchestration/targets.py:192-198 | under a truthy `instance_name`, all six resources end up with the names built from it, whatever the later edits do |
| Targets.EditChildrenUnnamed | azext_edge/edge/providers/orchestration/targets.py:192-198 | without a truthy `instance_name` no name changes, and authn, listener, profile and endpoint are untouched |
| Targets.EditChildrenInstance | azext_edge/edge/providers/orchestration/targets.py:180-206 | the edited instance carries the description, the tags when truthy and the identity when there is one |
| Targets.EditChildrenBroker | azext_edge/edge/providers/orchestration/targets.py:208-211 | a truthy custom configuration becomes the broker's properties; with neither it nor an instance name the broker is untouched |
| Targets.NewInitTargets | azext_edge/edge/providers/orchestration/targets.py:63-88 | construction fails exactly when the broker map is rejected, with its error; otherwise the object holds the accepted map and the sanitised names |
| Upgrade.LastOfType | azext_edge/edge/providers/orchestration/upgrade.py:144 | the extension the type-keyed dictionary holds for a lower-cased type: the last of that type in list order; stated by `LastOfTypeFound` and `LastOfTypeSame` |
| Upgrade.OrderFrom | azext_edge/edge/providers/orchestration/upgrade.py:135-147 | the extensions in the fixed type order, each with its key, or the KeyError of the first missing type; stated by `OrderFromPairs`, `OrderFromFails` and `OrderFromSame` |
| Upgrade.NeedsUpdate | azext_edge/edge/providers/orchestration/upgrade.py:152-167 | an extension needs a PATCH unless its version (missing "0") is at least the target by `vge` and its train (missing "") equals the target's, both lower-cased; stated by `PlanNames` and `PatchedIsUpToDate` |
| Upgrade.PlanUpdates | azext_edge/edge/providers/orchestration/upgrade.py:149-168 | the ordered dictionary the loop builds: each extension that needs a PATCH, under its name, with its body; stated by `PlanNames`, `PlanIsFilter` and `PlannedPatches` |
| Upgrade.PlanOf | azext_edge/edge/providers/orchestration/upgrade.py:135-168 | the ordering followed by the planning loop, or the ordering's KeyError; stated by `OrderIgnoresListing`, `OrderFromFails` and `PlanIsFilter` |
| Upgrade.DisplayText | azext_edge/edge/providers/orchestration/upgrade.py:175-179 | "[dim]" followed by one "• name: version" line per planned PATCH, last character dropped; stated by `DisplayTextShape` |
| Upgrade.ResolveInstance | azext_edge/edge/providers/orchestration/upgrade.py:181-203 | the instance from the old API with the upgrade flag set, else the new API's instance with the flag clear, else the error; stated by `ResolveInstanceCases` |
| Upgrade.PrepareInstance | azext_edge/edge/providers/orchestration/upgrade.py:238-244 | the old instance made ready for the new API, or the KeyError or TypeError of a missing or non-object `properties`; stated by `PreparedInstance` |
| Upgrade.ProcessSpec | azext_edge/edge/providers/orchestration/upgrade.py:229-287 | the result, the number of PATCHes sent and the instance body `_process` leaves; stated by `ProcessOutcomes` |
| Upgrade.Finish | azext_edge/edge/providers/orchestration/upgrade.py:96-120 | nothing to upgrade, declined, or `_process`'s result; stated by `WorkOutcomes` |
| Upgrade.FinishInstance | azext_edge/edge/providers/orchestration/upgrade.py:96-120 | the instance body after `do_work`'s end: unchanged when it stops before `_process`, otherwise the body `_process` leaves; stated by `FinishedInstance` |
| Upgrade.UpgradeFrom | azext_edge/edge/providers/orchestration/upgrade.py:94-120 | once the instance and cluster are known: the ordering's error, or `Finish` of the plan with the back-filled sr id and the 0.8.18 version; stated by `WorkOutcomes` |
| Upgrade.WorkSpec | azext_edge/edge/providers/orchestration/upgrade.py:86-120 | `do_work` end to end: the lookup's error, the cluster's error, or `UpgradeFrom`; stated by `WorkOutcomes` |
| Upgrade.TargetMaps | azext_edge/edge/providers/orchestration/upgrade.py:125-130 | the instance template's versions and trains override the enablement template's, and the iotOperations version is pinned to 0.8.18 |
| Upgrade.LastOfTypeFound | azext_edge/edge/providers/orchestration/upgrade.py:144 | the lookup by lower-cased type finds an installed extension of that type, or none exists |
| Upgrade.LastOfTypeSame | azext_edge/edge/providers/orchestration/upgrade.py:144 | when types are unique, the lookup does not depend on the listing order |
| Upgrade.OrderFromPairs | azext_edge/edge/providers/orchestration/upgrade.py:145-147 | a successful ordering has one entry per type, in order, each under its key with the extension found for that type |
| Upgrade.OrderFromFails | azext_edge/edge/providers/orchestration/upgrade.py:145-147 | the ordering succeeds if and only if every type is installed; otherwise it raises KeyError for the first missing type |
| Upgrade.OrderFromSame | azext_edge/edge/providers/orchestration/upgrade.py:143-147 | with unique types, reordering the cluster's list does not change the ordering |
| Upgrade.OrderIgnoresListing | azext_edge/edge/providers/orchestration/upgrade.py:135-150 | the order is platform, openServiceMesh, secretStore, containerStorage, iotOperations, whatever order the cluster listed its extensions in |
| Upgrade.OrderedIsKeyed | azext_edge/edge/providers/orchestration/upgrade.py:150-159 | a successful ordering includes the iotOperations extension, and its keys index both the versions and the trains |
| Upgrade.OdPutNames | azext_edge/edge/providers/orchestration/upgrade.py:149-168 | an ordered-dictionary store adds its key; a new key is appended at the end |
| Upgrade.PlanNames | azext_edge/edge/providers/orchestration/upgrade.py:150-168 | an extension is in `extensions_to_update` if and only if its version is below the target or its release train differs case-insensitively (missing version "0", missing train "") |
| Upgrade.PlanIsFilter | azext_edge/edge/providers/orchestration/upgrade.py:149-168 | with distinct names, the plan is the extensions that need a PATCH, in dependency order |
| Upgrade.PlannedPatches | azext_edge/edge/providers/orchestration/upgrade.py:155-168 | every planned body has `autoUpgradeMinorVersion` "false" and the target train and version of an extension that needs them |
| Upgrade.PatchedIsUpToDate | azext_edge/edge/providers/orchestration/upgrade.py:162-167 | once an extension carries the patched version and train, it needs no further PATCH, given a reflexive comparison |
| Upgrade.SrBackfill | azext_edge/edge/providers/orchestration/upgrade.py:171-173 | a truthy supplied id is never overwritten; otherwise the id is the setting of the iotOperations extension, or `None` when it is missing |
| Upgrade.DisplayTextShape | azext_edge/edge/providers/orchestration/upgrade.py:175-179 | with no updates the text is "[dim"; otherwise it is "[dim]" and the lines, less the final newline |
| Upgrade.PlanFor | azext_edge/edge/providers/orchestration/upgrade.py:149-168 | the loop builds exactly the plan `PlanUpdates` defines |
| Upgrade.Display | azext_edge/edge/providers/orchestration/upgrade.py:175-179 | the loop builds exactly `DisplayText` of the plan |
| Upgrade.ResolveInstanceCases | azext_edge/edge/providers/orchestration/upgrade.py:181-203 | an instance upgrade is required if and only if the old-API lookup succeeds; the new API is consulted only when the old one failed; a missing instance there is re-raised and any other HTTP error becomes an ArgumentUsageError |
| Upgrade.StatusError | azext_edge/edge/providers/orchestration/upgrade.py:261-265 | no error if and only if no status reports InstallationFailed |
| Upgrade.CheckStatuses | azext_edge/edge/providers/orchestration/upgrade.py:261-265 | the loop over statuses gives the error of the first failed installation |
| Upgrade.PatchRun | azext_edge/edge/providers/orchestration/upgrade.py:251-265 | the number of PATCHes sent is at most the plan's length, and at least one when the plan is not empty |
| Upgrade.PatchRunStops | azext_edge/edge/providers/orchestration/upgrade.py:251-265 | PATCHes go out in plan order until the first failure; every earlier PATCH succeeded; with no failure all were sent and succeeded |
| Upgrade.RunPatches | azext_edge/edge/providers/orchestration/upgrade.py:251-265 | the loop sends the PATCHes and stops as `PatchRun` describes |
| Upgrade.PreparedInstance | azext_edge/edge/providers/orchestration/upgrade.py:238-244 | the prepared instance loses systemData, schemaRegistryNamespace and components; it gains `schemaRegistryRef` and the new version; everything else is kept; it fails only without an object `properties` |
| Upgrade.ProcessOutcomes | azext_edge/edge/providers/orchestration/upgrade.py:229-287 | an instance upgrade without an sr id raises RequiredArgumentMissingError before any PATCH; success means every PATCH was sent and accepted, with a result exactly for an instance upgrade; a new instance is left as it is, an old one that can be prepared ends up as `PrepareInstance` made it, and a returned result is what creating the instance with that body gave |
| Upgrade.FinishedInstance | azext_edge/edge/providers/orchestration/upgrade.py:229-287 | after `do_work`'s end a new instance is unchanged; an old one that is processed and can be prepared ends up prepared; an upgraded result is what creating the instance with the final body gave |
| Upgrade.WorkOutcomes | azext_edge/edge/providers/orchestration/upgrade.py:86-120 | errors come in stage order; "nothing to upgrade" holds if and only if no PATCH is planned and no instance upgrade is required; the prompt decides before any work; success implies every PATCH was accepted |
| Upgrade.UpgradeManager.constructor | azext_edge/edge/providers/orchestration/upgrade.py:55-70 | the manager keeps the resource group, instance name, cluster name and sr id it was given |
| Upgrade.UpgradeManager.GetResourceMap | azext_edge/edge/providers/orchestration/upgrade.py:181-203 | sets `require_instance_upgrade` to whether the old API found the instance, and `instance` to the instance `ResolveInstance` found, or returns its error |
| Upgrade.UpgradeManager.CheckExtensions | azext_edge/edge/providers/orchestration/upgrade.py:122-179 | sets `new_aio_version` to 0.8.18 and `extensions_to_update` to the plan, back-fills the sr id, and returns the display text, or the ordering's KeyError |
| Upgrade.UpgradeManager.Process | azext_edge/edge/providers/orchestration/upgrade.py:229-287 | the result, the PATCHes sent and the new instance body are those of `ProcessSpec` |
| Upgrade.UpgradeManager.DoWork | azext_edge/edge/providers/orchestration/upgrade.py:86-120 | the outcome is `WorkSpec` of the lookups, the cluster, the extensions and the templates' merged maps; `require_instance_upgrade` is whether the old API found the instance; when the lookup fails nothing else changes; when the cluster is missing only the instance is set; otherwise the cluster name is recorded and the state is as `Concluded` says |
| Upgrade.UpgradeManager.CheckAndConclude | azext_edge/edge/providers/orchestration/upgrade.py:94-120 | the outcome is `UpgradeFrom` of the instance, the extensions and the merged maps; the new state is as `Concluded` says |
| Upgrade.UpgradeManager.Concluded | azext_edge/edge/providers/orchestration/upgrade.py:94-173 | the state after `do_work` passes the cluster lookup: `new_aio_version` is 0.8.18; when the ordering fails the plan, the sr id and the instance keep their earlier values; otherwise `extensions_to_update` is the plan, the sr id is back-filled, and the instance is `FinishInstance` |
| Upgrade.UpgradeManager.Conclude | azext_edge/edge/providers/orchestration/upgrade.py:96-120 | stops with nothing to upgrade, or when the prompt is declined; otherwise processes, as `Finish` states; the instance is left as it was when it stops, and is the body `_process` leaves otherwise (`FinishInstance`) |
| Commands.SupportBundle | azext_edge/edge/commands_edge.py:33-50 | the request passed to the bundle builder; stated by `SupportBundleDefaults` |
| Commands.SupportBundleDefaults | azext_edge/edge/commands_edge.py:33-50 | with the argument left out, the log age is 86400 seconds and the service is `auto`; given values reach the bundle builder unchanged |
| Commands.ChecksToRun | azext_edge/edge/commands_edge.py:67-75 | which checks run, by cases on the two flags; stated by `ChecksCases` and `NoChecksOnlyWhen` |
| Commands.ResolveChecks | azext_edge/edge/commands_edge.py:67-75 | the assignments and later overrides give the pair `ChecksToRun` describes |
| Commands.ChecksCases | azext_edge/edge/commands_edge.py:67-75 | neither flag gives (not deployed, true); only pre true gives (true, false); only post true gives (false, true); both give (true, true); a flag set to false switches its checks off |
| Commands.NoChecksOnlyWhen | azext_edge/edge/commands_edge.py:67-75 | no check runs if and only if post is false and, in addition, pre is false or pre is unset on a deployed platform |
| Commands.Init | azext_edge/edge/commands_edge.py:157-193 | returns "nothing to do" if and only if no TLS, no Key Vault id, no deploy and no preflight all hold; only the CA checks fail, in order: missing key file, then missing CA file, then missing key file on disk; it derives the namespace, instance name, custom location, csi configuration and broker configuration passed to `deploy` |
| Commands.DefaultInstanceNameIsSafe | azext_edge/edge/commands_edge.py:167-172 | the default instance name is the sanitised cluster name followed by "-ops-instance", and has no `_` and no upper-case letter |
| Commands.DefaultCustomLocationKeepsUnderscores | azext_edge/edge/commands_edge.py:174-175 | the default custom location is the lower-cased cluster name, "-", the lower-cased random characters and "-ops-init-cl"; an `_` in the cluster name is kept |
| Clusters.StripPreview | azext_edge/edge/providers/orchestration/resources/clusters.py:73-74 | every "-preview" removed; stated by `PreviewSuffixIgnored` and `LexicographicNotNumeric` |
| Clusters.UpdatePayload | azext_edge/edge/providers/orchestration/resources/clusters.py:73-82 | no PATCH body if and only if the stripped current version (missing counts as "0") is at least the stripped new one as a string; a body, when one is built, has `autoUpgradeMinorVersion` false and the new train and the unstripped new version |
| Clusters.Update | azext_edge/edge/providers/orchestration/resources/clusters.py:66-90 | a failed `get` is passed on; with no PATCH needed nothing is returned; otherwise `begin_update` is called with the body and its poller, or its error, is passed on |
| Clusters.UpdateIsIdempotent | azext_edge/edge/providers/orchestration/resources/clusters.py:73-76 | at the new version already, no PATCH is issued |
| Clusters.UpdateAntisymmetric | azext_edge/edge/providers/orchestration/resources/clusters.py:73-76 | of two versions, at most one direction issues a PATCH, and neither does if and only if the stripped strings are equal |
| Clusters.LexicographicNotNumeric | azext_edge/edge/providers/orchestration/resources/clusters.py:74 | the comparison is on strings: "0.9.0" counts as up to date against "0.10.0" |
| Clusters.PreviewSuffixIgnored | azext_edge/edge/providers/orchestration/resources/clusters.py:73-74 | a trailing "-preview" on any installed version does not change the decision |

## Left out

- I/O, logging, the Rich console, the live display and progress bar, and `sleep` (upgrade.py:100-113, 205-227, 250, 269, 279-286) are not modelled; they print and draw only.
- `should_continue_prompt` is the boolean `proceed`. A `KeyboardInterrupt` and the error log written before re-raising (upgrade.py:278-284) are not modelled.
- Azure SDK and management-client calls are oracles: resource get, `instances.show`, `get_resource_map`, `extensions.update`, `begin_create_or_update`, `wait_for_terminal_state`, `ops.get`, `begin_update` and `get_subscription_id`. `get_resource_map` on a found instance is taken not to fail, and the connected cluster's extension list is an input.
- `upgrade.py:254-259` calls `extensions.update` with an `update_payload` argument, but the `ClusterExtensions.update` shown in clusters.py:58-65 takes `new_version` and `new_train`. The `resource_map` module that binds the two is not part of this model. The model therefore keeps the upgrade's PATCH call abstract, and models `ClusterExtensions.update` on its own.
- `packaging.version` comparison is the parameter `vge`. No order properties are assumed, except reflexivity in `PatchedIsUpToDate`.
- Upgrade.PlanOf, Upgrade.UpgradeFrom, Upgrade.WorkSpec, Upgrade.WorkOutcomes, Upgrade.UpgradeManager.CheckExtensions, Upgrade.UpgradeManager.DoWork, Upgrade.UpgradeManager.CheckAndConclude, Upgrade.UpgradeManager.Concluded: require the merged VERSIONS and TRAINS maps to name all five extension keys. This is an assumption about the templates, which are not part of this model (`template.py` is left out); the KeyError a missing key would raise is not modelled.
- Template contents (the M2/M3 blueprints, their VERSIONS and TRAINS, the `_1.BrokerConfig` definition, `get_insecure_listener`) and the `DEFAULT_BROKER…` names from `common.py` are parameters. `common.py` and `template.py` are not part of this model.
- Targets.InitTargets.GetOpsInstanceTemplate: requires the blueprint to hold the six resources it looks up, and the instance to have an object `properties`. The code indexes them without a check.
- `get_ops_enablement_template` (targets.py:126-162) is not modelled: its edits write fixed template contents, which are not part of this model.
- `parse_resource_id` (targets.py:67) is not modelled; its result is unused. `ops_config` (targets.py:76) is not modelled either, because only the enablement template reads it.
- `UnwrapBrokerConfig` looks inside a custom broker configuration only when it is a JSON object. A non-dict configuration that contains "properties" is not modelled.
- Upgrade.NeedsUpdate, Upgrade.SrBackfill, Clusters.Update: a field that is present with the value null is not modelled, so `None` here always means the key is missing and `.get(k, default)` gives the default. The management API can return `properties.version` (null while an extension auto-upgrades), `releaseTrain` and `configurationSettings` as null. `.get` then returns None and the source raises: `version.parse(None)` is a TypeError (upgrade.py:152, 163), `None.lower()` an AttributeError (upgrade.py:153), `None.get(...)` an AttributeError (upgrade.py:173), and `None.replace(...)` an AttributeError (clusters.py:73). For such an extension the model plans a PATCH, or compares with "0", where the program raises.
- Python ints in the broker settings are unbounded, like Dafny's. A `bool` passed where a setting expects an int is not modelled.
- Common.Lower: lower-cases ASCII letters only; `str.lower` also maps non-ASCII letters.
- `init` beyond its argument handling is left out: `load_config_context`, the call to `deploy`, and the arguments it passes through unchanged. The file checks are the oracle `pathExists`, `url_safe_random_chars(5)` is the parameter `randomChars`, and `is_env_flag_enabled` is the boolean `noPreflight`. A JSON parse error in the broker configuration file is not modelled.
- `check` beyond its flag resolution is left out: `run_checks` and `ORC_API_V1.is_deployed()`, whose answer is the boolean `isDeployed`.
- `support_bundle`: `load_config_context` and the bundle builder are left out; the builder's code is not part of this model. `OpsServiceType.auto.value` is taken to be "auto", since the enum is defined in `common.py`.
- Upgrade.UpgradeManager.constructor: the clients, subscription id and display state from `__init__` are left out. The attributes `__init__` never sets start out false or empty; `do_work` sets each one before reading it.
