/** `UpgradeManager`: bring an Azure IoT Operations deployment up to the
    versions the current templates carry. It finds the instance through the
    old or the new API, plans one PATCH per cluster extension that is behind,
    and, after confirmation, patches the extensions and re-creates an old
    instance in the new shape. The management clients are oracles. */
module Upgrade {
  import opened Common

  // ---------------------------------------------------------------------
  // Extensions and their order

  /** One installed cluster extension: its `name` and the parts of its
      `properties` the upgrade reads. A missing `configurationSettings` is
      the empty map. */
  datatype Extension = Extension(name: string, extensionType: string, version: Option<string>,
                                 releaseTrain: Option<string>, configurationSettings: map<string, string>)

  /** The `properties` of a PATCH body. */
  datatype UpgradePatch = UpgradePatch(autoUpgradeMinorVersion: string, releaseTrain: string, version: string)

  /** `extensions_to_update`, an ordered dictionary from extension name to
      PATCH body. */
  type Plan = seq<(string, UpgradePatch)>

  const IotOpsType := "microsoft.iotoperations"
  const IotOpsKey := "iotOperations"
  /** The version pinned by hand for the `iotOperations` extension. */
  const AioVersionOverride := "0.8.18"
  const SrSettingKey := "schemaRegistry.values.resourceId"

  /** The extension types in dependency order, each with its key in the
      templates' `VERSIONS` and `TRAINS` variables. */
  const ExtensionOrder: seq<(string, string)> := [
    ("microsoft.iotoperations.platform", "platform"),
    ("microsoft.openservicemesh", "openServiceMesh"),
    ("microsoft.azure.secretstore", "secretStore"),
    ("microsoft.arc.containerstorage", "containerStorage"),
    (IotOpsType, IotOpsKey)
  ]

  /** The enablement template's versions, updated by the instance template's,
      with the `iotOperations` version pinned. */
  function VersionMap(enablement: map<string, string>, instance: map<string, string>): map<string, string> {
    (enablement + instance)[IotOpsKey := AioVersionOverride]
  }

  /** The enablement template's trains, updated by the instance template's. */
  function TrainMap(enablement: map<string, string>, instance: map<string, string>): map<string, string> {
    enablement + instance
  }

  /** The instance template's entries win over the enablement template's,
      except that the iotOperations version is always the pinned one. */
  lemma TargetMaps(enablementVersions: map<string, string>, instanceVersions: map<string, string>,
                   enablementTrains: map<string, string>, instanceTrains: map<string, string>)
    ensures var r := VersionMap(enablementVersions, instanceVersions);
      && IotOpsKey in r && r[IotOpsKey] == AioVersionOverride
      && (forall k :: k in r <==> k in enablementVersions || k in instanceVersions || k == IotOpsKey)
      && (forall k :: k in instanceVersions && k != IotOpsKey ==> r[k] == instanceVersions[k])
      && (forall k :: k in enablementVersions && k !in instanceVersions && k != IotOpsKey ==> r[k] == enablementVersions[k])
    ensures var r := TrainMap(enablementTrains, instanceTrains);
      && (forall k :: k in r <==> k in enablementTrains || k in instanceTrains)
      && (forall k :: k in instanceTrains ==> r[k] == instanceTrains[k])
      && (forall k :: k in enablementTrains && k !in instanceTrains ==> r[k] == enablementTrains[k])
  {
  }

  /** Both maps name every extension key. */
  predicate Complete(versions: map<string, string>, trains: map<string, string>) {
    forall i :: 0 <= i < |ExtensionOrder| ==> ExtensionOrder[i].1 in versions && ExtensionOrder[i].1 in trains
  }

  /** `type_to_aio_extensions[t]`: the dictionary is built in list order,
      so the last extension of a type wins. */
  function LastOfType(exts: seq<Extension>, t: string): Option<Extension> {
    if exts == [] then None
    else
      assert exts == exts[..|exts| - 1] + [exts[|exts| - 1]];
      if Lower(exts[|exts| - 1].extensionType) == t then Some(exts[|exts| - 1])
      else LastOfType(exts[..|exts| - 1], t)
  }

  /** `ordered_aio_extensions`, paired with each extension's key: a type the
      cluster lacks raises `KeyError` for the first such type. */
  function OrderFrom(exts: seq<Extension>, order: seq<(string, string)>): Result<seq<(string, Extension)>> {
    if order == [] then Ok([])
    else match LastOfType(exts, order[0].0)
      case None => Err(KeyError(order[0].0))
      case Some(e) =>
        match OrderFrom(exts, order[1..])
        case Err(err) => Err(err)
        case Ok(rest) => Ok([(order[0].1, e)] + rest)
  }

  function OrderExtensions(exts: seq<Extension>): Result<seq<(string, Extension)>> {
    OrderFrom(exts, ExtensionOrder)
  }

  /** The lookup finds an installed extension of the lower-cased type, or
      there is none. */
  lemma {:induction false} LastOfTypeFound(exts: seq<Extension>, t: string)
    ensures LastOfType(exts, t).Some? ==>
      LastOfType(exts, t).value in exts && Lower(LastOfType(exts, t).value.extensionType) == t
    ensures LastOfType(exts, t).None? ==> forall e :: e in exts ==> Lower(e.extensionType) != t
  {
    if exts != [] {
      var init := exts[..|exts| - 1];
      assert exts == init + [exts[|exts| - 1]];
      LastOfTypeFound(init, t);
    }
  }

  /** A successful ordering has one entry per type of `order`, in that
      order, each the extension the lookup finds, under its key. */
  lemma {:induction false} OrderFromPairs(exts: seq<Extension>, order: seq<(string, string)>)
    ensures OrderFrom(exts, order).Ok? ==> |OrderFrom(exts, order).value| == |order|
    ensures OrderFrom(exts, order).Ok? ==> forall i :: 0 <= i < |order| ==>
      (OrderFrom(exts, order).value[i].0 == order[i].1
       && LastOfType(exts, order[i].0) == Some(OrderFrom(exts, order).value[i].1))
  {
    if order != [] && OrderFrom(exts, order).Ok? {
      OrderFromPairs(exts, order[1..]);
      var r := OrderFrom(exts, order).value;
      forall i | 0 < i < |order|
        ensures r[i].0 == order[i].1 && LastOfType(exts, order[i].0) == Some(r[i].1)
      {
        assert order[i] == order[1..][i - 1];
      }
    }
  }

  /** The ordering fails exactly when a type is missing, and then names the
      first missing type. */
  lemma {:induction false} OrderFromFails(exts: seq<Extension>, order: seq<(string, string)>)
    ensures OrderFrom(exts, order).Ok? <==> forall i :: 0 <= i < |order| ==> LastOfType(exts, order[i].0).Some?
    ensures OrderFrom(exts, order).Err? ==>
      exists i :: (0 <= i < |order| && LastOfType(exts, order[i].0).None?
                   && OrderFrom(exts, order).error == KeyError(order[i].0)
                   && forall j :: 0 <= j < i ==> LastOfType(exts, order[j].0).Some?)
  {
    if order != [] && LastOfType(exts, order[0].0).Some? {
      OrderFromFails(exts, order[1..]);
      if OrderFrom(exts, order[1..]).Err? {
        var i :| 0 <= i < |order[1..]| && LastOfType(exts, order[1..][i].0).None?
          && OrderFrom(exts, order[1..]).error == KeyError(order[1..][i].0)
          && forall j :: 0 <= j < i ==> LastOfType(exts, order[1..][j].0).Some?;
        assert LastOfType(exts, order[i + 1].0).None?;
        forall j | 0 <= j < i + 1
          ensures LastOfType(exts, order[j].0).Some?
        {
          if j > 0 {
            assert order[j] == order[1..][j - 1];
          }
        }
      } else {
        forall i | 0 <= i < |order|
          ensures LastOfType(exts, order[i].0).Some?
        {
          if i > 0 {
            assert order[i] == order[1..][i - 1];
          }
        }
      }
    }
  }

  /** No two different installed extensions share a type (lower-cased). */
  ghost predicate TypesUnique(exts: seq<Extension>) {
    forall x, y :: x in exts && y in exts && Lower(x.extensionType) == Lower(y.extensionType) ==> x == y
  }

  /** When types are unique, the lookup finds the one extension of that type. */
  lemma LastOfTypeSame(exts: seq<Extension>, exts2: seq<Extension>, t: string)
    requires multiset(exts) == multiset(exts2) && TypesUnique(exts)
    ensures LastOfType(exts, t) == LastOfType(exts2, t)
  {
    LastOfTypeFound(exts, t);
    LastOfTypeFound(exts2, t);
    var a := LastOfType(exts, t);
    var b := LastOfType(exts2, t);
    if a.Some? {
      assert a.value in multiset(exts2);
    }
    if b.Some? {
      assert b.value in multiset(exts);
    }
  }

  lemma {:induction false} OrderFromSame(exts: seq<Extension>, exts2: seq<Extension>, order: seq<(string, string)>)
    requires multiset(exts) == multiset(exts2) && TypesUnique(exts)
    ensures OrderFrom(exts, order) == OrderFrom(exts2, order)
  {
    if order != [] {
      LastOfTypeSame(exts, exts2, order[0].0);
      OrderFromSame(exts, exts2, order[1..]);
    }
  }

  /** The order is the fixed dependency order, whatever order the cluster
      listed its extensions in. */
  lemma OrderIgnoresListing(exts: seq<Extension>, exts2: seq<Extension>)
    requires multiset(exts) == multiset(exts2) && TypesUnique(exts)
    ensures OrderExtensions(exts) == OrderExtensions(exts2)
    ensures OrderExtensions(exts).Ok? ==>
      (|OrderExtensions(exts).value| == |ExtensionOrder|
       && forall i :: 0 <= i < |ExtensionOrder| ==>
            (OrderExtensions(exts).value[i].0 == ExtensionOrder[i].1
             && Lower(OrderExtensions(exts).value[i].1.extensionType) == ExtensionOrder[i].0))
  {
    OrderFromSame(exts, exts2, ExtensionOrder);
    OrderFromPairs(exts, ExtensionOrder);
    forall i | 0 <= i < |ExtensionOrder|
      ensures LastOfType(exts, ExtensionOrder[i].0).Some? ==>
        Lower(LastOfType(exts, ExtensionOrder[i].0).value.extensionType) == ExtensionOrder[i].0
    {
      LastOfTypeFound(exts, ExtensionOrder[i].0);
    }
  }

  /** A successful ordering pairs each extension with a key both maps
      name, and includes the iotOperations extension. */
  lemma OrderedIsKeyed(exts: seq<Extension>, versions: map<string, string>, trains: map<string, string>)
    requires Complete(versions, trains) && OrderExtensions(exts).Ok?
    ensures Keyed(OrderExtensions(exts).value, versions, trains)
    ensures LastOfType(exts, IotOpsType).Some?
  {
    OrderFromPairs(exts, ExtensionOrder);
    assert ExtensionOrder[4].0 == IotOpsType;
  }

  // ---------------------------------------------------------------------
  // The update plan

  /** Every pair's key names a version and a train. */
  predicate Keyed(pairs: seq<(string, Extension)>, versions: map<string, string>, trains: map<string, string>) {
    forall i :: 0 <= i < |pairs| ==> pairs[i].0 in versions && pairs[i].0 in trains
  }

  /** Whether an extension needs a PATCH: it is up to date when its version
      (missing counts as "0") is at least the target and its train (missing
      counts as "") equals the target's, both lower-cased. `vge` stands for
      `version.parse(a) >= version.parse(b)`. */
  predicate NeedsUpdate(key: string, ext: Extension, versions: map<string, string>, trains: map<string, string>,
                        vge: (string, string) -> bool)
    requires key in versions && key in trains
  {
    !(vge(ext.version.GetOr("0"), versions[key]) && Lower(trains[key]) == Lower(ext.releaseTrain.GetOr("")))
  }

  /** The PATCH body for an extension key. */
  function PatchFor(key: string, versions: map<string, string>, trains: map<string, string>): UpgradePatch
    requires key in versions && key in trains
  {
    UpgradePatch("false", trains[key], versions[key])
  }

  function Names(plan: Plan): set<string> {
    set i | 0 <= i < |plan| :: plan[i].0
  }

  /** `od[k] = v` on an ordered dictionary: an existing key keeps its place,
      a new one goes last. */
  function OdPut(od: Plan, k: string, v: UpgradePatch): Plan {
    if od == [] then [(k, v)]
    else if od[0].0 == k then [(k, v)] + od[1..]
    else [od[0]] + OdPut(od[1..], k, v)
  }

  lemma NamesCons(x: (string, UpgradePatch), od: Plan)
    ensures Names([x] + od) == {x.0} + Names(od)
  {
    var s := [x] + od;
    forall n | n in Names(od)
      ensures n in Names(s)
    {
      var i :| 0 <= i < |od| && od[i].0 == n;
      assert s[i + 1] == od[i];
    }
    assert s[0] == x;
  }

  lemma {:induction false} OdPutNames(od: Plan, k: string, v: UpgradePatch)
    ensures Names(OdPut(od, k, v)) == Names(od) + {k}
    ensures k !in Names(od) ==> OdPut(od, k, v) == od + [(k, v)]
  {
    if od == [] {
      assert Names([(k, v)]) == {k} by { NamesCons((k, v), []); }
    } else if od[0].0 == k {
      NamesCons((k, v), od[1..]);
      NamesCons(od[0], od[1..]);
      assert od == [od[0]] + od[1..];
    } else {
      OdPutNames(od[1..], k, v);
      NamesCons(od[0], OdPut(od[1..], k, v));
      NamesCons(od[0], od[1..]);
      assert od == [od[0]] + od[1..];
      if k !in Names(od) {
        assert [od[0]] + (od[1..] + [(k, v)]) == od + [(k, v)];
      }
    }
  }

  /** The loop of `_check_extensions`: each extension that needs a PATCH is
      put into the ordered dictionary under its name. */
  function PlanUpdates(pairs: seq<(string, Extension)>, versions: map<string, string>, trains: map<string, string>,
                       vge: (string, string) -> bool): Plan
    requires Keyed(pairs, versions, trains)
  {
    if pairs == [] then []
    else
      var last := pairs[|pairs| - 1];
      var prev := PlanUpdates(pairs[..|pairs| - 1], versions, trains, vge);
      if NeedsUpdate(last.0, last.1, versions, trains, vge) then OdPut(prev, last.1.name, PatchFor(last.0, versions, trains))
      else prev
  }

  /** The plan `_check_extensions` computes from the installed extensions,
      or the `KeyError` of a missing type. */
  function PlanOf(exts: seq<Extension>, versions: map<string, string>, trains: map<string, string>,
                  vge: (string, string) -> bool): Result<Plan>
    requires Complete(versions, trains)
  {
    match OrderExtensions(exts)
    case Err(e) => Err(e)
    case Ok(pairs) =>
      OrderedIsKeyed(exts, versions, trains);
      Ok(PlanUpdates(pairs, versions, trains, vge))
  }

  /** The reference plan: the extensions that need a PATCH, in the given
      order, each with its body. */
  function UpdatesInOrder(pairs: seq<(string, Extension)>, versions: map<string, string>, trains: map<string, string>,
                          vge: (string, string) -> bool): Plan
    requires Keyed(pairs, versions, trains)
  {
    if pairs == [] then []
    else
      var last := pairs[|pairs| - 1];
      UpdatesInOrder(pairs[..|pairs| - 1], versions, trains, vge)
        + (if NeedsUpdate(last.0, last.1, versions, trains, vge) then [(last.1.name, PatchFor(last.0, versions, trains))] else [])
  }

  /** The names of the extensions that need a PATCH. */
  ghost function NeedingUpdate(pairs: seq<(string, Extension)>, versions: map<string, string>, trains: map<string, string>,
                               vge: (string, string) -> bool): set<string>
    requires Keyed(pairs, versions, trains)
  {
    set i | 0 <= i < |pairs| && NeedsUpdate(pairs[i].0, pairs[i].1, versions, trains, vge) :: pairs[i].1.name
  }

  /** An extension is in the plan exactly when it needs a PATCH. */
  lemma {:induction false} PlanNames(pairs: seq<(string, Extension)>, versions: map<string, string>,
                                     trains: map<string, string>, vge: (string, string) -> bool)
    requires Keyed(pairs, versions, trains)
    ensures Names(PlanUpdates(pairs, versions, trains, vge)) == NeedingUpdate(pairs, versions, trains, vge)
  {
    if pairs != [] {
      var init := pairs[..|pairs| - 1];
      var last := pairs[|pairs| - 1];
      PlanNames(init, versions, trains, vge);
      var prev := PlanUpdates(init, versions, trains, vge);
      if NeedsUpdate(last.0, last.1, versions, trains, vge) {
        OdPutNames(prev, last.1.name, PatchFor(last.0, versions, trains));
      }
      var want := NeedingUpdate(pairs, versions, trains, vge);
      var had := NeedingUpdate(init, versions, trains, vge);
      forall n | n in want
        ensures n in had || (n == last.1.name && NeedsUpdate(last.0, last.1, versions, trains, vge))
      {
        var i :| 0 <= i < |pairs| && NeedsUpdate(pairs[i].0, pairs[i].1, versions, trains, vge) && pairs[i].1.name == n;
        if i < |init| {
          assert init[i] == pairs[i];
        }
      }
      forall n | n in had
        ensures n in want
      {
        var i :| 0 <= i < |init| && NeedsUpdate(init[i].0, init[i].1, versions, trains, vge) && init[i].1.name == n;
        assert pairs[i] == init[i];
      }
      if NeedsUpdate(last.0, last.1, versions, trains, vge) {
        assert last.1.name in want;
      }
    }
  }

  /** The extension names in `pairs` are pairwise distinct. */
  ghost predicate DistinctNames(pairs: seq<(string, Extension)>) {
    forall i, j :: 0 <= i < j < |pairs| ==> pairs[i].1.name != pairs[j].1.name
  }

  /** With distinct names the ordered dictionary is the filtered list: the
      PATCHes come in the given order and each under its own name. */
  lemma {:induction false} PlanIsFilter(pairs: seq<(string, Extension)>, versions: map<string, string>,
                                        trains: map<string, string>, vge: (string, string) -> bool)
    requires Keyed(pairs, versions, trains) && DistinctNames(pairs)
    ensures PlanUpdates(pairs, versions, trains, vge) == UpdatesInOrder(pairs, versions, trains, vge)
  {
    if pairs != [] {
      var init := pairs[..|pairs| - 1];
      var last := pairs[|pairs| - 1];
      PlanIsFilter(init, versions, trains, vge);
      if NeedsUpdate(last.0, last.1, versions, trains, vge) {
        var prev := PlanUpdates(init, versions, trains, vge);
        PlanNames(init, versions, trains, vge);
        forall i | 0 <= i < |init|
          ensures init[i].1.name != last.1.name
        {
          assert init[i] == pairs[i];
        }
        OdPutNames(prev, last.1.name, PatchFor(last.0, versions, trains));
      }
    }
  }

  /** `entry` is the PATCH of some extension in `pairs` that needs one. */
  ghost predicate PlannedFrom(pairs: seq<(string, Extension)>, versions: map<string, string>,
                              trains: map<string, string>, vge: (string, string) -> bool, entry: (string, UpgradePatch))
    requires Keyed(pairs, versions, trains)
  {
    exists i :: 0 <= i < |pairs| && pairs[i].1.name == entry.0
      && NeedsUpdate(pairs[i].0, pairs[i].1, versions, trains, vge) && entry.1 == PatchFor(pairs[i].0, versions, trains)
  }

  /** Every entry of `plan` turns off minor-version auto-upgrade and is the
      PATCH of an extension in `pairs` that needs one. */
  ghost predicate AllPlannedFrom(pairs: seq<(string, Extension)>, versions: map<string, string>,
                                 trains: map<string, string>, vge: (string, string) -> bool, plan: Plan)
    requires Keyed(pairs, versions, trains)
  {
    forall j :: 0 <= j < |plan| ==>
      (plan[j].1.autoUpgradeMinorVersion == "false" && PlannedFrom(pairs, versions, trains, vge, plan[j]))
  }

  /** Every planned PATCH turns off minor-version auto-upgrade and carries
      the target train and version of an extension that needs it. */
  lemma {:induction false} PlannedPatches(pairs: seq<(string, Extension)>, versions: map<string, string>,
                                          trains: map<string, string>, vge: (string, string) -> bool)
    requires Keyed(pairs, versions, trains)
    ensures AllPlannedFrom(pairs, versions, trains, vge, UpdatesInOrder(pairs, versions, trains, vge))
  {
    if pairs != [] {
      var init := pairs[..|pairs| - 1];
      var last := pairs[|pairs| - 1];
      PlannedPatches(init, versions, trains, vge);
      var plan := UpdatesInOrder(pairs, versions, trains, vge);
      var prev := UpdatesInOrder(init, versions, trains, vge);
      forall j | 0 <= j < |plan|
        ensures plan[j].1.autoUpgradeMinorVersion == "false" && PlannedFrom(pairs, versions, trains, vge, plan[j])
      {
        if j < |prev| {
          assert plan[j] == prev[j];
          assert PlannedFrom(init, versions, trains, vge, prev[j]);
          var i :| 0 <= i < |init| && init[i].1.name == prev[j].0
            && NeedsUpdate(init[i].0, init[i].1, versions, trains, vge) && prev[j].1 == PatchFor(init[i].0, versions, trains);
          assert pairs[i] == init[i];
        } else {
          assert plan[j] == (last.1.name, PatchFor(last.0, versions, trains));
          assert pairs[|pairs| - 1] == last;
        }
      }
    }
  }

  /** An extension that already has the PATCHed version and train needs no
      further PATCH, provided `vge` is reflexive. */
  lemma PatchedIsUpToDate(key: string, ext: Extension, versions: map<string, string>, trains: map<string, string>,
                          vge: (string, string) -> bool)
    requires key in versions && key in trains
    requires forall v :: vge(v, v)
    ensures var p := PatchFor(key, versions, trains);
      !NeedsUpdate(key, ext.(version := Some(p.version), releaseTrain := Some(p.releaseTrain)), versions, trains, vge)
  {
  }

  // ---------------------------------------------------------------------
  // Schema registry id and display

  /** `sr_resource_id` after `_check_extensions`: a truthy supplied id is
      kept, otherwise it is read from the iotOperations extension. */
  function SrBackfill(current: Option<string>, settings: map<string, string>): (r: Option<string>)
    ensures TruthyStr(current) ==> r == current
    ensures !TruthyStr(current) ==> (r.Some? <==> SrSettingKey in settings)
    ensures !TruthyStr(current) && SrSettingKey in settings ==> r == Some(settings[SrSettingKey])
  {
    if TruthyStr(current) then current
    else if SrSettingKey in settings then Some(settings[SrSettingKey])
    else None
  }

  /** One display line per planned PATCH, in plan order. */
  function Lines(plan: Plan): string {
    if plan == [] then ""
    else Lines(plan[..|plan| - 1]) + "\U{2022} " + plan[|plan| - 1].0 + ": " + plan[|plan| - 1].1.version + "\n"
  }

  /** The text `_check_extensions` returns: the lines after "[dim]", with
      the last character dropped. */
  function DisplayText(plan: Plan): string {
    var d := "[dim]" + Lines(plan);
    d[..|d| - 1]
  }

  /** With nothing to update the text is "[dim"; otherwise it is "[dim]"
      and the lines, less the final newline. */
  lemma DisplayTextShape(plan: Plan)
    ensures plan == [] ==> DisplayText(plan) == "[dim"
    ensures plan != [] ==> DisplayText(plan) + "\n" == "[dim]" + Lines(plan)
  {
    var d := "[dim]" + Lines(plan);
    if plan != [] {
      assert d[|d| - 1] == '\n';
      assert d[..|d| - 1] + "\n" == d;
    }
  }

  /** The loop of `_check_extensions` that fills `extensions_to_update`. */
  method PlanFor(pairs: seq<(string, Extension)>, versions: map<string, string>, trains: map<string, string>,
                 vge: (string, string) -> bool) returns (plan: Plan)
    requires Keyed(pairs, versions, trains)
    ensures plan == PlanUpdates(pairs, versions, trains, vge)
  {
    plan := [];
    for i := 0 to |pairs|
      invariant plan == PlanUpdates(pairs[..i], versions, trains, vge)
    {
      assert pairs[..i + 1][..i] == pairs[..i];
      var (key, ext) := pairs[i];
      if NeedsUpdate(key, ext, versions, trains, vge) {
        plan := OdPut(plan, ext.name, PatchFor(key, versions, trains));
      }
    }
    assert pairs[..|pairs|] == pairs;
  }

  /** The loop of `_check_extensions` that builds the display text. */
  method Display(plan: Plan) returns (text: string)
    ensures text == DisplayText(plan)
  {
    var display := "[dim]";
    for i := 0 to |plan|
      invariant display == "[dim]" + Lines(plan[..i])
    {
      assert plan[..i + 1][..i] == plan[..i];
      display := display + "\U{2022} " + plan[i].0 + ": " + plan[i].1.version + "\n";
    }
    assert plan[..|plan|] == plan;
    return display[..|display| - 1];
  }

  // ---------------------------------------------------------------------
  // Finding the instance

  /** The usage error for an instance neither API can read. */
  function CannotUpgradeMessage(instanceName: Option<string>): string {
    "Cannot upgrade instance " + PyStr(instanceName) + ", please delete your instance, including dependencies, and reinstall."
  }

  /** What one instance lookup gave. */
  datatype Lookup = Found(instance: map<string, Json>) | NotFound | HttpFailure

  /** `_get_resource_map`: the old API first; any HTTP error there (a
      missing instance included) falls back to the new API, where a missing
      instance is re-raised and any other HTTP error becomes a usage error.
      The flag says whether the instance needs an upgrade. */
  function ResolveInstance(m2: Lookup, m3: Lookup, instanceName: Option<string>): Result<(bool, map<string, Json>)> {
    if m2.Found? then Ok((true, m2.instance))
    else match m3
      case Found(inst) => Ok((false, inst))
      case NotFound => Err(ResourceNotFound)
      case HttpFailure => Err(ArgumentUsage(CannotUpgradeMessage(instanceName)))
  }

  /** The instance upgrade is required exactly when the old API found it; the
      new API is only consulted when the old one failed. */
  lemma ResolveInstanceCases(m2: Lookup, m3: Lookup, instanceName: Option<string>)
    ensures var r := ResolveInstance(m2, m3, instanceName);
      && (r.Ok? && r.value.0 <==> m2.Found?)
      && (m2.Found? ==> r == ResolveInstance(m2, NotFound, instanceName))
      && (!m2.Found? ==> (r.Err? <==> !m3.Found?))
      && (!m2.Found? && m3 == NotFound ==> r == Err(ResourceNotFound))
      && (!m2.Found? && m3 == HttpFailure ==> r.Err? && r.error.ArgumentUsage?)
  {
  }

  // ---------------------------------------------------------------------
  // Processing

  const SrMissingMessage := "Cannot determine the schema registry id from installed extensions, please provide the schema registry id via `--sr-id`."
  const InstallationFailed := "InstallationFailed"

  /** One entry of an updated extension's `statuses`. */
  datatype Status = Status(code: string, message: string)

  /** The error for the first status that reports a failed installation. */
  function StatusError(name: string, statuses: seq<Status>): (r: Option<Error>)
    ensures r.None? <==> forall i :: 0 <= i < |statuses| ==> statuses[i].code != InstallationFailed
  {
    if statuses == [] then None
    else if statuses[0].code == InstallationFailed
    then Some(AzureResponse("Updating extension " + name + " failed with the error message: " + statuses[0].message))
    else
      assert forall i :: 0 < i < |statuses| ==> statuses[i] == statuses[1..][i - 1];
      StatusError(name, statuses[1..])
  }

  /** The loop over an updated extension's statuses. */
  method CheckStatuses(name: string, statuses: seq<Status>) returns (err: Option<Error>)
    ensures err == StatusError(name, statuses)
  {
    var i := 0;
    while i < |statuses|
      invariant 0 <= i <= |statuses|
      invariant StatusError(name, statuses) == StatusError(name, statuses[i..])
    {
      assert statuses[i..][1..] == statuses[i + 1..];
      if statuses[i].code == InstallationFailed {
        return Some(AzureResponse("Updating extension " + name + " failed with the error message: " + statuses[i].message));
      }
      i := i + 1;
    }
    return None;
  }

  /** The error one PATCH raises: the HTTP error of `patch`, which stands
      for `extensions.update`, or a failed installation in the statuses it
      returns. */
  function Attempt(entry: (string, UpgradePatch), patch: (string, UpgradePatch) -> Result<seq<Status>>): Option<Error> {
    match patch(entry.0, entry.1)
    case Err(e) => Some(e)
    case Ok(statuses) => StatusError(entry.0, statuses)
  }

  /** Patching the planned extensions in order, stopping at the first
      error; the count is the number of PATCHes sent. */
  function PatchRun(plan: Plan, patch: (string, UpgradePatch) -> Result<seq<Status>>): (r: (Option<Error>, nat))
    ensures r.1 <= |plan|
    ensures plan != [] ==> r.1 >= 1
  {
    if plan == [] then (None, 0)
    else if Attempt(plan[0], patch).Some? then (Attempt(plan[0], patch), 1)
    else
      var rest := PatchRun(plan[1..], patch);
      (rest.0, rest.1 + 1)
  }

  /** Every PATCH before the last one sent succeeded; with no error all of
      them were sent, and an error is the one of the last PATCH sent. */
  lemma {:induction false} PatchRunStops(plan: Plan, patch: (string, UpgradePatch) -> Result<seq<Status>>)
    ensures var (failure, sent) := PatchRun(plan, patch);
      && (forall i :: 0 <= i < sent - 1 ==> Attempt(plan[i], patch).None?)
      && (failure.None? ==> sent == |plan| && forall i :: 0 <= i < |plan| ==> Attempt(plan[i], patch).None?)
      && (failure.Some? ==> 1 <= sent && failure == Attempt(plan[sent - 1], patch))
  {
    if plan != [] && Attempt(plan[0], patch).None? {
      PatchRunStops(plan[1..], patch);
      var rest := PatchRun(plan[1..], patch);
      forall i | 0 < i < |plan|
        ensures plan[i] == plan[1..][i - 1]
      {
      }
    }
  }

  /** The loop of `_process` over the planned PATCHes. */
  method RunPatches(plan: Plan, patch: (string, UpgradePatch) -> Result<seq<Status>>) returns (failure: Option<Error>, sent: nat)
    ensures (failure, sent) == PatchRun(plan, patch)
  {
    sent := 0;
    while sent < |plan|
      invariant sent <= |plan|
      invariant PatchRun(plan, patch) == (PatchRun(plan[sent..], patch).0, PatchRun(plan[sent..], patch).1 + sent)
    {
      assert plan[sent..][1..] == plan[sent + 1..];
      var updated := patch(plan[sent].0, plan[sent].1);
      if updated.Err? {
        return Some(updated.error), sent + 1;
      }
      failure := CheckStatuses(plan[sent].0, updated.value);
      if failure.Some? {
        return failure, sent + 1;
      }
      sent := sent + 1;
    }
    return None, sent;
  }

  /** `_process`'s preparation of an old instance: drop `systemData`, then
      in `properties` set the schema registry reference and the version and
      drop `schemaRegistryNamespace` and `components`. A missing
      `properties` raises `KeyError`, one that is not an object `TypeError`. */
  function PrepareInstance(instance: map<string, Json>, srId: string, version: string): Result<map<string, Json>> {
    var inst := instance - {"systemData"};
    if "properties" !in inst then Err(KeyError("properties"))
    else if !inst["properties"].JObj? then Err(TypeError)
    else
      var props := inst["properties"].fields["schemaRegistryRef" := JObj(map["resourceId" := JStr(srId)])]
                                            ["version" := JStr(version)];
      Ok(inst["properties" := JObj(props - {"schemaRegistryNamespace", "components"})])
  }

  /** The prepared instance: what it keeps, what it gains and what it loses. */
  lemma PreparedInstance(instance: map<string, Json>, srId: string, version: string)
    ensures PrepareInstance(instance, srId, version).Ok?
        <==> "properties" in instance && instance["properties"].JObj?
    ensures PrepareInstance(instance, srId, version).Ok? ==>
      var r := PrepareInstance(instance, srId, version).value;
      var props := r["properties"].fields;
      && r.Keys == instance.Keys - {"systemData"}
      && (forall k :: k in r && k != "properties" ==> r[k] == instance[k])
      && props.Keys == instance["properties"].fields.Keys + {"schemaRegistryRef", "version"}
                       - {"schemaRegistryNamespace", "components"}
      && props["schemaRegistryRef"] == JObj(map["resourceId" := JStr(srId)])
      && props["version"] == JStr(version)
      && (forall k :: k in props && k !in {"schemaRegistryRef", "version"} ==> props[k] == instance["properties"].fields[k])
  {
  }

  /** What `_process` yields: its result, the number of PATCHes sent and
      the instance body it ends with. */
  datatype ProcessRun = ProcessRun(result: Result<Option<Json>>, sent: nat, instance: map<string, Json>)

  /** `_process`: with an instance upgrade the schema registry id is needed
      before anything is sent and the instance is prepared; then the
      extensions are patched in plan order and, for an instance upgrade, the
      instance is created again. `create` stands for `begin_create_or_update`
      followed by `wait_for_terminal_state`. */
  function ProcessSpec(require: bool, srId: Option<string>, instance: map<string, Json>, newAioVersion: string,
                       plan: Plan, patch: (string, UpgradePatch) -> Result<seq<Status>>,
                       create: map<string, Json> -> Result<Json>): ProcessRun
  {
    if require && !TruthyStr(srId) then ProcessRun(Err(RequiredArgumentMissing(SrMissingMessage)), 0, instance)
    else
      var prepared := if require then PrepareInstance(instance, srId.value, newAioVersion) else Ok(instance);
      if prepared.Err? then ProcessRun(Err(prepared.error), 0, instance - {"systemData"})
      else
        var run := PatchRun(plan, patch);
        if run.0.Some? then ProcessRun(Err(run.0.value), run.1, prepared.value)
        else if !require then ProcessRun(Ok(None), run.1, prepared.value)
        else match create(prepared.value)
          case Err(e) => ProcessRun(Err(e), run.1, prepared.value)
          case Ok(created) => ProcessRun(Ok(Some(created)), run.1, prepared.value)
  }

  /** A missing schema registry id stops an instance upgrade before any
      PATCH; a successful run sent every planned PATCH, each accepted, and
      re-created the instance exactly when it had to be upgraded. */
  lemma ProcessOutcomes(require: bool, srId: Option<string>, instance: map<string, Json>, newAioVersion: string,
                        plan: Plan, patch: (string, UpgradePatch) -> Result<seq<Status>>,
                        create: map<string, Json> -> Result<Json>)
    ensures var p := ProcessSpec(require, srId, instance, newAioVersion, plan, patch, create);
      && (require && !TruthyStr(srId) ==>
            p.result == Err(RequiredArgumentMissing(SrMissingMessage)) && p.sent == 0 && p.instance == instance)
      && (p.result.Ok? ==>
            (p.sent == |plan| && (p.result.value.Some? <==> require)
             && forall i :: 0 <= i < |plan| ==> Attempt(plan[i], patch).None?))
      && (!require ==> p.instance == instance)
      && (require && TruthyStr(srId) && PrepareInstance(instance, srId.value, newAioVersion).Ok? ==>
            p.instance == PrepareInstance(instance, srId.value, newAioVersion).value)
      && (p.result.Ok? && p.result.value.Some? ==> create(p.instance) == Ok(p.result.value.value))
  {
    PatchRunStops(plan, patch);
  }

  // ---------------------------------------------------------------------
  // The manager

  /** How `do_work` ends when it raises nothing. */
  datatype Outcome = NothingToUpgrade | Declined | Upgraded(result: Option<Json>)

  /** `do_work` end to end: find the instance, require the connected
      cluster (`cluster` is its name or the error looking it up raised),
      plan the PATCHes, stop when there is nothing to do or the prompt
      (`proceed`) is declined, and otherwise process. */
  function WorkSpec(m2: Lookup, m3: Lookup, instanceName: Option<string>, cluster: Result<string>, exts: seq<Extension>,
                    versions: map<string, string>, trains: map<string, string>, vge: (string, string) -> bool,
                    srId: Option<string>, proceed: bool,
                    patch: (string, UpgradePatch) -> Result<seq<Status>>, create: map<string, Json> -> Result<Json>)
    : Result<Outcome>
    requires Complete(versions, trains)
  {
    match ResolveInstance(m2, m3, instanceName)
    case Err(e) => Err(e)
    case Ok((require, inst)) =>
      if cluster.Err? then Err(cluster.error)
      else UpgradeFrom(require, inst, exts, versions, trains, vge, srId, proceed, patch, create)
  }

  /** `do_work` once the instance and the cluster are known: plan the
      PATCHes, then finish. */
  function UpgradeFrom(require: bool, inst: map<string, Json>, exts: seq<Extension>,
                       versions: map<string, string>, trains: map<string, string>, vge: (string, string) -> bool,
                       srId: Option<string>, proceed: bool,
                       patch: (string, UpgradePatch) -> Result<seq<Status>>, create: map<string, Json> -> Result<Json>)
    : Result<Outcome>
    requires Complete(versions, trains)
  {
    match PlanOf(exts, versions, trains, vge)
    case Err(e) => Err(e)
    case Ok(plan) =>
      OrderedIsKeyed(exts, versions, trains);
      var sr := SrBackfill(srId, LastOfType(exts, IotOpsType).value.configurationSettings);
      Finish(require, inst, AioVersionOverride, plan, sr, proceed, patch, create)
  }

  /** The end of `do_work`, once the PATCHes are planned. */
  function Finish(require: bool, instance: map<string, Json>, newAioVersion: string, plan: Plan, srId: Option<string>,
                  proceed: bool,
                  patch: (string, UpgradePatch) -> Result<seq<Status>>, create: map<string, Json> -> Result<Json>)
    : Result<Outcome>
  {
    if plan == [] && !require then Ok(NothingToUpgrade)
    else if !proceed then Ok(Declined)
    else
      var p := ProcessSpec(require, srId, instance, newAioVersion, plan, patch, create);
      if p.result.Ok? then Ok(Upgraded(p.result.value)) else Err(p.result.error)
  }

  /** The instance body the manager holds once `do_work` has finished:
      untouched when it stops before processing, otherwise the body
      `_process` leaves. */
  function FinishInstance(require: bool, instance: map<string, Json>, newAioVersion: string, plan: Plan,
                          srId: Option<string>, proceed: bool,
                          patch: (string, UpgradePatch) -> Result<seq<Status>>,
                          create: map<string, Json> -> Result<Json>): map<string, Json>
  {
    if (plan == [] && !require) || !proceed then instance
    else ProcessSpec(require, srId, instance, newAioVersion, plan, patch, create).instance
  }

  /** A new instance is never changed; an old one that can be prepared ends
      up prepared, and that prepared body is what is created again. */
  lemma FinishedInstance(require: bool, instance: map<string, Json>, newAioVersion: string, plan: Plan,
                         srId: Option<string>, proceed: bool,
                         patch: (string, UpgradePatch) -> Result<seq<Status>>, create: map<string, Json> -> Result<Json>)
    ensures var f := FinishInstance(require, instance, newAioVersion, plan, srId, proceed, patch, create);
      var w := Finish(require, instance, newAioVersion, plan, srId, proceed, patch, create);
      && (!require ==> f == instance)
      && (require && proceed && TruthyStr(srId) && PrepareInstance(instance, srId.value, newAioVersion).Ok? ==>
            f == PrepareInstance(instance, srId.value, newAioVersion).value)
      && (w.Ok? && w.value.Upgraded? && w.value.result.Some? ==> create(f) == Ok(w.value.result.value))
  {
    ProcessOutcomes(require, srId, instance, newAioVersion, plan, patch, create);
  }

  /** `do_work` stops at the first failing stage, in order: the instance,
      the cluster, the ordering. Past them it does nothing exactly when no
      PATCH is planned and the instance is already new, asks before any
      work, and reports success only when every planned PATCH was accepted;
      an old instance with no schema registry id fails before anything is
      sent. */
  lemma WorkOutcomes(m2: Lookup, m3: Lookup, instanceName: Option<string>, cluster: Result<string>, exts: seq<Extension>,
                     versions: map<string, string>, trains: map<string, string>, vge: (string, string) -> bool,
                     srId: Option<string>, proceed: bool,
                     patch: (string, UpgradePatch) -> Result<seq<Status>>, create: map<string, Json> -> Result<Json>)
    requires Complete(versions, trains)
    ensures var w := WorkSpec(m2, m3, instanceName, cluster, exts, versions, trains, vge, srId, proceed, patch, create);
      var resolved := ResolveInstance(m2, m3, instanceName);
      var planned := PlanOf(exts, versions, trains, vge);
      var ready := resolved.Ok? && cluster.Ok? && planned.Ok?;
      && (resolved.Err? ==> w == Err(resolved.error))
      && (resolved.Ok? && cluster.Err? ==> w == Err(cluster.error))
      && (resolved.Ok? && cluster.Ok? && planned.Err? ==> w == Err(planned.error))
      && (w == Ok(NothingToUpgrade) <==> ready && !m2.Found? && planned.value == [])
      && (w == Ok(Declined) <==> ready && (m2.Found? || planned.value != []) && !proceed)
      && (w.Ok? && w.value.Upgraded? ==>
            (ready && proceed && (w.value.result.Some? <==> m2.Found?)
             && forall i :: 0 <= i < |planned.value| ==> Attempt(planned.value[i], patch).None?))
      && (ready ==> LastOfType(exts, IotOpsType).Some?)
      && (ready && m2.Found? && proceed
          && !TruthyStr(SrBackfill(srId, LastOfType(exts, IotOpsType).value.configurationSettings)) ==>
            w == Err(RequiredArgumentMissing(SrMissingMessage)))
  {
    var planned := PlanOf(exts, versions, trains, vge);
    if ResolveInstance(m2, m3, instanceName).Ok? && cluster.Ok? && planned.Ok? {
      OrderedIsKeyed(exts, versions, trains);
      var require := ResolveInstance(m2, m3, instanceName).value.0;
      var sr := SrBackfill(srId, LastOfType(exts, IotOpsType).value.configurationSettings);
      ProcessOutcomes(require, sr, ResolveInstance(m2, m3, instanceName).value.1, AioVersionOverride, planned.value,
                      patch, create);
    }
  }

  class UpgradeManager {
    const resourceGroupName: string
    const instanceName: Option<string>
    var clusterName: Option<string>
    var srResourceId: Option<string>
    var requireInstanceUpgrade: bool
    var instance: map<string, Json>
    var extensionsToUpdate: Plan
    var newAioVersion: string

    /** The attributes `__init__` does not set start out false or empty;
        `do_work` sets each before reading it. */
    constructor (resourceGroupName: string, instanceName: Option<string>, clusterName: Option<string>,
                 srResourceId: Option<string>)
      ensures this.resourceGroupName == resourceGroupName && this.instanceName == instanceName
      ensures this.clusterName == clusterName && this.srResourceId == srResourceId
      ensures !requireInstanceUpgrade && instance == map[] && extensionsToUpdate == [] && newAioVersion == ""
    {
      this.resourceGroupName := resourceGroupName;
      this.instanceName := instanceName;
      this.clusterName := clusterName;
      this.srResourceId := srResourceId;
      requireInstanceUpgrade := false;
      instance := map[];
      extensionsToUpdate := [];
      newAioVersion := "";
    }

    /** `_get_resource_map`, with the two lookups' outcomes as inputs. */
    method GetResourceMap(m2: Lookup, m3: Lookup) returns (err: Option<Error>)
      modifies this`requireInstanceUpgrade, this`instance
      ensures requireInstanceUpgrade == m2.Found?
      ensures err.None? <==> ResolveInstance(m2, m3, instanceName).Ok?
      ensures err.Some? ==> err.value == ResolveInstance(m2, m3, instanceName).error && instance == old(instance)
      ensures err.None? ==> instance == ResolveInstance(m2, m3, instanceName).value.1
    {
      requireInstanceUpgrade := true;
      if m2.Found? {
        instance := m2.instance;
        return None;
      }
      requireInstanceUpgrade := false;
      match m3
      case Found(inst) =>
        instance := inst;
        return None;
      case NotFound =>
        return Some(ResourceNotFound);
      case HttpFailure =>
        return Some(ArgumentUsage(CannotUpgradeMessage(instanceName)));
    }

    /** `_check_extensions`: plan the PATCHes, back-fill the schema registry
        id and return the display text. */
    method CheckExtensions(exts: seq<Extension>, enablementVersions: map<string, string>, instanceVersions: map<string, string>,
                           enablementTrains: map<string, string>, instanceTrains: map<string, string>,
                           vge: (string, string) -> bool)
      returns (r: Result<string>)
      requires Complete(VersionMap(enablementVersions, instanceVersions), TrainMap(enablementTrains, instanceTrains))
      modifies this`newAioVersion, this`extensionsToUpdate, this`srResourceId
      ensures newAioVersion == AioVersionOverride
      ensures var planned := PlanOf(exts, VersionMap(enablementVersions, instanceVersions),
                                    TrainMap(enablementTrains, instanceTrains), vge);
        && (r.Err? <==> planned.Err?)
        && (r.Err? ==>
              (r.error == planned.error
               && extensionsToUpdate == old(extensionsToUpdate) && srResourceId == old(srResourceId)))
        && (r.Ok? ==> extensionsToUpdate == planned.value)
      ensures r.Ok? ==>
        (LastOfType(exts, IotOpsType).Some?
         && srResourceId == SrBackfill(old(srResourceId), LastOfType(exts, IotOpsType).value.configurationSettings)
         && r.value == DisplayText(extensionsToUpdate))
    {
      var versions := VersionMap(enablementVersions, instanceVersions);
      var trains := TrainMap(enablementTrains, instanceTrains);
      newAioVersion := versions[IotOpsKey];

      var ordered := OrderExtensions(exts);
      if ordered.Err? {
        return Err(ordered.error);
      }
      var pairs := ordered.value;
      OrderedIsKeyed(exts, versions, trains);

      var plan := PlanFor(pairs, versions, trains, vge);
      extensionsToUpdate := plan;
      var iotOps := LastOfType(exts, IotOpsType).value;
      srResourceId := SrBackfill(srResourceId, iotOps.configurationSettings);

      var text := Display(plan);
      return Ok(text);
    }

    /** `_process`, with `patch` for `extensions.update` and `create` for
        the instance re-creation. */
    method Process(patch: (string, UpgradePatch) -> Result<seq<Status>>, create: map<string, Json> -> Result<Json>)
      returns (r: Result<Option<Json>>, sent: nat)
      modifies this`instance
      ensures ProcessRun(r, sent, instance) == ProcessSpec(requireInstanceUpgrade, srResourceId, old(instance),
                                                           newAioVersion, extensionsToUpdate, patch, create)
    {
      sent := 0;
      if requireInstanceUpgrade {
        if !TruthyStr(srResourceId) {
          return Err(RequiredArgumentMissing(SrMissingMessage)), 0;
        }
        var prepared := PrepareInstance(instance, srResourceId.value, newAioVersion);
        if prepared.Err? {
          instance := instance - {"systemData"};
          return Err(prepared.error), 0;
        }
        instance := prepared.value;
      }

      var failure;
      failure, sent := RunPatches(extensionsToUpdate, patch);
      if failure.Some? {
        return Err(failure.value), sent;
      }

      if requireInstanceUpgrade {
        var created := create(instance);
        if created.Err? {
          return Err(created.error), sent;
        }
        return Ok(Some(created.value)), sent;
      }
      return Ok(None), sent;
    }

    /** `do_work`: `cluster` is the connected cluster's name, or the error
        looking it up raised; `proceed` is the answer to the confirmation
        prompt. */
    method DoWork(m2: Lookup, m3: Lookup, cluster: Result<string>, exts: seq<Extension>,
                  enablementVersions: map<string, string>, instanceVersions: map<string, string>,
                  enablementTrains: map<string, string>, instanceTrains: map<string, string>,
                  vge: (string, string) -> bool, proceed: bool,
                  patch: (string, UpgradePatch) -> Result<seq<Status>>, create: map<string, Json> -> Result<Json>)
      returns (r: Result<Outcome>)
      requires Complete(VersionMap(enablementVersions, instanceVersions), TrainMap(enablementTrains, instanceTrains))
      modifies this`clusterName, this`srResourceId, this`requireInstanceUpgrade, this`instance,
               this`extensionsToUpdate, this`newAioVersion
      ensures r == WorkSpec(m2, m3, instanceName, cluster, exts, VersionMap(enablementVersions, instanceVersions),
                            TrainMap(enablementTrains, instanceTrains), vge, old(srResourceId), proceed, patch, create)
      ensures requireInstanceUpgrade == m2.Found?
      ensures ResolveInstance(m2, m3, instanceName).Err? ==>
        && instance == old(instance) && clusterName == old(clusterName)
        && srResourceId == old(srResourceId) && extensionsToUpdate == old(extensionsToUpdate)
        && newAioVersion == old(newAioVersion)
      ensures ResolveInstance(m2, m3, instanceName).Ok? && cluster.Err? ==>
        && instance == ResolveInstance(m2, m3, instanceName).value.1 && clusterName == old(clusterName)
        && srResourceId == old(srResourceId) && extensionsToUpdate == old(extensionsToUpdate)
        && newAioVersion == old(newAioVersion)
      ensures ResolveInstance(m2, m3, instanceName).Ok? && cluster.Ok? ==>
        && clusterName == Some(cluster.value)
        && Concluded(ResolveInstance(m2, m3, instanceName).value.1, exts, VersionMap(enablementVersions, instanceVersions),
                     TrainMap(enablementTrains, instanceTrains), vge, old(srResourceId), old(extensionsToUpdate),
                     proceed, patch, create)
    {
      var err := GetResourceMap(m2, m3);
      if err.Some? {
        return Err(err.value);
      }
      if cluster.Err? {
        return Err(cluster.error);
      }
      clusterName := Some(cluster.value);
      r := CheckAndConclude(exts, enablementVersions, instanceVersions, enablementTrains, instanceTrains, vge,
                            proceed, patch, create);
    }

    /** What `do_work` leaves behind once it gets past the cluster lookup,
        from the instance `resolved` it found and the server's and plan's
        earlier values: the AIO version is the override, and when planning
        succeeds the plan, the backfilled schema registry id and the
        instance after `_process` (or unchanged when it stops first). */
    ghost predicate Concluded(resolved: map<string, Json>, exts: seq<Extension>,
                             versions: map<string, string>, trains: map<string, string>, vge: (string, string) -> bool,
                             sr0: Option<string>, plan0: Plan, proceed: bool,
                             patch: (string, UpgradePatch) -> Result<seq<Status>>,
                             create: map<string, Json> -> Result<Json>)
      requires Complete(versions, trains)
      reads this
    {
      var planned := PlanOf(exts, versions, trains, vge);
      && newAioVersion == AioVersionOverride
      && (planned.Err? ==> instance == resolved && srResourceId == sr0 && extensionsToUpdate == plan0)
      && (planned.Ok? ==>
            && extensionsToUpdate == planned.value
            && LastOfType(exts, IotOpsType).Some?
            && srResourceId == SrBackfill(sr0, LastOfType(exts, IotOpsType).value.configurationSettings)
            && instance == FinishInstance(requireInstanceUpgrade, resolved, AioVersionOverride, planned.value,
                                          srResourceId, proceed, patch, create))
    }

    /** `_check_extensions` followed by the end of `do_work`. */
    method CheckAndConclude(exts: seq<Extension>,
                            enablementVersions: map<string, string>, instanceVersions: map<string, string>,
                            enablementTrains: map<string, string>, instanceTrains: map<string, string>,
                            vge: (string, string) -> bool, proceed: bool,
                            patch: (string, UpgradePatch) -> Result<seq<Status>>,
                            create: map<string, Json> -> Result<Json>)
      returns (r: Result<Outcome>)
      requires Complete(VersionMap(enablementVersions, instanceVersions), TrainMap(enablementTrains, instanceTrains))
      modifies this`srResourceId, this`instance, this`extensionsToUpdate, this`newAioVersion
      ensures r == UpgradeFrom(requireInstanceUpgrade, old(instance), exts, VersionMap(enablementVersions, instanceVersions),
                               TrainMap(enablementTrains, instanceTrains), vge, old(srResourceId), proceed, patch, create)
      ensures Concluded(old(instance), exts, VersionMap(enablementVersions, instanceVersions),
                        TrainMap(enablementTrains, instanceTrains), vge, old(srResourceId), old(extensionsToUpdate),
                        proceed, patch, create)
    {
      var text := CheckExtensions(exts, enablementVersions, instanceVersions, enablementTrains, instanceTrains, vge);
      if text.Err? {
        return Err(text.error);
      }
      r := Conclude(proceed, patch, create);
    }

    /** The end of `do_work`: nothing to do, the prompt declined, or
        `_process`. */
    method Conclude(proceed: bool, patch: (string, UpgradePatch) -> Result<seq<Status>>,
                    create: map<string, Json> -> Result<Json>)
      returns (r: Result<Outcome>)
      modifies this`instance
      ensures r == Finish(requireInstanceUpgrade, old(instance), newAioVersion, extensionsToUpdate, srResourceId, proceed,
                          patch, create)
      ensures instance == FinishInstance(requireInstanceUpgrade, old(instance), newAioVersion, extensionsToUpdate,
                                         srResourceId, proceed, patch, create)
    {
      if extensionsToUpdate == [] && !requireInstanceUpgrade {
        return Ok(NothingToUpgrade);
      }
      if !proceed {
        return Ok(Declined);
      }
      var result, sent := Process(patch, create);
      if result.Err? {
        return Err(result.error);
      }
      return Ok(Upgraded(result.value));
    }
  }
}
