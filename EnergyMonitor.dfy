/** The rule-based parts of the campus energy monitor: the threshold alerts,
    the choice of the best regression model by R2 score, the non-negative
    clamp on predictions, the cost projection and the appliance registry. */
module EnergyMonitor {
  import opened Seqs
  import opened Text

  /** `EnergyConfig.HIGH_THRESHOLD`, in kWh. */
  const HighThreshold: real := 100.0
  /** `EnergyConfig.CRITICAL_THRESHOLD`, in kWh. */
  const CriticalThreshold: real := 120.0
  /** `EnergyConfig.ELECTRICITY_RATE`, per kWh. */
  const ElectricityRate: real := 8.5

  // ---------------------------------------------------------------------
  // AlertSystem.check_thresholds

  /** The alerts `check_thresholds` can raise; the text of each message is
      determined by the case and its field. */
  datatype Alert =
    | CriticalEnergy(energy: real)
    | HighEnergy(energy: real)
    | AcLowOccupancy(appliance: string)
    | LightsEmptyArea(appliance: string)
    | HighTemperature(temperature: real)

  /** One entry of `appliance_usage`: an appliance and its power draw. */
  datatype Usage = Usage(appliance: string, power: real)

  /** The two fields of `building_data` the rules read. */
  datatype Building = Building(temperature: real, occupancy: int)

  predicate IsEnergyAlert(a: Alert)
  {
    a.CriticalEnergy? || a.HighEnergy?
  }

  /** The single energy rule: critical from 120 kWh, high from 100 kWh. */
  function EnergyAlerts(energy: real): seq<Alert>
  {
    if energy >= CriticalThreshold then [CriticalEnergy(energy)]
    else if energy >= HighThreshold then [HighEnergy(energy)]
    else []
  }

  /** The alerts one running appliance raises, air conditioning first. */
  function ApplianceAlerts(u: Usage, occupancy: int): seq<Alert>
  {
    AcAlerts(u, occupancy) + LightsAlerts(u, occupancy)
  }

  /** The air-conditioning rule: a running appliance with "AC" in its name
      while fewer than 20 people are in the building. */
  function AcAlerts(u: Usage, occupancy: int): seq<Alert>
  {
    if IsRunning(u) && Contains(u.appliance, "AC") && occupancy < 20 then [AcLowOccupancy(u.appliance)] else []
  }

  /** The lights rule: a running appliance with "Lights" in its name while
      fewer than 10 people are in the building. */
  function LightsAlerts(u: Usage, occupancy: int): seq<Alert>
  {
    if IsRunning(u) && Contains(u.appliance, "Lights") && occupancy < 10 then [LightsEmptyArea(u.appliance)] else []
  }

  /** The appliance alerts, in the iteration order of `appliance_usage`. */
  function UsageAlerts(usage: seq<Usage>, occupancy: int): seq<Alert>
  {
    if usage == [] then []
    else UsageAlerts(usage[..|usage| - 1], occupancy) + ApplianceAlerts(usage[|usage| - 1], occupancy)
  }

  function TemperatureAlerts(temperature: real): seq<Alert>
  {
    if temperature > 32.0 then [HighTemperature(temperature)] else []
  }

  /** The alert list `check_thresholds` returns. */
  function ThresholdAlerts(energy: real, usage: seq<Usage>, building: Building): seq<Alert>
  {
    EnergyAlerts(energy) + UsageAlerts(usage, building.occupancy) + TemperatureAlerts(building.temperature)
  }

  /** `check_thresholds(current_energy, appliance_usage, building_data)`. */
  method CheckThresholds(energy: real, usage: seq<Usage>, building: Building) returns (alerts: seq<Alert>)
    ensures alerts == ThresholdAlerts(energy, usage, building)
  {
    alerts := [];
    if energy >= CriticalThreshold {
      alerts := alerts + [CriticalEnergy(energy)];
    } else if energy >= HighThreshold {
      alerts := alerts + [HighEnergy(energy)];
    }
    var i := 0;
    while i < |usage|
      invariant 0 <= i <= |usage|
      invariant alerts == EnergyAlerts(energy) + UsageAlerts(usage[..i], building.occupancy)
    {
      var found := ApplianceCheck(usage[i], building.occupancy);
      CheckStep(energy, usage, i, building.occupancy, alerts, alerts + found);
      alerts := alerts + found;
      i := i + 1;
    }
    assert usage[..|usage|] == usage;
    if building.temperature > 32.0 {
      alerts := alerts + [HighTemperature(building.temperature)];
    }
  }

  /** The body of the loop over `appliance_usage`: the alerts one appliance adds. */
  method ApplianceCheck(u: Usage, occupancy: int) returns (found: seq<Alert>)
    ensures found == AcAlerts(u, occupancy) + LightsAlerts(u, occupancy)
  {
    found := [];
    if u.power > 0.0 {
      if Contains(u.appliance, "AC") && occupancy < 20 {
        found := found + [AcLowOccupancy(u.appliance)];
      }
      if Contains(u.appliance, "Lights") && occupancy < 10 {
        found := found + [LightsEmptyArea(u.appliance)];
      }
    }
  }

  lemma UsageAlertsSnoc(init: seq<Usage>, last: Usage, occupancy: int)
    ensures UsageAlerts(init + [last], occupancy) == UsageAlerts(init, occupancy) + ApplianceAlerts(last, occupancy)
  {
    assert (init + [last])[..|init|] == init;
  }

  /** The loop invariant carried over one more appliance. */
  lemma CheckStep(energy: real, usage: seq<Usage>, i: nat, occupancy: int, before: seq<Alert>, after: seq<Alert>)
    requires i < |usage|
    requires before == EnergyAlerts(energy) + UsageAlerts(usage[..i], occupancy)
    requires after == before + (AcAlerts(usage[i], occupancy) + LightsAlerts(usage[i], occupancy))
    ensures after == EnergyAlerts(energy) + UsageAlerts(usage[..i + 1], occupancy)
  {
    var e, u, a := EnergyAlerts(energy), UsageAlerts(usage[..i], occupancy), ApplianceAlerts(usage[i], occupancy);
    assert UsageAlerts(usage[..i + 1], occupancy) == u + a by {
      assert usage[..i + 1] == usage[..i] + [usage[i]];
      UsageAlertsSnoc(usage[..i], usage[i], occupancy);
    }
    assert after == e + (u + a) by {
      assert after == e + u + a;
    }
  }

  /** Appliance rules never raise an energy alert. */
  lemma {:induction false} UsageAlertsNotEnergy(usage: seq<Usage>, occupancy: int)
    ensures forall a :: a in UsageAlerts(usage, occupancy) ==> !IsEnergyAlert(a) && !a.HighTemperature?
  {
    if usage != [] {
      UsageAlertsNotEnergy(usage[..|usage| - 1], occupancy);
    }
  }

  /** At most one energy alert is raised, and it comes first: critical from
      120 kWh, high from 100 up to 120, none below 100. */
  lemma EnergyAlertRule(energy: real, usage: seq<Usage>, building: Building)
    ensures var alerts := ThresholdAlerts(energy, usage, building);
      && |Filter(IsEnergyAlert, alerts)| == (if energy >= HighThreshold then 1 else 0)
      && (energy >= CriticalThreshold ==> alerts[0] == CriticalEnergy(energy))
      && (HighThreshold <= energy < CriticalThreshold ==> alerts[0] == HighEnergy(energy))
  {
    var rest := UsageAlerts(usage, building.occupancy);
    var temp := TemperatureAlerts(building.temperature);
    UsageAlertsNotEnergy(usage, building.occupancy);
    FilterAppend(IsEnergyAlert, EnergyAlerts(energy) + rest, temp);
    FilterAppend(IsEnergyAlert, EnergyAlerts(energy), rest);
    FilterNone(IsEnergyAlert, rest);
    FilterNone(IsEnergyAlert, temp);
  }

  /** The temperature alert is raised exactly above 32 degrees, and last. */
  lemma TemperatureAlertRule(energy: real, usage: seq<Usage>, building: Building)
    ensures var alerts := ThresholdAlerts(energy, usage, building);
      && (HighTemperature(building.temperature) in alerts <==> building.temperature > 32.0)
      && (building.temperature > 32.0 ==> alerts[|alerts| - 1] == HighTemperature(building.temperature))
  {
    UsageAlertsNotEnergy(usage, building.occupancy);
  }

  /** The appliance draws power. */
  predicate IsRunning(u: Usage)
  {
    u.power > 0.0
  }

  /** Some entry of the usage names the appliance with a positive draw. */
  predicate Runs(usage: seq<Usage>, name: string)
  {
    exists i :: 0 <= i < |usage| && usage[i].appliance == name && IsRunning(usage[i])
  }

  lemma RunsSnoc(init: seq<Usage>, last: Usage, name: string)
    ensures Runs(init + [last], name) <==> Runs(init, name) || (last.appliance == name && IsRunning(last))
  {
    var usage := init + [last];
    if Runs(usage, name) {
      var i :| 0 <= i < |usage| && usage[i].appliance == name && IsRunning(usage[i]);
      if i < |init| {
        assert init[i] == usage[i];
      }
    }
    if Runs(init, name) {
      var i :| 0 <= i < |init| && init[i].appliance == name && IsRunning(init[i]);
      assert usage[i] == init[i];
    }
    if last.appliance == name && IsRunning(last) {
      assert usage[|init|] == last;
    }
  }

  /** An air-conditioning alert names an appliance that runs with "AC" in its
      name while occupancy is below 20; and every such appliance raises one. */
  lemma {:induction false} AcAlertRule(usage: seq<Usage>, occupancy: int, name: string)
    ensures AcLowOccupancy(name) in UsageAlerts(usage, occupancy) <==>
      occupancy < 20 && Contains(name, "AC") && Runs(usage, name)
  {
    if usage != [] {
      var init := usage[..|usage| - 1];
      var last := usage[|usage| - 1];
      assert usage == init + [last];
      AcAlertRule(init, occupancy, name);
      UsageAlertsSnoc(init, last, occupancy);
      RunsSnoc(init, last, name);
    }
  }

  /** A lights alert names an appliance that runs with "Lights" in its name
      while occupancy is below 10; and every such appliance raises one. */
  lemma {:induction false} LightsAlertRule(usage: seq<Usage>, occupancy: int, name: string)
    ensures LightsEmptyArea(name) in UsageAlerts(usage, occupancy) <==>
      occupancy < 10 && Contains(name, "Lights") && Runs(usage, name)
  {
    if usage != [] {
      var init := usage[..|usage| - 1];
      var last := usage[|usage| - 1];
      assert usage == init + [last];
      LightsAlertRule(init, occupancy, name);
      UsageAlertsSnoc(init, last, occupancy);
      RunsSnoc(init, last, name);
    }
  }

  /** Appliances drawing no power raise no alert: removing them changes nothing. */
  lemma {:induction false} IdleAppliancesSilent(usage: seq<Usage>, occupancy: int)
    ensures UsageAlerts(usage, occupancy) == UsageAlerts(Filter(IsRunning, usage), occupancy)
  {
    if usage != [] {
      var init := usage[..|usage| - 1];
      var last := usage[|usage| - 1];
      assert usage == init + [last];
      IdleAppliancesSilent(init, occupancy);
      FilterAppend(IsRunning, init, [last]);
      UsageAlertsSnoc(init, last, occupancy);
      var running := Filter(IsRunning, init);
      if IsRunning(last) {
        assert Filter(IsRunning, [last]) == [last];
        UsageAlertsSnoc(running, last, occupancy);
      } else {
        assert Filter(IsRunning, [last]) == [];
        assert running + [] == running;
      }
    }
  }

  // ---------------------------------------------------------------------
  // MLModelComparator.train_and_compare_models

  /** `best_score`: minus infinity or a finite R2 score. */
  datatype Score = NegInfinity | Finite(value: real)

  /** `r2 > best_score`. */
  predicate Beats(r2: real, best: Score)
  {
    best.NegInfinity? || r2 > best.value
  }

  /** The state the loop reaches over the outcomes of a run: the best score
      and the position of the model that set it. Each outcome is the R2 score
      of a model, or `None` when fitting or predicting raised. */
  datatype Selection = Selection(score: Score, index: Option<nat>)

  function Select(outcomes: seq<Option<real>>): (r: Selection)
    ensures r.index.Some? ==> r.index.value < |outcomes|
  {
    if outcomes == [] then Selection(NegInfinity, None)
    else
      var prev := Select(outcomes[..|outcomes| - 1]);
      var last := outcomes[|outcomes| - 1];
      if last.Some? && Beats(last.value, prev.score) then Selection(Finite(last.value), Some(|outcomes| - 1))
      else prev
  }

  /** The selection is the first model with the strictly highest score: no
      model scores above it, every earlier one scores below it, a failed
      model is never chosen, and a model is chosen exactly when one succeeded. */
  lemma {:induction false} SelectIsFirstArgmax(outcomes: seq<Option<real>>)
    ensures var r := Select(outcomes);
      && (r.index.None? <==> forall j :: 0 <= j < |outcomes| ==> outcomes[j].None?)
      && (r.index.None? ==> r.score == NegInfinity)
      && (r.index.Some? ==>
        var k := r.index.value;
        && outcomes[k].Some? && r.score == Finite(outcomes[k].value)
        && (forall j :: 0 <= j < |outcomes| && outcomes[j].Some? ==> outcomes[j].value <= outcomes[k].value)
        && (forall j :: 0 <= j < k && outcomes[j].Some? ==> outcomes[j].value < outcomes[k].value))
  {
    if outcomes != [] {
      var init := outcomes[..|outcomes| - 1];
      SelectIsFirstArgmax(init);
      assert forall j :: 0 <= j < |init| ==> init[j] == outcomes[j];
    }
  }

  /** A tie keeps the earlier model. */
  lemma TieKeepsEarlier(outcomes: seq<Option<real>>, i: nat, j: nat)
    requires i < j < |outcomes| && outcomes[i].Some? && outcomes[j].Some?
    requires outcomes[i].value == outcomes[j].value
    ensures Select(outcomes).index != Some(j)
  {
    SelectIsFirstArgmax(outcomes);
  }

  /** `self.results` after a run: each model name mapped to its R2 score, or
      to `None` for a model that failed. */
  function ResultsOf(names: seq<string>, outcomes: seq<Option<real>>): (m: map<string, Option<real>>)
    requires |names| == |outcomes|
    ensures forall n :: n in m <==> n in names
  {
    if names == [] then map[]
    else ResultsOf(names[..|names| - 1], outcomes[..|outcomes| - 1])[names[|names| - 1] := outcomes[|outcomes| - 1]]
  }

  /** With distinct names, each name maps to its own outcome. */
  lemma {:induction false} ResultsOfEntry(names: seq<string>, outcomes: seq<Option<real>>, k: nat)
    requires |names| == |outcomes| && NoDuplicates(names) && k < |names|
    ensures names[k] in ResultsOf(names, outcomes) && ResultsOf(names, outcomes)[names[k]] == outcomes[k]
  {
    var n := |names| - 1;
    var prev := ResultsOf(names[..n], outcomes[..n]);
    assert ResultsOf(names, outcomes) == prev[names[n] := outcomes[n]];
    if k < n {
      NoDuplicatesPrefix(names, n);
      assert names[k] != names[n];
      assert names[..n][k] == names[k] && outcomes[..n][k] == outcomes[k];
      ResultsOfEntry(names[..n], outcomes[..n], k);
    }
  }

  /** One more model in the loop: its result is stored under its name, and
      it becomes the selection exactly when it beats the best score so far. */
  lemma RunStep(names: seq<string>, outcomes: seq<Option<real>>, i: nat)
    requires |names| == |outcomes| && i < |names|
    ensures ResultsOf(names[..i + 1], outcomes[..i + 1]) == ResultsOf(names[..i], outcomes[..i])[names[i] := outcomes[i]]
    ensures Select(outcomes[..i + 1]) ==
      if outcomes[i].Some? && Beats(outcomes[i].value, Select(outcomes[..i]).score)
      then Selection(Finite(outcomes[i].value), Some(i))
      else Select(outcomes[..i])
  {
    assert names[..i + 1][..i] == names[..i] && outcomes[..i + 1][..i] == outcomes[..i];
  }

  class ModelComparator {
    /** The names of `self.models`, in insertion order. */
    var models: seq<string>
    var results: map<string, Option<real>>
    var bestModel: Option<string>
    var bestScore: Score

    constructor ()
      ensures models == [] && results == map[] && bestModel == None && bestScore == NegInfinity
    {
      models, results, bestModel, bestScore := [], map[], None, NegInfinity;
    }

    /** `initialize_models()`: the four regressors, by name. */
    method InitializeModels()
      modifies this
      ensures models == ["Random Forest", "Gradient Boosting", "SVR", "Decision Tree"]
      ensures results == old(results) && bestModel == old(bestModel) && bestScore == old(bestScore)
    {
      models := ["Random Forest", "Gradient Boosting", "SVR", "Decision Tree"];
    }

    /** `train_and_compare_models(...)`, given the outcome of fitting and
        scoring each model in turn. The best score is reset for the run, the
        best model is not: a run in which every model fails keeps the
        previous best model. */
    method TrainAndCompare(outcomes: seq<Option<real>>)
      requires |outcomes| == |models|
      modifies this
      ensures models == old(models)
      ensures results == ResultsOf(models, outcomes)
      ensures bestScore == Select(outcomes).score
      ensures bestModel == match Select(outcomes).index
        case Some(k) => Some(models[k])
        case None => old(bestModel)
    {
      results := map[];
      bestScore := NegInfinity;
      var i := 0;
      while i < |models|
        invariant 0 <= i <= |models| && models == old(models)
        invariant results == ResultsOf(models[..i], outcomes[..i])
        invariant bestScore == Select(outcomes[..i]).score
        invariant bestModel == match Select(outcomes[..i]).index
          case Some(k) => Some(models[k])
          case None => old(bestModel)
      {
        var name := models[i];
        var r2 := outcomes[i];
        RunStep(models, outcomes, i);
        results := results[name := r2];
        if r2.Some? && Beats(r2.value, bestScore) {
          bestScore := Finite(r2.value);
          bestModel := Some(name);
        }
        i := i + 1;
      }
      assert models[..i] == models && outcomes[..i] == outcomes;
    }
  }

  /** After a run in which some model succeeded, the best model is one whose
      stored result is a score (not `None`), and that score is the best score. */
  lemma BestModelHasResult(models: seq<string>, outcomes: seq<Option<real>>)
    requires |models| == |outcomes| && NoDuplicates(models)
    requires Select(outcomes).index.Some?
    ensures var k := Select(outcomes).index.value;
      ResultsOf(models, outcomes)[models[k]].Some?
      && Finite(ResultsOf(models, outcomes)[models[k]].value) == Select(outcomes).score
  {
    SelectIsFirstArgmax(outcomes);
    ResultsOfEntry(models, outcomes, Select(outcomes).index.value);
  }

  // ---------------------------------------------------------------------
  // IoTEnergyMonitor

  /** An entry of `EnergyConfig.APPLIANCE_PROFILES`. */
  datatype Profile = Profile(name: string, minPower: int, maxPower: int, location: string)

  const Profiles: seq<Profile> := [
    Profile("AC_Floor1", 1500, 3000, "Floor 1"),
    Profile("AC_Floor2", 1500, 3000, "Floor 2"),
    Profile("Lights_Lab", 400, 800, "Computer Lab"),
    Profile("Computers_Lab", 800, 2000, "Computer Lab"),
    Profile("Water_Cooler", 100, 300, "Common Area")
  ]

  /** An entry of `self.appliances`. */
  datatype Appliance = Appliance(location: string, minPower: int, maxPower: int, currentUsage: real)

  /** The entry registered for a profile: idle, with the profile's location and range. */
  function EntryFor(p: Profile): Appliance
  {
    Appliance(p.location, p.minPower, p.maxPower, 0.0)
  }

  /** The entries assigned for a list of profiles, later ones overwriting. */
  function EntriesOf(ps: seq<Profile>): (m: map<string, Appliance>)
    ensures forall n :: n in m <==> exists i :: 0 <= i < |ps| && ps[i].name == n
  {
    if ps == [] then map[]
    else
      var init := ps[..|ps| - 1];
      var m := EntriesOf(init)[ps[|ps| - 1].name := EntryFor(ps[|ps| - 1])];
      assert forall i :: 0 <= i < |init| ==> init[i] == ps[i];
      m
  }

  /** The key order of a dict after assigning `names` in turn: a new key is
      appended, an existing key keeps its place. */
  function KeyOrder(order: seq<string>, names: seq<string>): seq<string>
  {
    if names == [] then order
    else
      var prev := KeyOrder(order, names[..|names| - 1]);
      var n := names[|names| - 1];
      if n in prev then prev else prev + [n]
  }

  function NamesOf(ps: seq<Profile>): (r: seq<string>)
    ensures |r| == |ps| && forall i :: 0 <= i < |ps| ==> r[i] == ps[i].name
  {
    seq(|ps|, i requires 0 <= i < |ps| => ps[i].name)
  }

  /** `predict_energy`: 0 without a trained model, otherwise the model's
      prediction clamped at 0 from below (`max(0, prediction)`). */
  function PredictEnergy(hasModel: bool, prediction: real): (r: real)
    ensures r >= 0.0
    ensures !hasModel ==> r == 0.0
    ensures hasModel ==> (r == prediction || (prediction < 0.0 && r == 0.0))
  {
    if !hasModel then 0.0 else if 0.0 >= prediction then 0.0 else prediction
  }

  class IoTEnergyMonitor {
    const bestModelName: Option<string>
    /** Whether `self.best_model` holds a trained model. */
    const hasModel: bool
    var appliances: map<string, Appliance>
    /** The keys of `self.appliances`, in insertion order. */
    var order: seq<string>

    /** `__init__`: takes the comparator's best model; a best model without a
        stored result would make the lookup raise. */
    constructor (bestModel: Option<string>, results: map<string, Option<real>>)
      requires bestModel.Some? ==> bestModel.value in results && results[bestModel.value].Some?
      ensures bestModelName == bestModel && hasModel == bestModel.Some?
      ensures appliances == map[] && order == []
    {
      bestModelName := bestModel;
      hasModel := bestModel.Some?;
      appliances := map[];
      order := [];
    }

    /** `register_appliances()`. */
    method RegisterAppliances()
      modifies this
      ensures appliances == old(appliances) + EntriesOf(Profiles)
      ensures order == KeyOrder(old(order), NamesOf(Profiles))
    {
      var i := 0;
      while i < |Profiles|
        invariant 0 <= i <= |Profiles|
        invariant appliances == old(appliances) + EntriesOf(Profiles[..i])
        invariant order == KeyOrder(old(order), NamesOf(Profiles[..i]))
      {
        var p := Profiles[i];
        RegisterStep(old(appliances), old(order), Profiles, i);
        if p.name !in order {
          order := order + [p.name];
        }
        appliances := appliances[p.name := EntryFor(p)];
        i := i + 1;
      }
      assert Profiles[..i] == Profiles;
    }
  }

  /** One more profile assigned: its entry written over the map, its name
      appended to the key order unless already there. */
  lemma RegisterStep(start: map<string, Appliance>, order: seq<string>, ps: seq<Profile>, i: nat)
    requires i < |ps|
    ensures start + EntriesOf(ps[..i + 1]) == (start + EntriesOf(ps[..i]))[ps[i].name := EntryFor(ps[i])]
    ensures var prev := KeyOrder(order, NamesOf(ps[..i]));
      KeyOrder(order, NamesOf(ps[..i + 1])) == if ps[i].name in prev then prev else prev + [ps[i].name]
  {
    assert ps[..i + 1][..i] == ps[..i];
    assert NamesOf(ps[..i + 1])[..i] == NamesOf(ps[..i]);
  }

  /** Registering into an empty registry gives one idle entry per profile,
      with the profile's location and power range, in profile order. */
  lemma FreshRegistration()
    ensures map[] + EntriesOf(Profiles) == EntriesOf(Profiles)
    ensures forall i :: 0 <= i < |Profiles| ==> EntriesOf(Profiles)[Profiles[i].name] == EntryFor(Profiles[i])
    ensures forall n :: n in EntriesOf(Profiles) <==> n in NamesOf(Profiles)
    ensures KeyOrder([], NamesOf(Profiles)) == NamesOf(Profiles)
  {
    ProfileNamesDistinct();
    forall i | 0 <= i < |Profiles| ensures EntriesOf(Profiles)[Profiles[i].name] == EntryFor(Profiles[i]) {
      EntriesOfEntry(Profiles, i);
    }
    KeyOrderOfDistinct(NamesOf(Profiles));
  }

  lemma ProfileNamesDistinct()
    ensures NoDuplicates(NamesOf(Profiles))
  {
    var ns := NamesOf(Profiles);
    assert ns == ["AC_Floor1", "AC_Floor2", "Lights_Lab", "Computers_Lab", "Water_Cooler"];
    assert ns[0][3..] == "Floor1" && ns[1][3..] == "Floor2";
    assert ns[0][0] == 'A' && ns[2][0] == 'L' && ns[3][0] == 'C' && ns[4][0] == 'W';
  }

  /** With distinct names, each profile's name maps to its own entry. */
  lemma {:induction false} EntriesOfEntry(ps: seq<Profile>, k: nat)
    requires NoDuplicates(NamesOf(ps)) && k < |ps|
    ensures ps[k].name in EntriesOf(ps) && EntriesOf(ps)[ps[k].name] == EntryFor(ps[k])
  {
    var n := |ps| - 1;
    if k < n {
      var init := ps[..n];
      assert NoDuplicates(NamesOf(init)) by {
        forall i, j | 0 <= i < j < |init| ensures NamesOf(init)[i] != NamesOf(init)[j] {
          assert NamesOf(init)[i] == NamesOf(ps)[i] && NamesOf(init)[j] == NamesOf(ps)[j];
        }
      }
      assert NamesOf(ps)[k] != NamesOf(ps)[n];
      assert init[k] == ps[k];
      EntriesOfEntry(init, k);
    }
  }

  /** Assigning distinct new keys to an empty dict orders them as assigned. */
  lemma {:induction false} KeyOrderOfDistinct(names: seq<string>)
    requires NoDuplicates(names)
    ensures KeyOrder([], names) == names
  {
    if names != [] {
      var init := names[..|names| - 1];
      assert NoDuplicates(init) by {
        forall i, j | 0 <= i < j < |init| ensures init[i] != init[j] {
          assert init[i] == names[i] && init[j] == names[j];
        }
      }
      KeyOrderOfDistinct(init);
      var last := names[|names| - 1];
      assert last !in init by {
        forall i | 0 <= i < |init| ensures init[i] != last {
          assert init[i] == names[i];
        }
      }
      assert init + [last] == names;
    }
  }

  // ---------------------------------------------------------------------
  // CostAnalyzer.calculate_costs

  datatype Costs = Costs(daily: real, monthly: real, annual: real)

  /** `calculate_costs(energy_kwh)`: the daily cost at the electricity rate,
      projected over 30 days and over 365 days. */
  function CalculateCosts(energy: real): Costs
  {
    var daily := energy * ElectricityRate;
    Costs(daily, daily * 30.0, daily * 365.0)
  }

  /** Costs are linear in the energy: the costs of two loads add up. */
  lemma CostsAdditive(a: real, b: real)
    ensures CalculateCosts(a + b).daily == CalculateCosts(a).daily + CalculateCosts(b).daily
    ensures CalculateCosts(a + b).monthly == CalculateCosts(a).monthly + CalculateCosts(b).monthly
    ensures CalculateCosts(a + b).annual == CalculateCosts(a).annual + CalculateCosts(b).annual
  {
  }

  /** Non-negative energy costs a non-negative amount, ordered daily <= monthly
      <= annual, and more energy never costs less. */
  lemma CostsOrdered(a: real, b: real)
    requires 0.0 <= a <= b
    ensures var c := CalculateCosts(a);
      0.0 <= c.daily <= c.monthly <= c.annual
    ensures CalculateCosts(a).daily <= CalculateCosts(b).daily
    ensures CalculateCosts(a).annual <= CalculateCosts(b).annual
  {
  }

  /** The monitoring cycle prices the clamped prediction, so the projected
      costs it reports are never negative and are ordered daily <= monthly <=
      annual, and a higher raw prediction never lowers them. */
  lemma PredictedCostsNonNegative(hasModel: bool, p: real, q: real)
    requires p <= q
    ensures var c := CalculateCosts(PredictEnergy(hasModel, p));
      0.0 <= c.daily <= c.monthly <= c.annual
    ensures CalculateCosts(PredictEnergy(hasModel, p)).annual <= CalculateCosts(PredictEnergy(hasModel, q)).annual
  {
    CostsOrdered(PredictEnergy(hasModel, p), PredictEnergy(hasModel, q));
  }
}
