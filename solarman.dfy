/** The plant telemetry snapshot: inverter readings and plants, lookups by
    identifier, and the per-plant rollup of status and mean efficiency. The
    module-level arrays of the source are the `plants` and `inverters`
    parameters here; no function changes them. */
module Solarman {
  import opened Seqs

  datatype InverterStatus = Online | Offline | Fault | Maintenance

  /** One reading of one inverter; `efficiency` is a percentage. */
  datatype InverterData = InverterData(
    id: string,
    plantId: string,
    inverterId: string,
    timestamp: string,
    power: real,
    energy: real,
    voltage: real,
    current: real,
    frequency: real,
    temperature: real,
    status: InverterStatus,
    efficiency: real)

  /** A plant with the inverter readings it carries. */
  datatype PlantData = PlantData(
    id: string,
    name: string,
    location: string,
    capacity: real,
    inverters: seq<InverterData>,
    totalPower: real,
    totalEnergy: real,
    lastUpdate: string)

  datatype PlantStatus = PlantOnline | PlantOffline | PlantPartial

  /** Whether a reading reports its inverter online. */
  predicate IsOnline(inv: InverterData) {
    inv.status == Online
  }

  function OfPlant(plantId: string): InverterData -> bool {
    (inv: InverterData) => inv.plantId == plantId
  }

  /** A reading's efficiency, the term the efficiency mean adds up. */
  function Efficiency(inv: InverterData): real {
    inv.efficiency
  }

  /** The first plant whose id is `plantId`, if there is one. */
  function GetPlantById(plants: seq<PlantData>, plantId: string): (r: Option<PlantData>)
    ensures r.None? <==> forall i :: 0 <= i < |plants| ==> plants[i].id != plantId
    ensures r.Some? ==> r.value.id == plantId
    ensures r.Some? ==>
      exists i :: 0 <= i < |plants| && plants[i] == r.value &&
        forall j :: 0 <= j < i ==> plants[j].id != plantId
  {
    Find(plants, (p: PlantData) => p.id == plantId)
  }

  /** The first reading whose `inverterId` (not its record `id`) is `inverterId`, if there is one. */
  function GetInverterById(inverters: seq<InverterData>, inverterId: string): (r: Option<InverterData>)
    ensures r.None? <==> forall i :: 0 <= i < |inverters| ==> inverters[i].inverterId != inverterId
    ensures r.Some? ==> r.value.inverterId == inverterId
    ensures r.Some? ==>
      exists i :: 0 <= i < |inverters| && inverters[i] == r.value &&
        forall j :: 0 <= j < i ==> inverters[j].inverterId != inverterId
  {
    Find(inverters, (inv: InverterData) => inv.inverterId == inverterId)
  }

  /** Exactly the readings of plant `plantId`, in order. */
  function GetInvertersByPlant(inverters: seq<InverterData>, plantId: string): (r: seq<InverterData>)
    ensures forall inv: InverterData :: inv in r <==> inv in inverters && inv.plantId == plantId
    ensures forall inv: InverterData :: inv.plantId == plantId ==> multiset(r)[inv] == multiset(inverters)[inv]
    ensures IsSubsequence(r, inverters)
  {
    FilterMultiset(inverters, OfPlant(plantId));
    FilterIsSubsequence(inverters, OfPlant(plantId));
    Filter(inverters, OfPlant(plantId))
  }

  /** The status of a set of readings: offline when none is online, online
      when there is at least one and all are, partial otherwise. */
  function StatusOf(invs: seq<InverterData>): (r: PlantStatus)
    ensures r == PlantOffline <==> forall i :: 0 <= i < |invs| ==> invs[i].status != Online
    ensures r == PlantOnline <==> |invs| > 0 && forall i :: 0 <= i < |invs| ==> invs[i].status == Online
    ensures r == PlantPartial <==>
      (exists i :: 0 <= i < |invs| && invs[i].status == Online) &&
      (exists i :: 0 <= i < |invs| && invs[i].status != Online)
  {
    var online := Filter(invs, IsOnline);
    FilterExtremes(invs, IsOnline);
    if |online| == 0 then PlantOffline
    else if |online| == |invs| then PlantOnline
    else PlantPartial
  }

  /** The mean efficiency of the online readings, or 0 when none is online. */
  function MeanOnlineEfficiency(invs: seq<InverterData>): (r: real)
    ensures (forall i :: 0 <= i < |invs| ==> invs[i].status != Online) ==> r == 0.0
    ensures var online := Filter(invs, IsOnline);
      |online| > 0 ==> r == Sum(online, Efficiency) / (|online| as real)
  {
    var online := Filter(invs, IsOnline);
    FilterExtremes(invs, IsOnline);
    if |online| == 0 then 0.0
    else Reduce(0.0, online, Efficiency) / (|online| as real)
  }

  /** Plant efficiency: 0 for an unknown plant or one without an online
      inverter, otherwise the mean efficiency of its online inverters. */
  function CalculatePlantEfficiency(plants: seq<PlantData>, plantId: string): (r: real)
    ensures GetPlantById(plants, plantId).None? ==> r == 0.0
    ensures GetPlantById(plants, plantId).Some? ==>
      var invs := GetPlantById(plants, plantId).value.inverters;
      && ((forall i :: 0 <= i < |invs| ==> invs[i].status != Online) ==> r == 0.0)
      && (var online := Filter(invs, IsOnline);
          |online| > 0 ==> r == Sum(online, Efficiency) / (|online| as real))
  {
    match GetPlantById(plants, plantId)
    case None => 0.0
    case Some(plant) => MeanOnlineEfficiency(plant.inverters)
  }

  /** Plant status: offline for an unknown plant; for a known one, offline
      when none of its inverters is online, online when it has inverters and
      all are online, partial when some are and some are not. */
  function GetPlantStatus(plants: seq<PlantData>, plantId: string): (r: PlantStatus)
    ensures GetPlantById(plants, plantId).None? ==> r == PlantOffline
    ensures GetPlantById(plants, plantId).Some? ==>
      var invs := GetPlantById(plants, plantId).value.inverters;
      && (r == PlantOffline <==> forall i :: 0 <= i < |invs| ==> invs[i].status != Online)
      && (r == PlantOnline <==> |invs| > 0 && forall i :: 0 <= i < |invs| ==> invs[i].status == Online)
      && (r == PlantPartial <==>
            (exists i :: 0 <= i < |invs| && invs[i].status == Online) &&
            (exists i :: 0 <= i < |invs| && invs[i].status != Online))
  {
    match GetPlantById(plants, plantId)
    case None => PlantOffline
    case Some(plant) => StatusOf(plant.inverters)
  }

  /** An offline plant, known or not, reports efficiency 0. */
  lemma OfflinePlantHasZeroEfficiency(plants: seq<PlantData>, plantId: string)
    ensures GetPlantStatus(plants, plantId) == PlantOffline ==> CalculatePlantEfficiency(plants, plantId) == 0.0
  {
  }

  /** The mean of terms that all lie in [lo, hi] lies in [lo, hi]. */
  lemma {:induction false} MeanWithinBounds(online: seq<InverterData>, lo: real, hi: real)
    requires |online| > 0
    requires forall i :: 0 <= i < |online| ==> lo <= online[i].efficiency <= hi
    ensures lo <= Sum(online, Efficiency) / (|online| as real) <= hi
  {
    var n := |online| as real;
    var total := Sum(online, Efficiency);
    SumBounds(online, Efficiency, lo, hi);
    DivideBounds(total, n, lo, hi);
  }

  lemma DivideBounds(total: real, n: real, lo: real, hi: real)
    requires n > 0.0
    requires n * lo <= total <= n * hi
    ensures lo <= total / n <= hi
  {
  }

  /** Plant efficiency lies between the smallest and the largest efficiency
      of the plant's online inverters: every bound on those bounds it. */
  lemma EfficiencyWithinOnlineBounds(plants: seq<PlantData>, plantId: string, lo: real, hi: real)
    requires GetPlantById(plants, plantId).Some?
    requires var invs := GetPlantById(plants, plantId).value.inverters;
      exists i :: 0 <= i < |invs| && invs[i].status == Online
    requires var invs := GetPlantById(plants, plantId).value.inverters;
      forall i :: 0 <= i < |invs| && invs[i].status == Online ==> lo <= invs[i].efficiency <= hi
    ensures lo <= CalculatePlantEfficiency(plants, plantId) <= hi
  {
    var invs := GetPlantById(plants, plantId).value.inverters;
    var online := Filter(invs, IsOnline);
    FilterExtremes(invs, IsOnline);
    FilterMultiset(invs, IsOnline);
    forall i | 0 <= i < |online| ensures lo <= online[i].efficiency <= hi {
      assert online[i] in invs;
    }
    MeanWithinBounds(online, lo, hi);
  }

  /** Neither status nor efficiency depends on the order of the readings. */
  lemma RollupOrderIndependent(a: seq<InverterData>, b: seq<InverterData>)
    requires multiset(a) == multiset(b)
    ensures StatusOf(a) == StatusOf(b)
    ensures MeanOnlineEfficiency(a) == MeanOnlineEfficiency(b)
  {
    var fa, fb := Filter(a, IsOnline), Filter(b, IsOnline);
    FilterMultiset(a, IsOnline);
    FilterMultiset(b, IsOnline);
    FilterExtremes(a, IsOnline);
    FilterExtremes(b, IsOnline);
    assert multiset(fa) == multiset(fb);
    assert |fa| == |multiset(fa)| == |multiset(fb)| == |fb|;
    assert |a| == |multiset(a)| == |multiset(b)| == |b|;
    SumPermutation(fa, fb, Efficiency);
  }

  /** Efficiency ignores the efficiency of every reading that is not online:
      two lists with the same statuses and the same online efficiencies agree. */
  lemma {:induction false} EfficiencyIgnoresNonOnline(a: seq<InverterData>, b: seq<InverterData>)
    requires |a| == |b|
    requires forall i :: 0 <= i < |a| ==> a[i].status == b[i].status
    requires forall i :: 0 <= i < |a| && a[i].status == Online ==> a[i].efficiency == b[i].efficiency
    ensures MeanOnlineEfficiency(a) == MeanOnlineEfficiency(b)
  {
    OnlineSumsAgree(a, b);
  }

  lemma {:induction false} OnlineSumsAgree(a: seq<InverterData>, b: seq<InverterData>)
    requires |a| == |b|
    requires forall i :: 0 <= i < |a| ==> a[i].status == b[i].status
    requires forall i :: 0 <= i < |a| && a[i].status == Online ==> a[i].efficiency == b[i].efficiency
    ensures |Filter(a, IsOnline)| == |Filter(b, IsOnline)|
    ensures Sum(Filter(a, IsOnline), Efficiency) == Sum(Filter(b, IsOnline), Efficiency)
    decreases |a|
  {
    if a != [] {
      assert forall i :: 0 <= i < |a[1..]| ==> a[1..][i] == a[i + 1] && b[1..][i] == b[i + 1];
      OnlineSumsAgree(a[1..], b[1..]);
      if a[0].status == Online {
        assert ([a[0]] + Filter(a[1..], IsOnline))[1..] == Filter(a[1..], IsOnline);
        assert ([b[0]] + Filter(b[1..], IsOnline))[1..] == Filter(b[1..], IsOnline);
      }
    }
  }

  // Seed data of the module; every `new Date()` of the source is the parameter `now`.

  /** The three seed readings, of three different inverters in three different
      plants, every efficiency a percentage; a reading is online exactly when
      it reports power. */
  function SeedInverters(now: string): (r: seq<InverterData>)
    ensures |r| == 3
    ensures forall i, j :: 0 <= i < j < |r| ==> r[i].inverterId != r[j].inverterId && r[i].plantId != r[j].plantId
    ensures forall i :: 0 <= i < |r| ==> 0.0 <= r[i].efficiency <= 100.0 && (r[i].status == Online <==> r[i].power > 0.0)
  {
    [ InverterData("1", "plant_alpha", "inv_001", now, 45.2, 1250.8, 230.5, 196.1, 60.0, 45.2, Online, 96.8),
      InverterData("2", "plant_beta", "inv_002", now, 38.7, 987.3, 228.9, 169.2, 60.0, 42.1, Online, 95.2),
      InverterData("3", "plant_gamma", "inv_003", now, 0.0, 0.0, 0.0, 0.0, 0.0, 25.0, Offline, 0.0) ]
  }

  /** The three seed plants, with different ids; each carries the seed readings
      filtered by its own id, so every reading it carries names it. */
  function SeedPlants(now: string): (r: seq<PlantData>)
    ensures |r| == 3
    ensures forall i, j :: 0 <= i < j < |r| ==> r[i].id != r[j].id
    ensures forall i :: 0 <= i < |r| ==>
      forall k :: 0 <= k < |r[i].inverters| ==> r[i].inverters[k].plantId == r[i].id
  {
    [ PlantData("plant_alpha", "Usina Solar Alpha", "Cidade do Sol, MG", 50.0,
        Filter(SeedInverters(now), OfPlant("plant_alpha")), 45.2, 1250.8, now),
      PlantData("plant_beta", "Usina Solar Beta", "Vale Verde, SP", 40.0,
        Filter(SeedInverters(now), OfPlant("plant_beta")), 38.7, 987.3, now),
      PlantData("plant_gamma", "Usina Solar Gama", "Serra Azul, BA", 30.0,
        Filter(SeedInverters(now), OfPlant("plant_gamma")), 0.0, 0.0, now) ]
  }

  /** Each seed plant carries what GetInvertersByPlant gives for its id. */
  lemma SeedPlantsCarryTheirReadings(now: string)
    ensures forall i :: 0 <= i < |SeedPlants(now)| ==>
      SeedPlants(now)[i].inverters == GetInvertersByPlant(SeedInverters(now), SeedPlants(now)[i].id)
  {
  }

  /** Each seed plant carries exactly one reading, the seed reading at its own position. */
  lemma SeedPlantInverters(now: string)
    ensures |SeedPlants(now)| == |SeedInverters(now)| == 3
    ensures forall i :: 0 <= i < 3 ==> SeedPlants(now)[i].inverters == [SeedInverters(now)[i]]
  {
    var invs := SeedInverters(now);
    var plants := SeedPlants(now);
    var alpha, beta, gamma := "plant_alpha", "plant_beta", "plant_gamma";
    assert Filter(invs, OfPlant(alpha)) == [invs[0]] by {
      assert alpha[6] != gamma[6] && |alpha| != |beta|;
      FilterUnfold3(invs, OfPlant(alpha));
    }
    assert Filter(invs, OfPlant(beta)) == [invs[1]] by {
      assert |alpha| != |beta| && |beta| != |gamma|;
      FilterUnfold3(invs, OfPlant(beta));
    }
    assert Filter(invs, OfPlant(gamma)) == [invs[2]] by {
      assert alpha[6] != gamma[6] && |beta| != |gamma|;
      FilterUnfold3(invs, OfPlant(gamma));
    }
    assert plants[0].inverters == [invs[0]];
    assert plants[1].inverters == [invs[1]];
    assert plants[2].inverters == [invs[2]];
  }

  lemma FilterUnfold3(s: seq<InverterData>, p: InverterData -> bool)
    requires |s| == 3
    ensures Filter(s, p) ==
      (if p(s[0]) then [s[0]] else []) + (if p(s[1]) then [s[1]] else []) + (if p(s[2]) then [s[2]] else [])
  {
    var t := s[1..];
    var u := t[1..];
    assert t[0] == s[1] && u[0] == s[2] && u[1..] == [];
    assert Filter(u, p) == if p(s[2]) then [s[2]] else [];
    assert Filter(t, p) == (if p(s[1]) then [s[1]] else []) + Filter(u, p);
  }

  /** The rollup of the seed: alpha online at 96.8, beta online at 95.2, gamma offline at 0. */
  lemma SeedRollup(now: string)
    ensures GetPlantStatus(SeedPlants(now), "plant_alpha") == PlantOnline
    ensures CalculatePlantEfficiency(SeedPlants(now), "plant_alpha") == 96.8
    ensures GetPlantStatus(SeedPlants(now), "plant_beta") == PlantOnline
    ensures CalculatePlantEfficiency(SeedPlants(now), "plant_beta") == 95.2
    ensures GetPlantStatus(SeedPlants(now), "plant_gamma") == PlantOffline
    ensures CalculatePlantEfficiency(SeedPlants(now), "plant_gamma") == 0.0
  {
    SeedPlantInverters(now);
    var plants, invs := SeedPlants(now), SeedInverters(now);
    var alpha, beta, gamma := "plant_alpha", "plant_beta", "plant_gamma";
    assert alpha[6] != gamma[6] && |alpha| != |beta| && |beta| != |gamma|;
    assert GetPlantById(plants, alpha) == Some(plants[0]);
    assert GetPlantById(plants, beta) == Some(plants[1]);
    assert GetPlantById(plants, gamma) == Some(plants[2]);
    SingleReadingRollup(invs[0]);
    SingleReadingRollup(invs[1]);
    SingleReadingRollup(invs[2]);
  }

  /** A plant with a single reading has that reading's status; its efficiency
      is that reading's efficiency when online and 0 otherwise. */
  lemma SingleReadingRollup(inv: InverterData)
    ensures StatusOf([inv]) == if inv.status == Online then PlantOnline else PlantOffline
    ensures MeanOnlineEfficiency([inv]) == if inv.status == Online then inv.efficiency else 0.0
  {
  }

  /** A plant reading [online 96.8, online 95.2, offline 0] is partial with efficiency 96.0. */
  lemma MixedPlantRollup(now: string)
    ensures var a := InverterData("1", "p", "inv_a", now, 0.0, 0.0, 0.0, 0.0, 0.0, 0.0, Online, 96.8);
      var b := InverterData("2", "p", "inv_b", now, 0.0, 0.0, 0.0, 0.0, 0.0, 0.0, Online, 95.2);
      var c := InverterData("3", "p", "inv_c", now, 0.0, 0.0, 0.0, 0.0, 0.0, 0.0, Offline, 0.0);
      var plants := [PlantData("p", "P", "", 0.0, [a, b, c], 0.0, 0.0, now)];
      GetPlantStatus(plants, "p") == PlantPartial && CalculatePlantEfficiency(plants, "p") == 96.0
  {
    var a := InverterData("1", "p", "inv_a", now, 0.0, 0.0, 0.0, 0.0, 0.0, 0.0, Online, 96.8);
    var b := InverterData("2", "p", "inv_b", now, 0.0, 0.0, 0.0, 0.0, 0.0, 0.0, Online, 95.2);
    var c := InverterData("3", "p", "inv_c", now, 0.0, 0.0, 0.0, 0.0, 0.0, 0.0, Offline, 0.0);
    var invs := [a, b, c];
    var plants := [PlantData("p", "P", "", 0.0, invs, 0.0, 0.0, now)];
    assert GetPlantById(plants, "p") == Some(plants[0]);
    FilterUnfold3(invs, IsOnline);
    assert Filter(invs, IsOnline) == [a, b];
    assert [a, b][1..] == [b] && [b][1..] == [];
    assert Sum([b], Efficiency) == 95.2 + Sum([b][1..], Efficiency);
    assert Sum([a, b], Efficiency) == 96.8 + Sum([b], Efficiency);
  }
}
