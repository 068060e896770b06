# Energy-credit store and plant telemetry rollup, in Dafny

This project models the two in-memory domain modules of a solar-energy
management dashboard.

- **Energy-credit store** (`lib/energy-credits.ts`). A module-level list of kWh
  credit records and a list of per-customer vault records, both keyed by
  customer e-mail. The module can look up a customer's vault, list a
  customer's credit records, and total the customer's *active* credits. It
  can also issue a new active credit, which it appends to the shared list in
  place. The model is the class `EnergyCredits.CreditStore`. Its fields
  `credits` and `vaults` are the two module arrays. Its constructor installs
  the seed records. The readers are functions that read the object, and
  `AddEnergyCredits` is a method that modifies it. Each reader's contract
  ties its result to an independent reference: `ActiveBalance` for the total,
  and membership, multiplicity and order for the filter.
- **Plant telemetry rollup** (`lib/solarman.ts`). Pure lookups over inverter
  readings and plants, a plant status (`online | offline | partial`), and a
  plant efficiency (the mean efficiency of the online inverters). The model
  is the module `Solarman`. The module arrays become parameters, because
  nothing in the source writes to them.

`Seqs` holds the array operations both modules use: `Filter`, `Find`, and
`Reduce` (a left fold like `Array.prototype.reduce` that starts from an
accumulator). It also holds a reference `Sum` and the facts about it that the
domain lemmas need: concatenation, bounds, non-negativity, permutation, and
summing over a filter.

kWh amounts, efficiencies and averages are `real`. Identifiers, e-mails and
timestamps are strings compared exactly.

Facts of the code worth noting:
- `addEnergyCredits` does not reject a zero or negative amount. It also does
  not touch the vault list, so a vault's aggregates do not follow the credit
  list.
- No credit consumption, FIFO order or expiry exists in the code.
- The seed vault of `joao.silva@email.com` contradicts its own transaction
  log: a credit of 150.5 followed by a debit of 50.0 leaves 100.5, while
  `availableCredits` is 150.5. `SeedLogDisagreesWithVault` states this.
  Nevertheless, every seed vault's `availableCredits` does equal the active
  balance computed from the seed credit records.

## Model

| member | source | states |
|---|---|---|
| `EnergyCredits.CreditStore.constructor` | lib/energy-credits.ts:33-108 | The store starts out holding exactly the seed credit records and the seed vaults. |
| `EnergyCredits.CreditStore.GetEnergyVaultByEmail` | lib/energy-credits.ts:111-113 | Returns nothing exactly when no vault has that e-mail. Otherwise it returns a vault with that e-mail that sits at a position before which no vault has that e-mail, so it is the first match. |
| `EnergyCredits.CreditStore.GetEnergyCreditsByEmail` | lib/energy-credits.ts:115-117 | Returns every record of that e-mail, each as many times as the store holds it, and no other record. They come in store order, as a subsequence of the store. The result is empty exactly when no record has that e-mail. |
| `EnergyCredits.CreditStore.CalculateTotalCredits` | lib/energy-credits.ts:119-127 | The reduce over the customer's records equals the sum of `credits` over exactly the records with that e-mail and status active, so consumed and expired records add nothing. It is 0 for an e-mail with no records. It is non-negative when every stored amount is. |
| `EnergyCredits.CreditStore.AddEnergyCredits` | lib/energy-credits.ts:129-147 | Appends exactly one record and keeps every earlier record. It returns that record: the given e-mail, amount, source, id and time, name "Cliente", status active, and no consumption time or invoice. The vault list is unchanged. The customer's record list gains the new record at its end and the customer's total grows by exactly the amount. Every other customer's records and total are unchanged. The amount is not checked. |
| `EnergyCredits.ActiveBalanceNonNegative` | lib/energy-credits.ts:121-126 | If every record's amount is non-negative, every customer's active balance is non-negative. |
| `EnergyCredits.ActiveBalanceOfStranger` | lib/energy-credits.ts:115-127 | A customer with no records has active balance 0. |
| `EnergyCredits.ActiveBalanceAppend` | lib/energy-credits.ts:119-147 | Appending a record raises its owner's balance by its amount when it is active. It leaves every other balance unchanged. |
| `EnergyCredits.RecordsAppend` | lib/energy-credits.ts:115-147 | Appending a record puts it at the end of its owner's record list. It leaves every other customer's list unchanged. |
| `EnergyCredits.SeedCredits` | lib/energy-credits.ts:33-63 | Holds the three seed credit records field for field. They have different ids and different e-mails, and every amount is non-negative. A record has a consumption time exactly when it is not active. |
| `EnergyCredits.SeedVaults` | lib/energy-credits.ts:65-108 | Holds the two seed vaults and their transaction logs field for field. The vaults belong to two different e-mails, their available and consumed credits are non-negative, and each has a non-empty log. |
| `EnergyCredits.SeedVaultsBalanced` | lib/energy-credits.ts:65-108 | In every seed vault, `totalCredits` equals `availableCredits + consumedCredits`. |
| `EnergyCredits.SeedVaultsMatchRecords` | lib/energy-credits.ts:33-108 | Every seed vault's `availableCredits` equals the active balance that the seed records give its e-mail. |
| `EnergyCredits.SeedCarlosHasNothing` | lib/energy-credits.ts:52-108 | `carlos.lima@email.com`, whose only record is consumed, has balance 0 and no vault. |
| `EnergyCredits.SeedLogDisagreesWithVault` | lib/energy-credits.ts:65-89 | In the first seed vault, the credit amount minus the debit amount of its log differs from its `availableCredits`. |
| `Solarman.GetPlantById` | lib/solarman.ts:107-109 | Returns nothing exactly when no plant has that id. Otherwise it returns the first plant with that id. |
| `Solarman.GetInverterById` | lib/solarman.ts:115-117 | Matches on `inverterId`, not on the record `id`. Returns nothing exactly when no reading has that `inverterId`; otherwise it returns the first reading that has it. |
| `Solarman.GetInvertersByPlant` | lib/solarman.ts:119-121 | Returns exactly the readings whose `plantId` matches, with their multiplicities, in order. |
| `Solarman.StatusOf` | lib/solarman.ts:138-143 | Over a plant's readings, the result is offline exactly when none is online. It is online exactly when there is at least one reading and all are online. It is partial exactly when some are online and some are not. |
| `Solarman.MeanOnlineEfficiency` | lib/solarman.ts:127-131 | 0 when no reading is online. Otherwise it is the sum of the online readings' efficiencies divided by their count. |
| `Solarman.GetPlantStatus` | lib/solarman.ts:134-144 | Offline for an unknown id. For a known plant: offline exactly when none of its inverters is online, including when it has none; online exactly when it has inverters and all are online; partial exactly when some are online and some are not. |
| `Solarman.CalculatePlantEfficiency` | lib/solarman.ts:123-132 | 0 for an unknown id or a plant without an online inverter. Otherwise it is the arithmetic mean of the online inverters' efficiencies. |
| `Solarman.OfflinePlantHasZeroEfficiency` | lib/solarman.ts:123-144 | Whenever the status is offline, the efficiency is 0. |
| `Solarman.EfficiencyWithinOnlineBounds` | lib/solarman.ts:127-131 | If a known plant has an online inverter, and every online inverter's efficiency lies in `[lo, hi]`, then the plant efficiency lies in `[lo, hi]`. So it lies between the smallest and the largest online efficiency. |
| `Solarman.MeanWithinBounds` | lib/solarman.ts:130-131 | A non-empty list of readings whose efficiencies all lie in `[lo, hi]` has a mean efficiency in `[lo, hi]`. |
| `Solarman.RollupOrderIndependent` | lib/solarman.ts:127-143 | Two reading lists that are permutations of each other give the same status and the same efficiency. |
| `Solarman.EfficiencyIgnoresNonOnline` | lib/solarman.ts:127-131 | Suppose two reading lists agree in every status and in the efficiency of every online reading. Then they give the same efficiency, whatever the non-online readings report. |
| `Solarman.SeedInverters` | lib/solarman.ts:28-71 | Holds the three seed readings field for field. They are of three different inverters in three different plants. Every efficiency lies in `[0, 100]`, and a reading is online exactly when it reports positive power. |
| `Solarman.SeedPlants` | lib/solarman.ts:73-104 | Holds the three seed plants field for field. Each plant's readings are the seed readings filtered by its own id, so every reading it carries names that plant. The plants have different ids. |
| `Solarman.SeedPlantsCarryTheirReadings` | lib/solarman.ts:73-104 | Every seed plant's readings are what `GetInvertersByPlant` returns for its id. |
| `Solarman.SeedPlantInverters` | lib/solarman.ts:28-104 | Each of the three seed plants carries exactly one reading: the seed reading at its own position. |
| `Solarman.SeedRollup` | lib/solarman.ts:28-144 | `plant_alpha` is online with efficiency 96.8, `plant_beta` is online with 95.2, and `plant_gamma` is offline with 0. |
| `Solarman.SingleReadingRollup` | lib/solarman.ts:127-143 | A plant with a single reading takes that reading's status. Its efficiency is the reading's efficiency when the reading is online, and 0 otherwise. |
| `Solarman.MixedPlantRollup` | lib/solarman.ts:123-144 | A plant whose readings are online 96.8, online 95.2 and offline 0 is partial with efficiency 96.0. |
| `Seqs.Filter` | lib/solarman.ts:120 | Keeps at most the elements of its input, and only elements that satisfy the predicate. |
| `Seqs.FilterMultiset` | lib/energy-credits.ts:116 | A filter keeps every satisfying element as often as the input holds it, and no other element. |
| `Seqs.FilterIsSubsequence` | lib/energy-credits.ts:116 | A filter keeps the input's order. |
| `Seqs.FilterExtremes` | lib/solarman.ts:127-142 | A filter is empty exactly when nothing satisfies the predicate. It is as long as its input exactly when everything does. |
| `Seqs.Find` | lib/solarman.ts:108 | Returns nothing exactly when no element satisfies the predicate. Otherwise it returns an element that satisfies it and is preceded by none that does. |
| `Seqs.Reduce` | lib/energy-credits.ts:121-126 | The left fold from an accumulator equals the accumulator plus the reference sum of the terms. |
| `Seqs.SumPermutation` | lib/solarman.ts:130 | A sum does not depend on the order of its terms. |

## Left out

- `getRealTimeData` (lib/solarman.ts:147-157) is left out. It perturbs readings with `Math.random` and stamps them with the current time, so its output is not determined by its input.
- `getAllPlants` (lib/solarman.ts:111-113) only returns the module's plant array. Here that array is the `plants` parameter, so the function would be the identity and has no member of its own.
- In `addEnergyCredits` the record id comes from `Date.now()` and `generatedAt` from `new Date()`. Both are caller-supplied parameters here. Nothing in the source makes ids unique, and the model does not claim it either.
- The seed readings and plants stamp their times with `new Date()` when the module loads, six separate evaluations (three reading timestamps and three plant `lastUpdate`s) that may differ by milliseconds. The model collapses all six into the one `now` parameter of `SeedInverters` and `SeedPlants`. No modelled operation reads these fields.
- IEEE-754 arithmetic is not modelled. kWh amounts, efficiencies, sums and means are exact reals, so rounding in the JavaScript sums, for example of 150.5 + 89.2, is not captured.
- Object identity is not modelled. The source returns the very object it pushed, and its filters share record objects with the module arrays, so a caller that mutates a returned record also changes the store. Records here are values.
- The model is one `CreditStore` object for the single module instance. Concurrent or interleaved access from several pages is not modelled.
- `getPlantStatus` and `calculatePlantEfficiency` read the plant's own `inverters` snapshot, as the source does. The model does not re-filter the inverter list.
- `Solarman.RollupOrderIndependent`: it is stated over a plant's list of readings, which is the part that `getPlantStatus` and `calculatePlantEfficiency` compute after the lookup, and not over the whole plant list.
