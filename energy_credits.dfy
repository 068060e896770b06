/** The in-memory energy-credit store: a list of kWh credit records and a list
    of per-customer vault records, with lookups by customer e-mail, the
    balance of a customer's active credits, and the issuing of a new credit. */
module EnergyCredits {
  import opened Seqs

  datatype CreditStatus = Active | Consumed | Expired

  datatype CreditSource = SolarGeneration | Purchase | Compensation

  datatype TransactionType = Credit | Debit

  datatype EnergyTransaction = EnergyTransaction(
    id: string,
    kind: TransactionType,
    amount: real,
    description: string,
    timestamp: string,
    invoiceId: Option<string>)

  /** One issuance of kWh credit to a customer. */
  datatype EnergyCredit = EnergyCredit(
    id: string,
    customerEmail: string,
    customerName: string,
    credits: real,
    generatedAt: string,
    consumedAt: Option<string>,
    status: CreditStatus,
    source: CreditSource,
    invoiceId: Option<string>)

  /** The stored per-customer aggregate; nothing recomputes it from the credits. */
  datatype EnergyVault = EnergyVault(
    id: string,
    customerEmail: string,
    totalCredits: real,
    availableCredits: real,
    consumedCredits: real,
    lastUpdated: string,
    transactions: seq<EnergyTransaction>)

  /** What one credit record adds to its owner's balance: its amount while active, nothing otherwise. */
  function ActiveAmount(c: EnergyCredit): real {
    if c.status == Active then c.credits else 0.0
  }

  /** Whether a credit record belongs to `email`. */
  function OwnedBy(email: string): EnergyCredit -> bool {
    (c: EnergyCredit) => c.customerEmail == email
  }

  /** Whether a vault belongs to `email`. */
  function VaultOf(email: string): EnergyVault -> bool {
    (v: EnergyVault) => v.customerEmail == email
  }

  /** A record's share of `email`'s balance: its amount when it belongs to
      `email` and is active, nothing otherwise. */
  function ShareOf(email: string): EnergyCredit -> real {
    (c: EnergyCredit) => if c.customerEmail == email && c.status == Active then c.credits else 0.0
  }

  /** Reference balance: the amounts of exactly those records of `cs` that
      belong to `email` and are active, added up. */
  function ActiveBalance(cs: seq<EnergyCredit>, email: string): real {
    Sum(cs, ShareOf(email))
  }

  lemma {:induction false} ActiveBalanceNonNegative(cs: seq<EnergyCredit>, email: string)
    requires forall i :: 0 <= i < |cs| ==> cs[i].credits >= 0.0
    ensures ActiveBalance(cs, email) >= 0.0
  {
    SumNonNegative(cs, ShareOf(email));
  }

  lemma {:induction false} ActiveBalanceOfStranger(cs: seq<EnergyCredit>, email: string)
    requires forall i :: 0 <= i < |cs| ==> cs[i].customerEmail != email
    ensures ActiveBalance(cs, email) == 0.0
  {
    SumBounds(cs, ShareOf(email), 0.0, 0.0);
  }

  /** Appending a record adds its active amount to its owner's balance and
      leaves every other customer's balance as it was. */
  lemma {:induction false} ActiveBalanceAppend(cs: seq<EnergyCredit>, c: EnergyCredit, email: string)
    ensures ActiveBalance(cs + [c], email) ==
      ActiveBalance(cs, email) + (if c.customerEmail == email && c.status == Active then c.credits else 0.0)
  {
    SumConcat(cs, [c], ShareOf(email));
    assert Sum([c], ShareOf(email)) == ShareOf(email)(c) by {
      assert [c][1..] == [];
    }
  }

  /** Appending a record extends its owner's records by it and leaves every
      other customer's records as they were. */
  lemma {:induction false} RecordsAppend(cs: seq<EnergyCredit>, c: EnergyCredit, email: string)
    ensures Filter(cs + [c], OwnedBy(email)) ==
      Filter(cs, OwnedBy(email)) + (if c.customerEmail == email then [c] else [])
  {
    FilterConcat(cs, [c], OwnedBy(email));
    assert [c][1..] == [];
    assert Filter([c][1..], OwnedBy(email)) == [];
  }

  /** The module-level store: `credits` is the shared credit array, `vaults` the vault array. */
  class CreditStore {
    var credits: seq<EnergyCredit>
    var vaults: seq<EnergyVault>

    /** The store as the module initialises it, holding the seed records. */
    constructor ()
      ensures credits == SeedCredits() && vaults == SeedVaults()
    {
      credits := SeedCredits();
      vaults := SeedVaults();
    }

    /** The first vault whose customer e-mail is `email`, if there is one. */
    function GetEnergyVaultByEmail(email: string): (r: Option<EnergyVault>)
      reads this
      ensures r.None? <==> forall i :: 0 <= i < |vaults| ==> vaults[i].customerEmail != email
      ensures r.Some? ==> r.value.customerEmail == email
      ensures r.Some? ==>
        exists i :: 0 <= i < |vaults| && vaults[i] == r.value &&
          forall j :: 0 <= j < i ==> vaults[j].customerEmail != email
    {
      Find(vaults, VaultOf(email))
    }

    /** Every credit record of `email` and nothing else, in store order. */
    function GetEnergyCreditsByEmail(email: string): (r: seq<EnergyCredit>)
      reads this
      ensures forall c: EnergyCredit :: c in r <==> c in credits && c.customerEmail == email
      ensures forall c: EnergyCredit :: c.customerEmail == email ==> multiset(r)[c] == multiset(credits)[c]
      ensures IsSubsequence(r, credits)
      ensures r == [] <==> forall i :: 0 <= i < |credits| ==> credits[i].customerEmail != email
    {
      FilterMultiset(credits, OwnedBy(email));
      FilterIsSubsequence(credits, OwnedBy(email));
      FilterExtremes(credits, OwnedBy(email));
      Filter(credits, OwnedBy(email))
    }

    /** The reduce over the customer's records that adds the active amounts, starting from 0. */
    function CalculateTotalCredits(email: string): (r: real)
      reads this
      ensures r == ActiveBalance(credits, email)
      ensures (forall i :: 0 <= i < |credits| ==> credits[i].customerEmail != email) ==> r == 0.0
      ensures (forall i :: 0 <= i < |credits| ==> credits[i].credits >= 0.0) ==> r >= 0.0
    {
      assert (forall i :: 0 <= i < |credits| ==> credits[i].customerEmail != email) ==>
        ActiveBalance(credits, email) == 0.0 by {
        if forall i :: 0 <= i < |credits| ==> credits[i].customerEmail != email {
          ActiveBalanceOfStranger(credits, email);
        }
      }
      assert (forall i :: 0 <= i < |credits| ==> credits[i].credits >= 0.0) ==>
        ActiveBalance(credits, email) >= 0.0 by {
        if forall i :: 0 <= i < |credits| ==> credits[i].credits >= 0.0 {
          ActiveBalanceNonNegative(credits, email);
        }
      }
      SumFilter(credits, OwnedBy(email), ActiveAmount, ShareOf(email));
      Reduce(0.0, GetEnergyCreditsByEmail(email), ActiveAmount)
    }

    /** Issues an active credit of `amount` kWh to `email`. The identifier and
        the generation time are supplied by the caller; `description` is accepted
        and not stored, as in the source. */
    method AddEnergyCredits(email: string, amount: real, source: CreditSource, description: string,
                            id: string, generatedAt: string) returns (c: EnergyCredit)
      modifies this
      ensures c == EnergyCredit(id, email, "Cliente", amount, generatedAt, None, Active, source, None)
      ensures credits == old(credits) + [c]
      ensures vaults == old(vaults)
      ensures GetEnergyCreditsByEmail(email) == old(GetEnergyCreditsByEmail(email)) + [c]
      ensures forall e :: e != email ==> GetEnergyCreditsByEmail(e) == old(GetEnergyCreditsByEmail(e))
      ensures CalculateTotalCredits(email) == old(CalculateTotalCredits(email)) + amount
      ensures forall e :: e != email ==> CalculateTotalCredits(e) == old(CalculateTotalCredits(e))
    {
      c := EnergyCredit(id, email, "Cliente", amount, generatedAt, None, Active, source, None);
      RecordsAppend(credits, c, email);
      ActiveBalanceAppend(credits, c, email);
      forall e | e != email
        ensures Filter(credits + [c], OwnedBy(e)) == Filter(credits, OwnedBy(e))
        ensures ActiveBalance(credits + [c], e) == ActiveBalance(credits, e)
      {
        RecordsAppend(credits, c, e);
        ActiveBalanceAppend(credits, c, e);
      }
      credits := credits + [c];
    }
  }

  // Seed data of the module

  /** The three seed credit records, one per customer: every amount is
      non-negative, and a record carries a consumption time exactly when it is
      no longer active. */
  function SeedCredits(): (r: seq<EnergyCredit>)
    ensures |r| == 3
    ensures forall i, j :: 0 <= i < j < |r| ==> r[i].id != r[j].id && r[i].customerEmail != r[j].customerEmail
    ensures forall i :: 0 <= i < |r| ==> r[i].credits >= 0.0 && (r[i].status == Active <==> r[i].consumedAt.None?)
  {
    [ EnergyCredit("1", "joao.silva@email.com", "João Silva", 150.5, "2024-01-15T10:00:00Z",
                   None, Active, SolarGeneration, None),
      EnergyCredit("2", "maria.souza@email.com", "Maria Souza", 89.2, "2024-01-14T14:30:00Z",
                   None, Active, SolarGeneration, None),
      EnergyCredit("3", "carlos.lima@email.com", "Carlos Lima", 200.0, "2024-01-13T09:15:00Z",
                   Some("2024-01-15T16:45:00Z"), Consumed, SolarGeneration, Some("inv_123456")) ]
  }

  /** The two seed vaults, of two different customers, with non-negative
      aggregates and a non-empty transaction log each. */
  function SeedVaults(): (r: seq<EnergyVault>)
    ensures |r| == 2
    ensures r[0].customerEmail != r[1].customerEmail
    ensures forall i :: 0 <= i < |r| ==>
      r[i].availableCredits >= 0.0 && r[i].consumedCredits >= 0.0 && |r[i].transactions| > 0
  {
    [ EnergyVault("1", "joao.silva@email.com", 450.5, 150.5, 300.0, "2024-01-15T10:00:00Z",
        [ EnergyTransaction("1", Credit, 150.5, "Geração solar - Usina Alpha", "2024-01-15T10:00:00Z", None),
          EnergyTransaction("2", Debit, 50.0, "Consumo residencial", "2024-01-14T18:00:00Z", Some("inv_123456")) ]),
      EnergyVault("2", "maria.souza@email.com", 289.2, 89.2, 200.0, "2024-01-14T14:30:00Z",
        [ EnergyTransaction("3", Credit, 89.2, "Geração solar - Usina Beta", "2024-01-14T14:30:00Z", None) ]) ]
  }

  /** Every seed vault's stored total is its available plus its consumed credits. */
  lemma SeedVaultsBalanced()
    ensures forall i :: 0 <= i < |SeedVaults()| ==>
      SeedVaults()[i].totalCredits == SeedVaults()[i].availableCredits + SeedVaults()[i].consumedCredits
  {
  }

  /** Every seed vault's available credits equal the balance computed from the seed records. */
  lemma SeedVaultsMatchRecords()
    ensures forall i :: 0 <= i < |SeedVaults()| ==>
      SeedVaults()[i].availableCredits == ActiveBalance(SeedCredits(), SeedVaults()[i].customerEmail)
  {
  }

  /** The seed customer whose only record is consumed has balance 0 and no vault. */
  lemma SeedCarlosHasNothing()
    ensures ActiveBalance(SeedCredits(), "carlos.lima@email.com") == 0.0
    ensures Find(SeedVaults(), VaultOf("carlos.lima@email.com")).None?
  {
  }

  /** The seed vault of joao.silva does not agree with its own transaction log:
      one credit of 150.5 followed by one debit of 50.0 leaves 100.5, while the
      stored available credits are 150.5. */
  lemma SeedLogDisagreesWithVault()
    ensures var v := SeedVaults()[0];
      && v.customerEmail == "joao.silva@email.com"
      && |v.transactions| == 2
      && v.transactions[0].kind == Credit && v.transactions[1].kind == Debit
      && v.transactions[0].amount - v.transactions[1].amount != v.availableCredits
  {
  }
}
