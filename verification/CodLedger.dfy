/** The cash-on-delivery ledger of one job: a row and the entries it is rebuilt from. */
module CodLedger {
  import opened Common
  import opened Workflow

  datatype CodStatus = AwaitingCollection | HeldByRider | PartiallyDeposited | Settled | VarianceReview

  datatype EntryKind = ExpectedEntry | CollectedEntry | DepositedEntry | VarianceEntry

  datatype CodEntry = CodEntry(kind: EntryKind, amount: int, holdingAfter: int, depositedAfter: int)

  datatype Ledger = Ledger(
    rider: Option<RiderId>,
    expected: int,
    collected: int,
    holding: int,
    deposited: int,
    variance: int,
    reference: Option<string>,
    status: CodStatus,
    entries: seq<CodEntry>)

  function Open(rider: Option<RiderId>, expected: int): Ledger {
    Ledger(rider, expected, 0, 0, 0, 0, None, AwaitingCollection, [CodEntry(ExpectedEntry, expected, 0, 0)])
  }

  /** Accepting an assignment re-points a ledger that holds no cash. */
  function Repoint(ledger: Ledger, rider: RiderId): Ledger {
    if ledger.holding == 0 then ledger.(rider := Some(rider)) else ledger
  }

  function Collect(ledger: Ledger, rider: Option<RiderId>, amount: int): Ledger {
    ledger.(
      rider := rider,
      collected := amount,
      holding := amount,
      variance := 0,
      status := HeldByRider,
      entries := ledger.entries + [CodEntry(CollectedEntry, amount, amount, 0)])
  }

  datatype DepositRequest = DepositRequest(amount: int, reference: string, finalize: bool, hasVarianceReason: bool)

  function Deposit(ledger: Ledger, request: DepositRequest): Result<Ledger> {
    if ledger.status.Settled? || ledger.status.VarianceReview? then Err(Conflict)
    else if request.amount > ledger.holding then Err(BadRequest)
    else
      var deposited := ledger.deposited + request.amount;
      var holding := ledger.holding - request.amount;
      var variance := ledger.expected - deposited;
      if request.finalize && variance != 0 && !request.hasVarianceReason then Err(BadRequest)
      else
        var status :=
          if request.finalize then (if variance == 0 then Settled else VarianceReview)
          else if holding == 0 then Settled
          else PartiallyDeposited;
        var deposit := [CodEntry(DepositedEntry, request.amount, holding, deposited)];
        var recorded :=
          if request.finalize && variance != 0
          then [CodEntry(VarianceEntry, if variance < 0 then -variance else variance, holding, deposited)]
          else [];
        Ok(ledger.(
          deposited := deposited,
          holding := holding,
          reference := Some(request.reference),
          variance := if request.finalize then variance else 0,
          status := status,
          entries := ledger.entries + deposit + recorded))
  }

  /** What the entries alone say about the cash. */
  datatype Cash = Cash(expected: int, collected: int, holding: int, deposited: int)

  function Apply(cash: Cash, entry: CodEntry): Cash {
    match entry.kind
    case ExpectedEntry => cash.(expected := entry.amount)
    case CollectedEntry => cash.(collected := cash.collected + entry.amount, holding := cash.holding + entry.amount)
    case DepositedEntry => cash.(holding := cash.holding - entry.amount, deposited := cash.deposited + entry.amount)
    case VarianceEntry => cash
  }

  function Replay(entries: seq<CodEntry>): Cash {
    if entries == [] then Cash(0, 0, 0, 0)
    else Apply(Replay(entries[..|entries| - 1]), entries[|entries| - 1])
  }

  ghost predicate EntryAudits(entries: seq<CodEntry>, k: nat)
    requires k < |entries|
  {
    var cash := Replay(entries[..k + 1]);
    entries[k].holdingAfter == cash.holding && entries[k].depositedAfter == cash.deposited
  }

  /** Each entry carries the balances that replaying the entries up to it gives. */
  ghost predicate Audited(entries: seq<CodEntry>) {
    forall k: nat {:trigger EntryAudits(entries, k)} :: k < |entries| ==> EntryAudits(entries, k)
  }

  /** The balances of the row add up and its status says where the cash is. */
  ghost predicate Balanced(ledger: Ledger) {
    && 0 < ledger.expected
    && (ledger.collected == 0 || ledger.collected == ledger.expected)
    && ledger.holding + ledger.deposited == ledger.collected
    && 0 <= ledger.holding && 0 <= ledger.deposited
    && (ledger.status.AwaitingCollection? <==> ledger.collected == 0)
    && (ledger.status.HeldByRider? ==> ledger.deposited == 0)
    && (ledger.status.PartiallyDeposited? ==> 0 < ledger.holding && 0 < ledger.deposited)
    && (ledger.status.Settled? <==> ledger.deposited == ledger.expected)
    && (ledger.status.VarianceReview? ==> ledger.variance == ledger.expected - ledger.deposited == ledger.holding > 0)
    && (!ledger.status.VarianceReview? ==> ledger.variance == 0)
  }

  ghost predicate LedgerInv(ledger: Ledger) {
    && Balanced(ledger)
    && Replay(ledger.entries) == Cash(ledger.expected, ledger.collected, ledger.holding, ledger.deposited)
    && Audited(ledger.entries)
    && PositiveDeposits(ledger.entries)
  }

  lemma ReplayAppend(entries: seq<CodEntry>, entry: CodEntry)
    ensures Replay(entries + [entry]) == Apply(Replay(entries), entry)
  {
    assert (entries + [entry])[..|entries|] == entries;
  }

  lemma AppendEntry(entries: seq<CodEntry>, entry: CodEntry)
    requires Audited(entries)
    requires entry.holdingAfter == Apply(Replay(entries), entry).holding
    requires entry.depositedAfter == Apply(Replay(entries), entry).deposited
    ensures Audited(entries + [entry])
  {
    var all := entries + [entry];
    ReplayAppend(entries, entry);
    forall k: nat | k < |all| ensures EntryAudits(all, k) {
      if k < |entries| {
        assert EntryAudits(entries, k);
        assert all[..k + 1] == entries[..k + 1];
      } else {
        assert all[..k + 1] == all;
      }
    }
  }

  lemma OpenKeeps(rider: Option<RiderId>, expected: int)
    requires 0 < expected
    ensures LedgerInv(Open(rider, expected))
  {
    var entry := CodEntry(ExpectedEntry, expected, 0, 0);
    EntryKeeps([], entry, Cash(expected, 0, 0, 0));
    assert [] + [entry] == [entry];
  }

  lemma CollectKeeps(ledger: Ledger, rider: Option<RiderId>)
    requires LedgerInv(ledger) && ledger.collected == 0
    ensures LedgerInv(Collect(ledger, rider, ledger.expected))
  {
    EntryKeeps(ledger.entries, CodEntry(CollectedEntry, ledger.expected, ledger.expected, 0),
               Cash(ledger.expected, ledger.expected, ledger.expected, 0));
  }

  lemma DepositBalances(ledger: Ledger, request: DepositRequest)
    requires Balanced(ledger) && 1 <= request.amount && Deposit(ledger, request).Ok?
    ensures var after := Deposit(ledger, request).value;
      && Balanced(after)
      && after.rider == ledger.rider
      && after.expected == ledger.expected
      && after.collected == ledger.collected > 0
      && after.deposited == ledger.deposited + request.amount
      && after.holding == ledger.holding - request.amount < ledger.holding
  {
  }

  lemma PositiveAppend(entries: seq<CodEntry>, entry: CodEntry)
    requires PositiveDeposits(entries) && (entry.kind.DepositedEntry? ==> 1 <= entry.amount)
    ensures PositiveDeposits(entries + [entry])
  {
  }

  /** Any entry that carries the balances it leads to keeps the entries audited. */
  lemma EntryKeeps(entries: seq<CodEntry>, entry: CodEntry, cash: Cash)
    requires Audited(entries) && PositiveDeposits(entries)
    requires cash == Apply(Replay(entries), entry)
    requires entry.holdingAfter == cash.holding && entry.depositedAfter == cash.deposited
    requires entry.kind.DepositedEntry? ==> 1 <= entry.amount
    ensures Audited(entries + [entry]) && PositiveDeposits(entries + [entry]) && Replay(entries + [entry]) == cash
  {
    ReplayAppend(entries, entry);
    AppendEntry(entries, entry);
    PositiveAppend(entries, entry);
  }

  /** A deposit of at least one paisa conserves cash and strictly lowers what the rider holds. */
  lemma DepositKeeps(ledger: Ledger, request: DepositRequest)
    requires LedgerInv(ledger) && 1 <= request.amount
    requires Deposit(ledger, request).Ok?
    ensures var after := Deposit(ledger, request).value;
      && LedgerInv(after)
      && after.rider == ledger.rider
      && after.expected == ledger.expected
      && after.collected == ledger.collected > 0
      && after.holding == ledger.holding - request.amount < ledger.holding
      && ledger.entries <= after.entries
  {
    var after := Deposit(ledger, request).value;
    var cash := Cash(after.expected, after.collected, after.holding, after.deposited);
    var deposit := CodEntry(DepositedEntry, request.amount, after.holding, after.deposited);
    var once := ledger.entries + [deposit];
    DepositBalances(ledger, request);
    EntryKeeps(ledger.entries, deposit, cash);
    if after.entries != once {
      var variance := ledger.expected - after.deposited;
      var size := if variance < 0 then -variance else variance;
      EntryKeeps(once, CodEntry(VarianceEntry, size, after.holding, after.deposited), cash);
      assert after.entries == once + [CodEntry(VarianceEntry, size, after.holding, after.deposited)];
    } else {
      assert once + [] == once;
    }
  }

  function Deposits(entries: seq<CodEntry>): nat {
    if entries == [] then 0
    else Deposits(entries[..|entries| - 1]) + if entries[|entries| - 1].kind.DepositedEntry? then 1 else 0
  }

  /** Deposits are of at least one paisa each. */
  ghost predicate PositiveDeposits(entries: seq<CodEntry>) {
    forall k :: 0 <= k < |entries| && entries[k].kind.DepositedEntry? ==> 1 <= entries[k].amount
  }

  lemma {:induction false} DepositsBounded(entries: seq<CodEntry>)
    requires PositiveDeposits(entries)
    ensures Deposits(entries) <= Replay(entries).deposited
  {
    if entries != [] {
      DepositsBounded(entries[..|entries| - 1]);
    }
  }

  /** No ledger takes more deposits than it expects paise: settling ends. */
  lemma DepositsEnd(ledger: Ledger)
    requires LedgerInv(ledger)
    ensures Deposits(ledger.entries) <= ledger.deposited <= ledger.expected
  {
    DepositsBounded(ledger.entries);
  }
}
