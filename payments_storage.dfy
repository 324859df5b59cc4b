/**
  The browser-side payments ledger. For every property the browser's local storage
  holds two lists under two keys: the contract metadata the payments screen needs,
  and the monthly payment records generated from it. The localStorage and its JSON
  encoding are modelled by the `Ledger` class, one map per key family, a missing key
  reading as the empty list. Each operation first computes the new list with a pure
  function (the specification), and the `Ledger` method stores exactly that list.
*/
module PaymentsStorage {
  import opened Wrappers
  import opened Text
  import opened Seqs
  import Calendar

  datatype ContractState = Activo | Cancelado | Vigente

  datatype ContractMeta = ContractMeta(
    contractId: int,
    propertyId: int,
    tenantId: int,
    tenantName: string,
    roomId: int,
    roomCode: string,
    startDate: string,
    endDate: string,
    months: int,
    monthlyRent: real,
    signed: bool,
    estado: ContractState)

  datatype PaymentStatus = Pendiente | Pagado

  /** `paymentMethod` (the source's `method`) is a free string: `confirmPayment` casts whatever it is given. */
  datatype PaymentRecord = PaymentRecord(
    id: string,
    contractId: int,
    propertyId: int,
    tenantName: string,
    roomCode: string,
    periodLabel: string,
    dueDate: string,
    amount: real,
    status: PaymentStatus,
    paymentMethod: string,
    paymentDate: Option<string>)

  // ---------------------------------------------------------------------------
  // Contract metadata lists
  // ---------------------------------------------------------------------------

  /** `list.findIndex(c => c.contractId === id)`. */
  function ContractIndex(list: seq<ContractMeta>, id: int): (i: int)
    ensures -1 <= i < |list|
    ensures i >= 0 ==> list[i].contractId == id
    ensures forall j :: 0 <= j < |list| && (i == -1 || j < i) ==> list[j].contractId != id
  {
    if list == [] then -1
    else if list[0].contractId == id then 0
    else
      var k := ContractIndex(list[1..], id);
      if k == -1 then -1 else k + 1
  }

  /** `list.find(c => c.contractId === id)`: the first entry of that contract, if any. */
  function FindContract(list: seq<ContractMeta>, id: int): (r: Option<ContractMeta>)
    ensures r.Some? <==> exists i :: 0 <= i < |list| && list[i].contractId == id
    ensures r.Some? ==> r.value in list && r.value.contractId == id
  {
    var i := ContractIndex(list, id);
    if i == -1 then None else Some(list[i])
  }

  /** `!!list.find(c => c.contractId === id && c.signed)`: some entry of the contract is signed. */
  function ContractSigned(list: seq<ContractMeta>, id: int): (b: bool)
    ensures b <==> exists i :: 0 <= i < |list| && list[i].contractId == id && list[i].signed
  {
    if list == [] then false
    else (list[0].contractId == id && list[0].signed) || ContractSigned(list[1..], id)
  }

  /** The list `upsertContractMeta` saves: the first entry of the contract is replaced, else `meta` is appended. */
  function UpsertMeta(list: seq<ContractMeta>, meta: ContractMeta): seq<ContractMeta>
  {
    var i := ContractIndex(list, meta.contractId);
    if i >= 0 then list[i := meta] else list + [meta]
  }

  /** The list `markContractSigned` saves when the contract is listed. */
  function SignContract(list: seq<ContractMeta>, id: int): seq<ContractMeta>
  {
    var i := ContractIndex(list, id);
    if i == -1 then list else list[i := list[i].(signed := true, estado := Vigente)]
  }

  /** The list `setContractState` saves when the contract is listed. */
  function WithState(list: seq<ContractMeta>, id: int, estado: ContractState): seq<ContractMeta>
  {
    var i := ContractIndex(list, id);
    if i == -1 then list else list[i := list[i].(estado := estado)]
  }

  /** Contract ids are unique in a list. */
  predicate UniqueContracts(list: seq<ContractMeta>)
  {
    forall i, j :: 0 <= i < j < |list| ==> list[i].contractId != list[j].contractId
  }

  /** After an upsert the contract reads back as exactly the given metadata, and every other contract reads as before. */
  lemma UpsertThenFind(list: seq<ContractMeta>, meta: ContractMeta, other: int)
    ensures FindContract(UpsertMeta(list, meta), meta.contractId) == Some(meta)
    ensures other != meta.contractId ==>
      FindContract(UpsertMeta(list, meta), other) == FindContract(list, other)
  {
    var r := UpsertMeta(list, meta);
    var i := ContractIndex(list, meta.contractId);
    if i == -1 {
      assert r[|list|] == meta;
      assert forall j :: 0 <= j < |list| ==> r[j] == list[j];
    }
    assert FindContract(r, meta.contractId) == Some(meta) by {
      IndexAfterUpdate(list, r, meta.contractId);
    }
    if other != meta.contractId {
      IndexOfOther(list, r, meta.contractId, other);
    }
  }

  /** An upsert never creates a second entry for a contract. */
  lemma UpsertKeepsUnique(list: seq<ContractMeta>, meta: ContractMeta)
    requires UniqueContracts(list)
    ensures UniqueContracts(UpsertMeta(list, meta))
    ensures |UpsertMeta(list, meta)| == |list| + (if ContractIndex(list, meta.contractId) == -1 then 1 else 0)
  {
  }

  /** Signing marks the contract signed and in force exactly when it is listed; other contracts are untouched. */
  lemma SignThenRead(list: seq<ContractMeta>, id: int, other: int)
    ensures ContractSigned(SignContract(list, id), id) <==> FindContract(list, id).Some? || ContractSigned(list, id)
    ensures FindContract(SignContract(list, id), id)
      == (match FindContract(list, id)
          case None => None
          case Some(m) => Some(m.(signed := true, estado := Vigente)))
    ensures other != id ==> FindContract(SignContract(list, id), other) == FindContract(list, other)
    ensures other != id ==> ContractSigned(SignContract(list, id), other) == ContractSigned(list, other)
  {
    var r := SignContract(list, id);
    var i := ContractIndex(list, id);
    if i >= 0 {
      assert r[i].contractId == id && r[i].signed;
      IndexAfterUpdate(list, r, id);
      if other != id {
        IndexOfOther(list, r, id, other);
        SignedOfOther(list, r, id, other);
      }
    }
  }

  /** Setting the state changes only the state of the first entry of the contract. */
  lemma WithStateThenRead(list: seq<ContractMeta>, id: int, estado: ContractState, other: int)
    ensures FindContract(WithState(list, id, estado), id)
      == (match FindContract(list, id)
          case None => None
          case Some(m) => Some(m.(estado := estado)))
    ensures other != id ==> FindContract(WithState(list, id, estado), other) == FindContract(list, other)
    ensures ContractSigned(WithState(list, id, estado), other) == ContractSigned(list, other)
  {
    var r := WithState(list, id, estado);
    var i := ContractIndex(list, id);
    if i >= 0 {
      IndexAfterUpdate(list, r, id);
      if other != id {
        IndexOfOther(list, r, id, other);
      }
      assert forall j :: 0 <= j < |list| ==> r[j].contractId == list[j].contractId && r[j].signed == list[j].signed;
    }
  }

  /** Replacing the first entry of `id` by one with the same id keeps it the first entry of `id`. */
  lemma IndexAfterUpdate(list: seq<ContractMeta>, r: seq<ContractMeta>, id: int)
    requires |r| >= |list|
    requires forall j :: 0 <= j < |list| && j != ContractIndex(list, id) ==> r[j] == list[j]
    requires ContractIndex(list, id) >= 0 ==> r[ContractIndex(list, id)].contractId == id
    requires ContractIndex(list, id) == -1 ==> |r| == |list| + 1 && r[|list|].contractId == id
    ensures ContractIndex(r, id) == (if ContractIndex(list, id) >= 0 then ContractIndex(list, id) else |list|)
  {
  }

  /** Changing only entries of `id` leaves the first entry of every other contract where it was. */
  lemma IndexOfOther(list: seq<ContractMeta>, r: seq<ContractMeta>, id: int, other: int)
    requires other != id
    requires |list| <= |r| <= |list| + 1
    requires forall j :: 0 <= j < |list| && j != ContractIndex(list, id) ==> r[j] == list[j]
    requires ContractIndex(list, id) >= 0 ==> r[ContractIndex(list, id)].contractId == id
    requires |r| == |list| + 1 ==> r[|list|].contractId == id
    ensures FindContract(r, other) == FindContract(list, other)
  {
    assert forall j :: 0 <= j < |r| ==> (r[j].contractId == other <==> j < |list| && list[j].contractId == other);
    assert forall j :: 0 <= j < |list| && list[j].contractId == other ==> r[j] == list[j];
    var k := ContractIndex(list, other);
    assert ContractIndex(r, other) == k;
  }

  lemma SignedOfOther(list: seq<ContractMeta>, r: seq<ContractMeta>, id: int, other: int)
    requires other != id && |r| == |list|
    requires forall j :: 0 <= j < |list| && j != ContractIndex(list, id) ==> r[j] == list[j]
    requires ContractIndex(list, id) >= 0 ==> r[ContractIndex(list, id)].contractId == id
    requires ContractIndex(list, id) >= 0 ==> list[ContractIndex(list, id)].contractId == id
    ensures ContractSigned(r, other) == ContractSigned(list, other)
  {
    assert forall j :: 0 <= j < |list| && list[j].contractId == other ==> r[j] == list[j];
    assert forall j :: 0 <= j < |list| && r[j].contractId == other ==> r[j] == list[j];
  }

  // ---------------------------------------------------------------------------
  // Payment lists
  // ---------------------------------------------------------------------------

  /** `existing.some(p => p.contractId === id)`. */
  function HasPaymentsFor(list: seq<PaymentRecord>, id: int): (b: bool)
    ensures b <==> exists i :: 0 <= i < |list| && list[i].contractId == id
  {
    if list == [] then false else list[0].contractId == id || HasPaymentsFor(list[1..], id)
  }

  /** `list.findIndex(p => p.id === id)`. */
  function PaymentIndex(list: seq<PaymentRecord>, id: string): (i: int)
    ensures -1 <= i < |list|
    ensures i >= 0 ==> list[i].id == id
    ensures forall j :: 0 <= j < |list| && (i == -1 || j < i) ==> list[j].id != id
  {
    if list == [] then -1
    else if list[0].id == id then 0
    else
      var k := PaymentIndex(list[1..], id);
      if k == -1 then -1 else k + 1
  }

  /** The id of the k-th installment of a contract, `${contractId}-${k}`. */
  function PaymentId(contractId: int, k: nat): string
  {
    IntToString(contractId) + "-" + NatToString(k)
  }

  /** What every stored payment id starts with: its contract's id and a dash. */
  function OwnerPrefix(contractId: int): string
  {
    IntToString(contractId) + "-"
  }

  /**
    The two date helpers generation calls: `addMonthsToISODate`, which the ledger is
    built with as `Calendar.AddMonthsToISODate`, and `getPeriodLabelFromISO`, whose
    month names come from the browser's locale data.
  */
  datatype DateRules = DateRules(addMonths: (string, int) -> string, periodLabel: string -> string)

  /** The installment for month i (from 0) of a contract: unpaid, due i months after the start. */
  function Installment(meta: ContractMeta, contractId: int, propertyId: int, rules: DateRules, i: nat): PaymentRecord
  {
    var due := rules.addMonths(meta.startDate, i);
    PaymentRecord(PaymentId(contractId, i + 1), contractId, propertyId, meta.tenantName,
                  meta.roomCode, rules.periodLabel(due), due, meta.monthlyRent, Pendiente, "", None)
  }

  /** The first n installments, in month order. */
  function Schedule(meta: ContractMeta, contractId: int, propertyId: int, rules: DateRules, n: nat)
    : (r: seq<PaymentRecord>)
    ensures |r| == n
    ensures forall i :: 0 <= i < n ==> r[i] == Installment(meta, contractId, propertyId, rules, i)
  {
    if n == 0 then []
    else Schedule(meta, contractId, propertyId, rules, n - 1) + [Installment(meta, contractId, propertyId, rules, n - 1)]
  }

  /** Months the loop `for (i = 0; i < meta.months; i++)` runs. */
  function MonthCount(meta: ContractMeta): nat
  {
    if meta.months < 0 then 0 else meta.months
  }

  /** Whether `generatePaymentsForContract` saves: the contract is listed and has no payment yet. */
  predicate GenerateSaves(metas: seq<ContractMeta>, payments: seq<PaymentRecord>, contractId: int)
  {
    FindContract(metas, contractId).Some? && !HasPaymentsFor(payments, contractId)
  }

  /** The payment list after `generatePaymentsForContract`. */
  function Generate(metas: seq<ContractMeta>, payments: seq<PaymentRecord>, contractId: int,
                    propertyId: int, rules: DateRules): seq<PaymentRecord>
  {
    if GenerateSaves(metas, payments, contractId) then
      var meta := FindContract(metas, contractId).value;
      payments + Schedule(meta, contractId, propertyId, rules, MonthCount(meta))
    else payments
  }

  /** The payment list after `markPaymentAsPaid`: the first record with the id is paid today by `payMethod`. */
  function MarkPaid(list: seq<PaymentRecord>, id: string, payMethod: string, today: string): seq<PaymentRecord>
  {
    var i := PaymentIndex(list, id);
    if i == -1 then list
    else list[i := list[i].(status := Pagado, paymentMethod := payMethod, paymentDate := Some(today))]
  }

  /** The payment records that survive `onContractFinalized`: all but the pending ones of the contract. */
  function KeepAfterFinalize(list: seq<PaymentRecord>, contractId: int): seq<PaymentRecord>
  {
    Filter(list, (p: PaymentRecord) => !(p.contractId == contractId && p.status == Pendiente))
  }

  /** Every id starts with its own contract's id and a dash. */
  predicate IdsOwned(list: seq<PaymentRecord>)
  {
    forall i :: 0 <= i < |list| ==> StartsWith(list[i].id, OwnerPrefix(list[i].contractId))
  }

  /** No two records share an id, so `findIndex` by id names one record. */
  predicate UniqueIds(list: seq<PaymentRecord>)
  {
    forall i, j :: 0 <= i < j < |list| ==> list[i].id != list[j].id
  }

  predicate WellFormed(list: seq<PaymentRecord>)
  {
    IdsOwned(list) && UniqueIds(list)
  }

  /** After a printed integer, the first dash past its first character is the one that follows it. */
  lemma DashAfterNumber(x: string, rest: string)
    requires |x| >= 1 && forall i :: 1 <= i < |x| ==> IsDigit(x[i])
    ensures IndexOf((x + "-" + rest)[1..], '-') == |x| - 1
  {
    var t := (x + "-" + rest)[1..];
    assert t[|x| - 1] == '-';
    assert forall j :: 0 <= j < |x| - 1 ==> t[j] == x[j + 1];
  }

  /** An installment id names its contract: it starts with no other contract's prefix. */
  lemma PaymentIdOwner(c: int, k: nat, other: int)
    requires StartsWith(PaymentId(c, k), OwnerPrefix(other))
    ensures c == other
  {
    var a, b := IntToString(c), IntToString(other);
    var s := PaymentId(c, k);
    assert s == a + "-" + NatToString(k);
    DashAfterNumber(a, NatToString(k));
    assert s == b + "-" + s[|b| + 1..];
    DashAfterNumber(b, s[|b| + 1..]);
    assert a == s[..|a|] == b;
    IntToStringInjective(c, other);
  }

  /** Installment ids are distinct: the id gives back contract and month. */
  lemma PaymentIdInjective(c: int, k: nat, c2: int, k2: nat)
    requires PaymentId(c, k) == PaymentId(c2, k2)
    ensures c == c2 && k == k2
  {
    var s := PaymentId(c, k);
    assert StartsWith(s, OwnerPrefix(c2)) by {
      assert s == OwnerPrefix(c2) + NatToString(k2);
    }
    PaymentIdOwner(c, k, c2);
    assert s == OwnerPrefix(c) + NatToString(k);
    var n := |OwnerPrefix(c)|;
    assert NatToString(k) == s[n..] == NatToString(k2);
    NatToStringInjective(k, k2);
  }

  /** The generated installments have owned, distinct ids. */
  lemma ScheduleWellFormed(meta: ContractMeta, c: int, p: int, rules: DateRules, n: nat)
    ensures WellFormed(Schedule(meta, c, p, rules, n))
  {
    var s := Schedule(meta, c, p, rules, n);
    forall i | 0 <= i < n ensures StartsWith(s[i].id, OwnerPrefix(c)) {
      assert s[i].id == OwnerPrefix(c) + NatToString(i + 1);
    }
    forall i, j | 0 <= i < j < n ensures s[i].id != s[j].id {
      if s[i].id == s[j].id {
        PaymentIdInjective(c, i + 1, c, j + 1);
      }
    }
  }

  /** Two well-formed lists with no id in common concatenate to a well-formed list. */
  lemma AppendWellFormed(a: seq<PaymentRecord>, b: seq<PaymentRecord>)
    requires WellFormed(a) && WellFormed(b)
    requires forall i, j :: 0 <= i < |a| && 0 <= j < |b| ==> a[i].id != b[j].id
    ensures WellFormed(a + b)
  {
    var r := a + b;
    forall i, j | 0 <= i < j < |r| ensures r[i].id != r[j].id {
      if j < |a| {
        assert r[i] == a[i] && r[j] == a[j];
      } else if i >= |a| {
        assert r[i] == b[i - |a|] && r[j] == b[j - |a|];
      } else {
        assert r[i] == a[i] && r[j] == b[j - |a|];
      }
    }
    forall i | 0 <= i < |r| ensures StartsWith(r[i].id, OwnerPrefix(r[i].contractId)) {
      if i < |a| {
        assert r[i] == a[i];
      } else {
        assert r[i] == b[i - |a|];
      }
    }
  }

  /** Installment ids of a contract with no stored payment clash with no stored id. */
  lemma ScheduleIdsFresh(payments: seq<PaymentRecord>, s: seq<PaymentRecord>, c: int)
    requires IdsOwned(payments) && !HasPaymentsFor(payments, c)
    requires forall j :: 0 <= j < |s| ==> s[j].id == PaymentId(c, j + 1)
    ensures forall i, j :: 0 <= i < |payments| && 0 <= j < |s| ==> payments[i].id != s[j].id
  {
    forall i, j | 0 <= i < |payments| && 0 <= j < |s| ensures payments[i].id != s[j].id {
      if payments[i].id == s[j].id {
        PaymentIdOwner(c, j + 1, payments[i].contractId);
        assert false;
      }
    }
  }

  /** Generating keeps the ledger well formed: new ids clash neither with each other nor with stored ones. */
  lemma GenerateWellFormed(metas: seq<ContractMeta>, payments: seq<PaymentRecord>, c: int, p: int,
                           rules: DateRules)
    requires WellFormed(payments)
    ensures WellFormed(Generate(metas, payments, c, p, rules))
  {
    if GenerateSaves(metas, payments, c) {
      var meta := FindContract(metas, c).value;
      var s := Schedule(meta, c, p, rules, MonthCount(meta));
      ScheduleWellFormed(meta, c, p, rules, MonthCount(meta));
      ScheduleIdsFresh(payments, s, c);
      AppendWellFormed(payments, s);
    }
  }

  /** Generation adds the contract's whole schedule exactly once: a second call changes nothing. */
  lemma GenerateIdempotent(metas: seq<ContractMeta>, payments: seq<PaymentRecord>, c: int, p: int,
                           rules: DateRules)
    ensures Generate(metas, Generate(metas, payments, c, p, rules), c, p, rules)
         == Generate(metas, payments, c, p, rules)
  {
    if GenerateSaves(metas, payments, c) {
      var meta := FindContract(metas, c).value;
      var s := Schedule(meta, c, p, rules, MonthCount(meta));
      if MonthCount(meta) > 0 {
        assert (payments + s)[|payments|].contractId == c;
      } else {
        assert payments + s == payments;
      }
    }
  }

  /**
    Once a contract has installments stored, a later generation for it never adds more,
    whatever its listing says by then (a changed month count or rent included).
  */
  lemma GenerateOnce(metas: seq<ContractMeta>, later: seq<ContractMeta>, payments: seq<PaymentRecord>,
                     c: int, p: int, rules: DateRules)
    requires GenerateSaves(metas, payments, c) && MonthCount(FindContract(metas, c).value) > 0
    ensures Generate(later, Generate(metas, payments, c, p, rules), c, p, rules) == Generate(metas, payments, c, p, rules)
  {
    var meta := FindContract(metas, c).value;
    var s := Schedule(meta, c, p, rules, MonthCount(meta));
    assert (payments + s)[|payments|].contractId == c;
  }

  /** A contract with no months stores nothing, so a later generation may still save its schedule. */
  lemma GenerateNoMonths(metas: seq<ContractMeta>, payments: seq<PaymentRecord>, c: int, p: int, rules: DateRules)
    requires FindContract(metas, c).Some? && MonthCount(FindContract(metas, c).value) == 0
    ensures Generate(metas, payments, c, p, rules) == payments
    ensures HasPaymentsFor(Generate(metas, payments, c, p, rules), c) == HasPaymentsFor(payments, c)
  {
    assert payments + [] == payments;
  }

  /** What a saving generation appends: the contract's installments for months 0 .. months - 1, after the stored list. */
  lemma GenerateContents(metas: seq<ContractMeta>, payments: seq<PaymentRecord>, c: int, p: int,
                         rules: DateRules)
    requires GenerateSaves(metas, payments, c)
    ensures var meta := FindContract(metas, c).value;
      var r := Generate(metas, payments, c, p, rules);
      && |r| == |payments| + MonthCount(meta)
      && r[..|payments|] == payments
      && forall i :: 0 <= i < MonthCount(meta) ==> r[|payments| + i] == Installment(meta, c, p, rules, i)
  {
    var meta := FindContract(metas, c).value;
    var s := Schedule(meta, c, p, rules, MonthCount(meta));
    var r := Generate(metas, payments, c, p, rules);
    assert r == payments + s;
    assert forall i :: 0 <= i < MonthCount(meta) ==> r[|payments| + i] == s[i];
  }

  /** An installment is unpaid, carries the contract's tenant, room and rent, and falls due i months after the start. */
  lemma InstallmentFields(meta: ContractMeta, c: int, p: int, rules: DateRules, i: nat)
    ensures var rec := Installment(meta, c, p, rules, i);
      && rec.id == PaymentId(c, i + 1)
      && rec.contractId == c && rec.propertyId == p
      && rec.status == Pendiente && rec.paymentMethod == "" && rec.paymentDate == None
      && rec.amount == meta.monthlyRent
      && rec.tenantName == meta.tenantName && rec.roomCode == meta.roomCode
      && rec.dueDate == rules.addMonths(meta.startDate, i)
      && rec.periodLabel == rules.periodLabel(rec.dueDate)
  {
  }

  /** Marking paid changes only the first record with that id, and only its status, method and payment date. */
  lemma MarkPaidEffect(list: seq<PaymentRecord>, id: string, payMethod: string, today: string)
    ensures var r := MarkPaid(list, id, payMethod, today);
      && |r| == |list|
      && (forall j :: 0 <= j < |list| ==> r[j].id == list[j].id && r[j].contractId == list[j].contractId)
      && (PaymentIndex(list, id) == -1 ==> r == list)
      && (PaymentIndex(list, id) >= 0 ==>
            var i := PaymentIndex(list, id);
            && r[i] == list[i].(status := Pagado, paymentMethod := payMethod, paymentDate := Some(today))
            && forall j :: 0 <= j < |list| && j != i ==> r[j] == list[j])
  {
  }

  /** Marking the same payment paid twice, on the same day by the same method, is marking it once. */
  lemma MarkPaidIdempotent(list: seq<PaymentRecord>, id: string, payMethod: string, today: string)
    ensures MarkPaid(MarkPaid(list, id, payMethod, today), id, payMethod, today) == MarkPaid(list, id, payMethod, today)
  {
    var r := MarkPaid(list, id, payMethod, today);
    var i := PaymentIndex(list, id);
    if i >= 0 {
      assert forall j :: 0 <= j < |list| ==> r[j].id == list[j].id;
      assert PaymentIndex(r, id) == i;
    }
  }

  /** Marking paid keeps ids, so it keeps the ledger well formed. */
  lemma MarkPaidWellFormed(list: seq<PaymentRecord>, id: string, payMethod: string, today: string)
    requires WellFormed(list)
    ensures WellFormed(MarkPaid(list, id, payMethod, today))
  {
    MarkPaidEffect(list, id, payMethod, today);
  }

  /** Finalizing removes exactly the contract's pending records: paid ones and other contracts' survive, in order. */
  lemma FinalizeEffect(list: seq<PaymentRecord>, c: int)
    ensures var r := KeepAfterFinalize(list, c);
      && (forall i :: 0 <= i < |r| ==> r[i] in list && !(r[i].contractId == c && r[i].status == Pendiente))
      && (forall i :: 0 <= i < |list| && (list[i].contractId != c || list[i].status == Pagado) ==> list[i] in r)
      && !HasPaymentsFor(Filter(r, (x: PaymentRecord) => x.status == Pendiente), c)
  {
    var r := KeepAfterFinalize(list, c);
    var q := Filter(r, (x: PaymentRecord) => x.status == Pendiente);
    assert forall i :: 0 <= i < |q| ==> q[i] in r;
  }

  /**
    Finalizing keeps the surviving records in their original order and with their
    multiplicity: it works record by record, and a list with nothing to remove stays as it is.
  */
  lemma FinalizeKeepsOrder(a: seq<PaymentRecord>, b: seq<PaymentRecord>, c: int)
    ensures KeepAfterFinalize(a + b, c) == KeepAfterFinalize(a, c) + KeepAfterFinalize(b, c)
    ensures (forall i :: 0 <= i < |a| ==> !(a[i].contractId == c && a[i].status == Pendiente)) ==>
      KeepAfterFinalize(a, c) == a
  {
    var keep := (p: PaymentRecord) => !(p.contractId == c && p.status == Pendiente);
    FilterConcat(a, b, keep);
    if forall i :: 0 <= i < |a| ==> !(a[i].contractId == c && a[i].status == Pendiente) {
      FilterKeepsAll(a, keep);
    }
  }

  /** Finalizing keeps the ledger well formed. */
  lemma {:induction false} FinalizeWellFormed(list: seq<PaymentRecord>, c: int)
    requires WellFormed(list)
    ensures WellFormed(KeepAfterFinalize(list, c))
  {
    if list != [] {
      FinalizeWellFormed(list[1..], c);
      var rest := KeepAfterFinalize(list[1..], c);
      forall j | 0 <= j < |rest| ensures rest[j].id != list[0].id {
        assert rest[j] in list[1..];
        var k :| 0 <= k < |list[1..]| && list[1..][k] == rest[j];
        assert list[k + 1] == rest[j];
      }
    }
  }

  /** Finalizing twice is finalizing once. */
  lemma FinalizeIdempotent(list: seq<PaymentRecord>, c: int)
    ensures KeepAfterFinalize(KeepAfterFinalize(list, c), c) == KeepAfterFinalize(list, c)
  {
    var r := KeepAfterFinalize(list, c);
    FilterKeepsAll(r, (p: PaymentRecord) => !(p.contractId == c && p.status == Pendiente));
  }

  // ---------------------------------------------------------------------------
  // The stored state
  // ---------------------------------------------------------------------------

  /** The two key families of local storage: `habitora-v1:contracts-meta:property:<id>` and `habitora-v1:payments:property:<id>`. */
  class Ledger {
    var contractsMeta: map<int, seq<ContractMeta>>
    var payments: map<int, seq<PaymentRecord>>
    const rules: DateRules

    /** An empty storage; `periodLabel` stands for `getPeriodLabelFromISO`. */
    constructor (periodLabel: string -> string)
      ensures contractsMeta == map[] && payments == map[]
      ensures UsesCalendar()
      ensures forall iso :: rules.periodLabel(iso) == periodLabel(iso)
    {
      contractsMeta := map[];
      payments := map[];
      rules := DateRules(Calendar.AddMonthsToISODate, periodLabel);
    }

    /** Due dates are computed by `Calendar.AddMonthsToISODate`. */
    ghost predicate UsesCalendar()
    {
      forall iso, k :: rules.addMonths(iso, k) == Calendar.AddMonthsToISODate(iso, k)
    }

    /** `loadContractsMeta`: a missing key reads as the empty list. */
    function ContractsOf(propertyId: int): seq<ContractMeta>
      reads this
    {
      if propertyId in contractsMeta then contractsMeta[propertyId] else []
    }

    /** `loadPayments`. */
    function PaymentsOf(propertyId: int): seq<PaymentRecord>
      reads this
    {
      if propertyId in payments then payments[propertyId] else []
    }

    /** Every property's payment list is well formed. */
    predicate Valid()
      reads this
    {
      forall p :: p in payments ==> WellFormed(payments[p])
    }

    method UpsertContractMeta(meta: ContractMeta)
      modifies this
      ensures contractsMeta == old(contractsMeta)[meta.propertyId := UpsertMeta(old(ContractsOf(meta.propertyId)), meta)]
      ensures payments == old(payments)
    {
      var list := ContractsOf(meta.propertyId);
      contractsMeta := contractsMeta[meta.propertyId := UpsertMeta(list, meta)];
    }

    method MarkContractSigned(propertyId: int, contractId: int)
      modifies this
      ensures ContractIndex(old(ContractsOf(propertyId)), contractId) == -1 ==> contractsMeta == old(contractsMeta)
      ensures ContractIndex(old(ContractsOf(propertyId)), contractId) >= 0 ==>
        contractsMeta == old(contractsMeta)[propertyId := SignContract(old(ContractsOf(propertyId)), contractId)]
      ensures payments == old(payments)
    {
      var list := ContractsOf(propertyId);
      if ContractIndex(list, contractId) == -1 {
        return;
      }
      contractsMeta := contractsMeta[propertyId := SignContract(list, contractId)];
    }

    method SetContractState(propertyId: int, contractId: int, estado: ContractState)
      modifies this
      ensures ContractIndex(old(ContractsOf(propertyId)), contractId) == -1 ==> contractsMeta == old(contractsMeta)
      ensures ContractIndex(old(ContractsOf(propertyId)), contractId) >= 0 ==>
        contractsMeta == old(contractsMeta)[propertyId := WithState(old(ContractsOf(propertyId)), contractId, estado)]
      ensures payments == old(payments)
    {
      var list := ContractsOf(propertyId);
      if ContractIndex(list, contractId) == -1 {
        return;
      }
      contractsMeta := contractsMeta[propertyId := WithState(list, contractId, estado)];
    }

    method GeneratePaymentsForContract(propertyId: int, contractId: int)
      requires Valid()
      modifies this
      ensures Valid()
      ensures !GenerateSaves(old(ContractsOf(propertyId)), old(PaymentsOf(propertyId)), contractId) ==>
        payments == old(payments)
      ensures GenerateSaves(old(ContractsOf(propertyId)), old(PaymentsOf(propertyId)), contractId) ==>
        payments == old(payments)[propertyId :=
          Generate(old(ContractsOf(propertyId)), old(PaymentsOf(propertyId)), contractId, propertyId, rules)]
      ensures contractsMeta == old(contractsMeta)
    {
      var meta := FindContract(ContractsOf(propertyId), contractId);
      if meta.None? {
        return;
      }
      var existing := PaymentsOf(propertyId);
      if HasPaymentsFor(existing, contractId) {
        return;
      }
      var batch: seq<PaymentRecord> := [];
      var i := 0;
      while i < meta.value.months
        invariant 0 <= i <= MonthCount(meta.value)
        invariant batch == Schedule(meta.value, contractId, propertyId, rules, i)
      {
        batch := batch + [Installment(meta.value, contractId, propertyId, rules, i)];
        i := i + 1;
      }
      GenerateWellFormed(ContractsOf(propertyId), existing, contractId, propertyId, rules);
      payments := payments[propertyId := existing + batch];
    }

    /** Returns the list as it stands afterwards; an unknown id returns the stored list and saves nothing. */
    method MarkPaymentAsPaid(propertyId: int, paymentId: string, payMethod: string, today: string)
      returns (list: seq<PaymentRecord>)
      requires Valid()
      modifies this
      ensures Valid()
      ensures list == MarkPaid(old(PaymentsOf(propertyId)), paymentId, payMethod, today)
      ensures PaymentIndex(old(PaymentsOf(propertyId)), paymentId) == -1 ==> payments == old(payments)
      ensures PaymentIndex(old(PaymentsOf(propertyId)), paymentId) >= 0 ==>
        payments == old(payments)[propertyId := list]
      ensures contractsMeta == old(contractsMeta)
    {
      list := PaymentsOf(propertyId);
      if PaymentIndex(list, paymentId) == -1 {
        return;
      }
      MarkPaidWellFormed(list, paymentId, payMethod, today);
      list := MarkPaid(list, paymentId, payMethod, today);
      payments := payments[propertyId := list];
    }

    /** Cancels the contract, then always saves the payment list without the contract's pending records. */
    method OnContractFinalized(propertyId: int, contractId: int)
      requires Valid()
      modifies this
      ensures Valid()
      ensures ContractIndex(old(ContractsOf(propertyId)), contractId) == -1 ==> contractsMeta == old(contractsMeta)
      ensures ContractIndex(old(ContractsOf(propertyId)), contractId) >= 0 ==>
        contractsMeta == old(contractsMeta)[propertyId := WithState(old(ContractsOf(propertyId)), contractId, Cancelado)]
      ensures payments == old(payments)[propertyId := KeepAfterFinalize(old(PaymentsOf(propertyId)), contractId)]
    {
      SetContractState(propertyId, contractId, Cancelado);
      var list := PaymentsOf(propertyId);
      FinalizeWellFormed(list, contractId);
      payments := payments[propertyId := KeepAfterFinalize(list, contractId)];
    }
  }
}
