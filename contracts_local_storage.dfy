/**
  The contracts screen's entry points into the payments ledger: sign a contract and
  generate its installments in one step, confirm a payment by a free-form method name,
  and finalize a contract (which is the ledger's own `OnContractFinalized`).
*/
module ContractsLocalStorage {
  import opened Wrappers
  import opened PaymentsStorage

  /** `isContractSigned(propertyId, contractId)`: some stored entry of the contract is signed. */
  function IsContractSigned(ledger: Ledger, propertyId: int, contractId: int): (b: bool)
    reads ledger
    ensures b <==> (exists i :: 0 <= i < |ledger.ContractsOf(propertyId)| &&
                      ledger.ContractsOf(propertyId)[i].contractId == contractId &&
                      ledger.ContractsOf(propertyId)[i].signed)
  {
    ContractSigned(ledger.ContractsOf(propertyId), contractId)
  }

  /** The payment list `markContractSignedAndGeneratePayments` leaves: generation runs on the signed metadata. */
  function SignAndGenerate(metas: seq<ContractMeta>, payments: seq<PaymentRecord>, contractId: int,
                           propertyId: int, rules: DateRules): seq<PaymentRecord>
  {
    Generate(SignContract(metas, contractId), payments, contractId, propertyId, rules)
  }

  method MarkContractSignedAndGeneratePayments(ledger: Ledger, propertyId: int, contractId: int)
    requires ledger.Valid()
    modifies ledger
    ensures ledger.Valid()
    ensures ContractIndex(old(ledger.ContractsOf(propertyId)), contractId) == -1 ==>
      ledger.contractsMeta == old(ledger.contractsMeta) && ledger.payments == old(ledger.payments)
    ensures ContractIndex(old(ledger.ContractsOf(propertyId)), contractId) >= 0 ==>
      ledger.contractsMeta == old(ledger.contractsMeta)[propertyId :=
        SignContract(old(ledger.ContractsOf(propertyId)), contractId)]
    ensures ContractIndex(old(ledger.ContractsOf(propertyId)), contractId) >= 0 ==>
      (HasPaymentsFor(old(ledger.PaymentsOf(propertyId)), contractId) ==> ledger.payments == old(ledger.payments))
    ensures ContractIndex(old(ledger.ContractsOf(propertyId)), contractId) >= 0 ==>
      (!HasPaymentsFor(old(ledger.PaymentsOf(propertyId)), contractId) ==>
        ledger.payments == old(ledger.payments)[propertyId := SignAndGenerate(
          old(ledger.ContractsOf(propertyId)), old(ledger.PaymentsOf(propertyId)), contractId, propertyId, ledger.rules)])
  {
    ghost var metas := ledger.ContractsOf(propertyId);
    ledger.MarkContractSigned(propertyId, contractId);
    SignKeepsListing(metas, contractId);
    ledger.GeneratePaymentsForContract(propertyId, contractId);
  }

  /** Signing keeps every contract listed or unlisted as it was. */
  lemma SignKeepsListing(metas: seq<ContractMeta>, contractId: int)
    ensures ContractIndex(SignContract(metas, contractId), contractId) == ContractIndex(metas, contractId)
    ensures |SignContract(metas, contractId)| == |metas|
  {
    if ContractIndex(metas, contractId) >= 0 {
      IndexAfterUpdate(metas, SignContract(metas, contractId), contractId);
    }
  }

  /**
    Signing a listed contract that has no payments yet leaves it signed and in force,
    with one unpaid installment per contract month appended after the stored records.
  */
  lemma SignAndGenerateOfNew(metas: seq<ContractMeta>, payments: seq<PaymentRecord>, c: int, p: int,
                             rules: DateRules)
    requires FindContract(metas, c).Some? && !HasPaymentsFor(payments, c)
    ensures var m := FindContract(metas, c).value;
      var r := SignAndGenerate(metas, payments, c, p, rules);
      && FindContract(SignContract(metas, c), c) == Some(m.(signed := true, estado := Vigente))
      && ContractSigned(SignContract(metas, c), c)
      && |r| == |payments| + MonthCount(m)
      && r[..|payments|] == payments
      && forall i :: 0 <= i < MonthCount(m) ==> r[|payments| + i] == Installment(m, c, p, rules, i)
  {
    var m := FindContract(metas, c).value;
    SignThenRead(metas, c, c);
    var signed := SignContract(metas, c);
    assert GenerateSaves(signed, payments, c);
    GenerateContents(signed, payments, c, p, rules);
    ScheduleOfSigned(m, c, p, rules, MonthCount(m));
  }

  /** The installments do not depend on the signature or the state of the metadata. */
  lemma {:induction false} ScheduleOfSigned(m: ContractMeta, c: int, p: int, rules: DateRules, n: nat)
    ensures Schedule(m.(signed := true, estado := Vigente), c, p, rules, n) == Schedule(m, c, p, rules, n)
  {
    if n > 0 {
      ScheduleOfSigned(m, c, p, rules, n - 1);
    }
  }

  /** Signing an unknown contract changes neither list. */
  lemma SignAndGenerateOfUnknown(metas: seq<ContractMeta>, payments: seq<PaymentRecord>, c: int, p: int,
                                 rules: DateRules)
    requires FindContract(metas, c).None?
    ensures SignContract(metas, c) == metas
    ensures SignAndGenerate(metas, payments, c, p, rules) == payments
  {
  }

  /** Signing again is harmless: the metadata and the payment list stay as after the first time. */
  lemma SignAndGenerateIdempotent(metas: seq<ContractMeta>, payments: seq<PaymentRecord>, c: int, p: int,
                                  rules: DateRules)
    ensures SignContract(SignContract(metas, c), c) == SignContract(metas, c)
    ensures var once := SignAndGenerate(metas, payments, c, p, rules);
      SignAndGenerate(SignContract(metas, c), once, c, p, rules) == once
  {
    SignKeepsListing(metas, c);
    GenerateIdempotent(SignContract(metas, c), payments, c, p, rules);
  }

  /** `confirmPayment`: the method name is stored as given. */
  method ConfirmPayment(ledger: Ledger, propertyId: int, paymentId: string, payMethod: string, today: string)
    requires ledger.Valid()
    modifies ledger
    ensures ledger.Valid()
    ensures PaymentIndex(old(ledger.PaymentsOf(propertyId)), paymentId) == -1 ==>
      ledger.payments == old(ledger.payments)
    ensures PaymentIndex(old(ledger.PaymentsOf(propertyId)), paymentId) >= 0 ==>
      ledger.payments == old(ledger.payments)[propertyId :=
        MarkPaid(old(ledger.PaymentsOf(propertyId)), paymentId, payMethod, today)]
    ensures ledger.contractsMeta == old(ledger.contractsMeta)
  {
    var _ := ledger.MarkPaymentAsPaid(propertyId, paymentId, payMethod, today);
  }

  /** A payment confirmed before its contract is finalized stays in the ledger, paid. */
  lemma PaidSurvivesFinalize(list: seq<PaymentRecord>, paymentId: string, payMethod: string, today: string, c: int)
    requires PaymentIndex(list, paymentId) >= 0
    ensures var paid := MarkPaid(list, paymentId, payMethod, today);
      var rec := paid[PaymentIndex(list, paymentId)];
      && rec.status == Pagado && rec.id == paymentId
      && rec in KeepAfterFinalize(paid, c)
  {
    var paid := MarkPaid(list, paymentId, payMethod, today);
    MarkPaidEffect(list, paymentId, payMethod, today);
    FinalizeEffect(paid, c);
  }
}
