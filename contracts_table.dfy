/** The contracts table: the state badge of each contract and the actions its row offers. */
module ContractsTable {
  import opened Wrappers

  /** The colour scheme of a badge. */
  datatype Tone = Slate | Amber | Emerald | Outline

  datatype Badge = Badge(text: string, tone: Tone)

  /** The fields of a listed contract the table's logic reads. */
  datatype ContractRow = ContractRow(id: int, estado: string, tieneFirma: bool)

  /** `getStatusBadge(estado, tieneFirma)`. */
  function StatusBadge(estado: string, tieneFirma: bool): Badge
  {
    if estado == "CANCELADO" then Badge("Cancelado", Slate)
    else if estado == "ACTIVO" && !tieneFirma then Badge("Activo (sin firmar)", Amber)
    else if estado == "ACTIVO" && tieneFirma then Badge("Activo (firmado)", Emerald)
    else Badge(estado, Outline)
  }

  /**
    A cancelled contract reads "Cancelado" whatever its signature; an active one says
    whether it is signed; any other state is shown as its own text.
  */
  lemma StatusBadgeCases(estado: string, tieneFirma: bool)
    ensures estado == "CANCELADO" ==> StatusBadge(estado, tieneFirma) == StatusBadge(estado, !tieneFirma) == Badge("Cancelado", Slate)
    ensures estado == "ACTIVO" ==> StatusBadge(estado, tieneFirma).text == (if tieneFirma then "Activo (firmado)" else "Activo (sin firmar)")
    ensures estado != "CANCELADO" && estado != "ACTIVO" ==> StatusBadge(estado, tieneFirma) == Badge(estado, Outline)
  {
  }

  /** The colour alone tells cancelled, unsigned active, signed active and any other state apart. */
  lemma StatusBadgeTone(estado: string, tieneFirma: bool)
    ensures StatusBadge(estado, tieneFirma).tone == Slate <==> estado == "CANCELADO"
    ensures StatusBadge(estado, tieneFirma).tone == Amber <==> estado == "ACTIVO" && !tieneFirma
    ensures StatusBadge(estado, tieneFirma).tone == Emerald <==> estado == "ACTIVO" && tieneFirma
    ensures StatusBadge(estado, tieneFirma).tone == Outline <==> estado != "CANCELADO" && estado != "ACTIVO"
  {
  }

  /** `canSign`. */
  predicate CanSign(c: ContractRow)
  {
    c.estado == "ACTIVO" && !c.tieneFirma
  }

  /** `isFinalizing`: a finalisation for this row is in flight. */
  predicate IsFinalizing(c: ContractRow, finalizingId: Option<int>)
  {
    finalizingId == Some(c.id)
  }

  datatype FinalizeButton = FinalizeButton(disabled: bool, text: string)

  /** The buttons of a row: "Ver" always, "Firmar" when the contract can be signed, "Finalizar" for active contracts. */
  datatype RowActions = RowActions(view: bool, sign: bool, finalize: Option<FinalizeButton>)

  function Actions(c: ContractRow, finalizingId: Option<int>): RowActions
  {
    RowActions(
      true,
      CanSign(c),
      if c.estado == "ACTIVO" then
        Some(FinalizeButton(IsFinalizing(c, finalizingId), if IsFinalizing(c, finalizingId) then "Finalizando..." else "Finalizar"))
      else None)
  }

  /**
    Signing is offered exactly for active unsigned contracts, which are the ones with the
    amber badge; finalising is offered exactly for active ones, and is disabled exactly
    while this contract is being finalised.
  */
  lemma ActionsRules(c: ContractRow, finalizingId: Option<int>)
    ensures Actions(c, finalizingId).view
    ensures Actions(c, finalizingId).sign <==> c.estado == "ACTIVO" && !c.tieneFirma
    ensures Actions(c, finalizingId).sign <==> StatusBadge(c.estado, c.tieneFirma).tone == Amber
    ensures Actions(c, finalizingId).finalize.Some? <==> c.estado == "ACTIVO"
    ensures Actions(c, finalizingId).sign ==> Actions(c, finalizingId).finalize.Some?
    ensures Actions(c, finalizingId).finalize.Some? ==>
      (Actions(c, finalizingId).finalize.value.disabled <==> finalizingId.Some? && finalizingId.value == c.id)
    ensures finalizingId.None? ==> Actions(c, finalizingId).finalize.Some? ==> !Actions(c, finalizingId).finalize.value.disabled
  {
  }

  /** With no contracts the table is replaced by a message. */
  predicate ShowsEmptyMessage(contracts: seq<ContractRow>)
  {
    |contracts| == 0
  }

  /** The actions of every row, in row order. */
  function TableActions(contracts: seq<ContractRow>, finalizingId: Option<int>): (r: seq<RowActions>)
    ensures |r| == |contracts|
    ensures forall i :: 0 <= i < |r| ==> r[i] == Actions(contracts[i], finalizingId)
  {
    if contracts == [] then [] else [Actions(contracts[0], finalizingId)] + TableActions(contracts[1..], finalizingId)
  }

  /** At most one row has its finalise button disabled when the contract ids are distinct. */
  lemma AtMostOneFinalizing(contracts: seq<ContractRow>, finalizingId: Option<int>, i: int, j: int)
    requires forall a, b :: 0 <= a < b < |contracts| ==> contracts[a].id != contracts[b].id
    requires 0 <= i < |contracts| && 0 <= j < |contracts|
    requires TableActions(contracts, finalizingId)[i].finalize.Some? && TableActions(contracts, finalizingId)[i].finalize.value.disabled
    requires TableActions(contracts, finalizingId)[j].finalize.Some? && TableActions(contracts, finalizingId)[j].finalize.value.disabled
    ensures i == j
  {
  }
}
