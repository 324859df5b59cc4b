/**
  The "new contract" dialog: the rooms offered for a contract, the deposit rule, the end
  date shown while editing, and the checks a submission passes before a contract request
  is built.
*/
module NewContractDialog {
  import opened Wrappers
  import opened Text
  import opened JsNumber
  import opened Seqs
  import Calendar

  /** An available room as the rooms query returns it; `precioRenta` after `Number(...)`. */
  datatype AvailableRoom = AvailableRoom(id: int, codigo: string, precioRenta: JsNum)

  datatype AvailableFloor = AvailableFloor(numeroPiso: int, habitaciones: seq<AvailableRoom>)

  /** An entry of the room select; the label is built from `code`, `floor` and `rent`. */
  datatype RoomOption = RoomOption(id: int, rent: real, code: string, floor: int)

  /** `Number(room.precioRenta || 0) > 0`: NaN and missing prices count as 0. */
  predicate HasPrice(room: AvailableRoom)
  {
    room.precioRenta.Num? && room.precioRenta.value > 0.0
  }

  function OptionOf(room: AvailableRoom, floor: int): RoomOption
    requires HasPrice(room)
  {
    RoomOption(room.id, room.precioRenta.value, room.codigo, floor)
  }

  /** The options one floor contributes: its priced rooms, in order. */
  function FloorOptions(f: AvailableFloor): (r: seq<RoomOption>)
    ensures |r| == |Filter(f.habitaciones, HasPrice)|
  {
    var priced := Filter(f.habitaciones, HasPrice);
    seq(|priced|, i requires 0 <= i < |priced| => OptionOf(priced[i], f.numeroPiso))
  }

  /** `roomOptions`: the priced rooms of every floor, floor by floor. */
  function RoomOptions(floors: seq<AvailableFloor>): seq<RoomOption>
  {
    if floors == [] then [] else FloorOptions(floors[0]) + RoomOptions(floors[1..])
  }

  /** Floor f has a priced room that yields option o. */
  predicate OfferedOn(f: AvailableFloor, o: RoomOption)
  {
    exists j :: 0 <= j < |f.habitaciones| && HasPrice(f.habitaciones[j]) && o == OptionOf(f.habitaciones[j], f.numeroPiso)
  }

  /** A floor offers exactly the options of its priced rooms. */
  lemma FloorOptionsExactly(f: AvailableFloor, o: RoomOption)
    ensures o in FloorOptions(f) <==> OfferedOn(f, o)
  {
    if o in FloorOptions(f) {
      FloorOptionsSound(f, o);
    }
    if OfferedOn(f, o) {
      FloorOptionsComplete(f, o);
    }
  }

  lemma FloorOptionsSound(f: AvailableFloor, o: RoomOption)
    requires o in FloorOptions(f)
    ensures OfferedOn(f, o)
  {
    var priced := Filter(f.habitaciones, HasPrice);
    var i :| 0 <= i < |priced| && FloorOptions(f)[i] == o;
    var j :| 0 <= j < |f.habitaciones| && f.habitaciones[j] == priced[i];
  }

  lemma FloorOptionsComplete(f: AvailableFloor, o: RoomOption)
    requires OfferedOn(f, o)
    ensures o in FloorOptions(f)
  {
    var priced := Filter(f.habitaciones, HasPrice);
    var j :| 0 <= j < |f.habitaciones| && HasPrice(f.habitaciones[j]) && o == OptionOf(f.habitaciones[j], f.numeroPiso);
    var i :| 0 <= i < |priced| && priced[i] == f.habitaciones[j];
    assert FloorOptions(f)[i] == o;
  }

  /** An option is offered exactly when some floor has that room with a positive price. */
  lemma {:induction false} RoomOptionsExactly(floors: seq<AvailableFloor>, o: RoomOption)
    ensures o in RoomOptions(floors) <==> exists k :: 0 <= k < |floors| && OfferedOn(floors[k], o)
  {
    if floors != [] {
      RoomOptionsExactly(floors[1..], o);
      FloorOptionsExactly(floors[0], o);
      if exists k :: 0 <= k < |floors| && OfferedOn(floors[k], o) {
        var k :| 0 <= k < |floors| && OfferedOn(floors[k], o);
        if k > 0 {
          assert floors[1..][k - 1] == floors[k];
        }
      }
      if o in RoomOptions(floors[1..]) {
        var k :| 0 <= k < |floors[1..]| && OfferedOn(floors[1..][k], o);
        assert floors[k + 1] == floors[1..][k];
      }
    }
  }

  /** Floor order is kept: the options of earlier floors come first. */
  lemma {:induction false} RoomOptionsAppend(a: seq<AvailableFloor>, b: seq<AvailableFloor>)
    ensures RoomOptions(a + b) == RoomOptions(a) + RoomOptions(b)
  {
    if a == [] {
      assert a + b == b;
    } else {
      assert (a + b)[1..] == a[1..] + b;
      RoomOptionsAppend(a[1..], b);
    }
  }

  /** Within a floor, the options follow the room order. */
  lemma RoomOptionsOfFloor(f: AvailableFloor)
    ensures RoomOptions([f]) == FloorOptions(f)
    ensures forall i :: 0 <= i < |FloorOptions(f)| ==>
      FloorOptions(f)[i] == OptionOf(Filter(f.habitaciones, HasPrice)[i], f.numeroPiso)
  {
    assert RoomOptions([f]) == FloorOptions(f) + RoomOptions([]);
  }

  /** Every offered room has a positive rent. */
  lemma {:induction false} RoomOptionsPriced(floors: seq<AvailableFloor>)
    ensures forall i :: 0 <= i < |RoomOptions(floors)| ==> RoomOptions(floors)[i].rent > 0.0
  {
    if floors != [] {
      RoomOptionsPriced(floors[1..]);
      var h := FloorOptions(floors[0]);
      assert forall i :: 0 <= i < |h| ==> h[i].rent > 0.0;
    }
  }

  /** `selectedRoom`: the first option whose id, printed, is the selected value. */
  function SelectedRoom(options: seq<RoomOption>, roomId: string): (r: Option<RoomOption>)
    ensures r.Some? ==> r.value in options && IsChosen(r.value, roomId)
  {
    if options == [] then None
    else if IsChosen(options[0], roomId) then Some(options[0])
    else SelectedRoom(options[1..], roomId)
  }

  /** A room is selected exactly when some option carries the selected value. */
  lemma {:induction false} SelectedRoomFound(options: seq<RoomOption>, roomId: string)
    ensures SelectedRoom(options, roomId).Some? <==> exists i :: 0 <= i < |options| && IsChosen(options[i], roomId)
  {
    if options != [] && !IsChosen(options[0], roomId) {
      SelectedRoomFound(options[1..], roomId);
      if exists i :: 0 <= i < |options| && IsChosen(options[i], roomId) {
        var i :| 0 <= i < |options| && IsChosen(options[i], roomId);
        assert options[1..][i - 1] == options[i];
      }
    }
  }

  /** The selected option is the first one carrying the selected value. */
  lemma {:induction false} SelectedRoomFirst(options: seq<RoomOption>, roomId: string)
    requires SelectedRoom(options, roomId).Some?
    ensures exists i ::
              0 <= i < |options| && options[i] == SelectedRoom(options, roomId).value &&
              forall j :: 0 <= j < i ==> !IsChosen(options[j], roomId)
  {
    if IsChosen(options[0], roomId) {
      assert options[0] == SelectedRoom(options, roomId).value;
    } else {
      SelectedRoomFirst(options[1..], roomId);
      var i :| 0 <= i < |options[1..]| && options[1..][i] == SelectedRoom(options[1..], roomId).value
        && forall j :: 0 <= j < i ==> !IsChosen(options[1..][j], roomId);
      assert options[i + 1] == SelectedRoom(options, roomId).value;
      forall j | 0 <= j < i + 1 ensures !IsChosen(options[j], roomId) {
        if j > 0 {
          assert options[j] == options[1..][j - 1];
        }
      }
    }
  }

  /** The select's value names this option: `String(option.id) === roomId`. */
  predicate IsChosen(o: RoomOption, roomId: string)
  {
    IntToString(o.id) == roomId
  }

  /** `monthlyRent`: the selected room's rent, 0 when none is selected. */
  function MonthlyRent(options: seq<RoomOption>, roomId: string): real
  {
    match SelectedRoom(options, roomId)
    case Some(o) => o.rent
    case None => 0.0
  }

  /** The deposit is one month of rent. */
  function Deposit(options: seq<RoomOption>, roomId: string): real
  {
    MonthlyRent(options, roomId)
  }

  /** The deposit equals the monthly rent; it is 0 without a selected room and positive with one from the offered list. */
  lemma DepositRule(floors: seq<AvailableFloor>, roomId: string)
    ensures Deposit(RoomOptions(floors), roomId) == MonthlyRent(RoomOptions(floors), roomId)
    ensures SelectedRoom(RoomOptions(floors), roomId).None? ==> Deposit(RoomOptions(floors), roomId) == 0.0
    ensures SelectedRoom(RoomOptions(floors), roomId).Some? ==>
      Deposit(RoomOptions(floors), roomId) == SelectedRoom(RoomOptions(floors), roomId).value.rent > 0.0
  {
    RoomOptionsPriced(floors);
  }

  /** `endDateISO`: shown only once a start date and a duration are chosen. */
  function EndDate(startDate: string, durationMonths: int): string
  {
    if startDate != "" && durationMonths != 0 then Calendar.AddMonthsToISODate(startDate, durationMonths) else ""
  }

  /** The request a valid submission sends. */
  datatype ContractRequest = ContractRequest(
    inquilinoId: real,
    habitacionId: real,
    fechaInicio: string,
    fechaFin: string,
    montoDeposito: real)

  /** The messages a rejected submission shows, in the order the checks run. */
  datatype SubmitError = MissingTenantOrRoom | MissingStartDate | InvalidDuration | RoomWithoutPrice

  /** `handleSubmit`'s checks, then the request it builds. */
  function Submission(tenantId: string, roomId: string, startDate: string, durationMonths: int,
                      options: seq<RoomOption>): (r: Result<ContractRequest, SubmitError>)
    ensures r == Err(MissingTenantOrRoom) <==> !Truthy(ParseNumber(tenantId)) || !Truthy(ParseNumber(roomId))
    ensures r == Err(MissingStartDate) <==>
      Truthy(ParseNumber(tenantId)) && Truthy(ParseNumber(roomId)) && startDate == ""
    ensures r == Err(InvalidDuration) <==>
      Truthy(ParseNumber(tenantId)) && Truthy(ParseNumber(roomId)) && startDate != "" && durationMonths <= 0
    ensures r == Err(RoomWithoutPrice) <==>
      Truthy(ParseNumber(tenantId)) && Truthy(ParseNumber(roomId)) && startDate != "" && durationMonths > 0
      && SelectedRoom(options, roomId).None?
    ensures r.Ok? ==>
      && r.value.inquilinoId == ParseNumber(tenantId).value
      && r.value.habitacionId == ParseNumber(roomId).value
      && r.value.fechaInicio == startDate
      && r.value.fechaFin == EndDate(startDate, durationMonths)
      && r.value.montoDeposito == Deposit(options, roomId)
  {
    var inquilinoId := ParseNumber(tenantId);
    var habitacionId := ParseNumber(roomId);
    if !Truthy(inquilinoId) || !Truthy(habitacionId) then Err(MissingTenantOrRoom)
    else if startDate == "" then Err(MissingStartDate)
    else if durationMonths == 0 || durationMonths <= 0 then Err(InvalidDuration)
    else if SelectedRoom(options, roomId).None? then Err(RoomWithoutPrice)
    else
      Ok(ContractRequest(inquilinoId.value, habitacionId.value, startDate,
                         Calendar.AddMonthsToISODate(startDate, durationMonths), Deposit(options, roomId)))
  }

  /**
    An accepted submission names the selected room, asks for its rent as deposit, and
    ends on the date the dialog showed.
  */
  lemma AcceptedSubmission(tenantId: string, roomId: string, startDate: string, durationMonths: int,
                           floors: seq<AvailableFloor>)
    requires Submission(tenantId, roomId, startDate, durationMonths, RoomOptions(floors)).Ok?
    ensures var req := Submission(tenantId, roomId, startDate, durationMonths, RoomOptions(floors)).value;
      var room := SelectedRoom(RoomOptions(floors), roomId).value;
      && req.habitacionId == room.id as real
      && req.montoDeposito == room.rent > 0.0
      && req.fechaFin == EndDate(startDate, durationMonths) != ""
  {
    var options := RoomOptions(floors);
    var room := SelectedRoom(options, roomId).value;
    ParseIntToString(room.id);
    RoomOptionsPriced(floors);
    Calendar.AddMonthsToISODateShape(startDate, durationMonths);
  }

  /** The durations the select offers. */
  const DurationChoices: seq<int> := [3, 6, 12, 24]

  /** The dialog's form fields. */
  class Dialog {
    var open: bool
    var tenantId: string
    var roomId: string
    var startDate: string
    var durationMonths: int

    predicate IsReset()
      reads this
    {
      tenantId == "" && roomId == "" && startDate == "" && durationMonths == 6
    }

    constructor ()
      ensures IsReset() && !open
    {
      open := false;
      tenantId := "";
      roomId := "";
      startDate := "";
      durationMonths := 6;
    }

    method SetOpen(value: bool)
      modifies this
      ensures open == value
      ensures tenantId == old(tenantId) && roomId == old(roomId)
      ensures startDate == old(startDate) && durationMonths == old(durationMonths)
    {
      open := value;
    }

    method SelectTenant(value: string)
      modifies this
      ensures tenantId == value
      ensures open == old(open) && roomId == old(roomId)
      ensures startDate == old(startDate) && durationMonths == old(durationMonths)
    {
      tenantId := value;
    }

    method SelectRoom(value: string)
      modifies this
      ensures roomId == value
      ensures open == old(open) && tenantId == old(tenantId)
      ensures startDate == old(startDate) && durationMonths == old(durationMonths)
    {
      roomId := value;
    }

    method SetStartDate(value: string)
      modifies this
      ensures startDate == value
      ensures open == old(open) && tenantId == old(tenantId)
      ensures roomId == old(roomId) && durationMonths == old(durationMonths)
    {
      startDate := value;
    }

    /** `setDurationMonths(Number(value))` for one of the select's values. */
    method SelectDuration(value: string)
      requires value in ["3", "6", "12", "24"]
      modifies this
      ensures durationMonths in DurationChoices
      ensures IntToString(durationMonths) == value
      ensures open == old(open) && tenantId == old(tenantId)
      ensures roomId == old(roomId) && startDate == old(startDate)
    {
      if value == "3" {
        durationMonths := 3;
      } else if value == "6" {
        durationMonths := 6;
      } else if value == "12" {
        durationMonths := 12;
      } else {
        durationMonths := 24;
      }
    }

    /** `handleSubmit`: the outcome of the checks over the current fields; the form itself is not changed. */
    method Submit(options: seq<RoomOption>) returns (r: Result<ContractRequest, SubmitError>)
      ensures r == Submission(tenantId, roomId, startDate, durationMonths, options)
    {
      r := Submission(tenantId, roomId, startDate, durationMonths, options);
    }

    /** The creation's success callback: the fields go back to their initial values and the dialog closes. */
    method OnCreated()
      modifies this
      ensures IsReset() && !open
    {
      tenantId := "";
      roomId := "";
      startDate := "";
      durationMonths := 6;
      open := false;
    }
  }

  /** After the reset a new submission is rejected until a tenant and a room are chosen again. */
  lemma ResetRejects(options: seq<RoomOption>)
    ensures Submission("", "", "", 6, options) == Err(MissingTenantOrRoom)
  {
    assert Trim("") == "";
  }
}
