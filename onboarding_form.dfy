/**
  The two-step onboarding form that registers a property: step 1 takes the name, the
  address, the number of floors (1 to 10) and the floor the owner lives on; step 2 the
  number of rooms on each floor (1 to 8). Number inputs arrive as `Number(input.value)`,
  so a value may be NaN or fractional; the form keeps what its handlers compute.
*/
module OnboardingForm {
  import opened Wrappers
  import opened Text
  import opened JsNumber

  const MinPisos: real := 1.0
  const MaxPisos: real := 10.0
  const MinRooms: real := 1.0
  const MaxRooms: real := 8.0

  /** `Math.max(lo, Math.min(x, hi))`. */
  function Clamp(x: real, lo: real, hi: real): (r: real)
    requires lo <= hi
    ensures lo <= r <= hi
    ensures lo <= x <= hi ==> r == x
    ensures x < lo ==> r == lo
    ensures x > hi ==> r == hi
  {
    if x < lo then lo else if x > hi then hi else x
  }

  /** The floor count `handlePisosChange` computes from its argument. */
  function PisosOf(raw: JsNum): (r: real)
    ensures MinPisos <= r <= MaxPisos
    ensures raw.NaN? ==> r == MinPisos
    ensures raw.Num? && MinPisos <= raw.value <= MaxPisos ==> r == raw.value
  {
    Clamp(if raw.NaN? then MinPisos else raw.value, MinPisos, MaxPisos)
  }

  /** The room count `handleHabitacionChange` computes from its argument. */
  function RoomsOf(raw: JsNum): (r: real)
    ensures MinRooms <= r <= MaxRooms
    ensures raw.NaN? ==> r == MinRooms
    ensures raw.Num? && MinRooms <= raw.value <= MaxRooms ==> r == raw.value
  {
    Clamp(if raw.NaN? then MinRooms else raw.value, MinRooms, MaxRooms)
  }

  /** An emptied number field reads as `Number("") == 0`, which is clamped up to the minimum. */
  lemma EmptyFieldIsMinimum()
    ensures PisosOf(ParseNumber("")) == MinPisos
    ensures RoomsOf(ParseNumber("")) == MinRooms
  {
    assert Trim("") == "";
  }

  /** The length `Array.from({ length: x })` gives a positive count x. */
  function ArrayLength(x: real): nat
  {
    if x <= 0.0 then 0 else x.Floor
  }

  /** `Array.from({ length: n }, (_, i) => prev[i] || MIN_ROOMS)`. */
  function ResizeRooms(prev: seq<real>, n: nat): (r: seq<real>)
    ensures |r| == n
    ensures forall i :: 0 <= i < n && i < |prev| && prev[i] != 0.0 ==> r[i] == prev[i]
    ensures forall i :: 0 <= i < n && (i >= |prev| || prev[i] == 0.0) ==> r[i] == MinRooms
  {
    seq(n, i requires 0 <= i < n => if i < |prev| && prev[i] != 0.0 then prev[i] else MinRooms)
  }

  /** Every room count stays within 1..8. */
  predicate RoomsInRange(rooms: seq<real>)
  {
    forall i :: 0 <= i < |rooms| ==> MinRooms <= rooms[i] <= MaxRooms
  }

  /** Resizing keeps counts within range, and a resize that shrinks then grows forgets the dropped floors. */
  lemma ResizeProperties(prev: seq<real>, m: nat, n: nat)
    requires RoomsInRange(prev)
    ensures RoomsInRange(ResizeRooms(prev, n))
    ensures n <= |prev| ==> ResizeRooms(prev, n) == prev[..n]
    ensures m <= n ==> ResizeRooms(ResizeRooms(prev, m), n) == ResizeRooms(prev[..Min(m, |prev|)], n)
  {
  }

  function Min(a: int, b: int): int { if a <= b then a else b }

  /** `prev && prev > cantidad ? null : prev`: the owner's floor is dropped when the building got too low for it. */
  function OwnerFloorAfter(prev: Option<real>, cantidad: real): (r: Option<real>)
    ensures r.None? <==> prev.None? || (prev.value != 0.0 && prev.value > cantidad)
    ensures r.Some? ==> r == prev
  {
    if prev.Some? && prev.value != 0.0 && prev.value > cantidad then None else prev
  }

  /** The values of the owner-floor options: "1" .. "n" for a form of n floors. */
  function FloorOptions(pisos: real): (r: seq<string>)
    ensures |r| == ArrayLength(pisos)
  {
    seq(ArrayLength(pisos), (i: nat) => NatToString(i + 1))
  }

  /** Each option's value reads back as its floor number. */
  lemma FloorOptionValue(pisos: real, i: nat)
    requires i < ArrayLength(pisos)
    ensures ParseNumber(FloorOptions(pisos)[i]) == Num((i + 1) as real)
  {
    ParseIntToString(i + 1);
  }

  datatype PropertyPayload = PropertyPayload(
    nombre: string,
    direccion: string,
    cantidadPisos: real,
    pisoResidenciaDueno: real)

  /** The body `handleSubmit` sends. */
  datatype OnboardingPayload = OnboardingPayload(propiedad: PropertyPayload, habitacionesPorPiso: seq<real>)

  class Form {
    var step: int
    var nombre: string
    var direccion: string
    var pisos: real
    var pisoResidencia: Option<real>
    var habitacionesPorPiso: seq<real>

    /** What the handlers keep true: counts in range, one room count per floor, the owner's floor in the building. */
    predicate Valid()
      reads this
    {
      && (step == 1 || step == 2)
      && MinPisos <= pisos <= MaxPisos
      && |habitacionesPorPiso| == ArrayLength(pisos)
      && RoomsInRange(habitacionesPorPiso)
      && (pisoResidencia.Some? ==> 1.0 <= pisoResidencia.value <= pisos)
    }

    constructor ()
      ensures Valid()
      ensures step == 1 && nombre == "" && direccion == ""
      ensures pisos == 1.0 && pisoResidencia == None && habitacionesPorPiso == [1.0]
    {
      step := 1;
      nombre := "";
      direccion := "";
      pisos := 1.0;
      pisoResidencia := None;
      habitacionesPorPiso := [1.0];
    }

    method SetNombre(value: string)
      modifies this
      ensures nombre == value
      ensures step == old(step) && direccion == old(direccion) && pisos == old(pisos)
      ensures pisoResidencia == old(pisoResidencia) && habitacionesPorPiso == old(habitacionesPorPiso)
    {
      nombre := value;
    }

    method SetDireccion(value: string)
      modifies this
      ensures direccion == value
      ensures step == old(step) && nombre == old(nombre) && pisos == old(pisos)
      ensures pisoResidencia == old(pisoResidencia) && habitacionesPorPiso == old(habitacionesPorPiso)
    {
      direccion := value;
    }

    method HandlePisosChange(rawValue: JsNum)
      requires Valid()
      modifies this
      ensures Valid()
      ensures pisos == PisosOf(rawValue)
      ensures habitacionesPorPiso == ResizeRooms(old(habitacionesPorPiso), ArrayLength(pisos))
      ensures pisoResidencia == OwnerFloorAfter(old(pisoResidencia), pisos)
      ensures step == old(step) && nombre == old(nombre) && direccion == old(direccion)
    {
      var cantidad := PisosOf(rawValue);
      ResizeProperties(habitacionesPorPiso, 0, ArrayLength(cantidad));
      pisos := cantidad;
      habitacionesPorPiso := ResizeRooms(habitacionesPorPiso, ArrayLength(cantidad));
      pisoResidencia := OwnerFloorAfter(pisoResidencia, cantidad);
    }

    /** The step-2 inputs exist only for floors 1..pisos, so `index` is always in range. */
    method HandleHabitacionChange(index: nat, rawValue: JsNum)
      requires Valid() && index < |habitacionesPorPiso|
      modifies this
      ensures Valid()
      ensures habitacionesPorPiso == old(habitacionesPorPiso)[index := RoomsOf(rawValue)]
      ensures step == old(step) && nombre == old(nombre) && direccion == old(direccion)
      ensures pisos == old(pisos) && pisoResidencia == old(pisoResidencia)
    {
      var next := habitacionesPorPiso;
      next := next[index := RoomsOf(rawValue)];
      habitacionesPorPiso := next;
    }

    /** The owner-floor select: "none" clears the choice, any other option value is read with `Number`. */
    method SelectPisoResidencia(v: string)
      requires Valid() && (v == "none" || v in FloorOptions(pisos))
      modifies this
      ensures Valid()
      ensures v == "none" ==> pisoResidencia == None
      ensures v != "none" ==> ParseNumber(v).Num? && pisoResidencia == Some(ParseNumber(v).value)
      ensures step == old(step) && nombre == old(nombre) && direccion == old(direccion)
      ensures pisos == old(pisos) && habitacionesPorPiso == old(habitacionesPorPiso)
    {
      if v == "none" {
        pisoResidencia := None;
      } else {
        var i :| 0 <= i < |FloorOptions(pisos)| && FloorOptions(pisos)[i] == v;
        FloorOptionValue(pisos, i);
        assert (i + 1) as real <= pisos.Floor as real <= pisos;
        pisoResidencia := Some(ParseNumber(v).value);
      }
    }

    /** Submitting step 1 moves on to step 2. */
    method HandleNext()
      requires Valid()
      modifies this
      ensures Valid() && step == 2
      ensures nombre == old(nombre) && direccion == old(direccion) && pisos == old(pisos)
      ensures pisoResidencia == old(pisoResidencia) && habitacionesPorPiso == old(habitacionesPorPiso)
    {
      step := 2;
    }

    method HandleBack()
      requires Valid()
      modifies this
      ensures Valid() && step == 1
      ensures nombre == old(nombre) && direccion == old(direccion) && pisos == old(pisos)
      ensures pisoResidencia == old(pisoResidencia) && habitacionesPorPiso == old(habitacionesPorPiso)
    {
      step := 1;
    }

    /** The payload sent on step 2: the form's values as they stand, "no owner floor" sent as 0. */
    method HandleSubmit() returns (payload: OnboardingPayload)
      requires Valid()
      ensures payload.propiedad.nombre == nombre && payload.propiedad.direccion == direccion
      ensures payload.propiedad.cantidadPisos == pisos
      ensures payload.habitacionesPorPiso == habitacionesPorPiso
      ensures pisoResidencia.None? ==> payload.propiedad.pisoResidenciaDueno == 0.0
      ensures pisoResidencia.Some? ==> payload.propiedad.pisoResidenciaDueno == pisoResidencia.value
      ensures MinPisos <= payload.propiedad.cantidadPisos <= MaxPisos
      ensures |payload.habitacionesPorPiso| == ArrayLength(payload.propiedad.cantidadPisos)
      ensures RoomsInRange(payload.habitacionesPorPiso)
      ensures payload.propiedad.pisoResidenciaDueno == 0.0
           || 1.0 <= payload.propiedad.pisoResidenciaDueno <= payload.propiedad.cantidadPisos
    {
      var owner := if pisoResidencia.Some? then pisoResidencia.value else 0.0;
      payload := OnboardingPayload(PropertyPayload(nombre, direccion, pisos, owner), habitacionesPorPiso);
    }
  }
}
