/** The mapping from the tenant records the server sends to the tenants the screens show. */
module TenantsMappers {
  import opened Wrappers
  import opened Text

  /** A tenant as the server sends it; `cantidadContratos` may be missing. */
  datatype TenantDTO = TenantDTO(
    id: int,
    nombreCompleto: string,
    numeroDni: string,
    email: string,
    telefonoWhatsapp: string,
    cantidadContratos: Option<int>)

  datatype Tenant = Tenant(
    id: int,
    nombreCompleto: string,
    numeroDni: string,
    email: string,
    telefonoWhatsapp: string,
    cantidadContratos: int)

  /** `mapTenant`. */
  function MapTenant(dto: TenantDTO): (t: Tenant)
    ensures t.nombreCompleto == Trim(dto.nombreCompleto)
    ensures dto.cantidadContratos.None? ==> t.cantidadContratos == 0
    ensures dto.cantidadContratos.Some? ==> t.cantidadContratos == dto.cantidadContratos.value
    ensures t.id == dto.id && t.numeroDni == dto.numeroDni
    ensures t.email == dto.email && t.telefonoWhatsapp == dto.telefonoWhatsapp
  {
    Tenant(
      dto.id,
      Trim(dto.nombreCompleto),
      dto.numeroDni,
      dto.email,
      dto.telefonoWhatsapp,
      match dto.cantidadContratos
      case Some(n) => n
      case None => 0)
  }

  /** A mapped name has no whitespace at either end, so mapping it again would not change it. */
  lemma MappedNameIsTrimmed(dto: TenantDTO)
    ensures var name := MapTenant(dto).nombreCompleto;
      && Trim(name) == name
      && (name == [] || (!IsJsWhitespace(name[0]) && !IsJsWhitespace(name[|name| - 1])))
  {
    TrimIdempotent(dto.nombreCompleto);
    TrimEndsClean(dto.nombreCompleto);
  }

  /** `mapTenants`: `list.map(mapTenant)`. */
  function MapTenants(list: seq<TenantDTO>): (r: seq<Tenant>)
    ensures |r| == |list|
    ensures forall i :: 0 <= i < |list| ==> r[i] == MapTenant(list[i])
  {
    if list == [] then [] else [MapTenant(list[0])] + MapTenants(list[1..])
  }

  /** Mapping keeps the order: a list mapped in two parts is the two mapped parts in order. */
  lemma {:induction false} MapTenantsAppend(a: seq<TenantDTO>, b: seq<TenantDTO>)
    ensures MapTenants(a + b) == MapTenants(a) + MapTenants(b)
  {
    if a == [] {
      assert a + b == b;
    } else {
      assert (a + b)[1..] == a[1..] + b;
      MapTenantsAppend(a[1..], b);
    }
  }

  /** Two records map to the same tenant exactly when they differ at most in the whitespace around the name and a missing count against 0. */
  lemma MapTenantSame(x: TenantDTO, y: TenantDTO)
    ensures MapTenant(x) == MapTenant(y) <==>
      && x.id == y.id && x.numeroDni == y.numeroDni && x.email == y.email
      && x.telefonoWhatsapp == y.telefonoWhatsapp
      && Trim(x.nombreCompleto) == Trim(y.nombreCompleto)
      && (if x.cantidadContratos.Some? then x.cantidadContratos.value else 0)
         == (if y.cantidadContratos.Some? then y.cantidadContratos.value else 0)
  {
  }
}
