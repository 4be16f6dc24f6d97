/** The public NF-e lookup (services/sefazApi.ts): clean the typed access key,
    reject anything that is not 44 digits, ask the public service and build a
    PENDING, unassigned invoice from whatever it returns. The remote call is a
    parameter: `Reply` is what came back. */
module SefazApi {
  import opened Base
  import opened JsText
  import opened Types

  const KEY_LENGTH: nat := 44
  const INVALID_KEY_MESSAGE: string := "Chave inválida. Deve ter 44 dígitos."
  const LOOKUP_FAILED_MESSAGE: string := "Não foi possível buscar os dados automaticamente. Tente a importação via XML."
  const UNKNOWN_CUSTOMER: string := "Consumidor Final / Não Identificado"
  const NO_ADDRESS: string := "Endereço não retornado (Preencher na entrega)"

  /** The fields of the service's JSON the lookup reads; an absent field is `None`. */
  datatype AddressPayload = AddressPayload(
    street: Option<string>, number: Option<string>, district: Option<string>, zip: Option<string>)

  datatype RecipientPayload = RecipientPayload(
    name: Option<string>, cpf: Option<string>, cnpj: Option<string>, address: Option<AddressPayload>)

  /** `totalCents` is `Number(valor_total)` in cents, `None` when that is NaN. */
  datatype NfePayload = NfePayload(
    number: Option<string>, series: Option<string>, recipient: Option<RecipientPayload>, totalCents: Option<int>)

  /** What the remote call produced: a network error, a non-2xx response or a
      body that is not JSON all end in the same handler. */
  datatype Reply = Unavailable | Payload(data: NfePayload)

  datatype Lookup = Found(invoice: Invoice) | Refused(message: string)

  /** A field spliced into a template literal: an absent one prints "undefined". */
  function Rendered(o: Option<string>): string
  {
    if o.Some? then o.value else "undefined"
  }

  function AddressLine(a: AddressPayload): string
  {
    Rendered(a.street) + ", " + Rendered(a.number) + " - " + Rendered(a.district)
  }

  /** The invoice built from a reply for the cleaned key `key`. */
  function InvoiceFrom(key: string, data: NfePayload, id: Id, createdAt: string): Invoice
    requires |key| == KEY_LENGTH
  {
    var rcp := data.recipient;
    Invoice(
      id := id,
      accessKey := key,
      number := OrElse(data.number, key[25..34]),
      series := OrElse(data.series, key[22..25]),
      customerName := OrElse(if rcp.Some? then rcp.value.name else None, UNKNOWN_CUSTOMER),
      customerDoc := OrElse(if rcp.Some? then rcp.value.cpf else None,
                            OrElse(if rcp.Some? then rcp.value.cnpj else None, "")),
      customerAddress := if rcp.Some? && rcp.value.address.Some? then AddressLine(rcp.value.address.value) else NO_ADDRESS,
      customerZip := OrElse(if rcp.Some? && rcp.value.address.Some? then rcp.value.address.value.zip else None, ""),
      value := if data.totalCents.Some? then data.totalCents.value else 0,
      status := Pending,
      driverId := None,
      vehicleId := None,
      createdAt := createdAt)
  }

  /** `fetchNFeData(accessKey)`, with `id` standing for `inv-${Date.now()}` and
      `createdAt` for the ISO time stamp. */
  function FetchNFeData(accessKey: string, reply: Reply, id: Id, createdAt: string): (r: Lookup)
    ensures |OnlyDigits(accessKey)| != KEY_LENGTH ==> r == Refused(INVALID_KEY_MESSAGE)
    ensures |OnlyDigits(accessKey)| == KEY_LENGTH && reply.Unavailable? ==> r == Refused(LOOKUP_FAILED_MESSAGE)
    ensures r.Found? <==> |OnlyDigits(accessKey)| == KEY_LENGTH && reply.Payload?
    ensures r.Found? ==>
      && r.invoice.accessKey == OnlyDigits(accessKey)
      && |r.invoice.accessKey| == KEY_LENGTH && AllDigits(r.invoice.accessKey)
      && r.invoice.id == id
      && r.invoice.status == Pending && r.invoice.driverId == None && r.invoice.vehicleId == None
      && r.invoice.customerName != ""
  {
    var key := OnlyDigits(accessKey);
    if |key| != KEY_LENGTH then Refused(INVALID_KEY_MESSAGE)
    else match reply
      case Unavailable => Refused(LOOKUP_FAILED_MESSAGE)
      case Payload(data) => Found(InvoiceFrom(key, data, id, createdAt))
  }

  // ------------------------------------------------------------------ the key's layout

  /** The nine fields of an NF-e access key, in order, with their widths. */
  datatype KeyFields = KeyFields(
    uf: string, yearMonth: string, issuerCnpj: string, model: string, series: string,
    number: string, emission: string, code: string, checkDigit: string)

  predicate WellFormed(f: KeyFields)
  {
    |f.uf| == 2 && |f.yearMonth| == 4 && |f.issuerCnpj| == 14 && |f.model| == 2 &&
    |f.series| == 3 && |f.number| == 9 && |f.emission| == 1 && |f.code| == 8 && |f.checkDigit| == 1
  }

  function Compose(f: KeyFields): (key: string)
    requires WellFormed(f)
    ensures |key| == KEY_LENGTH
  {
    f.uf + f.yearMonth + f.issuerCnpj + f.model + f.series + f.number + f.emission + f.code + f.checkDigit
  }

  function Fields(key: string): (f: KeyFields)
    requires |key| == KEY_LENGTH
    ensures WellFormed(f)
  {
    KeyFields(key[0..2], key[2..6], key[6..20], key[20..22], key[22..25], key[25..34], key[34..35], key[35..43], key[43..44])
  }

  lemma FieldsOfCompose(f: KeyFields)
    requires WellFormed(f)
    ensures Fields(Compose(f)) == f
  {
    var key := Compose(f);
    assert key[0..2] == f.uf;
    assert key[2..6] == f.yearMonth;
    assert key[6..20] == f.issuerCnpj;
    assert key[20..22] == f.model;
    assert key[22..25] == f.series;
    assert key[25..34] == f.number;
    assert key[34..35] == f.emission;
    assert key[35..43] == f.code;
    assert key[43..44] == f.checkDigit;
  }

  lemma ComposeOfFields(key: string)
    requires |key| == KEY_LENGTH
    ensures Compose(Fields(key)) == key
  {
    assert key == key[0..2] + key[2..6] + key[6..20] + key[20..22] + key[22..25] + key[25..34] + key[34..35] + key[35..43] + key[43..44];
  }

  /** When the service omits them, the number and the series are read from the
      key's nNF and série fields. */
  lemma MissingNumberComesFromKey(accessKey: string, data: NfePayload, id: Id, createdAt: string)
    requires |OnlyDigits(accessKey)| == KEY_LENGTH
    ensures var r := FetchNFeData(accessKey, Payload(data), id, createdAt);
            var f := Fields(OnlyDigits(accessKey));
            r.Found? &&
            (!Present(data.number) ==> r.invoice.number == f.number) &&
            (!Present(data.series) ==> r.invoice.series == f.series) &&
            (Present(data.number) ==> r.invoice.number == data.number.value) &&
            (Present(data.series) ==> r.invoice.series == data.series.value)
  {
  }

  /** Whatever is typed around the digits, the key stored is the same: cleaning
      a cleaned key changes nothing. */
  lemma LookupKeyIsCanonical(accessKey: string, reply: Reply, id: Id, createdAt: string)
    requires FetchNFeData(accessKey, reply, id, createdAt).Found?
    ensures var inv := FetchNFeData(accessKey, reply, id, createdAt).invoice;
            OnlyDigits(inv.accessKey) == inv.accessKey &&
            FetchNFeData(inv.accessKey, reply, id, createdAt) == FetchNFeData(accessKey, reply, id, createdAt)
  {
    OnlyDigitsIdempotent(accessKey);
  }

  /** The customer and address defaults: an unnamed customer and an absent
      address get the fixed texts, an absent zip and document become empty. */
  lemma LookupDefaults(key: string, data: NfePayload, id: Id, createdAt: string)
    requires |key| == KEY_LENGTH && data.recipient.None?
    ensures var inv := InvoiceFrom(key, data, id, createdAt);
            inv.customerName == UNKNOWN_CUSTOMER && inv.customerAddress == NO_ADDRESS &&
            inv.customerDoc == "" && inv.customerZip == ""
  {
  }

  /** With a recipient in the reply: the document is the CPF, else the CNPJ,
      else empty; the address is "street, number - district" (an absent part
      printing "undefined") with the zip beside it, or the fixed text and an
      empty zip when the service withheld the address. */
  lemma LookupRecipientFields(accessKey: string, data: NfePayload, id: Id, createdAt: string)
    requires |OnlyDigits(accessKey)| == KEY_LENGTH && data.recipient.Some?
    ensures var r := FetchNFeData(accessKey, Payload(data), id, createdAt);
            var rcp := data.recipient.value;
            && r.Found?
            && (Present(rcp.name) ==> r.invoice.customerName == rcp.name.value)
            && (!Present(rcp.name) ==> r.invoice.customerName == UNKNOWN_CUSTOMER)
            && (Present(rcp.cpf) ==> r.invoice.customerDoc == rcp.cpf.value)
            && (!Present(rcp.cpf) && Present(rcp.cnpj) ==> r.invoice.customerDoc == rcp.cnpj.value)
            && (!Present(rcp.cpf) && !Present(rcp.cnpj) ==> r.invoice.customerDoc == "")
            && (rcp.address.Some? ==>
                  var a := rcp.address.value;
                  && r.invoice.customerAddress == Rendered(a.street) + ", " + Rendered(a.number) + " - " + Rendered(a.district)
                  && r.invoice.customerZip == (if Present(a.zip) then a.zip.value else ""))
            && (rcp.address.None? ==> r.invoice.customerAddress == NO_ADDRESS && r.invoice.customerZip == "")
  {
  }
}
