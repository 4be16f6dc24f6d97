/** Field extraction from an NF-e XML file (the body of the upload handler in
    components/AdminView.tsx). The parsed document is given as the texts of
    the first element of each tag name: one table for the whole document, and
    one per block (`ide`, `dest`, `enderDest` inside `dest`, `total`,
    `infAdic`) when that block is present. */
module NfeImport {
  import opened Base
  import opened JsText
  import opened Types

  /** Tag name to the text content of its first element; absent tags read "". */
  type Tags = map<string, string>

  datatype DestBlock = DestBlock(tags: Tags, enderDest: Option<Tags>)

  datatype XmlDoc = XmlDoc(
    all: Tags,
    ide: Option<Tags>,
    dest: Option<DestBlock>,
    total: Option<Tags>,
    infAdic: Option<Tags>,
    infNFeId: Option<string>)

  /** The two thrown errors; both end in the same "Erro ao processar XML." alert. */
  datatype ImportError = RecipientMissing | Incomplete

  const NO_DOCUMENT: string := "Não informado"
  const NOTE_MARKER: string := " || OBS/LOCAL: "

  function TextOf(ctx: Tags, tag: string): string
  {
    if tag in ctx then ctx[tag] else ""
  }

  /** `getValue(tag, context)`: an absent (undefined) context falls back to the
      default argument, the whole document. */
  function GetValue(doc: XmlDoc, ctx: Option<Tags>, tag: string): (r: string)
    ensures ctx.None? ==> r == TextOf(doc.all, tag)
    ensures ctx.Some? ==> r == TextOf(ctx.value, tag)
  {
    TextOf(if ctx.Some? then ctx.value else doc.all, tag)
  }

  /** The recipient's address, `xLgr, nro - xBairro, xMun - UF`, with ` (xCpl)`
      after the number when the complement is non-empty. */
  function BaseAddress(xLgr: string, nro: string, xCpl: string, xBairro: string, xMun: string, uf: string): string
  {
    xLgr + ", " + nro + (if xCpl != "" then " (" + xCpl + ")" else "") + " - " + xBairro + ", " + xMun + " - " + uf
  }

  /** The complementary information appended to the address, upper-cased, when
      it has a non-space character; nothing otherwise. */
  function NoteSuffix(infCpl: string): string
  {
    if infCpl != "" && |Trim(infCpl)| > 0 then NOTE_MARKER + ToUpper(infCpl) else ""
  }

  /** The access key: chNFe when non-empty, else the infNFe Id without its
      "NFe" prefix when it has one, else "GEN" and the time. */
  function AccessKeyFor(doc: XmlDoc, nowMs: nat): string
  {
    var ch := GetValue(doc, None, "chNFe");
    var derived :=
      if ch != "" then ch
      else if doc.infNFeId.Some? && doc.infNFeId.value != "" && StartsWith(doc.infNFeId.value, "NFe")
      then doc.infNFeId.value[3..]
      else "";
    Or(derived, GeneratedKey(nowMs))
  }

  function GeneratedKey(nowMs: nat): string
  {
    "GEN" + NatToString(nowMs)
  }

  /** `inv-${Date.now()}`: the id an imported invoice gets at time `ms`. */
  function InvoiceId(ms: nat): Id
  {
    "inv-" + NatToString(ms)
  }

  /** What the upload handler extracts from the parsed document: the invoice,
      or the error it throws. The handler reads the clock twice, for the id
      (`idMs`) and for a generated key (`keyMs`); `valueCents` is the parsed
      vNF. */
  function Extracted(doc: XmlDoc, idMs: nat, keyMs: nat, createdAt: string, valueCents: int): (r: Result<Invoice, ImportError>)
    ensures r == Err(RecipientMissing) <==> doc.dest.None? || doc.dest.value.enderDest.None?
    ensures r == Err(Incomplete) <==>
      doc.dest.Some? && doc.dest.value.enderDest.Some? &&
      (GetValue(doc, doc.ide, "nNF") == "" || TextOf(doc.dest.value.tags, "xNome") == "")
    ensures r.Ok? ==>
      var dest := doc.dest.value;
      var ender := dest.enderDest.value;
      && r.value.id == InvoiceId(idMs)
      && r.value.number == GetValue(doc, doc.ide, "nNF") && r.value.number != ""
      && r.value.series == Or(GetValue(doc, doc.ide, "serie"), "0")
      && r.value.customerName == TextOf(dest.tags, "xNome") && r.value.customerName != ""
      && r.value.customerDoc == Or(TextOf(dest.tags, "CNPJ"), Or(TextOf(dest.tags, "CPF"), NO_DOCUMENT))
      && r.value.customerAddress ==
           BaseAddress(TextOf(ender, "xLgr"), TextOf(ender, "nro"), TextOf(ender, "xCpl"),
                       TextOf(ender, "xBairro"), TextOf(ender, "xMun"), TextOf(ender, "UF"))
           + NoteSuffix(GetValue(doc, doc.infAdic, "infCpl"))
      && r.value.customerZip == TextOf(ender, "CEP")
      && r.value.accessKey == AccessKeyFor(doc, keyMs)
      && r.value.value == valueCents
      && r.value.status == Pending && r.value.driverId == None && r.value.vehicleId == None
      && r.value.createdAt == createdAt
  {
    if doc.dest.None? || doc.dest.value.enderDest.None? then Err(RecipientMissing)
    else
      var dest := doc.dest.value.tags;
      var ender := doc.dest.value.enderDest.value;
      var nNF := GetValue(doc, doc.ide, "nNF");
      var xNome := TextOf(dest, "xNome");
      if nNF == "" || xNome == "" then Err(Incomplete)
      else Ok(Invoice(
        id := InvoiceId(idMs),
        accessKey := AccessKeyFor(doc, keyMs),
        number := nNF,
        series := Or(GetValue(doc, doc.ide, "serie"), "0"),
        customerName := xNome,
        customerDoc := Or(TextOf(dest, "CNPJ"), Or(TextOf(dest, "CPF"), NO_DOCUMENT)),
        customerAddress :=
          BaseAddress(TextOf(ender, "xLgr"), TextOf(ender, "nro"), TextOf(ender, "xCpl"),
                      TextOf(ender, "xBairro"), TextOf(ender, "xMun"), TextOf(ender, "UF"))
          + NoteSuffix(GetValue(doc, doc.infAdic, "infCpl")),
        customerZip := TextOf(ender, "CEP"),
        value := valueCents,
        status := Pending,
        driverId := None,
        vehicleId := None,
        createdAt := createdAt))
  }

  /** The upload handler's extraction, step by step as the handler does it. */
  method ParseNFeXml(doc: XmlDoc, idMs: nat, keyMs: nat, createdAt: string, valueCents: int)
    returns (r: Result<Invoice, ImportError>)
    ensures r == Extracted(doc, idMs, keyMs, createdAt, valueCents)
  {
    var infCpl := GetValue(doc, doc.infAdic, "infCpl");
    if doc.dest.None? || doc.dest.value.enderDest.None? {
      return Err(RecipientMissing);
    }
    var dest := doc.dest.value.tags;
    var ender := doc.dest.value.enderDest.value;

    var nNF := GetValue(doc, doc.ide, "nNF");
    var serie := GetValue(doc, doc.ide, "serie");
    var xNome := TextOf(dest, "xNome");
    var cnpj := TextOf(dest, "CNPJ");
    var cpf := TextOf(dest, "CPF");

    var xLgr := TextOf(ender, "xLgr");
    var nro := TextOf(ender, "nro");
    var xCpl := TextOf(ender, "xCpl");
    var xBairro := TextOf(ender, "xBairro");
    var xMun := TextOf(ender, "xMun");
    var uf := TextOf(ender, "UF");
    var cep := TextOf(ender, "CEP");

    var formattedAddress := BaseAddress(xLgr, nro, xCpl, xBairro, xMun, uf);
    if infCpl != "" && |Trim(infCpl)| > 0 {
      formattedAddress := formattedAddress + (NOTE_MARKER + ToUpper(infCpl));
    }

    var chNFe := GetValue(doc, None, "chNFe");
    if chNFe == "" {
      var idAttr := doc.infNFeId;
      if idAttr.Some? && idAttr.value != "" && StartsWith(idAttr.value, "NFe") {
        chNFe := idAttr.value[3..];
      }
    }

    if nNF == "" || xNome == "" {
      return Err(Incomplete);
    }
    assert formattedAddress == BaseAddress(xLgr, nro, xCpl, xBairro, xMun, uf) + NoteSuffix(infCpl);
    assert (if chNFe != "" then chNFe else GeneratedKey(keyMs)) == AccessKeyFor(doc, keyMs);

    r := Ok(Invoice(
      id := "inv-" + NatToString(idMs),
      accessKey := if chNFe != "" then chNFe else GeneratedKey(keyMs),
      number := nNF,
      series := if serie != "" then serie else "0",
      customerName := xNome,
      customerDoc := if cnpj != "" then cnpj else if cpf != "" then cpf else NO_DOCUMENT,
      customerAddress := formattedAddress,
      customerZip := cep,
      value := valueCents,
      status := Pending,
      driverId := None,
      vehicleId := None,
      createdAt := createdAt));
  }

  // ------------------------------------------------------------------ properties

  /** The note is appended exactly when the complementary information has a
      non-space character, and then it is the upper-cased text after the marker. */
  lemma NoteSuffixShape(infCpl: string)
    ensures NoteSuffix(infCpl) != "" <==> HasContent(infCpl)
    ensures HasContent(infCpl) ==> NoteSuffix(infCpl) == NOTE_MARKER + ToUpper(infCpl)
  {
    TrimNonEmpty(infCpl);
  }

  /** The complement appears, in parentheses right after the number, exactly
      when it is non-empty. */
  lemma BaseAddressComplement(xLgr: string, nro: string, xCpl: string, xBairro: string, xMun: string, uf: string)
    ensures var a := BaseAddress(xLgr, nro, xCpl, xBairro, xMun, uf);
            var head := xLgr + ", " + nro;
            var tail := " - " + xBairro + ", " + xMun + " - " + uf;
            StartsWith(a, head) &&
            (xCpl == "" ==> a == head + tail) &&
            (xCpl != "" ==> a == head + " (" + xCpl + ")" + tail)
  {
    var a := BaseAddress(xLgr, nro, xCpl, xBairro, xMun, uf);
    var head := xLgr + ", " + nro;
    assert a[..|head|] == head;
  }

  /** The three sources of the access key, in priority order. */
  lemma AccessKeyRules(doc: XmlDoc, nowMs: nat)
    ensures var ch := GetValue(doc, None, "chNFe");
            var idAttr := doc.infNFeId;
            var fromId := idAttr.Some? && StartsWith(idAttr.value, "NFe") && |idAttr.value| > 3;
            (ch != "" ==> AccessKeyFor(doc, nowMs) == ch) &&
            (ch == "" && fromId ==> AccessKeyFor(doc, nowMs) == idAttr.value[3..]) &&
            (ch == "" && !fromId ==> AccessKeyFor(doc, nowMs) == GeneratedKey(nowMs))
  {
    var idAttr := doc.infNFeId;
    if idAttr.Some? && StartsWith(idAttr.value, "NFe") && |idAttr.value| == 3 {
      assert idAttr.value[3..] == "";
    }
  }

  /** A generated key starts with letters, so it never equals a key made of
      digits (such as every key the public lookup stores). */
  lemma GeneratedKeyIsNotDigits(nowMs: nat)
    ensures !AllDigits(GeneratedKey(nowMs))
    ensures StartsWith(GeneratedKey(nowMs), "GEN")
  {
    assert GeneratedKey(nowMs)[0] == 'G';
  }

  /** Distinct times give distinct generated keys. */
  lemma GeneratedKeyInjective(m: nat, n: nat)
    requires GeneratedKey(m) == GeneratedKey(n)
    ensures m == n
  {
    assert NatToString(m) == GeneratedKey(m)[3..];
    assert NatToString(n) == GeneratedKey(n)[3..];
    NatToStringInjective(m, n);
  }
}
