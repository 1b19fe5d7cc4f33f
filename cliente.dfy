/** The customer form: a document number and a name, the customer code derived
    from the document, the record in the customer-master schema of SAP
    Business One (table OCRD) that it registers, and the messages shown when
    the customer API answers. */
module RegistroCliente {
  import opened Wrappers
  import opened Json

  /** The business-partner type of a customer. */
  const TipoCliente: string := "C"

  const MensajeExito: string := "Cliente registrado correctamente"
  const MensajeErrorBase: string := "Error al registrar el cliente"

  /** A customer record with the OCRD field names; the optional fields are
      never filled in by the form. */
  datatype ClienteSAP = ClienteSAP(
    CardCode: string,
    CardName: string,
    CardType: string,
    LicTradNum: string,
    Phone1: Option<string>,
    Cellular: Option<string>,
    E_Mail: Option<string>,
    Address: Option<string>,
    U_SAPFiori: Option<string>)

  /** The customer code: 'C' followed by the document number, or empty while
      no document has been typed. */
  function CodigoCliente(licTradNum: string): (code: string)
    ensures code == "" <==> licTradNum == ""
    ensures code != "" ==> code[0] == 'C' && code[1..] == licTradNum
  {
    if licTradNum == "" then "" else "C" + licTradNum
  }

  /** The document number a customer code was derived from. */
  function DocumentoDeCodigo(code: string): string {
    if code == "" then "" else code[1..]
  }

  /** The code determines the document, so two documents never share a code. */
  lemma CodigoClienteInyectivo(a: string, b: string)
    ensures DocumentoDeCodigo(CodigoCliente(a)) == a
    ensures CodigoCliente(a) == CodigoCliente(b) ==> a == b
  {
  }

  /** The record the form registers is well formed: a customer, keyed by the
      code of its own document, with no optional field set. */
  predicate RegistroValido(c: ClienteSAP) {
    c.CardType == TipoCliente
    && c.CardCode == CodigoCliente(c.LicTradNum)
    && c.Phone1.None? && c.Cellular.None? && c.E_Mail.None? && c.Address.None? && c.U_SAPFiori.None?
  }

  /** The record `registrarCliente` builds from the form. */
  function ArmarCliente(cardName: string, licTradNum: string): (c: ClienteSAP)
    ensures RegistroValido(c)
    ensures c.CardName == cardName && c.LicTradNum == licTradNum
  {
    ClienteSAP(CodigoCliente(licTradNum), cardName, TipoCliente, licTradNum, None, None, None, None, None)
  }

  /** A well-formed record is the one the form builds from its name and
      document. */
  lemma RegistroValidoEsArmado(c: ClienteSAP)
    ensures RegistroValido(c) <==> c == ArmarCliente(c.CardName, c.LicTradNum)
  {
  }

  /** The `error` member of a failed HTTP response, as JavaScript sees it. */
  datatype CuerpoError =
    | SinCuerpo                      // null, undefined or another falsy value
    | Texto(texto: string)           // a string (the empty string is falsy)
    | Objeto(error: Option<string>)  // any other truthy value, with the text of its own
                                     // `error` member when that member is truthy (empty for
                                     // `[]`); None when it is absent or falsy

  /** The server's own text in an error body, in the order the handler looks
      for it: `err.error` when it is a non-empty string, else the text of a
      truthy `err.error.error`, which may be empty. */
  function DetalleError(e: CuerpoError): (d: Option<string>)
    ensures e.SinCuerpo? ==> d.None?
    ensures e.Texto? ==> (d.Some? <==> e.texto != "") && (d.Some? ==> d.value == e.texto)
    ensures e.Texto? && d.Some? ==> d.value != ""
    ensures e.Objeto? ==> (d.Some? <==> e.error.Some?) && (d.Some? ==> d.value == e.error.value)
  {
    match e
    case SinCuerpo => None
    case Texto(t) => if t != "" then Some(t) else None
    case Objeto(inner) => inner
  }

  /** The message of the error handler of `enviarCliente`. */
  function MensajeError(e: CuerpoError): (m: string)
    ensures |MensajeErrorBase| <= |m| && m[..|MensajeErrorBase|] == MensajeErrorBase
    ensures m == MensajeErrorBase <==> DetalleError(e).None?
    ensures DetalleError(e).Some? ==> m[|MensajeErrorBase|..] == ": " + DetalleError(e).value
  {
    var msg := MensajeErrorBase;
    match e
    case SinCuerpo => msg
    case Texto(t) => if t != "" then msg + ": " + t else msg
    case Objeto(inner) =>
      if inner.Some? then msg + ": " + inner.value else msg
  }

  /** A body `{"error": []}`: the nested member is truthy, so the separator is
      appended even though its text is empty. */
  lemma MensajeErrorAnidadoVacio()
    ensures DetalleError(Objeto(Some(""))) == Some("")
    ensures MensajeError(Objeto(Some(""))) == MensajeErrorBase + ": "
    ensures MensajeError(Objeto(None)) == MensajeErrorBase
  {
  }

  /** The answer of the customer API, supplied by the caller in place of the
      HTTP request. */
  datatype Respuesta = Exito | Fallo(cuerpo: CuerpoError)

  /** The alert shown for an answer. */
  function Aviso(r: Respuesta): (m: string)
    ensures r.Exito? ==> m == MensajeExito
    ensures r.Fallo? ==> m == MensajeError(r.cuerpo)
    ensures m == MensajeExito <==> r.Exito?
  {
    match r
    case Exito => MensajeExito
    case Fallo(e) =>
      var m := MensajeError(e);
      assert m[0] == MensajeErrorBase[0] != MensajeExito[0];
      m
  }

  /** What sending does: nothing when the stored JSON is the empty string,
      which `JSON.parse` rejects before any request; otherwise the record sent
      and the alert shown. */
  datatype Envio = JsonInvalido | Enviado(cliente: ClienteSAP, aviso: string)

  /** The Cliente component. Angular signals become plain fields and the
      computed `CardCode` becomes a function. */
  class Cliente {
    var mostrarPopup: bool
    var jsonCliente: Trama<ClienteSAP>
    var LicTradNum: string
    var CardName: string
    const CardType: string := TipoCliente

    /** The stored JSON, when there is one, is a record `registrarCliente`
        built. */
    predicate Valid()
      reads this
    {
      jsonCliente.Serializada? ==> RegistroValido(jsonCliente.valor)
    }

    constructor ()
      ensures Valid()
      ensures !mostrarPopup && jsonCliente == Vacia
      ensures LicTradNum == "" && CardName == "" && CardCode() == ""
    {
      mostrarPopup, jsonCliente := false, Vacia;
      LicTradNum, CardName := "", "";
    }

    /** The `CardCode` computed signal. */
    function CardCode(): (code: string)
      reads this
      ensures code == "" <==> LicTradNum == ""
      ensures DocumentoDeCodigo(code) == LicTradNum
      ensures code != "" ==> code[0] == 'C'
    {
      CodigoCliente(LicTradNum)
    }

    /** Builds the record, keeps its JSON for the popup and shows the popup. */
    method RegistrarCliente()
      modifies this`jsonCliente, this`mostrarPopup
      ensures jsonCliente == Serializada(ArmarCliente(CardName, LicTradNum))
      ensures jsonCliente.valor.CardType == CardType == TipoCliente
      ensures jsonCliente.valor.CardCode == CardCode()
      ensures mostrarPopup
      ensures Valid()
    {
      jsonCliente := Serializada(ArmarCliente(CardName, LicTradNum));
      mostrarPopup := true;
    }

    /** Sends the stored record; `respuesta` is the API's answer. Both answers
        end with the popup hidden. */
    method EnviarCliente(respuesta: Respuesta) returns (r: Envio)
      modifies this`mostrarPopup
      ensures jsonCliente.Vacia? ==> r == JsonInvalido && mostrarPopup == old(mostrarPopup)
      ensures jsonCliente.Serializada? ==> r == Enviado(jsonCliente.valor, Aviso(respuesta)) && !mostrarPopup
      ensures old(Valid()) ==> Valid() && (r.Enviado? ==> RegistroValido(r.cliente))
    {
      match jsonCliente
      case Vacia =>
        r := JsonInvalido;
      case Serializada(cliente) =>
        var msg := Aviso(respuesta);
        mostrarPopup := false;
        r := Enviado(cliente, msg);
    }

    /** Hides the popup without sending and clears the stored JSON. */
    method CerrarPopup()
      modifies this`mostrarPopup, this`jsonCliente
      ensures !mostrarPopup && jsonCliente == Vacia
      ensures Valid()
    {
      mostrarPopup := false;
      jsonCliente := Vacia;
    }
  }

  /** Register, then send: the record that reaches the API is the one built
      from the form, and the popup closes. */
  method EscenarioRegistro(respuesta: Respuesta) {
    var c := new Cliente();
    c.LicTradNum, c.CardName := "20123456789", "Comercial Lima";
    c.RegistrarCliente();
    assert c.mostrarPopup;
    var r := c.EnviarCliente(respuesta);
    assert r.Enviado? && r.cliente.CardCode == "C20123456789" && !c.mostrarPopup;
    assert RegistroValido(r.cliente);
    c.CerrarPopup();
    r := c.EnviarCliente(respuesta);
    assert r == JsonInvalido;
  }
}
