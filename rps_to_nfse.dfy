/** Conversion of one RPS into an NFS-e (class `RpsToNFse`): the RPS is built and signed, put
    into a one-entry lot envelope, the whole lot is signed, sent with a SOAP call, and the
    parsed answer, or any exception on the way, is mapped to one uniform result. */
module RpsSubmission {
  import opened Outcomes

  // ---------------------------------------------------------------------------------------
  // Data
  // ---------------------------------------------------------------------------------------

  datatype Issuer = Issuer(cnpj: string, imun: string)

  /** Operator settings: the issuer's identifiers and where the certificate bundle is. */
  datatype Settings = Settings(issuer: Issuer, certificatePath: string, certificatePassword: string)

  /** An RPS: its number and the business fields the RPS builder reads. */
  datatype Rps = Rps(number: string, fields: map<string, string>)

  datatype Lot = Lot(rpsLot: string, rps: Rps)

  /** The values set on the lot template before it is saved as XML. */
  datatype LotEnvelope = LotEnvelope(
    idLote: string, numeroLote: string, cnpjPrestador: string, imPrestador: string,
    quantidadeRps: string, signedRpsXml: string)

  /** A loaded certificate bundle. */
  datatype Pfx = Pfx(bundle: string)

  /** One message of the authority's message list. */
  datatype Message = Message(code: string, text: string)

  /** A parsed response document: whether it has a `ListaMensagemRetorno` element, and the rest. */
  datatype XmlDoc = XmlDoc(hasMessageList: bool, body: string)

  /** The collaborators of the pipeline, each reduced to what it yields or the exception it
      raises: the RPS builder and its signature, the lot template, the XML filter, the signer,
      the SOAP transport, the XML parser (None for PHP's `false`) and the message extractor. */
  datatype Collaborators = Collaborators(
    signedRps: (Settings, string, Lot) -> Outcome<string>,
    saveEnvelope: LotEnvelope -> Outcome<string>,
    xmlFilter: string -> Outcome<string>,
    sign: (Pfx, string, string) -> Outcome<string>,
    soapCall: (string, string) -> Outcome<string>,
    parse: string -> Option<XmlDoc>,
    errorMessages: XmlDoc -> Outcome<seq<Message>>)

  /** The object `generateFromLot` returns: `success` true with the response, or `success` false
      with the authority's messages or with the one message of the exception that was caught. */
  datatype GenerationResult =
    | Accepted(response: Option<XmlDoc>)
    | Rejected(messages: seq<Message>)
    | Failed(errors: seq<string>)
  {
    predicate Success() {
      Accepted?
    }
  }

  const SoapOperation: string := "GerarNfseRequest"
  const LotSignatureTarget: string := "LoteRps"
  const RpsIdPrefix: string := "rps:"
  const RpsPerLot: string := "1"

  // ---------------------------------------------------------------------------------------
  // The pipeline as functions
  // ---------------------------------------------------------------------------------------

  /** The id of the RPS element: the prefix `rps:` and then the RPS number. */
  function RpsId(lot: Lot): (id: string)
    ensures |id| == |RpsIdPrefix| + |lot.rps.number|
    ensures id[..|RpsIdPrefix|] == RpsIdPrefix && id[|RpsIdPrefix|..] == lot.rps.number
  {
    RpsIdPrefix + lot.rps.number
  }

  /** The values set on the lot template. */
  function EnvelopeFor(settings: Settings, lot: Lot, signedRpsXml: string): LotEnvelope
  {
    LotEnvelope(lot.rpsLot, lot.rpsLot, settings.issuer.cnpj, settings.issuer.imun, RpsPerLot, signedRpsXml)
  }

  /** The envelope always announces one RPS, carries the lot id twice and the issuer's
      identifiers, and depends on the RPS only through its signed XML. */
  lemma EnvelopeShape(settings: Settings, lot: Lot, other: Lot, signedRpsXml: string)
    ensures var e := EnvelopeFor(settings, lot, signedRpsXml);
      && e.quantidadeRps == "1"
      && e.idLote == lot.rpsLot && e.numeroLote == lot.rpsLot
      && e.cnpjPrestador == settings.issuer.cnpj && e.imPrestador == settings.issuer.imun
      && e.signedRpsXml == signedRpsXml
    ensures other.rpsLot == lot.rpsLot ==>
      EnvelopeFor(settings, other, signedRpsXml) == EnvelopeFor(settings, lot, signedRpsXml)
  {
  }

  /** Stages 1 to 3: build and sign the RPS, put it into the envelope, filter it, sign the lot. */
  function SignedLot(settings: Settings, pfx: Pfx, lot: Lot, c: Collaborators): Outcome<string>
  {
    var rpsXml :- c.signedRps(settings, RpsId(lot), lot);
    var lotXml :- c.saveEnvelope(EnvelopeFor(settings, lot, rpsXml));
    var filtered :- c.xmlFilter(lotXml);
    c.sign(pfx, filtered, LotSignatureTarget)
  }

  /** Stages 1 to 4: the signed lot sent with the SOAP call; the raw response text. */
  function Transmit(settings: Settings, pfx: Pfx, lot: Lot, c: Collaborators): Outcome<string>
  {
    var signedXml :- SignedLot(settings, pfx, lot, c);
    c.soapCall(SoapOperation, signedXml)
  }

  predicate HasMessageList(parsed: Option<XmlDoc>)
  {
    parsed.Some? && parsed.value.hasMessageList
  }

  /** The classification of the parsed response: a message list means rejection with the
      authority's messages; anything else is success with the parsed response unmodified,
      including a response that did not parse (PHP's `false`). */
  function Classify(parsed: Option<XmlDoc>, errorMessages: XmlDoc -> Outcome<seq<Message>>): (r: GenerationResult)
    ensures r.Accepted? <==> !HasMessageList(parsed)
    ensures r.Accepted? ==> r.response == parsed
    ensures r.Rejected? <==> HasMessageList(parsed) && errorMessages(parsed.value).Ok?
    ensures r.Rejected? ==> r.messages == errorMessages(parsed.value).value
    ensures r.Failed? ==> r.errors == [errorMessages(parsed.value).message]
  {
    if HasMessageList(parsed) then
      match errorMessages(parsed.value)
      case Ok(messages) => Rejected(messages)
      case Thrown(m) => Failed([m])
    else
      Accepted(parsed)
  }

  /** `generateFromLot` as a function of the collaborators' outcomes. */
  function Generate(settings: Settings, pfx: Pfx, lot: Lot, c: Collaborators): GenerationResult
  {
    match Transmit(settings, pfx, lot, c)
    case Thrown(m) => Failed([m])
    case Ok(output) => Classify(c.parse(output), c.errorMessages)
  }

  // ---------------------------------------------------------------------------------------
  // What the pipeline promises
  // ---------------------------------------------------------------------------------------

  /** An exception at any stage up to the SOAP call gives `success` false with exactly that
      exception's message; a failure is never anything else than a one-message list. */
  lemma ExceptionIsCaught(settings: Settings, pfx: Pfx, lot: Lot, c: Collaborators)
    ensures Transmit(settings, pfx, lot, c).Thrown? ==>
      Generate(settings, pfx, lot, c) == Failed([Transmit(settings, pfx, lot, c).message])
    ensures Generate(settings, pfx, lot, c).Failed? ==> |Generate(settings, pfx, lot, c).errors| == 1
  {
  }

  /** A rejection only comes from an answer of the authority that has a message list, and it
      carries that list's messages in the order the extractor gives them. */
  lemma RejectionComesFromAuthority(settings: Settings, pfx: Pfx, lot: Lot, c: Collaborators)
    ensures var r := Generate(settings, pfx, lot, c);
      var t := Transmit(settings, pfx, lot, c);
      r.Rejected? <==>
        t.Ok? && HasMessageList(c.parse(t.value)) && c.errorMessages(c.parse(t.value).value).Ok?
    ensures var r := Generate(settings, pfx, lot, c);
      var t := Transmit(settings, pfx, lot, c);
      r.Rejected? ==> r.messages == c.errorMessages(c.parse(t.value).value).value
  {
  }

  /** Success exactly when the SOAP call answered without a message list, carrying the parsed
      answer unmodified. */
  lemma SuccessCarriesResponse(settings: Settings, pfx: Pfx, lot: Lot, c: Collaborators)
    ensures var r := Generate(settings, pfx, lot, c);
      var t := Transmit(settings, pfx, lot, c);
      r.Success() <==> t.Ok? && !HasMessageList(c.parse(t.value))
    ensures var r := Generate(settings, pfx, lot, c);
      var t := Transmit(settings, pfx, lot, c);
      r.Success() ==> r.response == c.parse(t.value)
  {
  }

  /** The order of the stages: the signed RPS built with id `rps:<number>` is put into the
      envelope, the filtered envelope is signed on `LoteRps`, and only that signed lot is sent. */
  lemma SigningPrecedesTransport(settings: Settings, pfx: Pfx, lot: Lot, c: Collaborators)
    ensures SignedLot(settings, pfx, lot, c).Ok? ==>
      exists rpsXml, lotXml, filtered ::
        && c.signedRps(settings, RpsIdPrefix + lot.rps.number, lot) == Ok(rpsXml)
        && c.saveEnvelope(EnvelopeFor(settings, lot, rpsXml)) == Ok(lotXml)
        && c.xmlFilter(lotXml) == Ok(filtered)
        && SignedLot(settings, pfx, lot, c) == c.sign(pfx, filtered, LotSignatureTarget)
    ensures Transmit(settings, pfx, lot, c) ==
      if SignedLot(settings, pfx, lot, c).Ok?
      then c.soapCall(SoapOperation, SignedLot(settings, pfx, lot, c).value)
      else Thrown(SignedLot(settings, pfx, lot, c).message)
  {
    if SignedLot(settings, pfx, lot, c).Ok? {
      var rpsXml := c.signedRps(settings, RpsId(lot), lot).value;
      var lotXml := c.saveEnvelope(EnvelopeFor(settings, lot, rpsXml)).value;
      var filtered := c.xmlFilter(lotXml).value;
      assert c.saveEnvelope(EnvelopeFor(settings, lot, rpsXml)) == Ok(lotXml);
      assert c.xmlFilter(lotXml) == Ok(filtered);
    }
  }

  // ---------------------------------------------------------------------------------------
  // The stateful collaborators and the service object
  // ---------------------------------------------------------------------------------------

  /** The SOAP client: the operation is fixed when it is built; the XML to send is set, then sent. */
  class Soap {
    const operation: string
    var xml: string
    /** Every XML payload sent so far, in order. */
    ghost var sent: seq<string>

    constructor (operation: string)
      ensures this.operation == operation && xml == "" && sent == []
    {
      this.operation := operation;
      xml := "";
      sent := [];
    }

    method SetXml(x: string)
      modifies this`xml
      ensures xml == x
    {
      xml := x;
    }

    method Call(soapCall: (string, string) -> Outcome<string>) returns (r: Outcome<string>)
      modifies this`sent
      ensures sent == old(sent) + [xml]
      ensures r == soapCall(operation, xml)
    {
      sent := sent + [xml];
      r := soapCall(operation, xml);
    }
  }

  /** The signer: holds the certificate bundle once it has been loaded. */
  class Subscriber {
    const settings: Settings
    var pfx: Option<Pfx>
    /** How many times the bundle has been loaded. */
    ghost var loads: nat

    constructor (settings: Settings)
      ensures this.settings == settings && pfx == None && loads == 0
    {
      this.settings := settings;
      pfx := None;
      loads := 0;
    }

    method LoadPfx(loader: Settings -> Outcome<Pfx>) returns (r: Outcome<Pfx>)
      modifies this
      ensures r == loader(settings) && loads == old(loads) + 1
      ensures pfx == if r.Ok? then Some(r.value) else old(pfx)
    {
      r := loader(settings);
      loads := loads + 1;
      if r.Ok? {
        pfx := Some(r.value);
      }
    }

    method Sign(xml: string, target: string, sign: (Pfx, string, string) -> Outcome<string>) returns (r: Outcome<string>)
      requires pfx.Some?
      ensures r == sign(pfx.value, xml, target)
    {
      r := sign(pfx.value, xml, target);
    }
  }

  /** The service object of `RpsToNFse`. */
  class RpsToNfseService {
    const settings: Settings
    const subscriber: Subscriber
    const soap: Soap

    /** The bundle was loaded exactly once, successfully, and the SOAP client targets the
        NFS-e generation operation. */
    ghost predicate Valid()
      reads subscriber
    {
      && subscriber.settings == settings
      && subscriber.pfx.Some?
      && subscriber.loads == 1
      && soap.operation == SoapOperation
    }

    constructor (settings: Settings, subscriber: Subscriber, soap: Soap)
      requires subscriber.settings == settings && subscriber.pfx.Some? && subscriber.loads == 1
      requires soap.operation == SoapOperation
      ensures this.settings == settings && this.subscriber == subscriber && this.soap == soap
      ensures Valid()
    {
      this.settings := settings;
      this.subscriber := subscriber;
      this.soap := soap;
    }

    /** `generateFromLot`: never throws; its result is `Generate`, and the SOAP client sends the
        signed lot exactly when stages 1 to 3 succeeded. The certificate is not loaded again. */
    method GenerateFromLot(lot: Lot, c: Collaborators) returns (r: GenerationResult)
      requires Valid()
      modifies soap
      ensures Valid()
      ensures r == Generate(settings, subscriber.pfx.value, lot, c)
      ensures var signed := SignedLot(settings, subscriber.pfx.value, lot, c);
        soap.sent == old(soap.sent) + (if signed.Ok? then [signed.value] else [])
    ensures var signed := SignedLot(settings, subscriber.pfx.value, lot, c);
      soap.xml == (if signed.Ok? then signed.value else old(soap.xml))
    {
      var rpsXml := c.signedRps(settings, RpsId(lot), lot);
      if rpsXml.Thrown? {
        return Failed([rpsXml.message]);
      }
      var lotXml := c.saveEnvelope(EnvelopeFor(settings, lot, rpsXml.value));
      if lotXml.Thrown? {
        return Failed([lotXml.message]);
      }
      var filtered := c.xmlFilter(lotXml.value);
      if filtered.Thrown? {
        return Failed([filtered.message]);
      }
      var signedXml := subscriber.Sign(filtered.value, LotSignatureTarget, c.sign);
      if signedXml.Thrown? {
        return Failed([signedXml.message]);
      }
      soap.SetXml(signedXml.value);
      var response := soap.Call(c.soapCall);
      if response.Thrown? {
        return Failed([response.message]);
      }
      var parsed := c.parse(response.value);
      if parsed.Some? && parsed.value.hasMessageList {
        var messages := c.errorMessages(parsed.value);
        if messages.Thrown? {
          return Failed([messages.message]);
        }
        return Rejected(messages.value);
      }
      return Accepted(parsed);
    }
  }

  /** `new RpsToNFse($settings)`: the signer is created and its bundle loaded before the SOAP
      client exists; when loading throws, the exception leaves the constructor and no service,
      hence no SOAP client, is ever made. */
  method Open(settings: Settings, loader: Settings -> Outcome<Pfx>) returns (r: Outcome<RpsToNfseService>)
    ensures r.Ok? <==> loader(settings).Ok?
    ensures r.Thrown? ==> r.message == loader(settings).message
    ensures r.Ok? ==>
      && fresh(r.value) && fresh(r.value.subscriber) && fresh(r.value.soap)
      && r.value.settings == settings
      && r.value.Valid()
      && r.value.subscriber.pfx == Some(loader(settings).value)
      && r.value.soap.sent == []
  {
    var subscriber := new Subscriber(settings);
    var loaded := subscriber.LoadPfx(loader);
    if loaded.Thrown? {
      return Thrown(loaded.message);
    }
    var soap := new Soap(SoapOperation);
    var service := new RpsToNfseService(settings, subscriber, soap);
    return Ok(service);
  }
}
