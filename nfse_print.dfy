/** Printable rendering of an issued NFS-e (class `PrintPDFNFse`): the output mode is validated,
    a template is filled by `str_replace` with the placeholder table, a CANCELADA mark is put
    before every `</body>` of a cancelled invoice, and the HTML is returned as it is for mode 'I'
    or handed to the PDF engine for 'D' and 'P'. */
module NfsePrint {
  import opened Outcomes
  import opened PhpString

  // ---------------------------------------------------------------------------------------
  // The invoice record (fields the printer reads). Every value the source interpolates is
  // given here as the string PHP would convert it to.
  // ---------------------------------------------------------------------------------------

  datatype Address = Address(
    address: string, number: string, neighborhood: string,
    zipCode: string, city: string, state: string)

  datatype Provider = Provider(
    name: string, cnpj: string, inscription: string, address: Address,
    phone: string, email: string)

  datatype Taker = Taker(
    name: string, document: string, municipalRegistration: string,
    address: string, number: string, neighborhood: string, zipCode: string,
    city: string, state: string, phone: string, email: string)

  /** A monetary amount that may be null; `?? 0` prints null as zero. */
  type Money = Option<real>

  datatype Service = Service(
    specialTaxRegime: int,           // 0 stands for an empty code
    simpleNational: bool,
    description: string,
    municipalityTaxationCode: string,
    taxCodeDescription: string,
    itemList: string,
    itemDescription: string,
    municipalCode: string,
    municipalName: string,
    nature: int,
    serviceValue: Money,
    discountCondition: Money,
    otherWithholdings: Money,
    issValueWithheld: Money,
    netValue: Money,
    valueDeductions: Money,
    unconditionedDiscount: Money,
    calculationBase: Money,
    aliquot: real,
    issValue: Money,
    valuePis: Money,
    valueConfis: Money,
    valueIR: Money,
    valueCSLL: Money,
    valueINSS: Money)

  datatype Nfse = Nfse(
    year: string, number: string, dateEmission: string, timeEmission: string,
    competence: string, verificationCode: string,
    nfseNumberReplaced: string, cancellationCode: string,
    provider: Provider, taker: Taker, service: Service)

  /** The helpers of `Utils` (digit masks, phone mask, money formatting) and PHP's conversion of a
      float to text, none of which is part of this model: they are taken as given functions. */
  datatype Formatters = Formatters(
    mask: (string, string) -> string,
    phoneMask: string -> string,
    money: real -> string,
    number: real -> string)

  /** The PDF engine: HTML, output mode and whether the watermark is on, to the PDF bytes or an
      exception message. */
  type PdfEngine = (string, string, bool) -> Outcome<string>

  /** What `getPDF` returns or throws. */
  datatype PrintOutcome =
    | Rendered(content: string)
    | InvalidArgument(message: string)
    | Failure(message: string)

  // ---------------------------------------------------------------------------------------
  // Fixed tables and markup. The markup and stylesheets are kept short: only which one is
  // chosen, and where the record's values go, matters here.
  // ---------------------------------------------------------------------------------------

  const Operations: map<int, string> := map[
    1 := "Tributação no município",
    2 := "Tributação fora do município",
    3 := "Isenção",
    4 := "Imune",
    5 := "Exigibilidade suspensa por decisão judicial",
    6 := "Exigibilidade suspensa por procedimento administrativo"]

  const Regimes: map<int, string> := map[
    1 := "Microempresa municipal",
    2 := "Estimativa",
    3 := "Sociedade de profissionais",
    4 := "Cooperativa",
    5 := "MEI – Simples Nacional",
    6 := "ME ou EPP do Simples Nacional"]

  const LargePrintCss: string := "@media print { body { font: 19px \"Trebuchet MS\", Verdana, Arial; } }"
  const CompactPrintCss: string := "@media print { body { font: 10px \"Trebuchet MS\", Verdana, Arial; } }"

  const RegimeOpen: string := "<div><span class=\"subTitulo\">Regime Especial de Tributação:</span>"
  const RegimeClose: string := "</div>"
  const SimplesNacionalNotice: string :=
    "<span class=\"subTitulo\">Documento emitido por ME ou EPP optante pelo Simples Nacional.</span>"
  const ReplacedOpen: string := "<span>NFS-e Substituída:"
  const ReplacedClose: string := "</span>"

  const BodyClose: string := "</body>"
  const CanceladaDiv: string :=
    "<div style=\"position: fixed; opacity: 0.3; font-size: 72px; transform: rotate(-45deg); top: 50%; left: 25%;\">CANCELADA</div>"

  const CnpjMask: string := "##.###.###/####-##"
  const CpfMask: string := "###.###.###-##"
  const MunicipalRegistrationMask: string := "#######/###-#"
  const ZipCodeMask: string := "##.###-###"
  const TaxationCodeMask: string := "####-#/##-##"
  const NotInformed: string := "Não Informado"

  const InvalidOutputTypeMessage: string := "Tipo de saída inválido: "
  const PdfFailureMessage: string := "Falha ao gerar PDF: "

  /** A PHP array lookup by code; a missing entry reads as null, which prints as "". */
  function Label(table: map<int, string>, code: int): string
  {
    if code in table then table[code] else ""
  }

  /** The operation and regime tables name exactly the codes 1 to 6; any other code prints
      as the empty string. */
  lemma CodeTables(code: int)
    ensures Label(Operations, code) != "" <==> 1 <= code <= 6
    ensures Label(Regimes, code) != "" <==> 1 <= code <= 6
    ensures Label(Regimes, 6) == "ME ou EPP do Simples Nacional"
  {
  }

  // ---------------------------------------------------------------------------------------
  // Pure helpers of the printer
  // ---------------------------------------------------------------------------------------

  /** `validateOutputType`: None when the mode is accepted, otherwise the exception message. */
  function ValidateOutputType(outputType: string): (error: Option<string>)
    ensures error.None? <==> outputType == "I" || outputType == "D" || outputType == "P"
    ensures error.Some? ==> error.value == InvalidOutputTypeMessage + outputType
  {
    if outputType in ["I", "D", "P"] then None else Some(InvalidOutputTypeMessage + outputType)
  }

  /** `getCssForOutputType`: the large-font stylesheet for the inline mode only. */
  function CssForOutputType(outputType: string): (css: string)
    ensures css == LargePrintCss <==> outputType == "I"
    ensures outputType != "I" ==> css == CompactPrintCss
  {
    if outputType == "I" then LargePrintCss else CompactPrintCss
  }

  /** `getReplacedNfseMarkup`: nothing for an empty number; otherwise the number is shown split
      after its first four characters, as `NNNN/rest`. */
  function ReplacedNfseMarkup(replaced: string): (markup: string)
    ensures IsEmpty(replaced) <==> markup == ""
    ensures !IsEmpty(replaced) ==>
      && |markup| == |ReplacedOpen| + |replaced| + 1 + |ReplacedClose|
      && markup[..|ReplacedOpen|] == ReplacedOpen
      && markup[|markup| - |ReplacedClose|..] == ReplacedClose
      && var shown := markup[|ReplacedOpen|..|markup| - |ReplacedClose|];
         var cut := Min(4, |replaced|);
         shown[cut] == '/' && shown[..cut] + shown[cut + 1..] == replaced
  {
    if IsEmpty(replaced) then ""
    else
      var cut := Min(4, |replaced|);
      var shown := replaced[..cut] + "/" + replaced[cut..];
      var markup := ReplacedOpen + shown + ReplacedClose;
      assert markup[|ReplacedOpen|..|markup| - |ReplacedClose|] == shown;
      assert shown[..cut] + shown[cut + 1..] == replaced[..cut] + replaced[cut..];
      markup
  }

  /** The special tax regime block: empty unless a regime code is set, and then it shows the
      label the regime table gives for that code. */
  function SpecialTaxRegimeMarkup(code: int): (markup: string)
    ensures code == 0 <==> markup == ""
    ensures code != 0 ==> OccursAt(markup, Label(Regimes, code), |RegimeOpen|)
  {
    if code == 0 then ""
    else
      var markup := RegimeOpen + Label(Regimes, code) + RegimeClose;
      assert markup[|RegimeOpen|..|RegimeOpen| + |Label(Regimes, code)|] == Label(Regimes, code);
      markup
  }

  /** The Simples Nacional notice: present exactly when the provider opts into the regime. */
  function SimplesNacionalMarkup(simpleNational: bool): (markup: string)
    ensures markup != "" <==> simpleNational
  {
    if simpleNational then SimplesNacionalNotice else ""
  }

  /** A nullable amount printed with `formatRealMoney($value ?? 0)`. */
  function MoneyText(f: Formatters, m: Money): string
  {
    f.money(if m.Some? then m.value else 0.0)
  }

  /** The placeholder table of `replacePlaceholders`, in the order of the PHP array: the
      stylesheet, then the header, provider, taker, service and amount sections. */
  function Replacements(nfse: Nfse, logo64: string, f: Formatters, outputType: string): seq<(string, string)>
  {
    [("/* {PRINT_CSS}*/", CssForOutputType(outputType))]
      + HeaderPairs(nfse, logo64)
      + ProviderPairs(nfse.provider, f)
      + TakerPairs(nfse.taker, f)
      + ServicePairs(nfse.service, f)
      + AmountPairs(nfse.service, f)
  }

  function HeaderPairs(nfse: Nfse, logo64: string): seq<(string, string)>
  {
    [ ("{ANO}", nfse.year),
      ("{NFSE_NUMERO}", nfse.number),
      ("{DATA_EMISSAO}", nfse.dateEmission),
      ("{HORA_EMISSAO}", " às " + nfse.timeEmission),
      ("{COMPETENCIA}", nfse.competence),
      ("{CODIGO_VERIFICACAO}", nfse.verificationCode),
      ("{LOGO_BASE_64}", logo64),
      ("{NFE_SUBSTITUIDA}", ReplacedNfseMarkup(nfse.nfseNumberReplaced)) ]
  }

  function ProviderPairs(p: Provider, f: Formatters): seq<(string, string)>
  {
    [ ("{RAZAO_SOCIAL_PRESTADOR}", p.name),
      ("{CPF_CNPJ_PRESTADOR}", f.mask(p.cnpj, CnpjMask)),
      ("{INSCRICAO_MUNICIPAL_PRESTADOR}", f.mask(p.inscription, MunicipalRegistrationMask)),
      ("{LOGRADOURO_PRESTADOR}", p.address.address),
      ("{NUMERO_ENDERECO_PRESTADOR}", p.address.number),
      ("{BAIRRO_PRESTADOR}", p.address.neighborhood),
      ("{CEP_PRESTADOR}", f.mask(p.address.zipCode, ZipCodeMask)),
      ("{MUNICIPIO_PRESTADOR}", p.address.city),
      ("{ESTADO_PRESTADOR}", p.address.state),
      ("{TELEFONE_PRESTADOR}", f.phoneMask(p.phone)),
      ("{EMAIL_PRESTADOR}", p.email) ]
  }

  function TakerPairs(t: Taker, f: Formatters): seq<(string, string)>
  {
    [ ("{RAZAO_SOCIAL_TOMADOR}", t.name),
      ("{CPF_CNPJ_TOMADOR}", if |t.document| > 11 then f.mask(t.document, CnpjMask) else f.mask(t.document, CpfMask)),
      ("{INSCRICAO_MUNICIPAL_TOMADOR}",
        if Truthy(t.municipalRegistration) then f.mask(t.municipalRegistration, MunicipalRegistrationMask) else NotInformed),
      ("{LOGRADOURO_TOMADOR}", t.address),
      ("{NUMERO_ENDERECO_TOMADOR}", t.number),
      ("{BAIRRO_TOMADOR}", t.neighborhood),
      ("{CEP_TOMADOR}", f.mask(t.zipCode, ZipCodeMask)),
      ("{MUNICIPIO_TOMADOR}", t.city),
      ("{ESTADO_TOMADOR}", t.state),
      ("{TELEFONE_TOMADOR}", f.phoneMask(t.phone)),
      ("{EMAIL_TOMADOR}", t.email) ]
  }

  function ServicePairs(s: Service, f: Formatters): seq<(string, string)>
  {
    [ ("{DESCRIMINACAO}", s.description),
      ("{CODIGO_TRIBUTACAO_MUNICIPAL}", f.mask(s.municipalityTaxationCode, TaxationCodeMask)),
      ("{DESCRICAO_TRIBUTACAO_MUNICIPAL}", s.taxCodeDescription),
      ("{ITEM_LISTA_SERVICO}", s.itemList),
      ("{DESCRICAO_LISTA_SERVICO}", s.itemDescription),
      ("{CODIGO_MUNICIPIO_GERADOR}", s.municipalCode),
      ("{NOME_MUNICIPIO_GERADOR}", s.municipalName),
      ("{NATUREZA_OPERACAO}", Label(Operations, s.nature)),
      ("{REGIME_ESPECIAL_TRIBUTACAO}", SpecialTaxRegimeMarkup(s.specialTaxRegime)) ]
  }

  function AmountPairs(s: Service, f: Formatters): seq<(string, string)>
  {
    [ ("{VALOR_SERVICOS}", MoneyText(f, s.serviceValue)),
      ("{VALOR_DESCONTO_CONDICIONADO}", MoneyText(f, s.discountCondition)),
      ("{TOTAL_RETENCOES_FEDERAIS}", MoneyText(f, s.otherWithholdings)),
      ("{VALOR_ISS_RETIDO}", MoneyText(f, s.issValueWithheld)),
      ("{VALOR_LIQUIDO}", MoneyText(f, s.netValue)),
      ("{DEDUCOES}", MoneyText(f, s.valueDeductions)),
      ("{VALOR_DESCONTO_INCONDICIONADO}", MoneyText(f, s.unconditionedDiscount)),
      ("{BASE_CALCULO}", MoneyText(f, s.calculationBase)),
      ("{ALIQUOTA_SERVICOS}", f.number(s.aliquot * 100.0) + " % "),
      ("{VALOR_ISS}", MoneyText(f, s.issValue)),
      ("{VALOR_PIS}", MoneyText(f, s.valuePis)),
      ("{VALOR_COFINS}", MoneyText(f, s.valueConfis)),
      ("{VALOR_IR}", MoneyText(f, s.valueIR)),
      ("{VALOR_CSLL}", MoneyText(f, s.valueCSLL)),
      ("{VALOR_INSS}", MoneyText(f, s.valueINSS)),
      ("{OPTANTE_PELO_SIMPLES}", SimplesNacionalMarkup(s.simpleNational)) ]
  }

  /** Two tables list the same placeholders in the same order, and none of them is empty. */
  ghost predicate SameNonEmptyKeys(a: seq<(string, string)>, b: seq<(string, string)>)
  {
    |a| == |b| && forall i :: 0 <= i < |a| ==> a[i].0 == b[i].0 && a[i].0 != []
  }

  lemma SameNonEmptyKeysConcat(a1: seq<(string, string)>, a2: seq<(string, string)>,
                               b1: seq<(string, string)>, b2: seq<(string, string)>)
    requires SameNonEmptyKeys(a1, b1) && SameNonEmptyKeys(a2, b2)
    ensures SameNonEmptyKeys(a1 + a2, b1 + b2)
  {
    forall i | 0 <= i < |a1 + a2| ensures (a1 + a2)[i].0 == (b1 + b2)[i].0 && (a1 + a2)[i].0 != [] {
      if i >= |a1| {
        assert (a1 + a2)[i] == a2[i - |a1|] && (b1 + b2)[i] == b2[i - |a1|];
      }
    }
  }

  /** The table has 56 placeholders, none of them empty, and which placeholders it holds, and in
      which order, does not depend on the invoice, the logo, the formatters or the mode. */
  lemma PlaceholderKeysFixed(nfse: Nfse, logo64: string, f: Formatters, outputType: string,
                             nfse': Nfse, logo64': string, f': Formatters, outputType': string)
    ensures |Replacements(nfse, logo64, f, outputType)| == 56
    ensures Keys(Replacements(nfse, logo64, f, outputType)) == Keys(Replacements(nfse', logo64', f', outputType'))
    ensures forall i :: 0 <= i < 56 ==> Keys(Replacements(nfse, logo64, f, outputType))[i] != []
  {
    var css := [("/* {PRINT_CSS}*/", CssForOutputType(outputType))];
    var css' := [("/* {PRINT_CSS}*/", CssForOutputType(outputType'))];
    var h, h' := HeaderPairs(nfse, logo64), HeaderPairs(nfse', logo64');
    var p, p' := ProviderPairs(nfse.provider, f), ProviderPairs(nfse'.provider, f');
    var t, t' := TakerPairs(nfse.taker, f), TakerPairs(nfse'.taker, f');
    var v, v' := ServicePairs(nfse.service, f), ServicePairs(nfse'.service, f');
    var m, m' := AmountPairs(nfse.service, f), AmountPairs(nfse'.service, f');
    assert SameNonEmptyKeys(css, css');
    SectionKeysFixed(nfse, logo64, f, nfse', logo64', f');
    SameNonEmptyKeysConcat(css, h, css', h');
    SameNonEmptyKeysConcat(css + h, p, css' + h', p');
    SameNonEmptyKeysConcat(css + h + p, t, css' + h' + p', t');
    SameNonEmptyKeysConcat(css + h + p + t, v, css' + h' + p' + t', v');
    SameNonEmptyKeysConcat(css + h + p + t + v, m, css' + h' + p' + t' + v', m');
    var a := Replacements(nfse, logo64, f, outputType);
    var b := Replacements(nfse', logo64', f', outputType');
    assert a == css + h + p + t + v + m && b == css' + h' + p' + t' + v' + m';
    SameNonEmptyKeysGiveKeys(a, b);
  }

  lemma SectionKeysFixed(nfse: Nfse, logo64: string, f: Formatters, nfse': Nfse, logo64': string, f': Formatters)
    ensures SameNonEmptyKeys(HeaderPairs(nfse, logo64), HeaderPairs(nfse', logo64'))
    ensures SameNonEmptyKeys(ProviderPairs(nfse.provider, f), ProviderPairs(nfse'.provider, f'))
    ensures SameNonEmptyKeys(TakerPairs(nfse.taker, f), TakerPairs(nfse'.taker, f'))
    ensures SameNonEmptyKeys(ServicePairs(nfse.service, f), ServicePairs(nfse'.service, f'))
    ensures SameNonEmptyKeys(AmountPairs(nfse.service, f), AmountPairs(nfse'.service, f'))
  {
  }

  lemma SameNonEmptyKeysGiveKeys(a: seq<(string, string)>, b: seq<(string, string)>)
    requires SameNonEmptyKeys(a, b)
    ensures Keys(a) == Keys(b)
    ensures forall i :: 0 <= i < |a| ==> Keys(a)[i] != []
  {
  }

  /** `array_keys` and `array_values` of the placeholder table. */
  function Keys(pairs: seq<(string, string)>): seq<string>
  {
    seq(|pairs|, i requires 0 <= i < |pairs| => pairs[i].0)
  }

  function Values(pairs: seq<(string, string)>): seq<string>
  {
    seq(|pairs|, i requires 0 <= i < |pairs| => pairs[i].1)
  }

  /** Passing the keys and the values as two parallel arrays pairs them up again. */
  lemma ZipKeysValues(pairs: seq<(string, string)>)
    ensures ZipReplacements(Keys(pairs), Values(pairs)) == pairs
  {
    var z := ZipReplacements(Keys(pairs), Values(pairs));
    assert |z| == |pairs|;
    forall i | 0 <= i < |pairs| ensures z[i] == pairs[i] {
    }
  }

  /** The taker's document is masked as a CNPJ when it is longer than 11 characters and as a CPF
      otherwise; an absent municipal registration reads "Não Informado". */
  lemma TakerFieldsRendering(nfse: Nfse, logo64: string, f: Formatters, outputType: string)
    ensures var doc := nfse.taker.document;
      ("{CPF_CNPJ_TOMADOR}", f.mask(doc, if |doc| > 11 then CnpjMask else CpfMask))
        in Replacements(nfse, logo64, f, outputType)
    ensures var reg := nfse.taker.municipalRegistration;
      ("{INSCRICAO_MUNICIPAL_TOMADOR}", if IsEmpty(reg) then NotInformed else f.mask(reg, MunicipalRegistrationMask))
        in Replacements(nfse, logo64, f, outputType)
  {
    var pairs := TakerPairs(nfse.taker, f);
    assert pairs[1].0 == "{CPF_CNPJ_TOMADOR}";
    assert pairs[2].0 == "{INSCRICAO_MUNICIPAL_TOMADOR}";
  }

  /** The optional blocks and the stylesheet are the values of their placeholders. */
  lemma OptionalBlocksInTable(nfse: Nfse, logo64: string, f: Formatters, outputType: string)
    ensures Replacements(nfse, logo64, f, outputType)[0] == ("/* {PRINT_CSS}*/", CssForOutputType(outputType))
    ensures ("{NFE_SUBSTITUIDA}", ReplacedNfseMarkup(nfse.nfseNumberReplaced)) in Replacements(nfse, logo64, f, outputType)
    ensures ("{REGIME_ESPECIAL_TRIBUTACAO}", SpecialTaxRegimeMarkup(nfse.service.specialTaxRegime))
      in Replacements(nfse, logo64, f, outputType)
    ensures ("{OPTANTE_PELO_SIMPLES}", SimplesNacionalMarkup(nfse.service.simpleNational))
      in Replacements(nfse, logo64, f, outputType)
  {
    assert HeaderPairs(nfse, logo64)[7].0 == "{NFE_SUBSTITUIDA}";
    assert ServicePairs(nfse.service, f)[8].0 == "{REGIME_ESPECIAL_TRIBUTACAO}";
    assert AmountPairs(nfse.service, f)[15].0 == "{OPTANTE_PELO_SIMPLES}";
  }

  /** `addCancellationMark`: a cancelled invoice gets the CANCELADA div before every `</body>`;
      the text between the `</body>` tags is kept exactly; an invoice that is not cancelled is
      left unchanged. */
  function CancellationMarked(html: string, cancellationCode: string): (marked: string)
    ensures !Truthy(cancellationCode) ==> marked == html
    ensures Truthy(cancellationCode) ==>
      var pieces := Split(html, BodyClose);
      && html == Join(pieces, BodyClose)
      && marked == Join(pieces, CanceladaDiv + BodyClose)
      && forall i :: 0 <= i < |pieces| ==> !Contains(pieces[i], BodyClose)
    ensures Truthy(cancellationCode) && Contains(html, BodyClose) ==> Contains(marked, CanceladaDiv + BodyClose)
  {
    if Truthy(cancellationCode) then
      assert Contains(html, BodyClose) ==>
        Contains(ReplaceAll(html, BodyClose, CanceladaDiv + BodyClose), CanceladaDiv + BodyClose) by {
        if Contains(html, BodyClose) {
          ReplaceAllInsertsReplacement(html, BodyClose, CanceladaDiv + BodyClose);
        }
      }
      JoinSplit(html, BodyClose);
      SplitPiecesAvoidSeparator(html, BodyClose);
      ReplaceAllIsJoinOfSplit(html, BodyClose, CanceladaDiv + BodyClose);
      ReplaceAll(html, BodyClose, CanceladaDiv + BodyClose)
    else
      html
  }

  /** The HTML `generateHtml` produces from a template: placeholders first, then the mark. */
  function RenderHtml(nfse: Nfse, logo64: string, f: Formatters, outputType: string, template: string): (html: string)
    ensures var filled := ReplacePairs(Replacements(nfse, logo64, f, outputType), template);
      && (!Truthy(nfse.cancellationCode) ==> html == filled)
      && (Truthy(nfse.cancellationCode) && Contains(filled, BodyClose) ==> Contains(html, CanceladaDiv + BodyClose))
  {
    CancellationMarked(ReplacePairs(Replacements(nfse, logo64, f, outputType), template), nfse.cancellationCode)
  }

  /** A template that holds none of the placeholders, for an invoice that is not cancelled,
      is rendered as it is. */
  lemma PlainTemplateRendersUnchanged(nfse: Nfse, logo64: string, f: Formatters, outputType: string, template: string)
    requires forall i :: 0 <= i < |Replacements(nfse, logo64, f, outputType)| ==>
      !Contains(template, Replacements(nfse, logo64, f, outputType)[i].0)
    requires !Truthy(nfse.cancellationCode)
    ensures RenderHtml(nfse, logo64, f, outputType, template) == template
  {
    ReplacePairsWithoutKeys(Replacements(nfse, logo64, f, outputType), template);
  }

  /** `generatePdf`: the engine's bytes, or its exception wrapped in a new message. */
  function PdfOutput(engine: PdfEngine, html: string, outputType: string, watermark: bool): (r: PrintOutcome)
    ensures !r.InvalidArgument?
    ensures r.Rendered? <==> engine(html, outputType, watermark).Ok?
    ensures r.Rendered? ==> r.content == engine(html, outputType, watermark).value
    ensures r.Failure? ==> r.message == PdfFailureMessage + engine(html, outputType, watermark).message
  {
    match engine(html, outputType, watermark)
    case Ok(bytes) => Rendered(bytes)
    case Thrown(m) => Failure(PdfFailureMessage + m)
  }

  /** The printer object: the invoice and logo it was built with, and the HTML it works on. */
  class NfsePrinter {
    const nfse: Nfse
    const logo64: string
    const format: Formatters
    var html: string
    /** How many times the PDF engine has been run. */
    ghost var pdfRuns: nat

    constructor (nfse: Nfse, logo64: string, format: Formatters)
      ensures this.nfse == nfse && this.logo64 == logo64 && this.format == format
      ensures html == "" && pdfRuns == 0
    {
      this.nfse := nfse;
      this.logo64 := logo64;
      this.format := format;
      html := "";
      pdfRuns := 0;
    }

    /** `getPDF`: an invalid mode is refused before any HTML is built; mode 'I' returns the HTML
        and never runs the PDF engine; 'D' and 'P' return what the engine makes of that HTML. */
    method GetPdf(outputType: string, template: string, engine: PdfEngine) returns (r: PrintOutcome)
      modifies this
      ensures ValidateOutputType(outputType).Some? ==>
        && r == InvalidArgument(ValidateOutputType(outputType).value)
        && html == old(html) && pdfRuns == old(pdfRuns)
      ensures ValidateOutputType(outputType).None? ==>
        html == RenderHtml(nfse, logo64, format, outputType, template)
      ensures outputType == "I" ==> r == Rendered(html) && pdfRuns == old(pdfRuns)
      ensures outputType == "D" || outputType == "P" ==>
        && r == PdfOutput(engine, html, outputType, Truthy(nfse.cancellationCode))
        && pdfRuns == old(pdfRuns) + 1
    {
      var error := ValidateOutputType(outputType);
      if error.Some? {
        return InvalidArgument(error.value);
      }
      var h := GenerateHtml(outputType, template);
      if outputType == "I" {
        return Rendered(h);
      }
      r := GeneratePdf(h, outputType, engine);
    }

    /** `generateHtml`; the template text is what `file_get_contents` would read. */
    method GenerateHtml(outputType: string, template: string) returns (h: string)
      modifies this`html
      ensures h == html == RenderHtml(nfse, logo64, format, outputType, template)
    {
      html := template;
      ReplacePlaceholders(outputType);
      AddCancellationMark();
      h := html;
    }

    /** `replacePlaceholders`: one `str_replace` call with the keys and the values of the table. */
    method ReplacePlaceholders(outputType: string)
      modifies this`html
      ensures html == ReplacePairs(Replacements(nfse, logo64, format, outputType), old(html))
    {
      var pairs := Replacements(nfse, logo64, format, outputType);
      ZipKeysValues(pairs);
      html := StrReplace(Keys(pairs), Values(pairs), html);
    }

    /** `addCancellationMark`. */
    method AddCancellationMark()
      modifies this`html
      ensures html == CancellationMarked(old(html), nfse.cancellationCode)
    {
      if Truthy(nfse.cancellationCode) {
        html := ReplaceAll(html, BodyClose, CanceladaDiv + BodyClose);
      }
    }

    /** `generatePdf`: the watermark is switched on for a cancelled invoice. */
    method GeneratePdf(h: string, outputType: string, engine: PdfEngine) returns (r: PrintOutcome)
      modifies this`pdfRuns
      ensures pdfRuns == old(pdfRuns) + 1
      ensures r == PdfOutput(engine, h, outputType, Truthy(nfse.cancellationCode))
    {
      pdfRuns := pdfRuns + 1;
      r := PdfOutput(engine, h, outputType, Truthy(nfse.cancellationCode));
    }
  }
}
