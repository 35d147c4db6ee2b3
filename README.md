# NFS-e print rendering and RPS submission, modelled in Dafny

This project models two services of an SDK for Belo Horizonte's NFS-e (municipal electronic
service invoice) web service:

- **`PrintPDFNFse`** renders an issued invoice. It validates the output mode (`I`, `D` or `P`),
  fills an HTML template with `str_replace` and a table of placeholder/value pairs, inserts the
  optional blocks (replaced-invoice number, special tax regime, Simples Nacional notice), picks a
  stylesheet by mode and puts a CANCELADA mark before every `</body>` of a cancelled invoice.
  Mode `I` returns the HTML. `D` and `P` hand the HTML to the PDF engine.
- **`RpsToNFse`** converts one RPS (provisional service receipt) into an NFS-e. It builds and
  signs the RPS, places it in a one-entry lot envelope, signs the lot on `LoteRps` and sends it
  with a SOAP call. The parsed answer, or any exception raised on the way, becomes one uniform
  result: accepted with the response, rejected with the authority's messages, or failed with
  the exception's message.

Files:

- `outcomes.dfy` (module `Outcomes`): `Option`, and `Outcome` (a value or a thrown message).
- `php_string.dfy` (module `PhpString`): PHP's `str_replace` for one search string (`ReplaceAll`)
  and for search/replace arrays (`ReplacePairs`, `StrReplace`). Also `explode`/`implode`
  (`Split`/`Join`) as an independent description of replace-all, and PHP string truthiness.
- `nfse_print.dfy` (module `NfsePrint`): the invoice record, the lookup tables, the pure helpers
  of the printer, and the class `NfsePrinter` whose methods overwrite its `html` field in turn.
- `rps_to_nfse.dfy` (module `RpsSubmission`): the pipeline as functions (`SignedLot`, `Transmit`,
  `Classify`, `Generate`), with lemmas about it. It also holds the classes `Soap`, `Subscriber`
  and `RpsToNfseService`, whose `GenerateFromLot` runs the steps one by one.

Collaborators whose code is not part of this model are parameters. In the printer these are
`Utils::mask`, `Utils::addPhoneMask`, `Utils::formatRealMoney`, PHP's float-to-text conversion
and the Mpdf engine. In the submission service they are the RPS builder, the XML template, the
XML filter, the signer, the SOAP transport, the XML parser and `ErrorMsg`. Each of the ones
called inside the `try` block either yields a value or throws; the parser yields a document or
PHP's `false`.

Two behaviours of `generateFromLot` worth knowing:

- An unparsable answer makes `simplexml_load_string` return `false`; `isset` on it is false, so
  the code reports `success = true` with `response = false`. The model gives `Accepted(None)`; it
  is not a separate error.
- Rejected messages are whatever `ErrorMsg::getMessages` returns, and an exception raised while
  reading them is caught like any other.

## Model

| member | source | states |
|---|---|---|
| `PhpString.ReplaceAll` | src/Service/PrintPDFNFse.php:403-407 | `str_replace` with one search string. An empty search string, or a subject without an occurrence of it, gives back the subject unchanged |
| `PhpString.ReplaceAllIsJoinOfSplit` | src/Service/PrintPDFNFse.php:403-407 | replace-all equals implode-with-the-replacement of explode-at-the-key: the text between the occurrences is kept, and each occurrence becomes the replacement |
| `PhpString.JoinSplit` | src/Service/PrintPDFNFse.php:403-407 | exploding at the key and imploding with the key gives back the original, so the pieces plus the key make up the whole string |
| `PhpString.SplitPiecesAvoidSeparator` | src/Service/PrintPDFNFse.php:403-407 | no piece between two cuts contains the key, so no occurrence is left that does not overlap a replaced one |
| `PhpString.SplitWithoutKey` | src/Service/PrintPDFNFse.php:403-407 | a string without an occurrence of the key explodes into itself alone |
| `PhpString.SplitAtFirstOccurrence` | src/Service/PrintPDFNFse.php:403-407 | explode cuts at the leftmost occurrence: the first piece is the text before it and the rest is the explode of what follows it. With `SplitWithoutKey` this fixes every piece, for keys that overlap themselves too |
| `PhpString.ReplaceAllAtFirstOccurrence` | src/Service/PrintPDFNFse.php:403-407 | replace-all rewrites the leftmost occurrence and carries on after it, so it replaces every leftmost non-overlapping occurrence |
| `PhpString.ReplaceAllSkipsOverlap` | src/Service/PrintPDFNFse.php:403-407 | an occurrence overlapping a replaced one is not replaced: `aa` in `aaa` gives `Xa` |
| `PhpString.ReplaceAllInsertsReplacement` | src/Service/PrintPDFNFse.php:403-407 | when the key occurs in the subject, the result contains the replacement |
| `PhpString.Truthy` | src/Service/PrintPDFNFse.php:382 | PHP truthiness of a string, as in `if ($this->nfse->cancellationCode)`: false only for `""` and `"0"` |
| `PhpString.IsEmpty` | src/Service/PrintPDFNFse.php:215 | PHP's `empty()` on a string: the negation of truthiness |
| `PhpString.ReplacePairs` | src/Service/PrintPDFNFse.php:200-204 | `str_replace` with arrays as a fold: each pair, in array order, replaces its key in the whole current string |
| `PhpString.ZipReplacements` | src/Service/PrintPDFNFse.php:200-204 | pairs `$search[i]` with `$replace[i]`, and with `""` when the replace array is shorter |
| `PhpString.StrReplace` | src/Service/PrintPDFNFse.php:200-204 | `str_replace` with parallel arrays: a loop over the pairs in array order. Each step replaces one key in the whole current string. A missing replacement counts as the empty string. Result = the ordered fold `ReplacePairs` |
| `PhpString.ReplacePairsWithoutKeys` | src/Service/PrintPDFNFse.php:200-204 | a subject that contains none of the keys is returned unchanged |
| `PhpString.ReplacePairsConcat` | src/Service/PrintPDFNFse.php:200-204 | the pairs act in order: a prefix of the table is applied in full before the rest of it |
| `PhpString.LaterKeyRewritesEarlierValue` | src/Service/PrintPDFNFse.php:200-204 | a later key also matches text that an earlier pair inserted |
| `NfsePrint.Label` | src/Service/PrintPDFNFse.php:178 | a PHP array lookup by code; a missing code reads as null, printed as `""` |
| `NfsePrint.CodeTables` | src/Service/PrintPDFNFse.php:16-32 | the operation and regime tables hold exactly the codes 1 to 6; any other code prints as `""` |
| `NfsePrint.ValidateOutputType` | src/Service/PrintPDFNFse.php:420-425 | accepted iff the mode is `I`, `D` or `P`. Otherwise the message is `Tipo de saída inválido: ` followed by the mode |
| `NfsePrint.CssForOutputType` | src/Service/PrintPDFNFse.php:253-362 | the large-font stylesheet iff the mode is `I`, and the compact one for every other mode |
| `NfsePrint.ReplacedNfseMarkup` | src/Service/PrintPDFNFse.php:213-242 | empty iff the replaced number is PHP-empty. Otherwise the block shows the number with a `/` after its first four characters (or after all of them when it is shorter), and removing that `/` gives back the number |
| `NfsePrint.SpecialTaxRegimeMarkup` | src/Service/PrintPDFNFse.php:95-113 | empty iff no regime code is set. Otherwise the block holds the label that the regime table gives for the code |
| `NfsePrint.SimplesNacionalMarkup` | src/Service/PrintPDFNFse.php:115-125 | non-empty iff the provider opts into Simples Nacional |
| `NfsePrint.MoneyText` | src/Service/PrintPDFNFse.php:183-197 | a nullable amount is formatted by the money formatter, with null as 0 |
| `NfsePrint.Replacements` | src/Service/PrintPDFNFse.php:127-198 | the placeholder table in the order of the PHP array: stylesheet, header, provider, taker, service and amount sections |
| `NfsePrint.PlaceholderKeysFixed` | src/Service/PrintPDFNFse.php:127-198 | the table has 56 placeholders, none empty, and which ones and in which order does not depend on the invoice, the logo, the formatters or the mode |
| `NfsePrint.ZipKeysValues` | src/Service/PrintPDFNFse.php:200-202 | passing `array_keys` and `array_values` of the table pairs each key with its own value again |
| `NfsePrint.TakerFieldsRendering` | src/Service/PrintPDFNFse.php:156-160 | the taker's document gets the CNPJ mask when it is longer than 11 characters and the CPF mask otherwise. An empty municipal registration renders as `Não Informado` |
| `NfsePrint.OptionalBlocksInTable` | src/Service/PrintPDFNFse.php:127-198 | the stylesheet is the first pair. The replaced-number, special-regime and Simples Nacional blocks are the values of their placeholders |
| `NfsePrint.CancellationMarked` | src/Service/PrintPDFNFse.php:400-409 | unchanged when the cancellation code is falsy. Otherwise the HTML is exploded at `</body>`: its pieces hold no `</body>`, joining them with `</body>` gives the input, and the result joins the same pieces with the CANCELADA div followed by `</body>`. A cancelled HTML that has a `</body>` comes out carrying the mark |
| `NfsePrint.RenderHtml` | src/Service/PrintPDFNFse.php:75-84 | the filled template is the result when the invoice is not cancelled; when it is cancelled and the filled template has a `</body>`, the result carries the CANCELADA mark |
| `NfsePrint.PdfOutput` | src/Service/PrintPDFNFse.php:373-392 | the engine's output when it succeeds, otherwise a failure whose message is `Falha ao gerar PDF: ` followed by the engine's message; never an invalid-argument result |
| `NfsePrint.PlainTemplateRendersUnchanged` | src/Service/PrintPDFNFse.php:75-84 | a template without any placeholder, for an invoice that is not cancelled, is rendered as it is |
| `NfsePrint.NfsePrinter.constructor` | src/Service/PrintPDFNFse.php:39-43 | keeps the invoice and the logo. No HTML yet, and no PDF produced |
| `NfsePrint.NfsePrinter.GetPdf` | src/Service/PrintPDFNFse.php:54-65 | an invalid mode gives `InvalidArgument` before any HTML is built, and the engine is not run. `I` returns exactly the generated HTML and never runs the engine. `D` and `P` return the engine's output for that HTML, after one engine run |
| `NfsePrint.NfsePrinter.GenerateHtml` | src/Service/PrintPDFNFse.php:75-84 | the HTML is the template with placeholders replaced first and the cancellation mark added afterwards |
| `NfsePrint.NfsePrinter.ReplacePlaceholders` | src/Service/PrintPDFNFse.php:93-205 | the new HTML is the ordered fold of the placeholder table over the old HTML |
| `NfsePrint.NfsePrinter.AddCancellationMark` | src/Service/PrintPDFNFse.php:400-409 | the new HTML is `CancellationMarked` of the old one |
| `NfsePrint.NfsePrinter.GeneratePdf` | src/Service/PrintPDFNFse.php:373-392 | runs the engine once, with the watermark on iff the invoice is cancelled. An engine exception becomes `Falha ao gerar PDF: ` followed by its message |
| `RpsSubmission.RpsId` | src/Service/RpsToNFse.php:38 | the RPS element id is `rps:` followed by the RPS number, and the number can be read back from it |
| `RpsSubmission.EnvelopeFor` | src/Service/RpsToNFse.php:46-53 | the values set on the lot template (partner: `EnvelopeShape`) |
| `RpsSubmission.EnvelopeShape` | src/Service/RpsToNFse.php:46-53 | the envelope always sets `quantidadeRps` to `1`. Both lot ids are `rpsLot`, the CNPJ and municipal registration are the issuer's, and lots with the same id give the same envelope |
| `RpsSubmission.SignedLot` | src/Service/RpsToNFse.php:37-55 | build and sign the RPS, save the envelope, filter it and sign it on `LoteRps`, stopping at the first exception (partner: `SigningPrecedesTransport`) |
| `RpsSubmission.Transmit` | src/Service/RpsToNFse.php:56-57 | the signed lot sent with the SOAP call, or the first exception (partner: `SigningPrecedesTransport`) |
| `RpsSubmission.Generate` | src/Service/RpsToNFse.php:35-78 | `generateFromLot` as a function of the collaborators' outcomes (partners: `ExceptionIsCaught`, `RejectionComesFromAuthority`, `SuccessCarriesResponse`) |
| `RpsSubmission.SigningPrecedesTransport` | src/Service/RpsToNFse.php:38-57 | the signed RPS built with id `rps:<number>` is put in the envelope. The envelope, once the XML filter has passed it, is signed on `LoteRps`, and only that signed lot goes to the SOAP call. Any earlier exception means there is no call |
| `RpsSubmission.Classify` | src/Service/RpsToNFse.php:58-71 | a message list in the parsed answer gives rejection with the extracted messages. Anything else (an unparsable answer too) gives success carrying the parsed answer unmodified |
| `RpsSubmission.ExceptionIsCaught` | src/Service/RpsToNFse.php:72-77 | an exception at any stage gives `success = false` with a one-element list holding its message. A failure always carries exactly one message |
| `RpsSubmission.RejectionComesFromAuthority` | src/Service/RpsToNFse.php:60-66 | rejected iff the SOAP call answered with a message list whose messages could be read, and it carries those messages in order |
| `RpsSubmission.SuccessCarriesResponse` | src/Service/RpsToNFse.php:68-71 | success iff the SOAP call answered without a message list, carrying the parsed answer unmodified |
| `RpsSubmission.Soap.constructor` | src/Service/RpsToNFse.php:26 | the SOAP client is bound to its operation and has sent nothing |
| `RpsSubmission.Soap.SetXml` | src/Service/RpsToNFse.php:56 | sets the payload to send |
| `RpsSubmission.Soap.Call` | src/Service/RpsToNFse.php:57 | sends the current payload once, for the client's operation, and records it |
| `RpsSubmission.Subscriber.constructor` | src/Service/RpsToNFse.php:23 | a signer with no bundle loaded yet |
| `RpsSubmission.Subscriber.LoadPfx` | src/Service/RpsToNFse.php:24 | loads the bundle named by the settings, once more, and keeps it when loading succeeds |
| `RpsSubmission.Subscriber.Sign` | src/Service/RpsToNFse.php:55 | signs the given XML on the given target with the loaded bundle |
| `RpsSubmission.RpsToNfseService.constructor` | src/Service/RpsToNFse.php:20-27 | assembles a service whose bundle was loaded exactly once and whose SOAP client targets `GerarNfseRequest` |
| `RpsSubmission.Open` | src/Service/RpsToNFse.php:20-27 | the bundle is loaded before the SOAP client exists. A load failure propagates its message, and no service (so no SOAP client) is made. On success the service is valid and has sent nothing |
| `RpsSubmission.RpsToNfseService.GenerateFromLot` | src/Service/RpsToNFse.php:35-78 | never throws, and its result is `Generate` over the collaborators' outcomes. The signed lot is set as the client's payload and sent exactly when building, enveloping, filtering and signing succeeded; otherwise the payload and the sent list are unchanged. The bundle is not loaded again |

## Left out

- Reading the template file: the template text is an input of `GenerateHtml` and `GetPdf`.
- Mpdf (construction options, watermark text, `WriteHTML`, `Output`): a parameter `PdfEngine` from HTML, mode and watermark flag to bytes or an exception.
- `Utils::mask`, `Utils::addPhoneMask`, `Utils::formatRealMoney` and PHP's float-to-string conversion (used for `aliquot * 100`): given functions in `Formatters`. Money amounts are `real`, and null amounts print as 0.
- The literal contents of the two stylesheets and of the HTML blocks are shortened constants. Only which one is chosen, and where the record's values go, is modelled.
- Record values that PHP converts to strings when it interpolates them (year, number and so on) are strings here. Regime and nature codes are integers, with 0 standing for an empty regime code. A code missing from a table prints as the empty string, as PHP's null does.
- `strlen` and `substr` count bytes in PHP. Here the taker document's length (`strlen`) and the cut of the replaced-invoice number after its first four characters (`substr($n, 0, 4)` and `substr($n, 4)`) count characters. Both agree for the digit strings these fields hold; a number with multi-byte characters in its first four would be cut elsewhere by PHP.
- The `Rps` builder and its setters, `Subscriber` signing and PFX loading, `XML::load/set/append/save`, `Utils::xmlFilter`, `Soap`, `simplexml_load_string` and `ErrorMsg`: only their outcomes are modelled (`Collaborators` and the loader parameter of `Open`). The XML they produce and the signatures are opaque strings.
- `new Subscriber($settings)` and `new Soap($settings, 'GerarNfseRequest')` are assumed not to throw: their constructors are not part of this model. Only `loadPFX` can make the service's constructor fail.
- PHP `Error`s (as opposed to `Exception`s) escape `catch (Exception $e)` in the source. The model's collaborators only raise exceptions.
- `RpsSubmission.Subscriber.Sign` requires a loaded bundle: the service invariant guarantees one, and the behaviour of the signer without a bundle is not part of this model.
