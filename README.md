# Label code generation and TSPL preview, modelled in Dafny

This project models the core of a label-printing service in Dafny.

- **Label configurations** (`backend/src/Models/LabelConfig.js`). A base name such as `PA00001` is split by the regular expression `^(.+?)(\d+)$` into a prefix and a digit group. The `pattern` virtual reports that split. `generateCodes` produces `quantity` codes: the prefix, then the start number plus `i`, zero-padded to the width of the digit group.
- **Generated labels** (`backend/src/Models/TableModel.js`). These are the schema defaults and the two enums. `markAsPrinted` updates a loaded document in place. The collection has a unique index on `code`, and `codeExists` queries it.
- **The configuration routes** (`backend/src/Routes/TableRoute.js`). `POST /` validates a new configuration and fills in its defaults. `GET /` turns `isTemplate` into a query filter. `POST /:id/generate` generates the codes and, when asked, inserts one label per code with an unordered `insertMany` that ignores duplicate-key errors (code 11000).
- **The TSPL preview** (`frontend/src/TSPLConverter.jsx`, `parseTSPL`). TSPL printer commands become the drawable elements of a label preview:
  - the text is cut into lines, then the lines into tokens;
  - the upper-cased first token picks the command;
  - TEXT, BARCODE, QRCODE, BOX and REVERSE each draw one element;
  - SIZE sets the label size;
  - every other line is ignored.

Modules:

- `Wrappers` holds `Option` and `Result`.
- `JsString` models JavaScript `trim` with the full JavaScript whitespace set, and `toUpperCase`.
- `Decimal` models digit strings, `String(n)`, `padStart` and `parseInt`, including the `0x` prefix and NaN.
- `LabelConfigModel`, `TableModel` and `TableRoute` model the backend.
- `TsplText` models line splitting, the `/[\s,]+/` tokenizer and the quoted payload `line.match(/"([^"]*)"/g)?.pop()?.replace(/"/g, "") || ""`.
- `TsplConverter` models `parseTSPL` itself.
- `TsplSample` holds the TSPL program the preview starts with and proves what it parses into.

How each part is modelled:

- A configuration is a value: the route only changes its `lastUsed` field, and returns the updated value.
- A loaded label is a class, because `markAsPrinted` assigns its fields.
- The label collection is a class whose `rows` sequence `InsertMany` extends.
- `parseTSPL` is a method with a loop over the lines. It is proved equal to a fold over the lines (`ParseLines`), and the properties of the preview are proved about that fold.
- The clock (`new Date()`, `Date.now`) and document ids are parameters.
- The database is the `LabelTable` class.

`generateCodes` checks the base name before it loops. An invalid base name therefore fails even when the quantity is 0, and the model keeps that order.

## Model

| member | source | states |
|---|---|---|
| LabelConfigModel.ParseCodeType | backend/src/Models/LabelConfig.js:26-31 | a code type string passes the enum check only as the name of the type it yields |
| LabelConfigModel.CodeTypeRoundTrip | backend/src/Models/LabelConfig.js:26-31 | each code type's name parses back to it, and exactly the strings other than "barcode", "qrcode" and "datamatrix" are rejected |
| LabelConfigModel.TrailingDigits | backend/src/Models/LabelConfig.js:79 | the count is the length of the maximal run of ASCII digits that ends the string |
| LabelConfigModel.MatchBaseName | backend/src/Models/LabelConfig.js:79 | a successful match's second group consists of digits only |
| LabelConfigModel.MatchBaseNameSplits | backend/src/Models/LabelConfig.js:79 | a match's prefix and digit group concatenate to the base name; the prefix is non-empty and has no line terminator, and the digit group is non-empty and all digits |
| LabelConfigModel.MatchBaseNameIsLeastSplit | backend/src/Models/LabelConfig.js:79 | the regular expression matches exactly when some admissible split exists, and the lazy `.+?` takes the shortest admissible prefix |
| LabelConfigModel.AdmissibleSplitMatches | backend/src/Models/LabelConfig.js:79 | any admissible split makes the match succeed with a prefix no longer than that split's |
| LabelConfigModel.Pattern | backend/src/Models/LabelConfig.js:65-74 | the virtual is null exactly when no admissible split exists; otherwise it reports the shortest admissible prefix of the base name, which is the lazy `.+?` split, and the length of the rest as `numberLength` |
| LabelConfigModel.PatternDescribesCodes | backend/src/Models/LabelConfig.js:65-96 | the virtual is null exactly when `generateCodes` rejects the base name; otherwise its prefix and `numberLength` are those the generator uses: the rest of the base name is that many digits, and code `i` is the prefix followed by their value plus `i`, padded to `numberLength` |
| LabelConfigModel.GenerateCodes | backend/src/Models/LabelConfig.js:77-96 | throws "Invalid base name format" exactly when the base name does not match; otherwise returns max(quantity, 0) codes, and code `i` is the prefix followed by start + i padded with zeros to the digit group's width |
| LabelConfigModel.CodeAtShape | backend/src/Models/LabelConfig.js:85-92 | code `i` starts with the prefix, and the rest is digits whose value is start + i; its width is the larger of the digit group's width and the number's own width |
| LabelConfigModel.CodeAtEndsWithNumber | backend/src/Models/LabelConfig.js:90-92 | code `i` ends with the decimal form of start + i |
| LabelConfigModel.FirstCodeIsBaseName | backend/src/Models/LabelConfig.js:85-92 | the first generated code is the base name itself |
| LabelConfigModel.CodesIncreaseAndDiffer | backend/src/Models/LabelConfig.js:89-93 | later codes carry strictly larger numbers, so no two generated codes are equal |
| LabelConfigModel.WidthGrowsPastDigitGroup | backend/src/Models/LabelConfig.js:91 | "X99" generates "X99", then "X100": padding never truncates |
| LabelConfigModel.AllDigitBaseNames | backend/src/Models/LabelConfig.js:79-83 | "00123" splits as "0" + "0123"; "5", a name without digits and a name with a newline in its prefix do not match |
| Decimal.ToDecimal | backend/src/Models/LabelConfig.js:91 | `String(n)` of a non-negative integer is non-empty, all digits, and starts with 0 only for 0 |
| Decimal.ValueOfToDecimal | backend/src/Models/LabelConfig.js:86-91 | reading back the decimal form of `n` gives `n` |
| Decimal.ToDecimalOfValue | backend/src/Models/LabelConfig.js:86-91 | a canonical digit string is the decimal form of its own value |
| Decimal.PadStart | backend/src/Models/LabelConfig.js:91 | `padStart(width, "0")` has length max(length, width) and adds only zeros in front |
| Decimal.PadStartTail | backend/src/Models/LabelConfig.js:91 | the padded string ends with the original string |
| Decimal.PaddedDecimal | backend/src/Models/LabelConfig.js:91 | the padded decimal form of `n` is all digits, has the stated width and still has value `n` |
| Decimal.PadStartRestoresDigits | backend/src/Models/LabelConfig.js:86-91 | parsing a digit group and padding it back to its width restores it, leading zeros included |
| Decimal.ParseUnsigned | frontend/src/TSPLConverter.jsx:44 | without a hex prefix, there is no number exactly when the text is empty or does not start with a digit |
| Decimal.ParseInt | frontend/src/TSPLConverter.jsx:44 | `parseInt(undefined)` is NaN |
| Decimal.ParseIntOfIntToString | frontend/src/TSPLConverter.jsx:44 | `parseInt` reads back `String(n)` of any integer, negative ones included, followed by anything that ends the digit run |
| Decimal.ParseIntOfDigits | backend/src/Routes/TableRoute.js:21 | `parseInt` of a digit group is its decimal value, leading zeros included |
| Decimal.ParseIntUnsigned | frontend/src/TSPLConverter.jsx:44 | a text that starts with a digit parses to its unsigned reading |
| Decimal.ParseIntNegative | frontend/src/TSPLConverter.jsx:44 | a minus sign before such a text negates its reading |
| JsString.Trim | backend/src/Models/LabelConfig.js:10-14 | the result neither starts nor ends with JavaScript whitespace or a line terminator |
| JsString.TrimDropsOnlySpaces | backend/src/Models/LabelConfig.js:10-14 | trimming returns a contiguous slice, and everything cut off on either side is whitespace |
| JsString.TrimFixedPoint | frontend/src/TSPLConverter.jsx:22 | a string is unchanged by trimming exactly when it is already trimmed |
| JsString.TrimIdempotent | backend/src/Models/LabelConfig.js:10-14 | trimming twice is trimming once |
| JsString.Upper | frontend/src/TSPLConverter.jsx:30 | `toUpperCase` keeps the length and maps each character through the upper-case table |
| JsString.UpperFixed | frontend/src/TSPLConverter.jsx:30 | text without lower-case letters is unchanged by `toUpperCase` |
| TsplText.SplitLines | frontend/src/TSPLConverter.jsx:21 | `split("\n")` yields at least one piece, and no piece contains a newline |
| TsplText.SplitJoinLines | frontend/src/TSPLConverter.jsx:21 | splitting lines joined with "\n" gives back the lines |
| TsplText.JoinSplitLines | frontend/src/TSPLConverter.jsx:21 | joining the pieces of a split with "\n" gives back the text |
| TsplText.KeepTrimmed | frontend/src/TSPLConverter.jsx:22-23 | at most one line per piece is kept, and every kept line is trimmed and non-empty |
| TsplText.KeepTrimmedAppend | frontend/src/TSPLConverter.jsx:22-23 | trimming and filtering work piecewise over concatenation, so line order is kept |
| TsplText.LinesOfJoin | frontend/src/TSPLConverter.jsx:20-23 | lines that are already trimmed, non-blank and newline-free come back unchanged from joining and re-splitting |
| TsplText.BlankLineIgnored | frontend/src/TSPLConverter.jsx:20-23 | inserting a blank or whitespace-only line leaves the list of lines unchanged |
| TsplText.FieldLen | frontend/src/TSPLConverter.jsx:29 | the first token runs up to the first whitespace or comma |
| TsplText.Tokens | frontend/src/TSPLConverter.jsx:29 | `split(/[\s,]+/)` always yields at least one token |
| TsplText.TokensOfField | frontend/src/TSPLConverter.jsx:29 | text without separators is a single token |
| TsplText.TokensPrefix | frontend/src/TSPLConverter.jsx:29 | separator-free text put in front of a line joins its first token and leaves the other tokens alone |
| TsplText.TokensSep | frontend/src/TSPLConverter.jsx:29 | a field, a run of whitespace and commas, then text that starts with neither: the run is one delimiter, and the field is its own token in front of the tokens of the rest |
| TsplText.TokensCons | frontend/src/TSPLConverter.jsx:29 | a field, then one separator, then more text: the field becomes its own token in front of the tokens of the rest |
| TsplText.TokensOfJoinFields | frontend/src/TSPLConverter.jsx:29 | comma-joined non-empty separator-free fields come back as exactly those tokens, followed by the tokens of the tail |
| TsplText.QuoteAt | frontend/src/TSPLConverter.jsx:52 | the index is in range and holds a double quote, or equals the length |
| TsplText.QuoteAtFirst | frontend/src/TSPLConverter.jsx:52 | no double quote comes before the index: it is the first one |
| TsplText.QuotedRunsNoQuote | frontend/src/TSPLConverter.jsx:52 | no match of `/"([^"]*)"/g` contains a quote once its enclosing quotes are removed |
| TsplText.PayloadNoQuote | frontend/src/TSPLConverter.jsx:50-54 | the payload of a line contains no double quote |
| TsplText.QuotedRunsAppend | frontend/src/TSPLConverter.jsx:52 | after text whose quotes are balanced, the quoted runs of the rest follow those of the text |
| TsplText.QuotedRunsSkip | frontend/src/TSPLConverter.jsx:52 | quote-free text in front of a line adds no quoted run |
| TsplText.QuotedOneRun | frontend/src/TSPLConverter.jsx:52 | a quoted value without quotes is one match, whose content is the value |
| TsplText.PayloadOfLastRun | frontend/src/TSPLConverter.jsx:50-54 | the payload is the last quoted value on the line, quotes removed |
| TsplText.PayloadWithoutQuotes | frontend/src/TSPLConverter.jsx:50-54 | a line without quotes has the empty payload |
| TsplConverter.Minus | frontend/src/TSPLConverter.jsx:120-121 | a difference is a number exactly when both sides are, and then it adds back to the minuend; NaN propagates |
| TsplConverter.FontSize | frontend/src/TSPLConverter.jsx:62 | `Math.max(12, yMul * 8)`: NaN exactly when the multiplier is NaN, and otherwise the larger of 12 and 8·yMul |
| TsplConverter.Thickness | frontend/src/TSPLConverter.jsx:114 | `parseInt(parts[5]) \|\| 1`: a non-zero number is kept, and NaN or 0 gives 1 |
| TsplConverter.Part | frontend/src/TSPLConverter.jsx:44-49 | `parts[k]` is defined exactly below the token count, and it is that token |
| TsplConverter.UnquoteRemovesQuotes | frontend/src/TSPLConverter.jsx:70 | `replace(/"/g, "")` leaves no quote, never lengthens, and leaves quote-free text unchanged |
| TsplConverter.UnquoteQuoted | frontend/src/TSPLConverter.jsx:70 | removing the quotes of a quoted quote-free value gives the value |
| TsplConverter.CommandOf | frontend/src/TSPLConverter.jsx:30-33 | each of the six commands is selected exactly by its upper-case keyword, and every other keyword is ignored |
| TsplConverter.EffectOfKinds | frontend/src/TSPLConverter.jsx:28-140 | the command alone decides whether a line draws, resizes, does nothing or throws; a drawn element has the command's kind; SIZE takes the second and fourth tokens |
| TsplConverter.LineFailsIff | frontend/src/TSPLConverter.jsx:70 | a line throws exactly when it is a BARCODE line with fewer than four tokens |
| TsplConverter.ParseFailsIff | frontend/src/TSPLConverter.jsx:28-141 | the whole parse throws exactly when some line is such a BARCODE line |
| TsplConverter.FailurePersists | frontend/src/TSPLConverter.jsx:28-141 | once a prefix of the lines has thrown, the lines after it change nothing |
| TsplConverter.ApplyEffect | frontend/src/TSPLConverter.jsx:56-63 | one step of the loop pushes the drawn element, reassigns the size, or leaves both unchanged |
| TsplConverter.ParseTSPL | frontend/src/TSPLConverter.jsx:19-145 | the loop over the lines produces exactly the fold of the line effects over the trimmed non-blank lines, from no elements and 400 × 240 |
| TsplConverter.ParseOfEffects | frontend/src/TSPLConverter.jsx:28-141 | when every line has a known effect, the parse succeeds with those effects applied in line order, starting from no elements and 400 × 240 |
| TsplConverter.IgnoredLine | frontend/src/TSPLConverter.jsx:29-33 | a line whose first token is a keyword other than the six commands draws nothing and leaves the size alone |
| TsplConverter.CountDrawable | frontend/src/TSPLConverter.jsx:28-141 | no more lines draw than there are lines |
| TsplConverter.ElementCount | frontend/src/TSPLConverter.jsx:28-141 | a successful parse has exactly one element per TEXT, BARCODE, QRCODE, BOX or REVERSE line |
| TsplConverter.ParseLinesConcat | frontend/src/TSPLConverter.jsx:28-141 | elements come out in line order: the elements of the first lines come before those of the later ones |
| TsplConverter.NoSizeLineKeepsDefault | frontend/src/TSPLConverter.jsx:25-26 | without a SIZE line, the label stays 400 × 240 |
| TsplConverter.LastSizeLineWins | frontend/src/TSPLConverter.jsx:33-40 | the last SIZE line decides the label size |
| TsplConverter.KeywordCaseInsensitive | frontend/src/TSPLConverter.jsx:30 | two spellings of a keyword that upper-case alike act alike on the same line |
| TsplConverter.IntReadsBack | frontend/src/TSPLConverter.jsx:44 | `parseInt(String(n))` is `n` |
| TsplConverter.TextLineParses | frontend/src/TSPLConverter.jsx:43-64 | a rendered TEXT line draws a text element with its x, y, rotation, quoted text and font size max(12, 8·yMul) |
| TsplConverter.BarcodeLineParses | frontend/src/TSPLConverter.jsx:67-86 | a rendered BARCODE line draws a barcode with its x, y, height, quoted data and unquoted symbology |
| TsplConverter.QrCodeLineParses | frontend/src/TSPLConverter.jsx:89-106 | a rendered QRCODE line draws a QR code with its x, y, cell width × 10 and quoted data |
| TsplConverter.BoxLineParses | frontend/src/TSPLConverter.jsx:109-124 | a rendered BOX line draws a box from (x1, y1) of width x2 − x1 and height y2 − y1; its thickness is the given one, or 1 when it is absent or 0 |
| TsplConverter.ReverseLineParses | frontend/src/TSPLConverter.jsx:127-140 | a rendered REVERSE line draws a filled rectangle with its x, y, width and height |
| TsplSample.SampleParses | frontend/src/TSPLConverter.jsx:5-15 | the program the preview starts with splits back into its eleven lines and parses without error to two texts, a barcode, a QR code and a box of thickness 2, in line order, with the size set by its SIZE line to 100 by 60 |
| TableModel.ParseStatus | backend/src/Models/TableModel.js:45-49 | a status string passes the enum check only as the name of the status it yields |
| TableModel.StatusRoundTrip | backend/src/Models/TableModel.js:45-49 | each status name parses back to its status, and exactly the strings other than the three names are rejected |
| TableModel.WithDefaults | backend/src/Models/TableModel.js:33-54 | a new label keeps the supplied fields and starts unprinted: not printed, no print time, print count 0, empty metadata, status "generated" unless given |
| TableModel.MarkedAsPrinted | backend/src/Models/TableModel.js:80-86 | marking sets printed, status "printed" and the time, adds one to the print count, and changes no identity field |
| TableModel.MarkedRepeatedly | backend/src/Models/TableModel.js:80-86 | `n` markings add `n` to the print count, keep the identity fields, and leave the latest time and the printed state |
| TableModel.GeneratedLabel.MarkAsPrinted | backend/src/Models/TableModel.js:80-86 | the document's new state is the marked state of its old state at the given time |
| TableModel.LabelTable.CodeExists | backend/src/Models/TableModel.js:66-69 | true exactly when some stored label has the code |
| TableModel.InsertAllExtends | backend/src/Routes/TableRoute.js:129 | inserting keeps the stored labels as a prefix and adds at most one label per document, each built from a document |
| TableModel.InsertAllKeepsCodesUnique | backend/src/Models/TableModel.js:5-10 | the unique index on `code` still holds after inserting, and every document's code is then stored |
| TableModel.InsertAllFresh | backend/src/Routes/TableRoute.js:129-134 | a batch of new, pairwise distinct codes is inserted whole, in order, with defaults |
| TableModel.LabelTable.InsertMany | backend/src/Routes/TableRoute.js:129-134 | the unordered `insertMany` tries every document and keeps the unique index; it reports error 11000 exactly when some document was refused |
| TableRoute.OrDefault | backend/src/Routes/TableRoute.js:24-30 | `s \|\| fallback`: a present non-empty string is kept, and an absent or empty one gives the fallback |
| TableRoute.SaveConfig | backend/src/Routes/TableRoute.js:23-33 | a failing schema validation answers 500 "Failed to create label configuration" |
| TableRoute.SaveConfigAccepted | backend/src/Routes/TableRoute.js:23-33 | a request with a name, a quantity between 1 and 1000 and a known code type is saved with trimmed names, the parsed start number and every default |
| TableRoute.CreateConfigAccepted | backend/src/Routes/TableRoute.js:7-39 | a request whose base name matches and that passes the schema produces exactly that stored configuration |
| TableRoute.CreateConfigRejectsExactly | backend/src/Routes/TableRoute.js:13-19 | the corrected route answers 400 exactly when the trimmed base name does not match the pattern |
| TableRoute.CreateConfigDefaults | backend/src/Routes/TableRoute.js:23-31 | an accepted configuration stores the trimmed base name, the requested quantity within 1–1000, and the defaults "Config-" + base name, "barcode", not a template, "system" and last used now |
| TableRoute.CreatedConfigCanGenerate | backend/src/Routes/TableRoute.js:13-26 | every configuration the corrected route accepts can generate codes, and its start number is the value of the digit group the generator uses |
| TableRoute.AsWrittenAcceptsSpaceThenDigits | backend/src/Routes/TableRoute.js:13-25 | as written, a base name of one space and then digits is accepted and stored without the space |
| TableRoute.AsWrittenAcceptsUngeneratable | backend/src/Routes/TableRoute.js:13-25 | as written, " 5" is accepted and stored as "5", which cannot generate any code |
| TableRoute.AsWrittenStartNumberDisagrees | backend/src/Routes/TableRoute.js:13-26 | as written, " 199" is stored with start number 199, while the generator splits "199" as "1" + "99" |
| TableRoute.IsTemplateFilter | backend/src/Routes/TableRoute.js:55-57 | no filter without the parameter; otherwise the filter is true exactly for the string "true" |
| TableRoute.LabelDocs | backend/src/Routes/TableRoute.js:120-127 | one document per code, in order, with the configuration's fields, sequence number start + index, and status "generated" |
| TableRoute.SequenceNumberIsCodeSuffix | backend/src/Routes/TableRoute.js:120-127 | each saved label's sequence number is the value of its code's digits, and the codes are pairwise distinct |
| TableRoute.Rethrown | backend/src/Routes/TableRoute.js:129-134 | an insert error is rethrown exactly when it is not the duplicate-key error 11000 |
| TableRoute.GenerateRoute | backend/src/Routes/TableRoute.js:106-161 | answers 500 exactly when the base name does not match, with nothing changed; otherwise it returns the generated codes and their count, inserts their labels only when `saveToDB` is `true`, and sets `lastUsed` |

## Left out

- `SIZE`: `parseFloat` and the multiplication by 3.78 are floating point. A SIZE line sets the size to its raw width and height tokens (`FromMillimetres`), not to pixels.
- TsplConverter.ParseTSPL: returns the label instead of calling the React setters `setLabelSize` and `setLabelElements`. The rest of `TSPLConverter.jsx` (rendering, the editor and the UI) is not modelled.
- LabelConfigModel.GenerateCodes: integers are unbounded. JavaScript numbers lose precision above 2^53, and `String(n)` switches to exponent notation from 10^21, so codes for digit groups that long differ in the source.
- Decimal.ParseInt: the numbers it yields are unbounded integers. JavaScript numbers lose precision above 2^53, so `TsplConverter.Minus`, `TsplConverter.Scale` (× 10) and `TsplConverter.FontSize` (× 8) differ from the source for coordinates that large.
- JsString.Upper: each character maps to one character (ASCII letters, dotless i and long s). Multi-character upper-case forms such as "ß" → "SS" are not modelled; none of them can form one of the six command names.
- Decimal.ParseInt: its own contract states only the NaN of a missing token. Its reading of digits, signs and the `0x` prefix is stated by the lemmas beside it.
- TableRoute.SaveConfig: the `message` of the 500 answer, which is Mongoose's validation text, is not modelled. Neither is the 500 answer's `message` of a missing base name, which is a TypeError.
- TableRoute.GenerateRoute: the route takes the configuration already found. The 404 of `findById`, and the errors of `save()` and `insertMany` other than the duplicate key, are database failures and are not modelled. Code 11000 is the only error the modelled store reports.
- Mongoose casting: the request fields are modelled as already typed values (`quantity` as an integer, `isTemplate` as a boolean). Casting of strings such as "5", and fractional quantities, are not modelled.
- Timestamps (`createdAt`, `updatedAt`), the secondary indexes, and `getByBaseName` concern storage and queries only and are not modelled.
- The other routes of `TableRoute.js` (`GET /:id`, `PUT /:id`, `DELETE /:id`, and the paging and sorting of `GET /`) are not modelled. `GET /` is modelled only for its `isTemplate` filter.
- Asynchrony and concurrency: each route runs to completion against one store.

## Findings

| source | as written | input that shows it | evidently intended | confidence | as-written member | corrected member |
|---|---|---|---|---|---|---|
| backend/src/Routes/TableRoute.js:13 | the route matches the untrimmed `baseName`, but the schema (`trim: true`, LabelConfig.js:13) stores the trimmed one, which `generateCodes` later matches again | `baseName: " 5"` is accepted (201) and stored as "5", and every later `POST /:id/generate` answers 500; `baseName: " 199"` is stored with start number 199, but the generator splits "199" as "1" + "99" | validate the base name as it will be stored, so that every accepted configuration can generate and its start number agrees with its codes | not executed | TableRoute.AsWrittenAcceptsUngeneratable, TableRoute.AsWrittenStartNumberDisagrees | TableRoute.CreatedConfigCanGenerate |
