# SIE 4 codec, modelled in Dafny

A model of the core of a Java reader and writer for SIE 4, the Swedish
text format for exchanging accounting data. The model covers:

- the field scanner;
- the per-label parsers and writers;
- the assembler that gathers voucher (VER) blocks;
- the 4I/4E validator;
- the small value records (year number, period, object reference,
  financial year);
- the views over a parsed list (SIE4Items, SIE4Content, SIE4Document).

Each part is proved against a specification, and the parts are tied
together by round-trip lemmas.

Modules, in dependency order:

- `Wrappers`: `Option` and `Result`, with one error datatype for all the
  exceptions of the source.
- `Text`: the `java.lang.String` operations the code relies on. It keeps
  apart the three notions of white space that Java has:
  - regex `\s`;
  - `Character.isWhitespace`, used by `strip` and `isBlank`;
  - "at most U+0020", used by `trim`.
- `Numbers`: 32-bit `int`, `Integer.parseInt` / `Integer.toString`, and
  `BigDecimal` as an unscaled value with a scale, in plain notation.
- `Calendar`: `LocalDate` with the `yyyyMMdd` pattern and the default
  smart resolver, plus `plusYears` and `minusDays`.
- `Values`: `YearNumber`, `Period`, `ObjectReference` and `FinancialYear`,
  with their constructor checks.
- `Items`: one `Record` datatype for the sealed interface `SIE4Item`
  (and the identical `FileItem`), plus the item types in enumeration
  order and the 4I/4E mandatory flags.
- `FieldParser`: the field scanner, written as a hand-written function
  over `seq<char>` together with the `find()` loop as a method, plus
  `parseObjectReferences` and `parseOptionalField`.
- `InFieldMapper`: the parser registry, `splitLine`, `toModel(String)`
  and `toModel(List)`. `FieldMapper` applies the same rules and differs
  only in the exception class it throws, so it is modelled by the same
  module.
- `OutFieldMapper`: the writer registry, `quoted`, `writeItem`,
  `writeTransactionFields` and `toFileString`. The VER writer is modelled
  as a method over a buffer, appending piece by piece.
- `RoundTrip`, `RecordRoundTrip`, `TransactionRoundTrip`, `ItemRoundTrip`:
  for every well-formed record, reading back what the writer writes gives
  the same record. Well-formed means:
  - text columns the quoting can carry;
  - four-digit years;
  - no absent optional column before a present one.
- `Validator`: `validateSie4i`, `validateSie4e` and the three sets of
  item types.
- `Content`: `SIE4Items` and `SIE4Content`. These are the type filter,
  the lookup with its at-most-one check, and `getOrgInfo` / `getFileInfo`.
- `Document`: `SIE4Document`, a class with one field per item type. It
  has:
  - its setters;
  - the `Builder` class;
  - the defaulting constructor;
  - `getItems`, which lists the fields in the order of the item types;
  - `getIdentificationItems`.
- `Sie4`: the line loop shared by `SIE4.parse` and `SIE4Parser.parse`.
  It is a method with the VER buffer and the result as state, proved
  against a step function. The loop is parameterised by the mapper.
- `Sie4Writer`: `SIE4.write`. It validates under the chosen profile,
  refuses with the joined error names, and otherwise prints one entry
  per item.
- `Sie4RoundTrip`: the whole-file round trip. The lines written for
  well-formed items are read back by the parse loop as exactly those
  items, in order.

The source's own behaviour is kept where it departs from the format's
intent, with one exception: the period of PBUDGET and PSALDO lines. That
case is listed under "## Findings" and proved in both forms. The writer and
the round trips use the corrected yyyyMM printer. The kept departures are
each proved as a lemma:

- A TRANS line declares a minimum of two fields, but needs three
  (`InFieldMapper.ShortLinesFail`).
- A VER line declares a minimum of one field, but needs three.
- An empty quantity column is an error in a balance line but means
  "absent" in a transaction line.
- A VER block that the input never closes is dropped without an error.
- A second `#VER` line inside a block makes the whole block fail.
- `getFileInfo` builds the `FinancialYear` nested in `SIE4Content`, which
  has no date-order check. `getIdentificationItems` builds the top-level
  `FinancialYear`, which has one.

## Model

| member | source | states |
|---|---|---|
| Text.StripLeadingShape | src/main/java/se/bufferoverflow/sieport/sie4/SIE4.java:52 | strip drops only leading white space (Character.isWhitespace); the text it keeps is a suffix that does not start with white space |
| Text.StripTrailingShape | src/main/java/se/bufferoverflow/sieport/sie4/writer/OutFieldMapper.java:323 | stripTrailing drops only trailing white space and keeps a prefix that does not end with any |
| Text.IndexOf | src/main/java/se/bufferoverflow/sieport/sie4/writer/AbstractFieldWriter.java:8 | indexOf is -1 exactly when the character is absent, otherwise a position holding it with none before |
| Text.TrimSpaces | src/main/java/se/bufferoverflow/sieport/sie4/writer/OutFieldMapper.java:70-78 | trim removes exactly the trailing spaces that absent optional columns leave after a row with solid ends |
| Numbers.ParseIntFormatInt | src/main/java/se/bufferoverflow/sieport/sie4/parser/InFieldMapper.java:134-135 | Integer.parseInt reads back what Integer.toString prints, for every 32-bit int |
| Numbers.ParseIntLenient | src/main/java/se/bufferoverflow/sieport/sie4/parser/InFieldMapper.java:134-135 | parseInt accepts leading zeros and an explicit plus sign |
| Numbers.ParseDecimalFormatDecimal | src/main/java/se/bufferoverflow/sieport/sie4/parser/InFieldMapper.java:136 | new BigDecimal(String) reads back exactly what BigDecimal.toString prints in plain notation, scale included |
| Numbers.ParseDecimalNegative | src/main/java/se/bufferoverflow/sieport/sie4/parser/InFieldMapper.java:136 | a leading minus negates the value of the unsigned part and keeps its scale |
| Calendar.ParseDateClampsDay | src/main/java/se/bufferoverflow/sieport/sie4/Constants.java:8 | yyyyMMdd with the smart resolver: a year from 1, a month 1 to 12 and a day 1 to 31 give a date, and a day past the month's end becomes its last day |
| Calendar.ParseDateRejects | src/main/java/se/bufferoverflow/sieport/sie4/Constants.java:8 | year zero, a month outside 1 to 12 or a day outside 1 to 31 is refused |
| Calendar.ParseDateFormatDate | src/main/java/se/bufferoverflow/sieport/sie4/Constants.java:8 | parsing reads back every date printed with a four-digit year |
| Values.YearNumberOf | src/main/java/se/bufferoverflow/sieport/sie4/YearNumber.java:4-12 | YearNumber.of succeeds exactly for n <= 0 and keeps n |
| Values.PeriodOf | src/main/java/se/bufferoverflow/sieport/sie4/Period.java:11-18 | Period.of(y, m) succeeds exactly when the year is within the YEAR range and the month is 1 to 12, and keeps both |
| Values.ParsePeriodFields | src/main/java/se/bufferoverflow/sieport/sie4/Period.java:20-26 | Period.of(String) reads yyyyMM with a year from 1 and a month 1 to 12 as that period |
| Values.ParsePeriodRejects | src/main/java/se/bufferoverflow/sieport/sie4/Period.java:24-25 | Period.of(String) refuses year zero and a month outside 1 to 12 (e.g. 202413) |
| Values.ParsePeriodBlank | src/main/java/se/bufferoverflow/sieport/sie4/Period.java:21-23 | Period.of(String) refuses blank text |
| Values.ParsePeriodFormat | src/main/java/se/bufferoverflow/sieport/sie4/Period.java:20-26 | Period.of(String) reads back every period of a four-digit year printed as yyyyMM |
| Values.RecordPeriodTextUnreadable | src/main/java/se/bufferoverflow/sieport/sie4/Period.java:7 | the text of the record's generated toString is never a readable period |
| Values.NewFinancialYear | src/main/java/se/bufferoverflow/sieport/sie4/FinancialYear.java:6-10 | the constructor succeeds exactly when `to` is not before `from`; equal dates are allowed |
| Values.FinancialYearOfSpansOneYear | src/main/java/se/bufferoverflow/sieport/sie4/FinancialYear.java:18-20 | FinancialYear.of keeps `from`, ends the day before the anniversary, and always passes the constructor's check |
| Values.FinancialYearOfExamples | src/main/java/se/bufferoverflow/sieport/sie4/FinancialYear.java:18-20 | of(2024-01-01) ends on 2024-12-31; of a leap day ends on 27 February of the next year |
| Items.LabelOfTagName | src/main/java/se/bufferoverflow/sieport/sie4/SIE4ItemType.java:6-41 | every item type is found again from its label name, so no two types share a name |
| Items.TagNameLetters | src/main/java/se/bufferoverflow/sieport/sie4/writer/OutFieldMapper.java:326-329 | every label written is an upper-case ASCII word |
| Items.HasTypeTypeOf | src/main/java/se/bufferoverflow/sieport/sie4/SIE4Item.java:22-366 | each variant reports its own item type, and a record has a type's constructor exactly when it reports that type |
| Items.TransactionTypes | src/main/java/se/bufferoverflow/sieport/sie4/SIE4Item.java:337-366 | the records of the Transaction interface are exactly those of TRANS, RTRANS and BTRANS |
| FieldParser.QuotedScan | src/main/java/se/bufferoverflow/sieport/sie4/parser/AbstractFieldParser.java:16 | the scan of a quoted body never goes back and stops at the end or at a quote or backslash that no escape covers |
| FieldParser.BraceScan | src/main/java/se/bufferoverflow/sieport/sie4/parser/AbstractFieldParser.java:16 | the scan of a brace interior stops at the first brace or at the end |
| FieldParser.BareScan | src/main/java/se/bufferoverflow/sieport/sie4/parser/AbstractFieldParser.java:16 | the bare run stops at the first \s character or at the end |
| FieldParser.MatchAt | src/main/java/se/bufferoverflow/sieport/sie4/parser/AbstractFieldParser.java:16 | at a position that is not \s some alternative always matches, and the match consumes at least one character and no more than remain |
| FieldParser.TokenizeFields | src/main/java/se/bufferoverflow/sieport/sie4/parser/AbstractFieldParser.java:18-34 | the find() loop returns exactly the tokens of the scanner specification |
| FieldParser.TokenizeStep | src/main/java/se/bufferoverflow/sieport/sie4/parser/AbstractFieldParser.java:22-32 | one match contributes its token and scanning resumes after it |
| FieldParser.TokenizeEmpty | src/main/java/se/bufferoverflow/sieport/sie4/parser/AbstractFieldParser.java:18-34 | no text gives no token; "{}" gives the one empty token |
| FieldParser.TokenizeEscapedQuote | src/main/java/se/bufferoverflow/sieport/sie4/parser/AbstractFieldParser.java:23-25 | the quoted field `"gh\"i j"` scans as the one token `gh"i j`: quotes dropped, space kept, escape removed |
| FieldParser.TokenizePlain | src/main/java/se/bufferoverflow/sieport/sie4/parser/AbstractFieldParser.java:29-31 | text without quotes or braces splits at \s only: every token is non-empty, holds no \s, and together they are the text without its white space |
| FieldParser.TokenizeCount | src/main/java/se/bufferoverflow/sieport/sie4/parser/AbstractFieldParser.java:18-34 | there are never more tokens than characters |
| FieldParser.TokenizeJoin | src/main/java/se/bufferoverflow/sieport/sie4/parser/AbstractFieldParser.java:18-34 | pieces joined by single spaces scan back as their tokens, one per piece |
| FieldParser.ParseObjectReferences | src/main/java/se/bufferoverflow/sieport/sie4/parser/AbstractFieldParser.java:36-53 | no tokens give no references; it succeeds exactly when the count is even and every dimension token is an int; then reference i is (parseInt(t[2i]), t[2i+1]) and there are half as many references as tokens |
| FieldParser.ParseObjectReferencesOdd | src/main/java/se/bufferoverflow/sieport/sie4/parser/AbstractFieldParser.java:45-47 | an odd number of fields fails whatever they hold |
| FieldParser.ParseObjectReferencesQuoted | src/main/java/se/bufferoverflow/sieport/sie4/parser/AbstractFieldParser.java:49-52 | a dimension and a quoted object number read as one reference without the quotes |
| FieldParser.ParseOptionalField | src/main/java/se/bufferoverflow/sieport/sie4/parser/AbstractFieldParser.java:55-58 | "" is absent; anything else is present and unchanged |
| InFieldMapper.ParseYearNumber | src/main/java/se/bufferoverflow/sieport/sie4/parser/InFieldMapper.java:134 | a year number read is the int the text holds, and is at most 0 by its type |
| InFieldMapper.AccountTypeOfName | src/main/java/se/bufferoverflow/sieport/sie4/parser/InFieldMapper.java:166 | an account type is read exactly from its name in any mix of cases |
| InFieldMapper.CompanyTypeOfName | src/main/java/se/bufferoverflow/sieport/sie4/parser/InFieldMapper.java:102 | a company type is read exactly from its name in any mix of cases |
| InFieldMapper.ParseAdress | src/main/java/se/bufferoverflow/sieport/sie4/parser/InFieldMapper.java:20-28 | exactly four fields, taken as they are |
| InFieldMapper.ParseIntItem | src/main/java/se/bufferoverflow/sieport/sie4/parser/InFieldMapper.java:29-37 | BKOD, FLAGGA, SIETYP, TAXAR: exactly one field, read as an int |
| InFieldMapper.ParseTextItem | src/main/java/se/bufferoverflow/sieport/sie4/parser/InFieldMapper.java:65-73 | FNAMN, FNR, KPTYP, PROSA, VALUTA: exactly one field, kept as it is |
| InFieldMapper.ParseNumberedItem | src/main/java/se/bufferoverflow/sieport/sie4/parser/InFieldMapper.java:38-46 | DIM, ENHET, KONTO: exactly two fields, an int and a text |
| InFieldMapper.ParseFormat | src/main/java/se/bufferoverflow/sieport/sie4/parser/InFieldMapper.java:84-95 | succeeds exactly for one field equal to PC8 ignoring case, and keeps it as written |
| InFieldMapper.ParseFtyp | src/main/java/se/bufferoverflow/sieport/sie4/parser/InFieldMapper.java:96-104 | exactly one field, an upper-cased company type name |
| InFieldMapper.ParseGen | src/main/java/se/bufferoverflow/sieport/sie4/parser/InFieldMapper.java:105-120 | one or two fields: the first is the date, the signature is the second column when present and non-empty |
| InFieldMapper.ParseBalance | src/main/java/se/bufferoverflow/sieport/sie4/parser/InFieldMapper.java:121-139 | IB, RES, UB: three or four fields, of the label's own type; the year number (never positive), account, balance and, when there is a fourth column, quantity are what their columns read as, so an unreadable column is refused |
| InFieldMapper.ParseKtyp | src/main/java/se/bufferoverflow/sieport/sie4/parser/InFieldMapper.java:158-168 | two fields: an account and an account type |
| InFieldMapper.ParseObjekt | src/main/java/se/bufferoverflow/sieport/sie4/parser/InFieldMapper.java:169-177 | three fields: dimension, object number, name |
| InFieldMapper.ParseObjectBalance | src/main/java/se/bufferoverflow/sieport/sie4/parser/InFieldMapper.java:178-202 | OIB, OUB: four or five fields with exactly one object reference; the year number, account, balance and optional quantity are what their columns read as, so an unreadable column is refused |
| InFieldMapper.ParseOmfattn | src/main/java/se/bufferoverflow/sieport/sie4/parser/InFieldMapper.java:203-212 | one field, a date |
| InFieldMapper.ParseOrgNr | src/main/java/se/bufferoverflow/sieport/sie4/parser/InFieldMapper.java:213-230 | one to three fields; each number is present exactly when its column is |
| InFieldMapper.ParsePeriodBalance | src/main/java/se/bufferoverflow/sieport/sie4/parser/InFieldMapper.java:257-283 | PBUDGET, PSALDO: five or six fields, a yyyyMM period, and at most one object reference, absent when there is none; the year number, account, balance and optional quantity are what their columns read as |
| InFieldMapper.ParseProgram | src/main/java/se/bufferoverflow/sieport/sie4/parser/InFieldMapper.java:284-292 | two fields: name and version |
| InFieldMapper.ParseRar | src/main/java/se/bufferoverflow/sieport/sie4/parser/InFieldMapper.java:328-341 | three fields: the year number (never positive) and the two dates, each what its column reads as |
| InFieldMapper.ParseSru | src/main/java/se/bufferoverflow/sieport/sie4/parser/InFieldMapper.java:370-378 | succeeds exactly for two int fields |
| InFieldMapper.ParseUnderdim | src/main/java/se/bufferoverflow/sieport/sie4/parser/InFieldMapper.java:511-523 | three fields: dimension, name, superior dimension |
| InFieldMapper.ParseTransaction | src/main/java/se/bufferoverflow/sieport/sie4/parser/InFieldMapper.java:388-422 | three to seven fields: account, references, amount, then date, text, quantity and sign, each absent exactly when its column is missing or ""; a present date or quantity is what its column reads as, so an unreadable one is refused |
| InFieldMapper.ParseVer | src/main/java/se/bufferoverflow/sieport/sie4/parser/InFieldMapper.java:533-567 | three to six fields; series and number absent when empty; a date; a registration date present exactly when its column is non-empty, and then what it reads as; every sub-item must be a transaction, and they become the voucher's transactions in order |
| InFieldMapper.ParseFieldsType | src/main/java/se/bufferoverflow/sieport/sie4/parser/InFieldMapper.java:19-568 | whatever the registry parses for a label is a record of that label's type |
| InFieldMapper.ParseFieldsArity | src/main/java/se/bufferoverflow/sieport/sie4/parser/InFieldMapper.java:19-568 | every parser refuses a field count outside its own check's range |
| InFieldMapper.ShortLinesFail | src/main/java/se/bufferoverflow/sieport/sie4/parser/InFieldMapper.java:391-397 | TRANS/RTRANS/BTRANS and VER with fewer than three fields fail, although their count checks allow two and one |
| InFieldMapper.BalanceQuantityNotOptional | src/main/java/se/bufferoverflow/sieport/sie4/parser/InFieldMapper.java:120-283 | an empty quantity column is an error for every balance: IB, RES and UB with four fields, OIB and OUB with five, PBUDGET and PSALDO with six |
| InFieldMapper.TransactionQuantityOptional | src/main/java/se/bufferoverflow/sieport/sie4/parser/InFieldMapper.java:410-413 | an empty quantity column of a transaction is an absent quantity |
| InFieldMapper.SplitLine | src/main/java/se/bufferoverflow/sieport/sie4/parser/InFieldMapper.java:596-605 | a blank line is refused; the fields text is framed by no white space |
| InFieldMapper.SplitLineOf | src/main/java/se/bufferoverflow/sieport/sie4/parser/InFieldMapper.java:596-605 | '#', a word that upper-cases to a label, a space and framed fields split into that label and exactly those fields |
| InFieldMapper.SplitLineAnyCase | src/main/java/se/bufferoverflow/sieport/sie4/parser/FieldMapper.java:632-645 | the label is read in any mix of cases |
| InFieldMapper.ToModelLine | src/main/java/se/bufferoverflow/sieport/sie4/parser/InFieldMapper.java:570-578 | a result has the label's type and is never a VER |
| InFieldMapper.ToModelLineWraps | src/main/java/se/bufferoverflow/sieport/sie4/parser/AbstractFieldParser.java:60-66 | a parser failure reaches toModel(String)'s caller wrapped as "could not parse fields" |
| InFieldMapper.ToModelBlock | src/main/java/se/bufferoverflow/sieport/sie4/parser/InFieldMapper.java:580-594 | the first line must split under VER; the voucher is what the VER parser makes of that line's fields with the block's transactions as sub-items, one per following line, each what toModel(String) reads it as |
| InFieldMapper.ToModelBlockNeedsVer | src/main/java/se/bufferoverflow/sieport/sie4/parser/InFieldMapper.java:584-586 | a block whose first line is not a VER line is refused |
| InFieldMapper.ToModelBlockOnlyTransactions | src/main/java/se/bufferoverflow/sieport/sie4/parser/InFieldMapper.java:560-562 | a block holding a non-transaction line is refused |
| OutFieldMapper.WriteVerFields | src/main/java/se/bufferoverflow/sieport/sie4/writer/OutFieldMapper.java:261-285 | the buffer ends holding the header, "\n{", a line feed and the indented line of each transaction in order, and "\n}" |
| OutFieldMapper.AppendLines | src/main/java/se/bufferoverflow/sieport/sie4/writer/OutFieldMapper.java:272 | the forEach appends a line feed and the rendered line of each element, in order |
| RoundTrip.QuotedRenders | src/main/java/se/bufferoverflow/sieport/sie4/writer/AbstractFieldWriter.java:7-12 | quoting a safe text gives a field the scanner reads back as that text |
| RoundTrip.ReferencesRender | src/main/java/se/bufferoverflow/sieport/sie4/writer/OutFieldMapper.java:307-309 | a transaction's references are one brace group that parseObjectReferences reads back as the same references in order |
| RoundTrip.ReferenceRenders | src/main/java/se/bufferoverflow/sieport/sie4/ObjectReference.java:9-11 | toString is the brace group of one reference, which reads back as that reference |
| RoundTrip.Written | src/main/java/se/bufferoverflow/sieport/sie4/writer/OutFieldMapper.java:323 | trim and stripTrailing remove exactly the blanks of absent trailing columns, and one token is read per written column |
| RecordRoundTrip.AdressReadsBack | src/main/java/se/bufferoverflow/sieport/sie4/writer/OutFieldMapper.java:15-21 | ADRESS is read back as written |
| RecordRoundTrip.IntItemReadsBack | src/main/java/se/bufferoverflow/sieport/sie4/writer/OutFieldMapper.java:22-27 | BKOD, FLAGGA, SIETYP, TAXAR are read back as written |
| RecordRoundTrip.TextItemReadsBack | src/main/java/se/bufferoverflow/sieport/sie4/writer/OutFieldMapper.java:46-51 | FNAMN, FNR, KPTYP, PROSA, VALUTA are read back as written |
| RecordRoundTrip.NumberedItemReadsBack | src/main/java/se/bufferoverflow/sieport/sie4/writer/OutFieldMapper.java:28-33 | DIM, ENHET, KONTO are read back as written |
| RecordRoundTrip.FormatReadsBack | src/main/java/se/bufferoverflow/sieport/sie4/writer/OutFieldMapper.java:58-63 | FORMAT is read back as written |
| RecordRoundTrip.GenReadsBack | src/main/java/se/bufferoverflow/sieport/sie4/writer/OutFieldMapper.java:70-78 | GEN with or without a signature is read back as written |
| RecordRoundTrip.OrgNrReadsBack | src/main/java/se/bufferoverflow/sieport/sie4/writer/OutFieldMapper.java:132-141 | ORGNR is read back when no number is absent before a present one |
| RecordRoundTrip.BalanceReadsBack | src/main/java/se/bufferoverflow/sieport/sie4/writer/OutFieldMapper.java:79-89 | IB, RES, UB are read back with and without a quantity |
| RecordRoundTrip.ObjectBalanceReadsBack | src/main/java/se/bufferoverflow/sieport/sie4/writer/OutFieldMapper.java:114-125 | OIB, OUB are read back with their one reference |
| RecordRoundTrip.PeriodBalanceReadsBack | src/main/java/se/bufferoverflow/sieport/sie4/writer/OutFieldMapper.java:154-166 | PBUDGET, PSALDO written with a yyyyMM period are read back, the reference or "{}" included |
| RecordRoundTrip.PeriodBalanceAsWrittenUnreadable | src/main/java/se/bufferoverflow/sieport/sie4/writer/OutFieldMapper.java:159 | with the period printed through the record's toString, no PBUDGET or PSALDO line is read back |
| TransactionRoundTrip.TransactionReadsBack | src/main/java/se/bufferoverflow/sieport/sie4/writer/OutFieldMapper.java:306-324 | the fields text of a well-formed transaction is framed and the parser of its label reads the same transaction |
| TransactionRoundTrip.TransactionLineReads | src/main/java/se/bufferoverflow/sieport/sie4/writer/OutFieldMapper.java:277-284 | an indented transaction line, stripped, is read by toModel(String) as that transaction |
| TransactionRoundTrip.ParseTransactionOf | src/main/java/se/bufferoverflow/sieport/sie4/parser/InFieldMapper.java:388-422 | tokens whose columns read as a transaction's fields parse as that transaction |
| ItemRoundTrip.RecordReadsBack | src/main/java/se/bufferoverflow/sieport/sie4/writer/OutFieldMapper.java:326-329 | every well-formed record but VER: its fields text is framed and its label's parser reads it back as the same record |
| ItemRoundTrip.RecordLineReads | src/main/java/se/bufferoverflow/sieport/sie4/parser/InFieldMapper.java:570-578 | the line toFileString writes for a well-formed non-VER record is unchanged by strip and read back by toModel(String) |
| ItemRoundTrip.ItemLineNotVer | src/main/java/se/bufferoverflow/sieport/sie4/SIE4.java:54 | a line written under any label but VER does not start with "#VER" |
| ItemRoundTrip.VerBlockReads | src/main/java/se/bufferoverflow/sieport/sie4/parser/InFieldMapper.java:580-594 | toModel(List) reads a well-formed voucher back from its header line and its stripped transaction lines |
| Validator.Sie4iErrors | src/main/java/se/bufferoverflow/sieport/sie4/validator/Validator.java:51-60 | at most two errors, no duplicates, a missing item before a forbidden one |
| Validator.Sie4eErrors | src/main/java/se/bufferoverflow/sieport/sie4/validator/Validator.java:62-68 | at most one error, never a forbidden item |
| Validator.ValidateSie4i | src/main/java/se/bufferoverflow/sieport/sie4/validator/Validator.java:51-60 | the appending method returns the specified errors: MISSING exactly when a 4I type is absent, FORBIDDEN exactly when a forbidden type is present |
| Validator.ValidateSie4e | src/main/java/se/bufferoverflow/sieport/sie4/validator/Validator.java:62-68 | the appending method returns the specified errors: MISSING exactly when a 4E type is absent |
| Validator.MissingTypesIff | src/main/java/se/bufferoverflow/sieport/sie4/validator/Validator.java:70-77 | a mandatory type is reported missing exactly when no item has it |
| Validator.PresentTypesIff | src/main/java/se/bufferoverflow/sieport/sie4/validator/Validator.java:79-86 | a forbidden type is reported present exactly when some item has it |
| Validator.Sie4iMissingIff | src/main/java/se/bufferoverflow/sieport/sie4/validator/Validator.java:13-20 | 4I reports a missing item exactly when one of FLAGGA, PROGRAM, FORMAT, GEN, SIETYP, FNAMN has no item |
| Validator.Sie4iForbiddenIff | src/main/java/se/bufferoverflow/sieport/sie4/validator/Validator.java:22-32 | 4I reports forbidden items exactly when one of the nine forbidden types is present |
| Validator.Sie4eMissingIff | src/main/java/se/bufferoverflow/sieport/sie4/validator/Validator.java:34-46 | 4E reports a missing item exactly when one of its eleven types has no item |
| Validator.OnlyTypesMatter | src/main/java/se/bufferoverflow/sieport/sie4/validator/Validator.java:71-73 | two lists with the same set of item types get the same errors, so reordering or duplicating changes nothing |
| Validator.Sie4eCoversSie4i | src/main/java/se/bufferoverflow/sieport/sie4/validator/Validator.java:13-46 | every 4I mandatory type is 4E mandatory too |
| Validator.AddingAllowedItem | src/main/java/se/bufferoverflow/sieport/sie4/validator/Validator.java:70-86 | adding an item whose type 4I does not forbid introduces no error under either profile |
| Validator.MandatorySie4IAgrees | src/main/java/se/bufferoverflow/sieport/sie4/SIE4Item.java:18-20 | isMandatorySie4I holds exactly for the types the validator requires for 4I |
| Validator.MandatorySie4EAgrees | src/main/java/se/bufferoverflow/sieport/sie4/SIE4Item.java:14-16 | isMandatorySie4E holds exactly for the types the validator requires for 4E |
| Content.FilterMembers | src/main/java/se/bufferoverflow/sieport/sie4/SIE4Content.java:18-23 | an item is in the filter exactly when it is in the list and has the type |
| Content.FilterAppend | src/main/java/se/bufferoverflow/sieport/sie4/SIE4Items.java:17-22 | filtering distributes over concatenation, so order is kept |
| Content.SeveralIff | src/main/java/se/bufferoverflow/sieport/sie4/SIE4Items.java:38-40 | two items of a type exist exactly when the filter holds more than one |
| Content.GetItem | src/main/java/se/bufferoverflow/sieport/sie4/SIE4Items.java:32-43 | getItem fails exactly when several items have the type; what it finds has the type |
| Content.GetItemFinds | src/main/java/se/bufferoverflow/sieport/sie4/SIE4Content.java:33-44 | getItem finds nothing exactly when no item has the type; otherwise it finds the only one |
| Content.GetItemAgreesWithFilter | src/main/java/se/bufferoverflow/sieport/sie4/SIE4Items.java:32-43 | when getItem does not fail, it finds an item exactly when getItems finds some |
| Content.GetItemError | src/main/java/se/bufferoverflow/sieport/sie4/SIE4Items.java:39 | the failure names the type looked up |
| Content.Verifications | src/main/java/se/bufferoverflow/sieport/sie4/SIE4Content.java:49-51 | an item is a verification exactly when it is a VER item of the content |
| Content.OrgInfoFails | src/main/java/se/bufferoverflow/sieport/sie4/SIE4Content.java:57-68 | getOrgInfo fails exactly when one of ADRESS, BKOD, FNAMN, FTYP, ORGNR has several items |
| Content.OrgInfoAddress | src/main/java/se/bufferoverflow/sieport/sie4/SIE4Content.java:57-68 | the address is absent exactly when there is no ADRESS item; otherwise it is "distribution postal" of that item |
| Content.FileInfoFound | src/main/java/se/bufferoverflow/sieport/sie4/SIE4Content.java:75-84 | getFileInfo fails exactly when one of FLAGGA, PROGRAM, GEN, KPTYP, VALUTA has several items; RAR dates never make it fail |
| Content.FileInfoPeriods | src/main/java/se/bufferoverflow/sieport/sie4/SIE4Content.java:82 | one year per RAR item, in order, from its first to its last day |
| Content.FileInfoProgram | src/main/java/se/bufferoverflow/sieport/sie4/SIE4Content.java:75-84 | the program is "name, version" of the one PROGRAM item, and absent when there is none |
| Document.Defaulted | src/main/java/se/bufferoverflow/sieport/sie4/SIE4Document.java:419-482 | an absent FLAGGA becomes UNSET, an absent FORMAT becomes PC8, an absent list becomes empty, and every other part is kept |
| Document.ItemsParts | src/main/java/se/bufferoverflow/sieport/sie4/SIE4Document.java:52-87 | the constructor from items succeeds exactly when no single-item type has several items |
| Document.ItemsPartsValue | src/main/java/se/bufferoverflow/sieport/sie4/SIE4Document.java:52-87 | when it succeeds it takes the first item of each single type and every item of each list type |
| Document.FilterListing | src/main/java/se/bufferoverflow/sieport/sie4/SIE4Document.java:118-153 | filtering getItems by a field's type gives back exactly that field |
| Document.ListingOrdered | src/main/java/se/bufferoverflow/sieport/sie4/SIE4Document.java:118-153 | getItems lists items in the order of the item types and holds no transaction |
| Document.ListingAppends | src/main/java/se/bufferoverflow/sieport/sie4/SIE4Document.java:118-153 | getItems is the fields appended one after another in type order, absent single items skipped |
| Document.ListingPermutes | src/main/java/se/bufferoverflow/sieport/sie4/SIE4Document.java:52-87 | for a list with FLAGGA and FORMAT, at most one item of each single type and no top-level transaction, getItems of the document built from it is a permutation of the list |
| Document.ItemsFieldsListing | src/main/java/se/bufferoverflow/sieport/sie4/SIE4Document.java:118-153 | rebuilding a document from its own getItems gives the same fields when FLAGGA and FORMAT are set |
| Document.Sie4Document.FromParts | src/main/java/se/bufferoverflow/sieport/sie4/SIE4Document.java:419-482 | the private constructor stores the defaulted parts |
| Document.Sie4Document.FromItems | src/main/java/se/bufferoverflow/sieport/sie4/SIE4Document.java:48-87 | the public constructor succeeds exactly when no single-item type has several items; on failure it gives the error of the first such type in argument order; on success a fresh valid document holds the fields read from the list |
| Document.Sie4Document.GetItems | src/main/java/se/bufferoverflow/sieport/sie4/SIE4Document.java:118-153 | the list-filling method returns the specified listing and changes nothing |
| Document.Sie4Document.SetFlagga | src/main/java/se/bufferoverflow/sieport/sie4/SIE4Document.java:166-168 | replaces FLAGGA only; every other field is unchanged and the document stays typed |
| Document.Sie4Document.SetVer | src/main/java/se/bufferoverflow/sieport/sie4/SIE4Document.java:414-416 | replaces the VER list only; every other field is unchanged |
| Document.Builder.constructor | src/main/java/se/bufferoverflow/sieport/sie4/SIE4Document.java:485-487 | a new builder has nothing set |
| Document.Builder.WithFlagga | src/main/java/se/bufferoverflow/sieport/sie4/SIE4Document.java:523-526 | sets FLAGGA only and returns the same builder |
| Document.Builder.Build | src/main/java/se/bufferoverflow/sieport/sie4/SIE4Document.java:683-717 | builds a new document whose fields are the builder's through the defaulting constructor |
| Document.MapOrNull | src/main/java/se/bufferoverflow/sieport/sie4/SIE4Document.java:155-160 | an absent item stays absent; a present one is mapped |
| Document.Periods | src/main/java/se/bufferoverflow/sieport/sie4/FinancialYear.java:6-10 | one FinancialYear per RAR item in order; fails exactly when some RAR ends before it starts |
| Document.Identification | src/main/java/se/bufferoverflow/sieport/sie4/SIE4Document.java:92-111 | getIdentificationItems succeeds exactly when no RAR year ends before it starts |
| Document.IdentificationTexts | src/main/java/se/bufferoverflow/sieport/sie4/SIE4Document.java:92-111 | program is "name, version", address is "distribution postal", each absent exactly when its item is; one period per RAR |
| Document.IdentificationAgreesWithContent | src/main/java/se/bufferoverflow/sieport/sie4/SIE4Document.java:92-111 | a document built from a list gives the same address and program text as SIE4Content |
| Sie4.Assemble | src/main/java/se/bufferoverflow/sieport/sie4/SIE4.java:47-68 | the loop's buffer and result end as the step function's run over the lines; the first toModel failure ends it |
| Sie4.Parse | src/main/java/se/bufferoverflow/sieport/sie4/SIE4.java:43-72 | parse returns the assembled items as the content of the file |
| Sie4.ParseItems | src/main/java/se/bufferoverflow/sieport/sie4/SIE4Parser.java:30-59 | parse returns the assembled items as a bare list |
| Sie4.StepExtends | src/main/java/se/bufferoverflow/sieport/sie4/SIE4.java:51-66 | one line keeps the items read so far and adds at most one, only at a "}" or outside a block |
| Sie4.PlainLinesRead | src/main/java/se/bufferoverflow/sieport/sie4/SIE4Parser.java:46-52 | outside a block every plain line gives exactly one item, in input order, until the first that fails |
| Sie4.BraceLineIgnored | src/main/java/se/bufferoverflow/sieport/sie4/SIE4.java:59 | a "{" line changes nothing, inside or outside a block |
| Sie4.OpenBlockAbsorbs | src/main/java/se/bufferoverflow/sieport/sie4/SIE4.java:60-61 | while a block is open and no "}" comes, the loop never fails and adds no item |
| Sie4.CloseRun | src/main/java/se/bufferoverflow/sieport/sie4/SIE4.java:56-58 | a "}" reads the buffer as one item and empties the buffer |
| Sie4.UnterminatedBlockDropped | src/main/java/se/bufferoverflow/sieport/sie4/SIE4.java:51-68 | a block the input never closes is dropped without error |
| Sie4.CloseWithoutBlockFails | src/main/java/se/bufferoverflow/sieport/sie4/SIE4.java:57 | a "}" with no open block fails, as getFirst of an empty list does |
| Sie4.BlankLineFails | src/main/java/se/bufferoverflow/sieport/sie4/parser/InFieldMapper.java:597-599 | a blank line outside a block fails |
| Sie4.SecondVerRejected | src/main/java/se/bufferoverflow/sieport/sie4/SIE4.java:54-55 | a second "#VER" before "}" joins the block, and the block is refused when closed |
| Sie4Writer.Write | src/main/java/se/bufferoverflow/sieport/sie4/SIE4.java:86-101 | with SKIP_VALIDATION always succeeds; otherwise fails exactly when the 4I (with SIE4I) or 4E errors are non-empty, with "Validation failed: " and the joined names; on success prints toFileString of every item in order |
| Sie4Writer.PrintAll | src/main/java/se/bufferoverflow/sieport/sie4/SIE4.java:100 | one printed entry per item, in list order |
| Sie4Writer.ValidatedWriteComplete | src/main/java/se/bufferoverflow/sieport/sie4/SIE4.java:88-97 | a validated write guarantees the profile's mandatory types are present, and under 4I none of the forbidden ones |
| Sie4Writer.FailureMessageNames | src/main/java/se/bufferoverflow/sieport/sie4/SIE4.java:93-94 | with two errors the message is "Validation failed: ", the first name, ", " and the second name |
| Sie4RoundTrip.EntryLines | src/main/java/se/bufferoverflow/sieport/sie4/writer/OutFieldMapper.java:261-285 | toFileString's text is its lines joined by line feeds: one line, or header, "{", one line per transaction, "}" |
| Sie4RoundTrip.ReadDocumentLines | src/main/java/se/bufferoverflow/sieport/sie4/SIE4.java:43-101 | the lines written for well-formed items are read back by parse as exactly those items, in order |

## Left out

- Streams, files, `PrintWriter`, `BufferedReader.readLine` and the IBM-437
  character set are not modelled. Parsing takes the file as a sequence of
  lines. Writing produces one text per item, and its lines are the
  text split at line feeds.
- Null arguments are not modelled, so `Objects.requireNonNull`, the null
  checks of `writeItem` and `splitLine`, and null fields of records are
  left out. SIE4Document's "null" single fields are `Option`s, and its list
  fields always hold a list.
- Exception classes are not kept apart. IllegalArgumentException,
  SIE4Exception, index-out-of-bounds and no-such-element failures are all
  one `Err` with a kind, and messages are kept only where a contract
  states them.
- `BigDecimal` is modelled in plain notation only. There is no exponent
  input or scientific `toString`, and equality is scale-sensitive.
- `LocalDate` covers years from 1 in the `yyyyMMdd` pattern. The SMART
  resolver's clamping is modelled. Years of more than four digits, signs
  and other patterns are not.
- `Values.ParsePeriod`: `Period.of(String)` reads a `yyyyMM` pattern whose
  year field also takes a sign and more than four digits (Java reads
  `+2024501` as year 20245, month 1). The model accepts exactly six digits.
- `CompanyType.java` is not part of this model. Its known names are taken
  to be the single value `AB`.
- `Flagga.UNSET`, `Format.pc8()`, `Ver.of`, `Trans.of` and the Flagga range
  check do not exist in `SIE4Item.java` or `FileItem.java`. UNSET is `Flagga(0)`, pc8 is
  `Format("PC8")`, and the range check is not modelled.
- `Label` enum and `valueOf`: labels are the item types, found by name,
  and an unknown name is an error.
- Regular expressions: only `\s+` in `split` and the field pattern are
  modelled, by hand-written scanners.
- `Sie4.Assemble`: the mapper is a parameter, so one loop models both
  `SIE4.parse` (over InFieldMapper) and `SIE4Parser.parse` (over
  FieldMapper), which run the same rules.
- `RecordRoundTrip.PeriodBalanceReadsBack`,
  `ItemRoundTrip.RecordReadsBack` and `Sie4RoundTrip.ReadDocumentLines`
  hold only for well-formed records. Well-formed means:
  - text columns hold no quote, backslash, brace or white space other
    than the space;
  - object numbers hold no space;
  - years have four digits;
  - no optional column is absent before a present one.

  Outside these conditions, absent middle columns collapse on re-reading
  and the later columns shift left.
- List aliasing in `SIE4Document`: the constructors store the caller's
  lists and the getters return them, so a later change to such a list
  shows through the document. The model keeps each list as a value
  (`seq`), so that sharing is not captured.
- `Content.Filter` and `Content.GetItem`: Java's `getItems(Class)` and
  `getItem(Class)` accept any class, including the `Transaction`
  interface, which matches three record types. The model takes one
  concrete item type.
- `Document.Sie4Document.SetFlagga` and its siblings: only the setters
  and builder methods of FLAGGA and VER are listed above. The other 30
  pairs have the same contract over their own field.
- The VER writer's expected text in the project's tests differs from the
  writer's code for a voucher with no series and no number. The code
  (OutFieldMapper.java:264-266) leaves both out, which gives
  `#VER  20211125 Verifikattitel` with two spaces. The test expects
  `#VER "" "" 20211125 Verifikattitel`. The model follows the code. When
  series and number are present, code and test agree.
- `OutFieldMapper.WriteFields`: prints the period of PBUDGET and PSALDO as
  yyyyMM (the corrected member of the "## Findings" row), not with `%s` as
  OutFieldMapper.java:159 does. The as-written printer is
  `OutFieldMapper.WritePeriodBalanceAsWritten`.
- `ItemRoundTrip.RecordReadsBack`: for PBUDGET and PSALDO it holds for the
  corrected yyyyMM printer only. With the printer as written those lines are
  not read back (`RecordRoundTrip.PeriodBalanceAsWrittenUnreadable`).
- `ItemRoundTrip.RecordLineReads`: the same; its PBUDGET and PSALDO lines
  are those of the corrected printer.
- `Sie4RoundTrip.ReadDocumentLines`: the same; a document holding PBUDGET
  or PSALDO items reads back only through the corrected printer. The
  as-written `SIE4.write` prints lines that `SIE4.parse` refuses.
- `Text.ToUpper`: folds only the ASCII letters `a` to `z`, under a neutral
  locale. Java's `String.toUpperCase()` maps all of Unicode under the
  default locale. For example, Java reads `#adreß` as ADRESS and the model
  refuses it. Under a Turkish locale Java refuses `#sietyp` and the model
  accepts it.
- `Text.EqualsIgnoreCase`: compares ASCII letters without case and every
  other character exactly. Java's `equalsIgnoreCase` also folds non-ASCII
  letters. It is used only against "PC8" in FORMAT.
- `InFieldMapper.SplitLineAnyCase`: holds for the ASCII folding of
  `Text.ToUpper` only.
- `InFieldMapper.AccountTypeOfName`: holds for the ASCII folding of
  `Text.ToUpper` only.
- `InFieldMapper.CompanyTypeOfName`: holds for the ASCII folding of
  `Text.ToUpper` only.
- Strings are sequences of Unicode scalar values, not of UTF-16 code
  units. Surrogate pairs are not modelled.

## Findings

| source | as written | input that shows it | evidently intended | confidence | as-written member | corrected member |
|---|---|---|---|---|---|---|
| src/main/java/se/bufferoverflow/sieport/sie4/writer/OutFieldMapper.java:159 | PBUDGET and PSALDO print the period with `%s`, which uses the generated `Period.toString`, e.g. `Period[year=2024, month=1]` | `Pbudget(0, Period(2024, 1), 3000, none, 100.00, none)`: the line is not read back, because its period column is not yyyyMM (and with a quantity the line has seven fields, one more than allowed) | the period printed as yyyyMM (`202401`), which `Period.of(String)` reads back | not executed | RecordRoundTrip.PeriodBalanceAsWrittenUnreadable | RecordRoundTrip.PeriodBalanceReadsBack |
