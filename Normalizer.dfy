/**
 * The normalizer service: messages arrive over HTTP (CSV or XML text) or as
 * properties files, a router picks a sub-flow by the `contentType` header,
 * and each sub-flow turns its payload into one `CreditCardTransaction`. For
 * file input the result is written to a file whose name is derived from the
 * input file's name.
 *
 * Every transform builds one fresh bean through its setters (`Transactions.Build`);
 * here a transform yields the field values of that bean.
 */
module NormalizerApplication {
  import opened JavaLang
  import opened Numbers
  import opened Transactions

  type Headers = map<string, string>

  const CONTENT_TYPE := "contentType"
  const REPLY_CHANNEL := "replyChannel"
  /** `FileHeaders.FILENAME`, set by the file inbound adapter. */
  const FILENAME := "file_name"

  const APPLICATION_XML := "application/xml"
  const TEXT_CSV := "text/csv"
  const APPLICATION_PROPERTIES := "application/properties"
  const FILES_OUTPUT_CHANNEL := "normalizerFilesOutput.input"

  const ID_KEY := "card-transaction.id"
  const CARD_NUMBER_KEY := "card-transaction.card-number"
  const DATE_KEY := "card-transaction.date"
  const AMOUNT_KEY := "card-transaction.amount"
  const MERCHANT_KEY := "card-transaction.merchant"

  /** A message payload: request text, or the `java.util.Properties` loaded from a file. */
  datatype Payload = Text(text: string) | Properties(properties: map<string, string>)

  datatype Message = Message(payload: Payload, headers: Headers)

  datatype SubFlow = XmlToJson | CsvToJson | PropertiesToJson

  /**
   * What a sub-flow produces: the `CreditCardTransaction` its transform builds
   * (which the properties sub-flow then writes as JSON text), or XML text
   * handed to the JAXB unmarshaller.
   */
  datatype Normalized = Bean(transaction: TransactionFields) | UnmarshalledXml(xml: Payload)

  /** The content type each sub-flow is mapped to. */
  function MediaType(f: SubFlow): string
  {
    match f
    case XmlToJson => APPLICATION_XML
    case CsvToJson => TEXT_CSV
    case PropertiesToJson => APPLICATION_PROPERTIES
  }

  /**
   * The router: the sub-flow mapped to the `contentType` header; `None` when
   * the header is absent or has no mapping, where the router throws because
   * no channel is resolved.
   */
  function Route(headers: Headers): (r: Option<SubFlow>)
    ensures r.Some? ==> CONTENT_TYPE in headers && headers[CONTENT_TYPE] == MediaType(r.value)
    ensures r.None? ==> forall f: SubFlow :: !(CONTENT_TYPE in headers && headers[CONTENT_TYPE] == MediaType(f))
  {
    if CONTENT_TYPE !in headers then None
    else if headers[CONTENT_TYPE] == APPLICATION_XML then Some(XmlToJson)
    else if headers[CONTENT_TYPE] == TEXT_CSV then Some(CsvToJson)
    else if headers[CONTENT_TYPE] == APPLICATION_PROPERTIES then Some(PropertiesToJson)
    else None
  }

  /** Every sub-flow is reached by exactly its own content type. */
  lemma {:induction false} RouteByMediaType(headers: Headers, f: SubFlow)
    ensures Route(headers) == Some(f) <==> CONTENT_TYPE in headers && headers[CONTENT_TYPE] == MediaType(f)
  {
    if CONTENT_TYPE in headers && headers[CONTENT_TYPE] == MediaType(f) {
      assert Route(headers).Some?;
    }
  }

  function SetIfAbsent(h: Headers, key: string, value: string): Headers
  {
    if key in h then h else h[key := value]
  }

  /**
   * `enrichHeaders(Map.of(contentType, "application/properties", replyChannel,
   * "normalizerFilesOutput.input"))`: the enricher does not overwrite by
   * default, so a header already present keeps its value.
   */
  function EnrichFileHeaders(h: Headers): (r: Headers)
    ensures r.Keys == h.Keys + {CONTENT_TYPE, REPLY_CHANNEL}
    ensures forall k :: k in h ==> r[k] == h[k]
    ensures CONTENT_TYPE !in h ==> r[CONTENT_TYPE] == APPLICATION_PROPERTIES
    ensures REPLY_CHANNEL !in h ==> r[REPLY_CHANNEL] == FILES_OUTPUT_CHANNEL
  {
    SetIfAbsent(SetIfAbsent(h, CONTENT_TYPE, APPLICATION_PROPERTIES), REPLY_CHANNEL, FILES_OUTPUT_CHANNEL)
  }

  /** The message the file flow sends on: the loaded properties, the file name header, then the enriched headers. */
  function FileInputMessage(fileName: string, properties: map<string, string>): Message
  {
    Message(Properties(properties), EnrichFileHeaders(map[FILENAME := fileName]))
  }

  /** Every file input takes the properties route, and its reply goes to the file output flow. */
  lemma FileInputRoute(fileName: string, properties: map<string, string>)
    ensures Route(FileInputMessage(fileName, properties).headers) == Some(PropertiesToJson)
    ensures FileInputMessage(fileName, properties).headers[REPLY_CHANNEL] == FILES_OUTPUT_CHANNEL
    ensures FileInputMessage(fileName, properties).headers[FILENAME] == fileName
  {
    var h := FileInputMessage(fileName, properties).headers;
    assert CONTENT_TYPE !in map[FILENAME := fileName];
    RouteByMediaType(h, PropertiesToJson);
  }

  /* ---------------------------------------------------------------------- */
  /* CSV                                                                    */

  /** Splitting on `d`, keeping every token, empty ones included. */
  function SplitOn(s: string, d: char): (r: seq<string>)
    ensures |r| >= 1
    ensures forall i :: 0 <= i < |r| ==> d !in r[i]
  {
    if s == [] then [""]
    else
      var rest := SplitOn(s[1..], d);
      if s[0] == d then [""] + rest else [[s[0]] + rest[0]] + rest[1..]
  }

  /** `StringUtils.commaDelimitedListToStringArray`: no tokens for empty text. */
  function CommaDelimitedList(s: string): seq<string>
  {
    if s == [] then [] else SplitOn(s, ',')
  }

  /** The fields joined with `d` between them. */
  function Join(fields: seq<string>, d: char): string
    requires |fields| >= 1
  {
    if |fields| == 1 then fields[0] else fields[0] + [d] + Join(fields[1..], d)
  }

  /** Splitting joined fields that do not contain the delimiter gives the fields back. */
  lemma {:induction false} SplitJoin(fields: seq<string>, d: char)
    requires |fields| >= 1
    requires forall i :: 0 <= i < |fields| ==> d !in fields[i]
    ensures SplitOn(Join(fields, d), d) == fields
  {
    if |fields| == 1 {
      SplitNoDelimiter(fields[0], d);
    } else {
      SplitJoin(fields[1..], d);
      SplitAppend(fields[0], Join(fields[1..], d), d);
      SplitNoDelimiter(fields[0], d);
      assert [fields[0]] + fields[1..] == fields;
    }
  }

  /** Joining the tokens of a split gives the text back. */
  lemma {:induction false} JoinSplit(s: string, d: char)
    ensures Join(SplitOn(s, d), d) == s
  {
    if s != [] {
      JoinSplit(s[1..], d);
      var rest := SplitOn(s[1..], d);
      if s[0] == d {
        assert [""] + rest == [""] + rest;
        assert ([""] + rest)[1..] == rest;
        assert s == [d] + s[1..];
      } else {
        var r := [[s[0]] + rest[0]] + rest[1..];
        if |rest| == 1 {
          assert s == [s[0]] + s[1..];
        } else {
          assert r[1..] == rest[1..];
          assert Join(rest, d) == rest[0] + [d] + Join(rest[1..], d);
          assert s == [s[0]] + s[1..];
        }
      }
    }
  }

  lemma {:induction false} SplitNoDelimiter(s: string, d: char)
    requires d !in s
    ensures SplitOn(s, d) == [s]
  {
    if s != [] {
      assert d !in s[1..] by {
        forall i | 0 <= i < |s[1..]| ensures s[1..][i] != d {
          assert s[1..][i] == s[i + 1];
        }
      }
      SplitNoDelimiter(s[1..], d);
      assert [s[0]] + s[1..] == s;
    }
  }

  /** A delimiter splits the text into the tokens before it and the tokens after it. */
  lemma {:induction false} SplitAppend(s: string, t: string, d: char)
    ensures SplitOn(s + [d] + t, d) == SplitOn(s, d) + SplitOn(t, d)
  {
    if s == [] {
      assert s + [d] + t == [d] + t;
      assert ([d] + t)[1..] == t;
    } else {
      assert (s + [d] + t)[1..] == s[1..] + [d] + t;
      SplitAppend(s[1..], t, d);
    }
  }

  /**
   * The CSV sub-flow's transform: split on commas, then read fields 0 to 4 in
   * order as id (`Long.parseLong`), card number, date (`new Date(Long.parseLong(..))`),
   * amount (`new BigDecimal(..)`) and merchant. A missing field throws
   * `ArrayIndexOutOfBoundsException` when it is reached; fields after the
   * fifth are not read.
   */
  function CsvToTransaction(payload: string): (r: Result<TransactionFields, Throwable>)
    ensures var a := CommaDelimitedList(payload);
      r.Ok? <==> |a| >= 5 && ParseLong(a[0]).Ok? && ParseLong(a[2]).Ok? && ParseDecimal(a[3]).Ok?
    ensures var a := CommaDelimitedList(payload);
      r.Ok? ==> r.value == TransactionFields(
        Some(ParseLong(a[0]).value), Some(a[1]), Some(ParseLong(a[2]).value), Some(ParseDecimal(a[3]).value), Some(a[4]))
    ensures var a := CommaDelimitedList(payload);
      |a| >= 1 && ParseLong(a[0]).Err? ==> r == Err(NumberFormatException)
    ensures var a := CommaDelimitedList(payload);
      |a| >= 3 && ParseLong(a[0]).Ok? && ParseLong(a[2]).Err? ==> r == Err(NumberFormatException)
    ensures var a := CommaDelimitedList(payload);
      |a| < 5 && (|a| == 0 || ParseLong(a[0]).Ok?) && (|a| <= 2 || ParseLong(a[2]).Ok?) && (|a| <= 3 || ParseDecimal(a[3]).Ok?)
      ==> r == Err(ArrayIndexOutOfBoundsException)
  {
    var a := CommaDelimitedList(payload);
    if |a| < 1 then Err(ArrayIndexOutOfBoundsException)
    else match ParseLong(a[0])
    case Err(e) => Err(e)
    case Ok(id) =>
      if |a| < 2 then Err(ArrayIndexOutOfBoundsException)
      else
        var cardNumber := a[1];
        if |a| < 3 then Err(ArrayIndexOutOfBoundsException)
        else match ParseLong(a[2])
        case Err(e) => Err(e)
        case Ok(date) =>
          if |a| < 4 then Err(ArrayIndexOutOfBoundsException)
          else match ParseDecimal(a[3])
          case Err(e) => Err(e)
          case Ok(amount) =>
            if |a| < 5 then Err(ArrayIndexOutOfBoundsException)
            else Ok(TransactionFields(Some(id), Some(cardNumber), Some(date), Some(amount), Some(a[4])))
  }

  /** Text after a fifth field does not change the transaction. */
  lemma ExtraFieldsIgnored(fields: seq<string>, extra: string)
    requires |fields| == 5
    requires forall i :: 0 <= i < 5 ==> ',' !in fields[i]
    ensures CsvToTransaction(Join(fields, ',') + "," + extra) == CsvToTransaction(Join(fields, ','))
  {
    var s := Join(fields, ',');
    SplitJoin(fields, ',');
    assert s + "," + extra == s + [','] + extra;
    SplitAppend(s, extra, ',');
    assert s != [] by {
      assert SplitOn(s, ',') != [""];
    }
    var a := CommaDelimitedList(s + "," + extra);
    assert a[..5] == fields;
  }

  /** The CSV record of a transaction whose five properties are set, as the normalizer's tests write it. */
  function CsvRecord(t: TransactionFields): string
    requires t.id.Some? && t.cardNumber.Some? && t.transactionDate.Some? && t.amount.Some? && t.merchant.Some?
  {
    Join([FormatLong(t.id.value), t.cardNumber.value, FormatLong(t.transactionDate.value),
      ToPlainString(t.amount.value), t.merchant.value], ',')
  }

  lemma NoCommaInDigits(s: string)
    requires AllDigits(s)
    ensures ',' !in s
  {
  }

  lemma NoCommaInLong(n: int)
    ensures ',' !in FormatLong(n)
  {
    NoCommaInDigits(NatToDigits(if n < 0 then -n else n));
  }

  lemma NoCommaInPlain(m: nat, scale: nat)
    ensures ',' !in PlainUnsigned(m, scale)
  {
    if scale == 0 {
      NoCommaInDigits(NatToDigits(m));
    } else {
      var padded := Padded(m, scale);
      PaddedDigits(m, scale);
      AllDigitsSplit(padded, |padded| - scale);
      NoCommaInDigits(padded[..|padded| - scale]);
      NoCommaInDigits(padded[|padded| - scale..]);
    }
  }

  lemma NoCommaInDecimal(d: Decimal)
    ensures ',' !in ToPlainString(d)
  {
    var m: nat := if d.unscaled < 0 then -d.unscaled else d.unscaled;
    NoCommaInPlain(m, d.scale);
    assert ToPlainString(d) == (if d.unscaled < 0 then "-" else "") + PlainUnsigned(m, d.scale);
  }

  /**
   * CSV round trip: a transaction whose card number and merchant contain no
   * comma, written as a CSV record and normalized, is an equal transaction.
   */
  lemma CsvRoundTrip(t: TransactionFields)
    requires t.id.Some? && t.cardNumber.Some? && t.transactionDate.Some? && t.amount.Some? && t.merchant.Some?
    requires ',' !in t.cardNumber.value && ',' !in t.merchant.value
    ensures CsvToTransaction(CsvRecord(t)) == Ok(t)
  {
    var fields := [FormatLong(t.id.value), t.cardNumber.value, FormatLong(t.transactionDate.value),
      ToPlainString(t.amount.value), t.merchant.value];
    NoCommaInLong(t.id.value);
    NoCommaInLong(t.transactionDate.value);
    NoCommaInDecimal(t.amount.value);
    SplitJoin(fields, ',');
    LongRoundTrip(t.id.value);
    LongRoundTrip(t.transactionDate.value);
    DecimalRoundTrip(t.amount.value);
    assert CsvRecord(t) != [] by {
      assert |FormatLong(t.id.value)| >= 1;
    }
  }

  /* ---------------------------------------------------------------------- */
  /* Properties                                                             */

  /** `Properties.getProperty`: `null` for a missing key. */
  function GetProperty(p: map<string, string>, key: string): Option<string>
  {
    if key in p then Some(p[key]) else None
  }

  /** `Long.parseLong` of a nullable string: `null` throws `NumberFormatException`. */
  function ParseNullableLong(s: Option<string>): (r: Result<Long, Throwable>)
    ensures s.None? ==> r == Err(NumberFormatException)
  {
    match s
    case None => Err(NumberFormatException)
    case Some(v) => ParseLong(v)
  }

  /** `new BigDecimal(String)` of a nullable string: `null` throws `NullPointerException`. */
  function ParseNullableDecimal(s: Option<string>): (r: Result<Decimal, Throwable>)
    ensures s.None? ==> r == Err(NullPointerException)
  {
    match s
    case None => Err(NullPointerException)
    case Some(v) => ParseDecimal(v)
  }

  /**
   * The properties sub-flow's transform: the five `card-transaction.*` keys
   * read in order into id, card number, date, amount and merchant. A missing
   * card number or merchant leaves that property `null`.
   */
  function PropertiesToTransaction(p: map<string, string>): (r: Result<TransactionFields, Throwable>)
    ensures r.Ok? <==>
      ParseNullableLong(GetProperty(p, ID_KEY)).Ok? && ParseNullableLong(GetProperty(p, DATE_KEY)).Ok? &&
      ParseNullableDecimal(GetProperty(p, AMOUNT_KEY)).Ok?
    ensures r.Ok? ==> r.value == TransactionFields(
      Some(ParseNullableLong(GetProperty(p, ID_KEY)).value),
      GetProperty(p, CARD_NUMBER_KEY),
      Some(ParseNullableLong(GetProperty(p, DATE_KEY)).value),
      Some(ParseNullableDecimal(GetProperty(p, AMOUNT_KEY)).value),
      GetProperty(p, MERCHANT_KEY))
  {
    match ParseNullableLong(GetProperty(p, ID_KEY))
    case Err(e) => Err(e)
    case Ok(id) =>
      var cardNumber := GetProperty(p, CARD_NUMBER_KEY);
      match ParseNullableLong(GetProperty(p, DATE_KEY))
      case Err(e) => Err(e)
      case Ok(date) =>
        match ParseNullableDecimal(GetProperty(p, AMOUNT_KEY))
        case Err(e) => Err(e)
        case Ok(amount) =>
          Ok(TransactionFields(Some(id), cardNumber, Some(date), Some(amount), GetProperty(p, MERCHANT_KEY)))
  }

  /** Keys other than the five `card-transaction.*` keys do not influence the transform. */
  lemma PropertiesReadsOnlyFiveKeys(p: map<string, string>, q: map<string, string>)
    requires forall k :: k in {ID_KEY, CARD_NUMBER_KEY, DATE_KEY, AMOUNT_KEY, MERCHANT_KEY} ==>
      GetProperty(p, k) == GetProperty(q, k)
    ensures PropertiesToTransaction(p) == PropertiesToTransaction(q)
  {
    assert GetProperty(p, ID_KEY) == GetProperty(q, ID_KEY);
    assert GetProperty(p, CARD_NUMBER_KEY) == GetProperty(q, CARD_NUMBER_KEY);
    assert GetProperty(p, DATE_KEY) == GetProperty(q, DATE_KEY);
    assert GetProperty(p, AMOUNT_KEY) == GetProperty(q, AMOUNT_KEY);
    assert GetProperty(p, MERCHANT_KEY) == GetProperty(q, MERCHANT_KEY);
  }

  function OptionalEntry(key: string, value: Option<string>): map<string, string>
  {
    if value.Some? then map[key := value.value] else map[]
  }

  /** The properties the normalizer's tests store for a transaction; a `null` property is not stored. */
  function TransactionProperties(t: TransactionFields): map<string, string>
    requires t.id.Some? && t.transactionDate.Some? && t.amount.Some?
  {
    map[ID_KEY := FormatLong(t.id.value),
        DATE_KEY := FormatLong(t.transactionDate.value),
        AMOUNT_KEY := ToPlainString(t.amount.value)]
      + OptionalEntry(CARD_NUMBER_KEY, t.cardNumber)
      + OptionalEntry(MERCHANT_KEY, t.merchant)
  }

  /** Properties round trip: storing a transaction under the five keys and normalizing gives an equal transaction. */
  lemma PropertiesRoundTrip(t: TransactionFields)
    requires t.id.Some? && t.transactionDate.Some? && t.amount.Some?
    ensures PropertiesToTransaction(TransactionProperties(t)) == Ok(t)
  {
    var p := TransactionProperties(t);
    assert GetProperty(p, ID_KEY) == Some(FormatLong(t.id.value));
    assert GetProperty(p, DATE_KEY) == Some(FormatLong(t.transactionDate.value));
    assert GetProperty(p, AMOUNT_KEY) == Some(ToPlainString(t.amount.value));
    assert GetProperty(p, CARD_NUMBER_KEY) == t.cardNumber;
    assert GetProperty(p, MERCHANT_KEY) == t.merchant;
    LongRoundTrip(t.id.value);
    LongRoundTrip(t.transactionDate.value);
    DecimalRoundTrip(t.amount.value);
  }

  /* ---------------------------------------------------------------------- */
  /* The flow                                                               */

  /**
   * `normalizer.input`: route, then run the sub-flow. An unrouted message is a
   * `MessageDeliveryException`: exactly so when the `contentType` header is
   * missing, and as an approximation when its value maps to no sub-flow, where
   * the router first tries the value as a channel name and fails with a
   * `MessagingException`. The transforming handler wraps whatever its
   * transform throws in a `MessageTransformationException`; a payload of the
   * wrong type for its sub-flow fails there as a `ClassCastException`.
   */
  function Normalize(m: Message): Result<Normalized, Throwable>
  {
    match Route(m.headers)
    case None => Err(MessageDeliveryException)
    case Some(XmlToJson) => Ok(UnmarshalledXml(m.payload))
    case Some(CsvToJson) =>
      if m.payload.Text? then Transformed(CsvToTransaction(m.payload.text))
      else Err(MessageTransformationException(ClassCastException))
    case Some(PropertiesToJson) =>
      if m.payload.Properties? then Transformed(PropertiesToTransaction(m.payload.properties))
      else Err(MessageTransformationException(ClassCastException))
  }

  /** The transforming handler around a transform: its bean, or its exception as the cause of the handler's. */
  function Transformed(r: Result<TransactionFields, Throwable>): Result<Normalized, Throwable>
  {
    match r
    case Ok(t) => Ok(Bean(t))
    case Err(e) => Err(MessageTransformationException(e))
  }

  /**
   * A request with content type `text/csv` normalizes to a transaction
   * exactly when its first five fields hold a parseable id, date and amount,
   * and the transaction holds the five fields; otherwise the caller gets the
   * transform's exception wrapped by the handler.
   */
  lemma NormalizeCsv(text: string, headers: Headers)
    requires CONTENT_TYPE in headers && headers[CONTENT_TYPE] == TEXT_CSV
    ensures var r := Normalize(Message(Text(text), headers));
      var a := CommaDelimitedList(text);
      (r.Ok? <==> |a| >= 5 && ParseLong(a[0]).Ok? && ParseLong(a[2]).Ok? && ParseDecimal(a[3]).Ok?) &&
      (r.Ok? ==> r.value == Bean(TransactionFields(
        Some(ParseLong(a[0]).value), Some(a[1]), Some(ParseLong(a[2]).value), Some(ParseDecimal(a[3]).value), Some(a[4])))) &&
      (r.Err? ==> r.error == MessageTransformationException(CsvToTransaction(text).error))
  {
    RouteByMediaType(headers, CsvToJson);
  }

  /**
   * A message with content type `application/properties` normalizes to a
   * transaction exactly when the id, date and amount keys hold parseable
   * text, and the transaction holds the five keys' values; otherwise the
   * caller gets the transform's exception wrapped by the handler.
   */
  lemma NormalizeProperties(p: map<string, string>, headers: Headers)
    requires CONTENT_TYPE in headers && headers[CONTENT_TYPE] == APPLICATION_PROPERTIES
    ensures var r := Normalize(Message(Properties(p), headers));
      (r.Ok? <==>
        ParseNullableLong(GetProperty(p, ID_KEY)).Ok? && ParseNullableLong(GetProperty(p, DATE_KEY)).Ok? &&
        ParseNullableDecimal(GetProperty(p, AMOUNT_KEY)).Ok?) &&
      (r.Ok? ==> r.value == Bean(TransactionFields(
        Some(ParseNullableLong(GetProperty(p, ID_KEY)).value),
        GetProperty(p, CARD_NUMBER_KEY),
        Some(ParseNullableLong(GetProperty(p, DATE_KEY)).value),
        Some(ParseNullableDecimal(GetProperty(p, AMOUNT_KEY)).value),
        GetProperty(p, MERCHANT_KEY)))) &&
      (r.Err? ==> r.error == MessageTransformationException(PropertiesToTransaction(p).error))
  {
    RouteByMediaType(headers, PropertiesToJson);
  }

  /**
   * A message with no content type, or one that is none of the three media
   * types, reaches no sub-flow and fails in the router, whatever its payload.
   */
  lemma NormalizeUnrouted(m: Message)
    requires CONTENT_TYPE !in m.headers ||
      (m.headers[CONTENT_TYPE] != APPLICATION_XML && m.headers[CONTENT_TYPE] != TEXT_CSV &&
       m.headers[CONTENT_TYPE] != APPLICATION_PROPERTIES)
    ensures Normalize(m) == Err(MessageDeliveryException)
  {
  }

  /**
   * The CSV request of the normalizer's tests: a transaction written as a
   * comma-joined record and posted as `text/csv` comes back as an equal
   * transaction.
   */
  lemma CsvRequestRoundTrip(t: TransactionFields, headers: Headers)
    requires t.id.Some? && t.cardNumber.Some? && t.transactionDate.Some? && t.amount.Some? && t.merchant.Some?
    requires ',' !in t.cardNumber.value && ',' !in t.merchant.value
    requires CONTENT_TYPE in headers && headers[CONTENT_TYPE] == TEXT_CSV
    ensures Normalize(Message(Text(CsvRecord(t)), headers)) == Ok(Bean(t))
  {
    RouteByMediaType(headers, CsvToJson);
    CsvRoundTrip(t);
  }

  /**
   * `name.split("\\.")[0]`: the text before the first `.`. Java's `split`
   * drops trailing empty tokens, so a non-empty name made only of dots gives
   * no token at all and `[0]` is out of bounds.
   */
  function BaseName(name: string): (r: Result<string, Throwable>)
    ensures r.Err? <==> |name| > 0 && forall i :: 0 <= i < |name| ==> name[i] == '.'
    ensures r.Err? ==> r.error == ArrayIndexOutOfBoundsException
    ensures r.Ok? ==> '.' !in r.value && r.value <= name
    ensures r.Ok? ==> r.value == name || name[|r.value|] == '.'
  {
    if |name| > 0 && forall i :: 0 <= i < |name| ==> name[i] == '.' then Err(ArrayIndexOutOfBoundsException)
    else match IndexOf(name, '.')
      case None => Ok(name)
      case Some(i) => Ok(name[..i])
  }

  /** The file name generator of the file output flow: the base name followed by `.json`; no `file_name` header is a `NullPointerException`. */
  function OutputFileName(headers: Headers): (r: Result<string, Throwable>)
    ensures FILENAME !in headers ==> r == Err(NullPointerException)
    ensures FILENAME in headers && BaseName(headers[FILENAME]).Ok? ==>
      r == Ok(BaseName(headers[FILENAME]).value + ".json")
  {
    if FILENAME !in headers then Err(NullPointerException)
    else match BaseName(headers[FILENAME])
      case Err(e) => Err(e)
      case Ok(base) => Ok(base + ".json")
  }

  /** What the file flow writes for one input file: the output file name and the normalized transaction. */
  function NormalizeFile(fileName: string, properties: map<string, string>): Result<(string, Normalized), Throwable>
  {
    var m := FileInputMessage(fileName, properties);
    match Normalize(m)
    case Err(e) => Err(e)
    case Ok(n) =>
      match OutputFileName(m.headers)
      case Err(e) => Err(e)
      case Ok(name) => Ok((name, n))
  }

  lemma BaseNameOfPropertiesFile(base: string)
    requires '.' !in base
    ensures BaseName(base + ".properties") == Ok(base)
  {
    var name := base + ".properties";
    assert name[|base|] == '.' && name[|base| + 1] == 'p';
    assert forall i :: 0 <= i < |base| ==> name[i] == base[i];
    assert IndexOf(name, '.') == Some(|base|);
    assert name[..|base|] == base;
  }

  /**
   * A transaction stored as `<base>.properties` comes out as `<base>.json`
   * holding an equal transaction, for any base name without a dot.
   */
  lemma FileRoundTrip(base: string, t: TransactionFields)
    requires '.' !in base
    requires t.id.Some? && t.transactionDate.Some? && t.amount.Some?
    ensures NormalizeFile(base + ".properties", TransactionProperties(t)) == Ok((base + ".json", Bean(t)))
  {
    var name := base + ".properties";
    var m := FileInputMessage(name, TransactionProperties(t));
    FileInputRoute(name, TransactionProperties(t));
    PropertiesRoundTrip(t);
    assert Normalize(m) == Ok(Bean(t));
    BaseNameOfPropertiesFile(base);
    assert OutputFileName(m.headers) == Ok(base + ".json");
  }

  /** The file of the normalizer's tests: `testCardTransaction.properties` becomes `testCardTransaction.json`. */
  lemma TestCardTransactionFile(t: TransactionFields)
    requires t.id.Some? && t.transactionDate.Some? && t.amount.Some?
    ensures NormalizeFile("testCardTransaction.properties", TransactionProperties(t)) ==
      Ok(("testCardTransaction.json", Bean(t)))
  {
    var base := "testCardTransaction";
    assert '.' !in base;
    assert base + ".properties" == "testCardTransaction.properties";
    assert base + ".json" == "testCardTransaction.json";
    FileRoundTrip(base, t);
  }
}
