/** The CSV ingestion of the upload component: the file-type check, the
    checks on the parser's outcome (parser errors, empty data, required
    headers), the all-or-nothing normalisation and numeric coercion of every
    row, and the component state (`file`, `parsedData`, `error`, `isLoading`)
    those steps update. The tokenizer itself is outside the model: its
    outcome is an input. */
module CsvUpload {
  import opened Seqs
  import opened Text
  import Dates

  /** A cell of a parsed row, as JavaScript sees it after dynamic typing:
      the parser may hand over a string, a number, a boolean or a `Date`. */
  datatype Cell = Null | Undefined | Str(s: string) | Num(n: real) | NaN | Boolean(b: bool) | When(date: Dates.Date)

  /** One `header: value` entry of a parsed row object. */
  datatype Field = Field(name: string, value: Cell)

  /** A parsed row object, its keys in header order. */
  type Row = seq<Field>

  /** A normalised record: one value per schema field, and no other key. */
  datatype Record = Record(timestamp: Cell, temperature: Cell, humidity: Cell, current: Cell, predicted_energy: Cell)

  /** What the tokenizer hands to the `complete` callback: `errors` (their
      messages), `data` and `meta.fields` (absent when the parser gave none). */
  datatype ParseResults = ParseResults(errors: seq<string>, data: seq<Row>, fields: Option<seq<string>>)

  datatype Result<T> = Ok(value: T) | Err(message: string)

  datatype HeaderCheck = Valid | Invalid(message: string)

  /** The check that stopped a load. */
  datatype Stage = ParserErrors | EmptyData | Headers | Rows

  /** The effect of one `complete` callback. */
  datatype Outcome = Loaded(records: seq<Record>) | Rejected(stage: Stage, message: string)

  /** The five schema fields, in the order of the required header list. */
  datatype Key = Timestamp | Temperature | Humidity | Current | PredictedEnergy

  /** The column name of a schema field. */
  function Name(k: Key): string
  {
    match k
    case Timestamp => "timestamp"
    case Temperature => "temperature"
    case Humidity => "humidity"
    case Current => "current"
    case PredictedEnergy => "predicted_energy"
  }

  /** The required header list, in its order. */
  const Schema: seq<Key> := [Timestamp, Temperature, Humidity, Current, PredictedEnergy]

  lemma SchemaHasEveryKey()
    ensures forall k: Key :: k in Schema
  {
    forall k: Key ensures k in Schema {
      match k
      case Timestamp => assert Schema[0] == k;
      case Temperature => assert Schema[1] == k;
      case Humidity => assert Schema[2] == k;
      case Current => assert Schema[3] == k;
      case PredictedEnergy => assert Schema[4] == k;
    }
  }

  /** The schema names are already lower-case. */
  lemma NameIsLowerCase(k: Key)
    ensures Lower(Name(k)) == Name(k)
  {
    LowerOfLower(Name(k));
  }

  /** The names of a list of schema fields. */
  function Names(ks: seq<Key>): (r: seq<string>)
    ensures |r| == |ks|
    ensures forall i :: 0 <= i < |ks| ==> r[i] == Name(ks[i])
  {
    seq(|ks|, i requires 0 <= i < |ks| => Name(ks[i]))
  }

  // ---------------------------------------------------------------- headers

  /** The header list trimmed and lower-cased. */
  function NormalizedHeaders(headers: seq<string>): (r: seq<string>)
    ensures |r| == |headers|
    ensures forall i :: 0 <= i < |headers| ==> r[i] == Lower(Trim(headers[i]))
  {
    seq(|headers|, i requires 0 <= i < |headers| => Lower(Trim(headers[i])))
  }

  /** Every normalised header is trimmed and lower-case, so normalising a
      second time changes nothing. */
  lemma NormalizedHeadersIdempotent(headers: seq<string>)
    ensures forall h :: h in NormalizedHeaders(headers) ==> IsTrimmedLower(h)
    ensures NormalizedHeaders(NormalizedHeaders(headers)) == NormalizedHeaders(headers)
  {
    var r := NormalizedHeaders(headers);
    forall i | 0 <= i < |r| ensures IsTrimmedLower(r[i]) && Lower(Trim(r[i])) == r[i] {
      TrimLowerForm(headers[i]);
      TrimLowerFixed(r[i]);
    }
  }

  /** The required fields whose lower-cased name is not among the normalised
      headers, in schema order. */
  function MissingHeaders(headers: seq<string>): (r: seq<Key>)
    ensures |r| <= |Schema|
  {
    var normalized := NormalizedHeaders(headers);
    Filter(k => Lower(Name(k)) !in normalized, Schema)
  }

  /** `validateHeaders`: valid when no schema name is missing from the headers. */
  function ValidateHeaders(headers: seq<string>): HeaderCheck
  {
    var missing := MissingHeaders(headers);
    if |missing| > 0 then Invalid("Missing required headers: " + Join(Names(missing), ", ")) else Valid
  }

  /** Header validation succeeds exactly when every schema name occurs among the
      trimmed, lower-cased headers; otherwise the message lists the missing names. */
  lemma ValidateHeadersSpec(headers: seq<string>)
    ensures ValidateHeaders(headers).Valid? <==> forall k: Key :: Name(k) in NormalizedHeaders(headers)
    ensures ValidateHeaders(headers).Invalid? ==>
      ValidateHeaders(headers).message == "Missing required headers: " + Join(Names(MissingHeaders(headers)), ", ")
  {
    MissingHeadersExact(headers);
  }

  /** The missing list names exactly the schema fields absent from the
      trimmed, lower-cased header list, and keeps the schema order. */
  lemma MissingHeadersExact(headers: seq<string>)
    ensures forall k :: k in MissingHeaders(headers) <==> Name(k) !in NormalizedHeaders(headers)
    ensures MissingHeaders(headers) == [] <==> forall k: Key :: Name(k) in NormalizedHeaders(headers)
    ensures IsSubseq(MissingHeaders(headers), Schema)
  {
    SchemaHasEveryKey();
    forall k: Key ensures Lower(Name(k)) == Name(k) {
      NameIsLowerCase(k);
    }
    var missing := MissingHeaders(headers);
    if missing != [] {
      assert missing[0] in missing;
    }
    FilterIsSubseq(k => Lower(Name(k)) !in NormalizedHeaders(headers), Schema);
  }

  /** Headers that do not normalise to a schema name never change the result. */
  lemma ExtraHeadersIgnored(headers: seq<string>, extra: seq<string>)
    requires forall e, k :: e in extra ==> Lower(Trim(e)) != Name(k)
    ensures MissingHeaders(headers + extra) == MissingHeaders(headers)
    ensures ValidateHeaders(headers + extra) == ValidateHeaders(headers)
  {
    var all := NormalizedHeaders(headers + extra);
    var some := NormalizedHeaders(headers);
    forall k: Key
      ensures (Lower(Name(k)) !in all) == (Lower(Name(k)) !in some)
    {
      NameIsLowerCase(k);
      if Name(k) in all {
        var i :| 0 <= i < |all| && all[i] == Name(k);
        assert i < |headers|;
        assert some[i] == all[i];
      }
      if Name(k) in some {
        var i :| 0 <= i < |some| && some[i] == Name(k);
        assert all[i] == some[i];
      }
    }
    FilterCongruent(k => Lower(Name(k)) !in all, k => Lower(Name(k)) !in some, Schema);
  }

  /** Only which names occur (after trimming and lower-casing) matters:
      header order, casing and repetitions do not. */
  lemma HeaderOrderIrrelevant(a: seq<string>, b: seq<string>)
    requires forall x :: x in NormalizedHeaders(a) <==> x in NormalizedHeaders(b)
    ensures MissingHeaders(a) == MissingHeaders(b)
    ensures ValidateHeaders(a) == ValidateHeaders(b)
  {
    FilterCongruent(k => Lower(Name(k)) !in NormalizedHeaders(a), k => Lower(Name(k)) !in NormalizedHeaders(b), Schema);
  }

  // ---------------------------------------------------------------- rows

  /** `row[key]`: the value of the first field with that name, `undefined` when there is none. */
  function Get(row: Row, key: string): Cell
  {
    if row == [] then Undefined
    else if row[0].name == key then row[0].value
    else Get(row[1..], key)
  }

  /** A name that labels no field is looked up as `undefined`. */
  lemma {:induction false} GetAbsent(row: Row, key: string)
    requires forall i :: 0 <= i < |row| ==> row[i].name != key
    ensures Get(row, key) == Undefined
  {
    if row != [] {
      assert row[0].name != key;
      GetAbsent(row[1..], key);
    }
  }

  predicate Nullish(c: Cell) { c == Null || c == Undefined }

  /** `row[h] ?? row[h.toLowerCase()] ?? row[h.toUpperCase()]`. */
  function Resolve(row: Row, h: string): Cell
  {
    var exact := Get(row, h);
    if !Nullish(exact) then exact
    else
      var lower := Get(row, Lower(h));
      if !Nullish(lower) then lower else Get(row, Upper(h))
  }

  /** A required value counts as missing when null, undefined or the empty string. */
  predicate Missing(c: Cell) { c == Null || c == Undefined || c == Str("") }

  /** The object built for one row before coercion: for each schema field,
      `normalized[header]` is the value found through the casing fallbacks. */
  function Gather(row: Row): Record
  {
    Record(
      Resolve(row, Name(Timestamp)),
      Resolve(row, Name(Temperature)),
      Resolve(row, Name(Humidity)),
      Resolve(row, Name(Current)),
      Resolve(row, Name(PredictedEnergy)))
  }

  /** `normalized[h]` for a schema field. */
  function Value(rec: Record, k: Key): Cell
  {
    match k
    case Timestamp => rec.timestamp
    case Temperature => rec.temperature
    case Humidity => rec.humidity
    case Current => rec.current
    case PredictedEnergy => rec.predicted_energy
  }

  /** No schema field of the gathered object is missing. */
  predicate Present(rec: Record)
  {
    forall k :: !Missing(Value(rec, k))
  }

  /** The schema fields missing from a gathered object, in schema order;
      none exactly when every field is present. */
  function MissingIn(rec: Record): (r: seq<Key>)
    ensures forall k :: k in r <==> Missing(Value(rec, k))
    ensures r == [] <==> Present(rec)
    ensures IsSubseq(r, Schema)
  {
    SchemaHasEveryKey();
    FilterIsSubseq(k => Missing(Value(rec, k)), Schema);
    var r := Filter(k => Missing(Value(rec, k)), Schema);
    assert r != [] ==> r[0] in r;
    r
  }

  /** The required fields a row lacks, in schema order. */
  function MissingFields(row: Row): (r: seq<Key>)
    ensures forall k :: k in r <==> Missing(Resolve(row, Name(k)))
    ensures r == [] <==> Complete(row)
    ensures IsSubseq(r, Schema)
  {
    GatherValues(row);
    MissingIn(Gather(row))
  }

  /** Each field of the gathered object is the lookup of that schema name. */
  lemma GatherValues(row: Row)
    ensures forall k :: Value(Gather(row), k) == Resolve(row, Name(k))
  {
    forall k: Key ensures Value(Gather(row), k) == Resolve(row, Name(k)) {
      match k
      case Timestamp =>
      case Temperature =>
      case Humidity =>
      case Current =>
      case PredictedEnergy =>
    }
  }

  /** A row in which every schema field resolves to a present value. */
  predicate Complete(row: Row)
  {
    Present(Gather(row))
  }

  /** `Number(value)` on a cell. Blank strings give 0; strings are read as an
      optionally signed decimal literal after trimming; `true` and `false` give
      1 and 0; a date gives its time in milliseconds; anything else is NaN. */
  function ToNumber(c: Cell): (r: Cell)
    ensures r.Num? || r.NaN?
    ensures c.Num? ==> r == c
  {
    match c
    case Null => Num(0.0)
    case Undefined => NaN
    case NaN => NaN
    case Num(_) => c
    case Boolean(b) => if b then Num(1.0) else Num(0.0)
    case When(d) => if d.At? then Num(d.ms as real) else NaN
    case Str(s) =>
      var t := Trim(s);
      if t == "" then Num(0.0)
      else match ParseDecimal(t)
        case Some(v) => Num(v)
        case None => NaN
  }

  /** The index of the first `c` in `s`, or `|s|` when there is none. */
  function IndexOfChar(s: string, c: char): (k: nat)
    ensures k <= |s|
    ensures k < |s| ==> s[k] == c
    ensures forall i :: 0 <= i < k ==> s[i] != c
  {
    if s == [] || s[0] == c then 0 else 1 + IndexOfChar(s[1..], c)
  }

  function Pow10(k: nat): (r: nat)
    ensures r >= 1
  {
    if k == 0 then 1 else 10 * Pow10(k - 1)
  }

  /** The value of the digits after the decimal point. */
  function FractionValue(frac: string): (r: real)
    requires AllDigits(frac)
    ensures frac == [] ==> r == 0.0
    ensures 0.0 <= r
  {
    if frac == [] then 0.0 else DigitsValue(frac) as real / Pow10(|frac|) as real
  }

  /** An unsigned decimal literal: digits, optionally one `.` and more digits, at least one digit. */
  function ParseUnsigned(s: string): Option<real>
  {
    var p := IndexOfChar(s, '.');
    var whole := s[..p];
    var frac := if p < |s| then s[p + 1..] else "";
    if AllDigits(whole) && AllDigits(frac) && |whole| + |frac| > 0
    then Some(DigitsValue(whole) as real + FractionValue(frac))
    else None
  }

  /** An optionally signed decimal literal. */
  function ParseDecimal(s: string): Option<real>
  {
    if |s| > 0 && s[0] == '-' then
      match ParseUnsigned(s[1..])
      case Some(v) => Some(-v)
      case None => None
    else if |s| > 0 && s[0] == '+' then ParseUnsigned(s[1..])
    else ParseUnsigned(s)
  }

  /** `maybeNumber`: missing values pass through, everything else goes through `Number`. */
  function MaybeNumber(c: Cell): (r: Cell)
    ensures Missing(c) ==> r == c
    ensures !Missing(c) ==> r == ToNumber(c) && (r.Num? || r.NaN?)
  {
    if Missing(c) then c else ToNumber(c)
  }

  /** The numeric coercion of a gathered object: the timestamp is kept, the
      four numeric fields go through `maybeNumber`. */
  function Coerce(rec: Record): Record
  {
    Record(rec.timestamp, MaybeNumber(rec.temperature), MaybeNumber(rec.humidity),
      MaybeNumber(rec.current), MaybeNumber(rec.predicted_energy))
  }

  /** The record built for one row. */
  function Normalize(row: Row): Record
  {
    Coerce(Gather(row))
  }

  predicate IsNumber(c: Cell) { c.Num? || c.NaN? }

  /** A record of a successful load: a present timestamp and numeric fields
      that are numbers or NaN. */
  predicate WellFormed(rec: Record)
  {
    && !Missing(rec.timestamp)
    && IsNumber(rec.temperature) && IsNumber(rec.humidity)
    && IsNumber(rec.current) && IsNumber(rec.predicted_energy)
  }

  /** A complete row gives a well-formed record: the timestamp as found and the
      four numeric fields as `Number` reads them. */
  lemma NormalizeComplete(row: Row)
    requires Complete(row)
    ensures var rec := Normalize(row);
      && WellFormed(rec)
      && rec.timestamp == Resolve(row, Name(Timestamp))
      && rec.temperature == ToNumber(Resolve(row, Name(Temperature)))
      && rec.humidity == ToNumber(Resolve(row, Name(Humidity)))
      && rec.current == ToNumber(Resolve(row, Name(Current)))
      && rec.predicted_energy == ToNumber(Resolve(row, Name(PredictedEnergy)))
  {
    var g := Gather(row);
    assert !Missing(Value(g, Timestamp)) && !Missing(Value(g, Temperature)) && !Missing(Value(g, Humidity));
    assert !Missing(Value(g, Current)) && !Missing(Value(g, PredictedEnergy));
  }

  /** The message thrown for the row at 0-based index `index`. */
  function RowError(index: nat, missing: seq<Key>): (r: string)
    ensures r != ""
  {
    "Row " + NatToString(index + 2) + ": missing required fields: " + Join(Names(missing), ", ")
  }

  /** The index of the first incomplete row, `|data|` when there is none. */
  function FirstIncomplete(data: seq<Row>): (k: nat)
    ensures k <= |data|
  {
    FirstFailing(Complete, data)
  }

  /** The first incomplete row, when there is one, is indeed incomplete. */
  lemma FirstIncompleteFails(data: seq<Row>)
    ensures FirstIncomplete(data) < |data| ==> !Complete(data[FirstIncomplete(data)])
  {
    FirstFailingFails(Complete, data);
  }

  /** Every row before the first incomplete one is complete. */
  lemma BeforeFirstIncomplete(data: seq<Row>, j: nat)
    requires j < FirstIncomplete(data)
    ensures Complete(data[j])
  {
    BeforeFirstFailing(Complete, data, j);
  }

  /** The whole `data.map(...)`: the first incomplete row aborts with its message,
      otherwise every row is normalised. */
  function NormalizeAll(data: seq<Row>): Result<seq<Record>>
  {
    var k := FirstIncomplete(data);
    if k < |data| then Err(RowError(k, MissingFields(data[k])))
    else Ok(NormalizedPrefix(data, |data|))
  }

  /** The normalised forms of the first `n` rows. */
  function NormalizedPrefix(data: seq<Row>, n: nat): (r: seq<Record>)
    requires n <= |data|
    ensures |r| == n
  {
    seq(n, i requires 0 <= i < n => Normalize(data[i]))
  }

  lemma NormalizedPrefixStep(data: seq<Row>, n: nat)
    requires n < |data|
    ensures NormalizedPrefix(data, n + 1) == NormalizedPrefix(data, n) + [Normalize(data[n])]
  {
  }

  /** The loop over rows with early exit on the first incomplete row. */
  method NormalizeRows(data: seq<Row>) returns (r: Result<seq<Record>>)
    ensures r == NormalizeAll(data)
  {
    var out: seq<Record> := [];
    var i := 0;
    while i < |data|
      invariant 0 <= i <= FirstIncomplete(data)
      invariant out == NormalizedPrefix(data, i)
    {
      var missing := MissingIn(Gather(data[i]));
      if |missing| > 0 {
        StopsAt(data, i);
        return Err(RowError(i, missing));
      }
      PassesAt(data, i);
      NormalizedPrefixStep(data, i);
      out := out + [Normalize(data[i])];
      i := i + 1;
    }
    return Ok(out);
  }

  lemma StopsAt(data: seq<Row>, i: nat)
    requires i <= FirstIncomplete(data) && i < |data|
    requires MissingIn(Gather(data[i])) != []
    ensures NormalizeAll(data) == Err(RowError(i, MissingIn(Gather(data[i]))))
  {
    if i < FirstIncomplete(data) {
      BeforeFirstIncomplete(data, i);
      assert false;
    }
  }

  /** A complete row reached by the loop lies before the first incomplete one. */
  lemma PassesAt(data: seq<Row>, i: nat)
    requires i <= FirstIncomplete(data) && i < |data|
    requires MissingIn(Gather(data[i])) == []
    ensures i < FirstIncomplete(data)
  {
    FirstIncompleteFails(data);
  }

  /** Every record is well formed. */
  predicate AllWellFormed(recs: seq<Record>)
  {
    forall i :: 0 <= i < |recs| ==> WellFormed(recs[i])
  }

  /** Every record of a normalised load is well formed. */
  lemma NormalizeAllWellFormed(data: seq<Row>)
    requires NormalizeAll(data).Ok?
    ensures AllWellFormed(NormalizeAll(data).value)
  {
    var recs := NormalizeAll(data).value;
    forall i | 0 <= i < |recs| ensures WellFormed(recs[i]) {
      BeforeFirstIncomplete(data, i);
      NormalizeComplete(data[i]);
    }
  }

  // ---------------------------------------------------------------- outcome

  /** `results.meta?.fields || Object.keys(results.data[0] || {})`. */
  function HeadersOf(results: ParseResults): seq<string>
  {
    match results.fields
    case Some(fields) => fields
    case None =>
      if |results.data| > 0 then seq(|results.data[0]|, i requires 0 <= i < |results.data[0]| => results.data[0][i].name)
      else []
  }

  /** What the `complete` callback decides for one parser outcome. */
  function Ingest(results: ParseResults): Outcome
  {
    if |results.errors| > 0 then Rejected(ParserErrors, "CSV parsing error: " + results.errors[0])
    else if |results.data| == 0 then Rejected(EmptyData, "CSV file is empty")
    else match ValidateHeaders(HeadersOf(results))
      case Invalid(msg) => Rejected(Headers, msg)
      case Valid =>
        match NormalizeAll(results.data)
        case Err(msg) => Rejected(Rows, if msg != "" then msg else "Invalid CSV data")
        case Ok(records) => Loaded(records)
  }

  /** The checks run in a fixed order and the first failing one decides. */
  lemma CheckOrder(results: ParseResults)
    ensures Ingest(results).Rejected? && Ingest(results).stage == ParserErrors <==> |results.errors| > 0
    ensures |results.errors| > 0 ==> Ingest(results) == Rejected(ParserErrors, "CSV parsing error: " + results.errors[0])
    ensures Ingest(results) == Rejected(EmptyData, "CSV file is empty") <==>
      results.errors == [] && results.data == []
    ensures Ingest(results).Rejected? && Ingest(results).stage == Headers <==>
      results.errors == [] && results.data != [] && MissingHeaders(HeadersOf(results)) != []
    ensures Ingest(results).Rejected? && Ingest(results).stage == Headers ==>
      Ingest(results).message == "Missing required headers: " + Join(Names(MissingHeaders(HeadersOf(results))), ", ")
    ensures Ingest(results).Rejected? && Ingest(results).stage == Rows <==>
      results.errors == [] && results.data != [] && MissingHeaders(HeadersOf(results)) == []
      && FirstIncomplete(results.data) < |results.data|
    ensures Ingest(results).Loaded? <==>
      results.errors == [] && results.data != [] && MissingHeaders(HeadersOf(results)) == []
      && forall i :: 0 <= i < |results.data| ==> Complete(results.data[i])
  {
    var data := results.data;
    if results.errors != [] || data == [] {
    } else if MissingHeaders(HeadersOf(results)) != [] {
      ValidateHeadersSpec(HeadersOf(results));
      assert ValidateHeaders(HeadersOf(results)).Invalid?;
    } else {
      assert ValidateHeaders(HeadersOf(results)) == Valid;
      NoneFailing(Complete, data);
      FirstIncompleteFails(data);
      if FirstIncomplete(data) < |data| {
        assert NormalizeAll(data).Err?;
      } else {
        assert NormalizeAll(data).Ok?;
      }
    }
  }

  /** A successful load keeps every row, in order; each record holds the
      timestamp as found and the four numeric fields as `Number` made them. */
  lemma LoadedRecords(results: ParseResults)
    requires Ingest(results).Loaded?
    ensures var recs := Ingest(results).records;
      && |recs| == |results.data|
      && forall i :: 0 <= i < |recs| ==>
        var row := results.data[i];
        && WellFormed(recs[i])
        && recs[i].timestamp == Resolve(row, Name(Timestamp))
        && recs[i].temperature == ToNumber(Resolve(row, Name(Temperature)))
        && recs[i].humidity == ToNumber(Resolve(row, Name(Humidity)))
        && recs[i].current == ToNumber(Resolve(row, Name(Current)))
        && recs[i].predicted_energy == ToNumber(Resolve(row, Name(PredictedEnergy)))
  {
    var data := results.data;
    assert NormalizeAll(data).Ok?;
    var recs := NormalizeAll(data).value;
    forall i | 0 <= i < |recs|
      ensures recs[i] == Normalize(data[i]) && Complete(data[i])
    {
      BeforeFirstIncomplete(data, i);
    }
    forall i | 0 <= i < |recs|
      ensures var rec := Normalize(data[i]);
        && WellFormed(rec)
        && rec.timestamp == Resolve(data[i], Name(Timestamp))
        && rec.temperature == ToNumber(Resolve(data[i], Name(Temperature)))
        && rec.humidity == ToNumber(Resolve(data[i], Name(Humidity)))
        && rec.current == ToNumber(Resolve(data[i], Name(Current)))
        && rec.predicted_energy == ToNumber(Resolve(data[i], Name(PredictedEnergy)))
    {
      NormalizeComplete(data[i]);
    }
  }

  /** A load stopped by a row names the first incomplete row (1-based, the
      header being row 1) and its missing fields in schema order. */
  lemma RowFailure(results: ParseResults)
    requires Ingest(results).Rejected? && Ingest(results).stage == Rows
    ensures var data := results.data;
      var k := FirstIncomplete(data);
      && k < |data|
      && (forall j :: 0 <= j < k ==> Complete(data[j]))
      && MissingFields(data[k]) != []
      && IsSubseq(MissingFields(data[k]), Schema)
      && Ingest(results).message == RowError(k, MissingFields(data[k]))
  {
    RowStageMessage(results);
    FailingRow(results.data);
  }

  /** A rejection at the row stage carries the message for the first incomplete row. */
  lemma RowStageMessage(results: ParseResults)
    requires Ingest(results).Rejected? && Ingest(results).stage == Rows
    ensures var data := results.data;
      var k := FirstIncomplete(data);
      && k < |data|
      && Ingest(results).message == RowError(k, MissingFields(data[k]))
  {
    assert NormalizeAll(results.data).Err?;
  }

  /** What is known about the first incomplete row of `data`. */
  lemma FailingRow(data: seq<Row>)
    requires FirstIncomplete(data) < |data|
    ensures var k := FirstIncomplete(data);
      && (forall j :: 0 <= j < k ==> Complete(data[j]))
      && MissingFields(data[k]) != []
      && IsSubseq(MissingFields(data[k]), Schema)
  {
    var k := FirstIncomplete(data);
    FirstIncompleteFails(data);
    forall j | 0 <= j < k ensures Complete(data[j]) {
      BeforeFirstIncomplete(data, j);
    }
  }


  /** An empty string under the exact name stops the lookup: a value under the
      upper-case name is not consulted and the row is incomplete. */
  lemma EmptyStringStopsLookup(row: Row, k: Key)
    requires Get(row, Name(k)) == Str("")
    ensures Resolve(row, Name(k)) == Str("")
    ensures k in MissingFields(row) && !Complete(row)
  {
  }

  /** A column whose header is the upper-case schema name is found when no
      column carries the schema name itself. */
  lemma UpperCaseColumnFound(row: Row, k: Key)
    requires forall i :: 0 <= i < |row| ==> row[i].name != Name(k)
    requires !Nullish(Get(row, Upper(Name(k))))
    ensures Resolve(row, Name(k)) == Get(row, Upper(Name(k)))
  {
    NameIsLowerCase(k);
    GetAbsent(row, Name(k));
  }

  /** A file whose first header is written `Timestamp`. */
  const MixedCaseHeaders: seq<string> := ["Timestamp", "temperature", "humidity", "current", "predicted_energy"]

  /** `Timestamp` normalises to the schema name, so the header check passes. */
  lemma MixedCaseHeadersValid()
    ensures ValidateHeaders(MixedCaseHeaders) == Valid
  {
    var normalized := NormalizedHeaders(MixedCaseHeaders);
    MixedCaseNormalized();
    forall k: Key ensures Name(k) in normalized {
      match k
      case Timestamp => assert normalized[0] == Name(k);
      case Temperature => assert normalized[1] == Name(k);
      case Humidity => assert normalized[2] == Name(k);
      case Current => assert normalized[3] == Name(k);
      case PredictedEnergy => assert normalized[4] == Name(k);
    }
    ValidateHeadersSpec(MixedCaseHeaders);
  }

  /** Trimming and lower-casing the headers gives the schema names in order. */
  lemma MixedCaseNormalized()
    ensures NormalizedHeaders(MixedCaseHeaders) == Names(Schema)
  {
    var hs := MixedCaseHeaders;
    TrimKeeps(hs[0]);
    TrimKeeps(hs[1]);
    TrimKeeps(hs[2]);
    TrimKeeps(hs[3]);
    TrimKeeps(hs[4]);
    assert Lower(hs[0]) == "timestamp";
    NameIsLowerCase(Temperature);
    NameIsLowerCase(Humidity);
    NameIsLowerCase(Current);
    NameIsLowerCase(PredictedEnergy);
  }

  lemma TimestampUpperCase()
    ensures Upper(Name(Timestamp)) == "TIMESTAMP"
  {
  }

  /** A gathered object in which only the timestamp is missing lists just that field. */
  lemma OnlyTimestampMissing(rec: Record)
    requires Missing(rec.timestamp)
    requires !Missing(rec.temperature) && !Missing(rec.humidity)
    requires !Missing(rec.current) && !Missing(rec.predicted_energy)
    ensures MissingIn(rec) == [Timestamp]
  {
    var p := k => Missing(Value(rec, k));
    var tail := Filter(p, Schema[1..]);
    assert Schema[1..] == [Temperature, Humidity, Current, PredictedEnergy];
    assert Filter(p, Schema) == [Timestamp] + tail;
  }

  /** The message of a load rejected on the first data row for its timestamp. */
  lemma FirstRowTimestampMessage()
    ensures RowError(0, [Timestamp]) == "Row 2: missing required fields: timestamp"
  {
    var index := NatToString(2);
    var fields := Join(Names([Timestamp]), ", ");
    assert index == "2";
    assert fields == "timestamp";
    var prefix := "Row " + index + ": missing required fields: ";
    assert prefix == "Row 2: missing required fields: " by {
      assert "Row " + index == "Row 2";
    }
    assert prefix + fields == "Row 2: missing required fields: timestamp";
  }

  /** A row without a `timestamp` or `TIMESTAMP` field, whose other fields are
      present, misses exactly the timestamp. */
  lemma OnlyTimestampMissingIn(row: Row)
    requires forall i :: 0 <= i < |row| ==> row[i].name != "timestamp" && row[i].name != "TIMESTAMP"
    requires forall k :: k != Timestamp ==> !Missing(Resolve(row, Name(k)))
    ensures MissingFields(row) == [Timestamp]
  {
    assert Resolve(row, Name(Timestamp)) == Undefined by {
      NameIsLowerCase(Timestamp);
      TimestampUpperCase();
      GetAbsent(row, "timestamp");
      GetAbsent(row, "TIMESTAMP");
    }
    GatherValues(row);
    var rec := Gather(row);
    assert !Missing(Value(rec, Temperature)) && !Missing(Value(rec, Humidity));
    assert !Missing(Value(rec, Current)) && !Missing(Value(rec, PredictedEnergy));
    OnlyTimestampMissing(rec);
  }

  /** Header `Timestamp` passes the case-insensitive header check, but the row
      lookup (exact, lower-case, upper-case) never finds a column of that name:
      a file whose first row is otherwise complete fails on that row. */
  lemma MixedCaseHeaderRejected(results: ParseResults)
    requires results.errors == [] && |results.data| > 0 && results.fields == Some(MixedCaseHeaders)
    requires forall i :: 0 <= i < |results.data[0]| ==>
      results.data[0][i].name != "timestamp" && results.data[0][i].name != "TIMESTAMP"
    requires forall k :: k != Timestamp ==> !Missing(Resolve(results.data[0], Name(k)))
    ensures ValidateHeaders(HeadersOf(results)) == Valid
    ensures Ingest(results) == Rejected(Rows, "Row 2: missing required fields: timestamp")
  {
    var data := results.data;
    var row := data[0];
    MixedCaseHeadersValid();
    OnlyTimestampMissingIn(row);
    assert FirstIncomplete(data) == 0;
    FirstRowTimestampMessage();
    assert NormalizeAll(data) == Err("Row 2: missing required fields: timestamp");
  }

  /** `Number` reads a string of decimal digits as its value. */
  lemma NumberOfDigits(s: string)
    requires |s| > 0 && AllDigits(s)
    ensures ToNumber(Str(s)) == Num(DigitsValue(s) as real)
  {
    TrimOfDigits(s);
    assert IndexOfChar(s, '.') == |s|;
    assert s[..|s|] == s;
  }

  /** `Number` reads back the decimal rendering of a whole number. */
  lemma NumberOfRendering(n: nat)
    ensures ToNumber(Str(NatToString(n))) == Num(n as real)
  {
    NatToStringDigits(n);
    NumberOfDigits(NatToString(n));
    NatToStringRoundTrip(n);
  }

  /** A non-numeric text in a numeric column is stored as NaN, not rejected. */
  lemma NonNumericKeptAsNaN()
    ensures MaybeNumber(Str("n/a")) == NaN
  {
    assert Trim("n/a") == "n/a";
    assert IndexOfChar("n/a", '.') == 3;
  }

  // ---------------------------------------------------------------- component state

  /** The checks of the `complete` callback, in the order it makes them:
      parser errors, an empty result, the headers, then row by row. */
  method Check(results: ParseResults) returns (outcome: Outcome)
    ensures outcome == Ingest(results)
    ensures outcome.Loaded? ==> AllWellFormed(outcome.records)
  {
    if |results.errors| > 0 {
      return Rejected(ParserErrors, "CSV parsing error: " + results.errors[0]);
    }
    if |results.data| == 0 {
      return Rejected(EmptyData, "CSV file is empty");
    }
    var validation := ValidateHeaders(HeadersOf(results));
    if validation.Invalid? {
      return Rejected(Headers, validation.message);
    }
    var normalized := NormalizeRows(results.data);
    if normalized.Err? {
      return Rejected(Rows, if normalized.message != "" then normalized.message else "Invalid CSV data");
    }
    NormalizeAllWellFormed(results.data);
    return Loaded(normalized.value);
  }

  /** The upload component's state. `delivered` lists, in order, the arguments
      passed to the parent's `onDataLoaded` callback (present when `hasCallback`). */
  class Uploader {
    const hasCallback: bool
    var file: Option<string>
    var parsedData: Option<seq<Record>>
    var error: Option<string>
    var isLoading: bool
    var delivered: seq<Option<seq<Record>>>

    /** Every dataset the component holds or has handed out is well formed. */
    ghost predicate Valid()
      reads this
    {
      && (parsedData.Some? ==> AllWellFormed(parsedData.value))
      && forall i :: 0 <= i < |delivered| && delivered[i].Some? ==> AllWellFormed(delivered[i].value)
    }

    constructor (hasCallback: bool)
      ensures Valid()
      ensures this.hasCallback == hasCallback
      ensures file == None && parsedData == None && error == None && !isLoading && delivered == []
    {
      this.hasCallback := hasCallback;
      file, parsedData, error, isLoading, delivered := None, None, None, false, [];
    }

    /** `handleFileChange` up to the start of parsing; `parseStarted` says
        whether the parser is started on the file. */
    method SelectFile(selected: Option<string>) returns (parseStarted: bool)
      requires Valid()
      modifies this
      ensures Valid() && delivered == old(delivered)
      ensures parseStarted <==> selected.Some? && EndsWith(selected.value, ".csv")
      ensures selected.None? ==>
        file == None && parsedData == None && error == None && isLoading == old(isLoading)
      ensures selected.Some? && !EndsWith(selected.value, ".csv") ==>
        && error == Some("Please select a CSV file") && file == None
        && parsedData == old(parsedData) && isLoading == old(isLoading)
      ensures parseStarted ==>
        file == selected && error == None && isLoading && parsedData == old(parsedData)
    {
      if selected.None? {
        file, parsedData, error := None, None, None;
        return false;
      }
      if !EndsWith(selected.value, ".csv") {
        error := Some("Please select a CSV file");
        file := None;
        return false;
      }
      file := selected;
      error := None;
      isLoading := true;
      return true;
    }

    /** The parser's `complete` callback: the checks run by `Check`, then the
        state updates for the outcome. */
    method OnParseComplete(results: ParseResults)
      requires Valid()
      modifies this
      ensures Valid() && !isLoading && file == old(file)
      ensures match Ingest(results)
        case Loaded(recs) =>
          && parsedData == Some(recs) && error == None
          && delivered == old(delivered) + (if hasCallback then [Some(recs)] else [])
        case Rejected(stage, msg) =>
          && error == Some(msg) && delivered == old(delivered)
          && parsedData == (if stage == Rows then None else old(parsedData))
    {
      isLoading := false;
      var outcome := Check(results);
      match outcome {
        case Rejected(stage, msg) =>
          if stage == Rows {
            parsedData := None;
          }
          error := Some(msg);
        case Loaded(recs) =>
          parsedData := Some(recs);
          error := None;
          if hasCallback {
            delivered := delivered + [Some(recs)];
          }
      }
    }

    /** The parser's `error` callback. */
    method OnParseError(message: string)
      requires Valid()
      modifies this
      ensures Valid() && !isLoading
      ensures error == Some("Failed to parse CSV: " + message)
      ensures file == old(file) && parsedData == old(parsedData) && delivered == old(delivered)
    {
      isLoading := false;
      error := Some("Failed to parse CSV: " + message);
    }

    /** `handleClear`. */
    method Clear()
      requires Valid()
      modifies this
      ensures Valid()
      ensures file == None && parsedData == None && error == None && isLoading == old(isLoading)
      ensures delivered == old(delivered) + (if hasCallback then [None] else [])
    {
      file, parsedData, error := None, None, None;
      if hasCallback {
        delivered := delivered + [None];
      }
    }
  }
}
