/**
 * The input-data writer for Vertex AI Vector Search
 * (`VectorDataFormatter`): data points become one JSON object per line
 * (JSONL) or one comma-separated record per line (CSV), following the
 * layout of the Vertex AI Vector Search "input data format and structure"
 * page.  The CSV writer quotes nothing.
 *
 * A data point is modelled with the keys the writers look at; an absent
 * list and an empty one are the same to both writers.  Numbers are
 * rendered by the parameter `str`, Python's `str`/`repr` of a number
 * (which `json.dumps` also uses).
 */
module VectorFormat {
  import opened Wrappers
  import opened Text

  // -------------------------------------------------------------------
  // Data points
  // -------------------------------------------------------------------

  datatype Num = Int(i: int) | Float(r: real)

  /** The `sparse_embedding` dictionary: each key may be absent. */
  datatype SparseEmbedding = SparseEmbedding(values: Option<seq<Num>>, dimensions: Option<seq<Num>>)

  datatype Restrict = Restrict(namespace: Option<string>, allow: Option<seq<string>>, deny: Option<seq<string>>)

  datatype NumericRestrict = NumericRestrict(namespace: Option<string>, valueInt: Option<Num>,
                                             valueFloat: Option<Num>, valueDouble: Option<Num>)

  datatype DataPoint = DataPoint(id: Option<string>, embedding: seq<Num>, sparse: Option<SparseEmbedding>,
                                 restricts: seq<Restrict>, numericRestricts: seq<NumericRestrict>,
                                 crowdingTag: Option<string>)

  /** The exception a writer raises: a point without `id`, or a restrict without `namespace`. */
  datatype Failure = ValueError | KeyError

  /** Which value of a numeric restrict is written: `value_int`, else `value_float`, else `value_double`. */
  datatype NumericKind = IntValue | FloatValue | DoubleValue

  const SupportedFormats: seq<string> := ["jsonl", "csv", "avro"]

  predicate Truthy(s: Option<string>)
  {
    s.Some? && s.value != ""
  }

  /** The sparse embedding is written only when its dictionary has both keys. */
  predicate HasSparse(dp: DataPoint)
  {
    dp.sparse.Some? && dp.sparse.value.values.Some? && dp.sparse.value.dimensions.Some?
  }

  predicate RestrictsNamed(rs: seq<Restrict>)
  {
    forall i :: 0 <= i < |rs| ==> rs[i].namespace.Some?
  }

  predicate NumericNamed(rs: seq<NumericRestrict>)
  {
    forall i :: 0 <= i < |rs| ==> rs[i].namespace.Some?
  }

  /** A point both writers accept. */
  predicate PointOk(dp: DataPoint)
  {
    dp.id.Some? && RestrictsNamed(dp.restricts) && NumericNamed(dp.numericRestricts)
  }

  /** The failure a writer raises on a point it rejects: the id is checked first. */
  function PointFailure(dp: DataPoint): Failure
  {
    if dp.id.None? then ValueError else KeyError
  }

  function NumericValue(r: NumericRestrict): Option<(NumericKind, Num)>
  {
    if r.valueInt.Some? then Some((IntValue, r.valueInt.value))
    else if r.valueFloat.Some? then Some((FloatValue, r.valueFloat.value))
    else if r.valueDouble.Some? then Some((DoubleValue, r.valueDouble.value))
    else None
  }

  // -------------------------------------------------------------------
  // JSON
  // -------------------------------------------------------------------

  /** A JSON value; an object keeps its keys in insertion order. */
  datatype Json = JStr(s: string) | JNum(n: Num) | JArr(items: seq<Json>) | JObj(fields: seq<(string, Json)>)

  function HexDigit(d: nat): char
    requires d < 16
  {
    if d < 10 then (d + '0' as int) as char else (d - 10 + 'a' as int) as char
  }

  /** How `json.dumps(..., ensure_ascii=False)` writes one character inside a string. */
  function EscapeChar(c: char): (e: string)
    ensures '\n' !in e
  {
    if c == '\"' then "\\\""
    else if c == '\\' then "\\\\"
    else if c == '\n' then "\\n"
    else if c == '\r' then "\\r"
    else if c == '\t' then "\\t"
    else if c == 8 as char then "\\b"
    else if c == 12 as char then "\\f"
    else if (c as int) < 32 then "\\u00" + [HexDigit(c as int / 16), HexDigit(c as int % 16)]
    else [c]
  }

  function Escape(s: string): (e: string)
    ensures '\n' !in e
    decreases |s|
  {
    if |s| == 0 then "" else Escape(s[..|s| - 1]) + EscapeChar(s[|s| - 1])
  }

  function Quote(s: string): (q: string)
    ensures '\n' !in q
  {
    "\"" + Escape(s) + "\""
  }

  /** `sep.join(parts)`. */
  function JoinWith(parts: seq<string>, sep: string): string
    decreases |parts|
  {
    if |parts| == 0 then ""
    else if |parts| == 1 then parts[0]
    else JoinWith(parts[..|parts| - 1], sep) + sep + parts[|parts| - 1]
  }

  /** `json.dumps(j, ensure_ascii=False)` with the default separators `, ` and `: `. */
  function Dumps(j: Json, str: Num -> string): string
    decreases j
  {
    match j
    case JStr(s) => Quote(s)
    case JNum(n) => str(n)
    case JArr(items) => "[" + JoinWith(seq(|items|, i requires 0 <= i < |items| => Dumps(items[i], str)), ", ") + "]"
    case JObj(fields) =>
      "{" + JoinWith(seq(|fields|, i requires 0 <= i < |fields| =>
                       assert fields[i] < j; Quote(fields[i].0) + ": " + Dumps(fields[i].1, str)), ", ") + "}"
  }

  function NumsJson(ns: seq<Num>): (js: seq<Json>)
    ensures |js| == |ns|
  {
    seq(|ns|, i requires 0 <= i < |ns| => JNum(ns[i]))
  }

  function StrsJson(ss: seq<string>): (js: seq<Json>)
    ensures |js| == |ss|
  {
    seq(|ss|, i requires 0 <= i < |ss| => JStr(ss[i]))
  }

  /** The object written for a restrict: its namespace, then `allow` and `deny` when present. */
  function RestrictJson(r: Restrict): Json
    requires r.namespace.Some?
  {
    JObj([("namespace", JStr(r.namespace.value))]
         + (if r.allow.Some? then [("allow", JArr(StrsJson(r.allow.value)))] else [])
         + (if r.deny.Some? then [("deny", JArr(StrsJson(r.deny.value)))] else []))
  }

  function KindKey(k: NumericKind): string
  {
    match k
    case IntValue => "value_int"
    case FloatValue => "value_float"
    case DoubleValue => "value_double"
  }

  /** The object written for a numeric restrict: its namespace and the first value present. */
  function NumericJson(r: NumericRestrict): Json
    requires r.namespace.Some?
  {
    JObj([("namespace", JStr(r.namespace.value))]
         + match NumericValue(r)
           case None => []
           case Some(kv) => [(KindKey(kv.0), JNum(kv.1))])
  }

  /** The `embedding` entry, present when the list is non-empty. */
  function EmbeddingEntry(dp: DataPoint): (fs: seq<(string, Json)>)
    ensures KeysOf(fs) == if |dp.embedding| > 0 then ["embedding"] else []
  {
    if |dp.embedding| > 0 then [("embedding", JArr(NumsJson(dp.embedding)))] else []
  }

  /** The `sparse_embedding` entry, present when both its keys are given. */
  function SparseEntry(dp: DataPoint): (fs: seq<(string, Json)>)
    ensures KeysOf(fs) == if HasSparse(dp) then ["sparse_embedding"] else []
  {
    if HasSparse(dp)
    then [("sparse_embedding", JObj([("values", JArr(NumsJson(dp.sparse.value.values.value))),
                                     ("dimensions", JArr(NumsJson(dp.sparse.value.dimensions.value)))]))]
    else []
  }

  /** The `restricts` entry, present when the list is non-empty. */
  function RestrictsEntry(dp: DataPoint): (fs: seq<(string, Json)>)
    requires RestrictsNamed(dp.restricts)
    ensures KeysOf(fs) == if |dp.restricts| > 0 then ["restricts"] else []
  {
    var rs := dp.restricts;
    if |rs| > 0 then [("restricts", JArr(seq(|rs|, i requires 0 <= i < |rs| => RestrictJson(rs[i]))))] else []
  }

  /** The `numeric_restricts` entry, present when the list is non-empty. */
  function NumericEntry(dp: DataPoint): (fs: seq<(string, Json)>)
    requires NumericNamed(dp.numericRestricts)
    ensures KeysOf(fs) == if |dp.numericRestricts| > 0 then ["numeric_restricts"] else []
  {
    var ns := dp.numericRestricts;
    if |ns| > 0 then [("numeric_restricts", JArr(seq(|ns|, i requires 0 <= i < |ns| => NumericJson(ns[i]))))] else []
  }

  /** The `crowding_tag` entry, present when the tag is truthy. */
  function CrowdingEntry(dp: DataPoint): (fs: seq<(string, Json)>)
    ensures KeysOf(fs) == if Truthy(dp.crowdingTag) then ["crowding_tag"] else []
  {
    if Truthy(dp.crowdingTag) then [("crowding_tag", JStr(dp.crowdingTag.value))] else []
  }

  /** The object `format_to_jsonl` writes for one point, or the exception it raises. */
  function PointJson(dp: DataPoint): Result<Json, Failure>
  {
    if !PointOk(dp) then Failure(PointFailure(dp))
    else
      Success(JObj([("id", JStr(dp.id.value))] + EmbeddingEntry(dp) + SparseEntry(dp) + RestrictsEntry(dp)
                   + NumericEntry(dp) + CrowdingEntry(dp)))
  }

  /** The lines of `format_to_jsonl`, or the exception raised at the first rejected point. */
  function JsonlLines(points: seq<DataPoint>, str: Num -> string): Result<seq<string>, Failure>
    decreases |points|
  {
    if |points| == 0 then Success([])
    else
      match PointJson(points[0])
      case Failure(e) => Failure(e)
      case Success(j) =>
        match JsonlLines(points[1..], str)
        case Failure(e) => Failure(e)
        case Success(rest) => Success([Dumps(j, str)] + rest)
  }

  /** `format_to_jsonl`. */
  function FormatToJsonl(points: seq<DataPoint>, str: Num -> string): Result<string, Failure>
  {
    match JsonlLines(points, str)
    case Failure(e) => Failure(e)
    case Success(lines) => Success(Join(lines, '\n'))
  }

  // -------------------------------------------------------------------
  // CSV
  // -------------------------------------------------------------------

  /** `float(v)`. */
  function ToFloat(n: Num): Num
  {
    match n
    case Int(i) => Float(i as real)
    case Float(r) => Float(r)
  }

  function Suffix(k: NumericKind): string
  {
    match k
    case IntValue => "i"
    case FloatValue => "f"
    case DoubleValue => "d"
  }

  /** `ns=v` for every allowed value, then `ns=!v` for every denied one. */
  function RestrictFields(r: Restrict): seq<string>
    requires r.namespace.Some?
  {
    var ns := r.namespace.value;
    var allow := r.allow.GetOr([]);
    var deny := r.deny.GetOr([]);
    seq(|allow|, i requires 0 <= i < |allow| => ns + "=" + allow[i])
      + seq(|deny|, i requires 0 <= i < |deny| => ns + "=!" + deny[i])
  }

  function AllRestrictFields(rs: seq<Restrict>): seq<string>
    requires RestrictsNamed(rs)
    decreases |rs|
  {
    if |rs| == 0 then [] else RestrictFields(rs[0]) + AllRestrictFields(rs[1..])
  }

  /** `#ns=<value><suffix>` for the first value present, nothing when none is. */
  function NumericFields(r: NumericRestrict, str: Num -> string): seq<string>
    requires r.namespace.Some?
  {
    match NumericValue(r)
    case None => []
    case Some(kv) => ["#" + r.namespace.value + "=" + str(kv.1) + Suffix(kv.0)]
  }

  function AllNumericFields(rs: seq<NumericRestrict>, str: Num -> string): seq<string>
    requires NumericNamed(rs)
    decreases |rs|
  {
    if |rs| == 0 then [] else NumericFields(rs[0], str) + AllNumericFields(rs[1..], str)
  }

  /** `dim:val` for the pairs of `zip(dimensions, values)`, which stops at the shorter list. */
  function SparseFields(dims: seq<Num>, values: seq<Num>, str: Num -> string): (fs: seq<string>)
    ensures |fs| == if |dims| <= |values| then |dims| else |values|
  {
    var n := if |dims| <= |values| then |dims| else |values|;
    seq(n, i requires 0 <= i < n => str(dims[i]) + ":" + str(values[i]))
  }

  /** The fields of one CSV record, or the exception raised for the point. */
  function CsvFields(dp: DataPoint, str: Num -> string): Result<seq<string>, Failure>
  {
    if !PointOk(dp) then Failure(PointFailure(dp))
    else
      var e := dp.embedding;
      Success(
        [dp.id.value]
        + seq(|e|, i requires 0 <= i < |e| => str(ToFloat(e[i])))
        + (if HasSparse(dp) then SparseFields(dp.sparse.value.dimensions.value, dp.sparse.value.values.value, str)
           else [])
        + (if Truthy(dp.crowdingTag) then ["crowding_tag=" + dp.crowdingTag.value] else [])
        + AllRestrictFields(dp.restricts)
        + AllNumericFields(dp.numericRestricts, str))
  }

  function CsvLines(points: seq<DataPoint>, str: Num -> string): Result<seq<string>, Failure>
    decreases |points|
  {
    if |points| == 0 then Success([])
    else
      match CsvFields(points[0], str)
      case Failure(e) => Failure(e)
      case Success(fields) =>
        match CsvLines(points[1..], str)
        case Failure(e) => Failure(e)
        case Success(rest) => Success([Join(fields, ',')] + rest)
  }

  /** `format_to_csv`. */
  function FormatToCsv(points: seq<DataPoint>, str: Num -> string): Result<string, Failure>
  {
    match CsvLines(points, str)
    case Failure(e) => Failure(e)
    case Success(lines) => Success(Join(lines, '\n'))
  }

  // -------------------------------------------------------------------
  // Sample data and saving
  // -------------------------------------------------------------------

  datatype SampleMetadata = SampleMetadata(fileType: Option<string>, fileSize: Option<Num>)

  datatype SampleItem = SampleItem(id: Option<string>, embedding: Option<seq<Num>>, metadata: Option<SampleMetadata>)

  /** Python's `int(x)` on a number: truncation toward zero. */
  function PyInt(n: Num): int
  {
    match n
    case Int(i) => i
    case Float(r) => if r >= 0.0 then r.Floor else -((-r).Floor)
  }

  /** The point `create_sample_data` makes of one item. */
  function SamplePoint(item: SampleItem): DataPoint
  {
    var meta := item.metadata.GetOr(SampleMetadata(None, None));
    DataPoint(Some(item.id.GetOr("")), item.embedding.GetOr([]), None,
              if meta.fileType.Some? then [Restrict(Some("file_type"), Some([meta.fileType.value]), None)] else [],
              if meta.fileSize.Some? then [NumericRestrict(Some("file_size"), Some(Int(PyInt(meta.fileSize.value))), None, None)]
              else [],
              None)
  }

  /** `create_sample_data`. */
  function CreateSampleData(items: seq<SampleItem>): (points: seq<DataPoint>)
    ensures |points| == |items|
  {
    seq(|items|, i requires 0 <= i < |items| => SamplePoint(items[i]))
  }

  /** What `save_to_file` reports, and the content it writes when it does. */
  datatype Saved = Saved(ok: bool, written: Option<string>)

  /** `save_to_file`; `writeOk` is whether opening and writing the file succeeds. */
  function SaveToFile(points: seq<DataPoint>, formatType: string, str: Num -> string, writeOk: bool): Saved
  {
    var content := if formatType == "jsonl" then FormatToJsonl(points, str)
                   else if formatType == "csv" then FormatToCsv(points, str)
                   else Failure(ValueError);
    match content
    case Failure(_) => Saved(false, None)
    case Success(c) => if writeOk then Saved(true, Some(c)) else Saved(false, None)
  }

  // -------------------------------------------------------------------
  // Reading a CSV restrict field back
  // -------------------------------------------------------------------

  /** Position of the first `c` in `s`, or `|s|`. */
  function IndexOf(s: string, c: char): (i: nat)
    ensures i <= |s|
    ensures i < |s| ==> s[i] == c
    ensures forall j :: 0 <= j < i ==> s[j] != c
    decreases |s|
  {
    if |s| == 0 then 0 else if s[0] == c then 0 else 1 + IndexOf(s[1..], c)
  }

  /** A CSV restrict field read as (namespace, denied?, value), as the name=value list syntax defines it. */
  function ParseRestrictField(f: string): Option<(string, bool, string)>
  {
    var k := IndexOf(f, '=');
    if k == |f| then None
    else
      var rest := f[k + 1..];
      if |rest| > 0 && rest[0] == '!' then Some((f[..k], true, rest[1..])) else Some((f[..k], false, rest))
  }

  // -------------------------------------------------------------------
  // Properties
  // -------------------------------------------------------------------

  /** Joining strings without a newline gives a string without a newline. */
  lemma {:induction false} JoinWithNoNewline(parts: seq<string>, sep: string)
    requires '\n' !in sep
    requires forall i :: 0 <= i < |parts| ==> '\n' !in parts[i]
    ensures '\n' !in JoinWith(parts, sep)
    decreases |parts|
  {
    if |parts| > 1 {
      JoinWithNoNewline(parts[..|parts| - 1], sep);
    }
  }

  /** `json.dumps` never writes a raw newline (as long as no number's rendering holds one). */
  lemma {:induction false} DumpsNoNewline(j: Json, str: Num -> string)
    requires forall n :: '\n' !in str(n)
    ensures '\n' !in Dumps(j, str)
    decreases j
  {
    match j {
      case JStr(s) =>
      case JNum(n) =>
      case JArr(items) =>
        var parts := seq(|items|, i requires 0 <= i < |items| => Dumps(items[i], str));
        forall i | 0 <= i < |items| ensures '\n' !in parts[i] {
          DumpsNoNewline(items[i], str);
        }
        JoinWithNoNewline(parts, ", ");
      case JObj(fields) =>
        var parts := seq(|fields|, i requires 0 <= i < |fields| =>
                           assert fields[i] < j; Quote(fields[i].0) + ": " + Dumps(fields[i].1, str));
        forall i | 0 <= i < |fields| ensures '\n' !in parts[i] {
          assert fields[i] < j;
          DumpsNoNewline(fields[i].1, str);
        }
        JoinWithNoNewline(parts, ", ");
    }
  }

  /** Splitting newline-free lines joined by newlines gives the lines back. */
  lemma {:induction false} SplitJoinLines(lines: seq<string>)
    requires |lines| > 0
    requires forall i :: 0 <= i < |lines| ==> '\n' !in lines[i]
    ensures Split(Join(lines, '\n'), '\n') == lines
    decreases |lines|
  {
    if |lines| == 1 {
      SplitWithout(lines[0], '\n');
    } else {
      SplitJoinLines(lines[1..]);
      SplitWithout(lines[0], '\n');
      SplitAround(lines[0], '\n', Join(lines[1..], '\n'));
      assert lines == [lines[0]] + lines[1..];
    }
  }

  /**
   * Both writers succeed exactly when every point has an id and every
   * restrict a namespace, and then write one line per point, in order.
   */
  lemma LinesPerPoint(points: seq<DataPoint>, str: Num -> string)
    ensures JsonlLines(points, str).Success? <==> forall i :: 0 <= i < |points| ==> PointOk(points[i])
    ensures CsvLines(points, str).Success? <==> forall i :: 0 <= i < |points| ==> PointOk(points[i])
    ensures JsonlLines(points, str).Success? ==>
      && |JsonlLines(points, str).value| == |points|
      && forall i :: 0 <= i < |points| ==> JsonlLines(points, str).value[i] == Dumps(PointJson(points[i]).value, str)
    ensures CsvLines(points, str).Success? ==>
      && |CsvLines(points, str).value| == |points|
      && forall i :: 0 <= i < |points| ==> CsvLines(points, str).value[i] == Join(CsvFields(points[i], str).value, ',')
  {
    JsonlLinesPerPoint(points, str);
    CsvLinesPerPoint(points, str);
  }

  /** The JSONL half of `LinesPerPoint`. */
  lemma {:induction false} JsonlLinesPerPoint(points: seq<DataPoint>, str: Num -> string)
    ensures JsonlLines(points, str).Success? <==> forall i :: 0 <= i < |points| ==> PointOk(points[i])
    ensures JsonlLines(points, str).Success? ==>
      && |JsonlLines(points, str).value| == |points|
      && forall i :: 0 <= i < |points| ==> JsonlLines(points, str).value[i] == Dumps(PointJson(points[i]).value, str)
    decreases |points|
  {
    if |points| > 0 {
      JsonlLinesPerPoint(points[1..], str);
      forall i | 1 <= i < |points| ensures points[i] == points[1..][i - 1] { }
    }
  }

  /** The CSV half of `LinesPerPoint`. */
  lemma {:induction false} CsvLinesPerPoint(points: seq<DataPoint>, str: Num -> string)
    ensures CsvLines(points, str).Success? <==> forall i :: 0 <= i < |points| ==> PointOk(points[i])
    ensures CsvLines(points, str).Success? ==>
      && |CsvLines(points, str).value| == |points|
      && forall i :: 0 <= i < |points| ==> CsvLines(points, str).value[i] == Join(CsvFields(points[i], str).value, ',')
    decreases |points|
  {
    if |points| > 0 {
      CsvLinesPerPoint(points[1..], str);
      forall i | 1 <= i < |points| ensures points[i] == points[1..][i - 1] { }
    }
  }

  /**
   * The first rejected point decides the exception: `ValueError` when it
   * lacks an id, `KeyError` when a restrict lacks a namespace.
   */
  lemma {:induction false} FirstFailure(points: seq<DataPoint>, str: Num -> string, k: nat)
    requires k < |points| && !PointOk(points[k])
    requires forall i :: 0 <= i < k ==> PointOk(points[i])
    ensures FormatToJsonl(points, str) == Failure(PointFailure(points[k]))
    ensures FormatToCsv(points, str) == Failure(PointFailure(points[k]))
    ensures points[k].id.None? ==> FormatToJsonl(points, str) == Failure(ValueError)
    decreases k
  {
    if k > 0 {
      FirstFailure(points[1..], str, k - 1);
    }
  }

  /**
   * A JSONL output has one line per point: split at newlines, it gives
   * back each point's object.
   */
  lemma JsonlOneLinePerPoint(points: seq<DataPoint>, str: Num -> string)
    requires |points| > 0 && (forall i :: 0 <= i < |points| ==> PointOk(points[i]))
    requires forall n :: '\n' !in str(n)
    ensures FormatToJsonl(points, str).Success?
    ensures var lines := Split(FormatToJsonl(points, str).value, '\n');
      |lines| == |points| && forall i :: 0 <= i < |points| ==> lines[i] == Dumps(PointJson(points[i]).value, str)
  {
    LinesPerPoint(points, str);
    var lines := JsonlLines(points, str).value;
    forall i | 0 <= i < |lines| ensures '\n' !in lines[i] {
      DumpsNoNewline(PointJson(points[i]).value, str);
    }
    SplitJoinLines(lines);
  }

  /**
   * The object of a point starts with its id as a string, and carries
   * `embedding` only when the list is non-empty, `sparse_embedding` only
   * when both its keys are given, the restrict lists only when non-empty,
   * and `crowding_tag` only when truthy.
   */
  lemma PointJsonKeys(dp: DataPoint)
    requires PointOk(dp)
    ensures PointJson(dp).Success? && PointJson(dp).value.JObj?
    ensures var fs := PointJson(dp).value.fields;
      && |fs| >= 1 && fs[0] == ("id", JStr(dp.id.value))
      && ("embedding" in KeysOf(fs) <==> |dp.embedding| > 0)
      && ("sparse_embedding" in KeysOf(fs) <==> HasSparse(dp))
      && ("restricts" in KeysOf(fs) <==> |dp.restricts| > 0)
      && ("numeric_restricts" in KeysOf(fs) <==> |dp.numericRestricts| > 0)
      && ("crowding_tag" in KeysOf(fs) <==> Truthy(dp.crowdingTag))
  {
    PointKeys(dp);
    var ks := KeysOf(PointJson(dp).value.fields);
    assert "embedding" in ks <==> "embedding" in KeysOf(EmbeddingEntry(dp));
    assert "sparse_embedding" in ks <==> "sparse_embedding" in KeysOf(SparseEntry(dp));
    assert "restricts" in ks <==> "restricts" in KeysOf(RestrictsEntry(dp));
    assert "numeric_restricts" in ks <==> "numeric_restricts" in KeysOf(NumericEntry(dp));
    assert "crowding_tag" in ks <==> "crowding_tag" in KeysOf(CrowdingEntry(dp));
  }

  lemma PointKeys(dp: DataPoint)
    requires PointOk(dp)
    ensures KeysOf(PointJson(dp).value.fields) == ["id"] + KeysOf(EmbeddingEntry(dp)) + KeysOf(SparseEntry(dp))
      + KeysOf(RestrictsEntry(dp)) + KeysOf(NumericEntry(dp)) + KeysOf(CrowdingEntry(dp))
  {
    var p0: seq<(string, Json)> := [("id", JStr(dp.id.value))];
    var p1, p2, p3, p4, p5 := EmbeddingEntry(dp), SparseEntry(dp), RestrictsEntry(dp), NumericEntry(dp), CrowdingEntry(dp);
    KeysOfAppend(p0, p1);
    KeysOfAppend(p0 + p1, p2);
    KeysOfAppend(p0 + p1 + p2, p3);
    KeysOfAppend(p0 + p1 + p2 + p3, p4);
    KeysOfAppend(p0 + p1 + p2 + p3 + p4, p5);
  }

  /** The keys of an object, in order. */
  function KeysOf(fs: seq<(string, Json)>): (ks: seq<string>)
    ensures |ks| == |fs| && forall i :: 0 <= i < |fs| ==> ks[i] == fs[i].0
  {
    seq(|fs|, i requires 0 <= i < |fs| => fs[i].0)
  }

  lemma KeysOfAppend(a: seq<(string, Json)>, b: seq<(string, Json)>)
    ensures KeysOf(a + b) == KeysOf(a) + KeysOf(b)
  {
  }

  /** A CSV record starts with the id, followed by the dense values rendered as floats. */
  lemma CsvRecordStart(dp: DataPoint, str: Num -> string)
    requires PointOk(dp)
    ensures var fs := CsvFields(dp, str).value;
      && |fs| >= 1 + |dp.embedding|
      && fs[0] == dp.id.value
      && forall i :: 0 <= i < |dp.embedding| ==> fs[1 + i] == str(ToFloat(dp.embedding[i]))
  {
  }

  /**
   * A restrict field reads back as the namespace and value it was written
   * from, allowed or denied, when the namespace holds no `=` and an allowed
   * value does not start with `!`.
   */
  lemma RestrictFieldRoundTrip(ns: string, v: string)
    requires '=' !in ns
    ensures |v| == 0 || v[0] != '!' ==> ParseRestrictField(ns + "=" + v) == Some((ns, false, v))
    ensures ParseRestrictField(ns + "=!" + v) == Some((ns, true, v))
  {
    var a := ns + "=" + v;
    assert a[|ns|] == '=';
    assert IndexOf(a, '=') == |ns|;
    assert a[..|ns|] == ns && a[|ns| + 1..] == v;
    var d := ns + "=!" + v;
    assert d[|ns|] == '=';
    assert IndexOf(d, '=') == |ns|;
    assert d[..|ns|] == ns && d[|ns| + 1..] == "!" + v;
    assert ("!" + v)[1..] == v;
  }

  /** Numeric restrict values take `value_int` first, then `value_float`, then `value_double`. */
  lemma NumericPrecedence(r: NumericRestrict, str: Num -> string)
    requires r.namespace.Some?
    ensures r.valueInt.Some? ==> NumericFields(r, str) == ["#" + r.namespace.value + "=" + str(r.valueInt.value) + "i"]
    ensures r.valueInt.None? && r.valueFloat.Some? ==>
      NumericFields(r, str) == ["#" + r.namespace.value + "=" + str(r.valueFloat.value) + "f"]
    ensures r.valueInt.None? && r.valueFloat.None? && r.valueDouble.Some? ==>
      NumericFields(r, str) == ["#" + r.namespace.value + "=" + str(r.valueDouble.value) + "d"]
    ensures r.valueInt.None? && r.valueFloat.None? && r.valueDouble.None? ==> NumericFields(r, str) == []
  {
  }

  /**
   * Sample points always have an id, a `file_type` allow-restrict exactly
   * when the metadata has a file type, and a `file_size` integer restrict
   * exactly when it has a size; so both writers accept them.
   */
  lemma SampleDataFormats(items: seq<SampleItem>, str: Num -> string)
    ensures var points := CreateSampleData(items);
      && FormatToJsonl(points, str).Success? && FormatToCsv(points, str).Success?
      && forall i :: 0 <= i < |items| ==>
           && points[i].id == Some(items[i].id.GetOr(""))
           && (|points[i].restricts| == 1 <==> items[i].metadata.Some? && items[i].metadata.value.fileType.Some?)
           && (|points[i].numericRestricts| == 1 <==> items[i].metadata.Some? && items[i].metadata.value.fileSize.Some?)
  {
    var points := CreateSampleData(items);
    LinesPerPoint(points, str);
  }

  /**
   * `save_to_file` reports success exactly for the `jsonl` and `csv`
   * formats when formatting and writing succeed — so never for `avro`,
   * although the writer lists it as supported.
   */
  lemma SaveOutcomes(points: seq<DataPoint>, formatType: string, str: Num -> string, writeOk: bool)
    ensures var s := SaveToFile(points, formatType, str, writeOk);
      && (s.ok <==> writeOk && ((formatType == "jsonl" && FormatToJsonl(points, str).Success?) ||
                                (formatType == "csv" && FormatToCsv(points, str).Success?)))
      && (s.ok ==> s.written.Some?)
      && (formatType == "jsonl" && s.ok ==> s.written.value == FormatToJsonl(points, str).value)
    ensures "avro" in SupportedFormats && !SaveToFile(points, "avro", str, writeOk).ok
  {
  }
}
