/**
 * Response shaping of the two search endpoints of the backend
 * (`backend/main.py`). The SQLite query and the vector search itself are
 * not modelled: the rows they produce are inputs.
 */
module Backend {
  import opened Wrappers
  import opened Json
  import Text

  /** The errors an endpoint answers with: HTTP 400 with a detail message, or HTTP 500. */
  datatype HttpError = BadRequest(detail: string) | ServerError

  function Status(e: HttpError): (code: int)
    ensures code == 400 <==> e.BadRequest?
    ensures code == 500 <==> e.ServerError?
  {
    match e
    case BadRequest(_) => 400
    case ServerError => 500
  }

  // ---------------------------------------------------------------------
  // Traditional search
  // ---------------------------------------------------------------------

  const MissingQuery := "Query parameter is required"
  const ProfileLimit := 200
  const Ellipsis := "..."
  const RecordKeys: set<string> := {"Name", "Category", "Label", "Profile_Chunk", "URL"}

  /** One row of the SQL query: the five selected columns (`labelColumn` holds the Label column), each a text, number or NULL value. */
  datatype Row = Row(name: Value, category: Value, labelColumn: Value, profile: Value, url: Value)

  /** A profile longer than 200 characters is cut to its first 200 and marked with "...". */
  function TruncateProfile(text: string): (r: string)
    ensures |r| <= ProfileLimit + |Ellipsis|
    ensures |text| <= ProfileLimit ==> r == text
    ensures |text| > ProfileLimit ==> |r| == ProfileLimit + |Ellipsis| && r[ProfileLimit..] == Ellipsis
    ensures r[..if |r| < ProfileLimit then |r| else ProfileLimit] == text[..if |text| < ProfileLimit then |text| else ProfileLimit]
  {
    if |text| > ProfileLimit then text[..ProfileLimit] + Ellipsis else text
  }

  /** Truncating twice is truncating once: a 203-character result is cut back to itself. */
  lemma TruncateProfileIdempotent(text: string)
    ensures TruncateProfile(TruncateProfile(text)) == TruncateProfile(text)
  {
    var once := TruncateProfile(text);
    if |text| > ProfileLimit {
      assert once[..ProfileLimit] == text[..ProfileLimit];
      assert once[..ProfileLimit] + Ellipsis == once;
    }
  }

  /**
   * The profile text of a row, `row["Profile_Chunk"] or ""`, as `len` then
   * sees it: a falsy value (NULL, the empty string) becomes "", text is kept,
   * and any other truthy value makes `len` raise, which is `None` here.
   */
  function ProfileText(v: Value): (r: Option<string>)
    ensures !Truthy(Some(v)) ==> r == Some("")
    ensures v.Str? ==> r == Some(v.s)
    ensures r.None? <==> Truthy(Some(v)) && !v.Str?
  {
    if !Truthy(Some(v)) then Some("") else if v.Str? then Some(v.s) else None
  }

  /**
   * The record built for one row: exactly the five keys, every column but
   * the profile copied unchanged, the profile truncated. `None` when the
   * profile makes the endpoint fail.
   */
  function ShapeRow(row: Row): (r: Option<Object>)
    ensures r.Some? <==> ProfileText(row.profile).Some?
    ensures r.Some? ==> r.value.Keys == RecordKeys
    ensures r.Some? ==> (r.value["Name"] == row.name && r.value["Category"] == row.category &&
                         r.value["Label"] == row.labelColumn && r.value["URL"] == row.url)
    ensures r.Some? ==> r.value["Profile_Chunk"] == Str(TruncateProfile(ProfileText(row.profile).value))
  {
    match ProfileText(row.profile)
    case None => None
    case Some(text) =>
      Some(map["Name" := row.name, "Category" := row.category, "Label" := row.labelColumn,
               "Profile_Chunk" := Str(TruncateProfile(text)), "URL" := row.url])
  }

  /**
   * The traditional search endpoint. A query that is blank for Python's
   * `strip` is refused with 400 whatever the database holds; otherwise the
   * rows fetched for it become one record each, in row order, and a row
   * whose profile cannot be measured turns the whole answer into a 500.
   */
  method TraditionalSearch(query: string, rows: seq<Row>) returns (response: Result<seq<Object>, HttpError>)
    ensures Text.PyStrip(query) == [] ==> response == Failure(BadRequest(MissingQuery))
    ensures Text.PyStrip(query) != [] ==>
      (response.Success? <==> forall i :: 0 <= i < |rows| ==> ShapeRow(rows[i]).Some?)
    ensures Text.PyStrip(query) != [] && response.Failure? ==> response.error == ServerError
    ensures response.Failure? ==> (Status(response.error) == 400 <==> Text.PyStrip(query) == [])
    ensures response.Success? ==>
      |response.value| == |rows| && forall i :: 0 <= i < |rows| ==> ShapeRow(rows[i]) == Some(response.value[i])
  {
    if Text.PyStrip(query) == [] {
      return Failure(BadRequest(MissingQuery));
    }
    var results: seq<Object> := [];
    var i := 0;
    while i < |rows|
      invariant 0 <= i <= |rows| && |results| == i
      invariant forall j :: 0 <= j < i ==> ShapeRow(rows[j]) == Some(results[j])
    {
      var text := ProfileText(rows[i].profile);
      if text.None? {
        return Failure(ServerError);
      }
      var truncated := TruncateProfile(text.value);
      results := results + [map["Name" := rows[i].name, "Category" := rows[i].category,
                                 "Label" := rows[i].labelColumn, "Profile_Chunk" := Str(truncated),
                                 "URL" := rows[i].url]];
      i := i + 1;
    }
    return Success(results);
  }

  // ---------------------------------------------------------------------
  // Vector search
  // ---------------------------------------------------------------------

  const SimilarityKey := "Similarity"

  /** Python's `max(a, b)`: the first argument unless the second is larger. */
  function PyMax(a: real, b: real): (r: real)
    ensures r >= a && r >= b && (r == a || r == b)
  {
    if b > a then b else a
  }

  /** Python's `min(a, b)`: the first argument unless the second is smaller. */
  function PyMin(a: real, b: real): (r: real)
    ensures r <= a && r <= b && (r == a || r == b)
  {
    if b < a then b else a
  }

  /** `min(max(x, 0.0), 1.0)`: the nearest point of [0, 1]. */
  function Clamp(x: real): (r: real)
    ensures 0.0 <= r <= 1.0
    ensures 0.0 <= x <= 1.0 ==> r == x
    ensures x < 0.0 ==> r == 0.0
    ensures x > 1.0 ==> r == 1.0
  {
    PyMin(PyMax(x, 0.0), 1.0)
  }

  /**
   * `float(min(max(result.get('Similarity', 0.0), 0.0), 1.0))` for the value
   * a record holds under "Similarity". A missing value counts as 0.0; a
   * number is clamped; a boolean acts as 0 or 1; null or text makes the
   * comparison raise, which is `None` here.
   */
  function ClampedSimilarity(v: Option<Value>): (r: Option<real>)
    ensures r.Some? ==> 0.0 <= r.value <= 1.0
    ensures v.None? ==> r == Some(0.0)
    ensures v.Some? && v.value.Num? && 0.0 <= v.value.x <= 1.0 ==> r == Some(v.value.x)
    ensures r.None? <==> v.Some? && (v.value.Null? || v.value.Str?)
  {
    match v
    case None => Some(Clamp(0.0))
    case Some(Num(x)) => Some(Clamp(x))
    case Some(Bool(b)) => Some(Clamp(if b then 1.0 else 0.0))
    case Some(_) => None
  }

  /**
   * One record after the similarity pass: "Similarity" is set to a number
   * in [0, 1] (kept when it already was one, 0 when it was missing) and
   * every other key keeps its value.
   */
  function Normalize(o: Object): (r: Option<Object>)
    ensures r.Some? <==> ClampedSimilarity(Get(o, SimilarityKey)).Some?
    ensures r.Some? ==> r.value.Keys == o.Keys + {SimilarityKey}
    ensures r.Some? ==> forall k :: k in o && k != SimilarityKey ==> r.value[k] == o[k]
    ensures r.Some? ==> r.value[SimilarityKey].Num? && 0.0 <= r.value[SimilarityKey].x <= 1.0
    ensures r.Some? && SimilarityKey !in o ==> r.value[SimilarityKey] == Num(0.0)
    ensures r.Some? && SimilarityKey in o && o[SimilarityKey].Num? && 0.0 <= o[SimilarityKey].x <= 1.0 ==>
      r.value[SimilarityKey] == o[SimilarityKey]
  {
    match ClampedSimilarity(Get(o, SimilarityKey))
    case None => None
    case Some(similarity) => Some(o[SimilarityKey := Num(similarity)])
  }

  /**
   * The vector search endpoint after the search itself: an empty frame
   * gives `[]`; otherwise the records are updated in place, one by one, and
   * keep their number and order, unless a similarity cannot be compared,
   * which turns the answer into a 500.
   */
  method VectorSearch(frame: seq<Object>) returns (response: Result<seq<Object>, HttpError>)
    ensures frame == [] ==> response == Success([])
    ensures response.Success? <==> forall i :: 0 <= i < |frame| ==> Normalize(frame[i]).Some?
    ensures response.Failure? ==> response.error == ServerError
    ensures response.Failure? ==> Status(response.error) == 500
    ensures response.Success? ==>
      |response.value| == |frame| && forall i :: 0 <= i < |frame| ==> Normalize(frame[i]) == Some(response.value[i])
  {
    if |frame| == 0 {
      return Success([]);
    }
    var records := new Object[|frame|](i requires 0 <= i < |frame| => frame[i]);
    var k := 0;
    while k < records.Length
      invariant 0 <= k <= records.Length == |frame|
      invariant forall j :: 0 <= j < k ==> Normalize(frame[j]) == Some(records[j])
      invariant forall j :: k <= j < records.Length ==> records[j] == frame[j]
    {
      var similarity := ClampedSimilarity(Get(records[k], SimilarityKey));
      if similarity.None? {
        return Failure(ServerError);
      }
      records[k] := records[k][SimilarityKey := Num(similarity.value)];
      k := k + 1;
    }
    return Success(records[..]);
  }
}
