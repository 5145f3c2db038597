/**
 * The ApiResponse envelope and its JSON wire form: which keys encoding/json
 * emits under the struct's `omitempty` tags, and the decoding that reads the
 * wire form back.
 */
module ApiResponses {
  import opened Wrappers
  import opened JsonValues

  /** Log and Request hold the string maps the render service builds; nil and empty are one value. */
  datatype ApiResponse = ApiResponse(
    version: string,
    build: string,
    name: string,
    support: string,
    status: int,
    scope: string,
    correlationId: string,
    log: map<string, string>,
    result: Json,
    error: string,
    stack: seq<string>,
    request: map<string, string>)

  /** The JSON keys of the struct's tags, in declaration order. */
  const Keys: set<string> := {"version", "build", "name", "support", "status", "scope",
                              "correlationid", "log", "result", "error", "stack", "request"}

  function StringsToJson(m: map<string, string>): Json {
    Object(map k | k in m :: String(m[k]))
  }

  function StackToJson(lines: seq<string>): Json {
    Array(seq(|lines|, i requires 0 <= i < |lines| => String(lines[i])))
  }

  /** Whether the `omitempty` rule lets field `k` through (status and result have no `omitempty`). */
  predicate Emitted(r: ApiResponse, k: string) {
    match k
    case "version" => r.version != ""
    case "build" => r.build != ""
    case "name" => r.name != ""
    case "support" => r.support != ""
    case "status" => true
    case "scope" => r.scope != ""
    case "correlationid" => r.correlationId != ""
    case "log" => r.log != map[]
    case "result" => true
    case "error" => r.error != ""
    case "stack" => r.stack != []
    case "request" => r.request != map[]
    case _ => false
  }

  /** The JSON value of field `k`. */
  function FieldJson(r: ApiResponse, k: string): Json {
    match k
    case "version" => String(r.version)
    case "build" => String(r.build)
    case "name" => String(r.name)
    case "support" => String(r.support)
    case "status" => Num(r.status as real)
    case "scope" => String(r.scope)
    case "correlationid" => String(r.correlationId)
    case "log" => StringsToJson(r.log)
    case "result" => r.result
    case "error" => String(r.error)
    case "stack" => StackToJson(r.stack)
    case "request" => StringsToJson(r.request)
    case _ => Null
  }

  /** json.Marshal of an ApiResponse, as a JSON value. */
  function Encode(r: ApiResponse): (j: Json)
    ensures j.Object? && j.fields.Keys <= Keys
    ensures "status" in j.fields && j.fields["status"] == Num(r.status as real)
    ensures "result" in j.fields && j.fields["result"] == r.result
    ensures "version" in j.fields <==> r.version != ""
    ensures "build" in j.fields <==> r.build != ""
    ensures "name" in j.fields <==> r.name != ""
    ensures "support" in j.fields <==> r.support != ""
    ensures "scope" in j.fields <==> r.scope != ""
    ensures "correlationid" in j.fields <==> r.correlationId != ""
    ensures "error" in j.fields <==> r.error != ""
    ensures "log" in j.fields <==> r.log != map[]
    ensures "stack" in j.fields <==> r.stack != []
    ensures "request" in j.fields <==> r.request != map[]
  {
    Object(map k | k in Keys && Emitted(r, k) :: FieldJson(r, k))
  }

  /** A string field: absent or null decodes to "", a JSON string to itself. */
  function DecodeString(f: map<string, Json>, k: string): Option<string> {
    if k !in f then Some("")
    else match f[k]
      case String(s) => Some(s)
      case Null => Some("")
      case _ => None
  }

  function DecodeStatus(f: map<string, Json>): Option<int> {
    if "status" !in f then Some(0)
    else match f["status"]
      case Num(n) => if n.Floor as real == n then Some(n.Floor) else None
      case Null => Some(0)
      case _ => None
  }

  function DecodeStrings(f: map<string, Json>, k: string): Option<map<string, string>> {
    if k !in f then Some(map[])
    else match f[k]
      case Object(o) =>
        if forall x :: x in o ==> o[x].String? then Some(map x | x in o :: o[x].s) else None
      case Null => Some(map[])
      case _ => None
  }

  function DecodeStack(f: map<string, Json>): Option<seq<string>> {
    if "stack" !in f then Some([])
    else match f["stack"]
      case Array(a) =>
        if forall i :: 0 <= i < |a| ==> a[i].String? then Some(seq(|a|, i requires 0 <= i < |a| => a[i].s)) else None
      case Null => Some([])
      case _ => None
  }

  /** Reads an ApiResponse back from the keys Encode writes (exact key names); None where a field has the wrong type. */
  function Decode(j: Json): Option<ApiResponse> {
    if !j.Object? then None
    else
      var f := j.fields;
      var version := DecodeString(f, "version");
      var build := DecodeString(f, "build");
      var name := DecodeString(f, "name");
      var support := DecodeString(f, "support");
      var status := DecodeStatus(f);
      var scope := DecodeString(f, "scope");
      var cid := DecodeString(f, "correlationid");
      var log := DecodeStrings(f, "log");
      var error := DecodeString(f, "error");
      var stack := DecodeStack(f);
      var request := DecodeStrings(f, "request");
      if version.None? || build.None? || name.None? || support.None? || status.None? || scope.None?
         || cid.None? || log.None? || error.None? || stack.None? || request.None?
      then None
      else
        Some(ApiResponse(version.value, build.value, name.value, support.value, status.value, scope.value,
                         cid.value, log.value, if "result" in f then f["result"] else Null, error.value,
                         stack.value, request.value))
  }

  lemma StringsRoundTrip(m: map<string, string>)
    ensures var o := StringsToJson(m).fields;
            (forall x :: x in o ==> o[x].String?) && (map x | x in o :: o[x].s) == m
  {
  }

  lemma StackRoundTrip(lines: seq<string>)
    ensures var a := StackToJson(lines).items;
            (forall i :: 0 <= i < |a| ==> a[i].String?) && seq(|a|, i requires 0 <= i < |a| => a[i].s) == lines
  {
  }

  /** A string field reads back as the value it was encoded from. */
  lemma DecodeStringField(r: ApiResponse, k: string, v: string)
    requires k in Keys && FieldJson(r, k) == String(v) && (Emitted(r, k) <==> v != "")
    ensures DecodeString(Encode(r).fields, k) == Some(v)
  {
  }

  /** Decode succeeds with `r` once every field of the object reads back as the field of `r`. */
  lemma DecodeFromFields(j: Json, r: ApiResponse)
    requires j.Object?
    requires DecodeString(j.fields, "version") == Some(r.version) && DecodeString(j.fields, "build") == Some(r.build)
    requires DecodeString(j.fields, "name") == Some(r.name) && DecodeString(j.fields, "support") == Some(r.support)
    requires DecodeString(j.fields, "scope") == Some(r.scope)
    requires DecodeString(j.fields, "correlationid") == Some(r.correlationId)
    requires DecodeString(j.fields, "error") == Some(r.error)
    requires DecodeStatus(j.fields) == Some(r.status)
    requires DecodeStrings(j.fields, "log") == Some(r.log) && DecodeStrings(j.fields, "request") == Some(r.request)
    requires DecodeStack(j.fields) == Some(r.stack)
    requires "result" in j.fields && j.fields["result"] == r.result
    ensures Decode(j) == Some(r)
  {
  }

  /** The seven string fields read back from the wire form. */
  lemma EncodedStringsReadBack(r: ApiResponse)
    ensures var f := Encode(r).fields;
            && DecodeString(f, "version") == Some(r.version) && DecodeString(f, "build") == Some(r.build)
            && DecodeString(f, "name") == Some(r.name) && DecodeString(f, "support") == Some(r.support)
            && DecodeString(f, "scope") == Some(r.scope) && DecodeString(f, "correlationid") == Some(r.correlationId)
            && DecodeString(f, "error") == Some(r.error)
  {
    DecodeStringField(r, "version", r.version);
    DecodeStringField(r, "build", r.build);
    DecodeStringField(r, "name", r.name);
    DecodeStringField(r, "support", r.support);
    DecodeStringField(r, "scope", r.scope);
    DecodeStringField(r, "correlationid", r.correlationId);
    DecodeStringField(r, "error", r.error);
  }

  /** The status, the two maps and the stack read back from the wire form. */
  lemma EncodedCollectionsReadBack(r: ApiResponse)
    ensures var f := Encode(r).fields;
            && DecodeStatus(f) == Some(r.status)
            && DecodeStrings(f, "log") == Some(r.log) && DecodeStrings(f, "request") == Some(r.request)
            && DecodeStack(f) == Some(r.stack)
  {
    var f := Encode(r).fields;
    assert DecodeStrings(f, "log") == Some(r.log) by {
      StringsRoundTrip(r.log);
    }
    assert DecodeStrings(f, "request") == Some(r.request) by {
      StringsRoundTrip(r.request);
    }
    assert DecodeStack(f) == Some(r.stack) by {
      StackRoundTrip(r.stack);
    }
  }

  /** Omitting exactly the empty fields loses nothing: decoding the wire form gives the envelope back. */
  lemma DecodeEncode(r: ApiResponse)
    ensures Decode(Encode(r)) == Some(r)
  {
    EncodedStringsReadBack(r);
    EncodedCollectionsReadBack(r);
    DecodeFromFields(Encode(r), r);
  }
}
