/** `HttpUtil.RequestBuilder`: the state one call accumulates (method, URL,
    headers, a single body slot and the call's `HttpConfig`) and the fluent
    steps that change it, each a pure function from one state to the next. */
module Builder {
  import opened JavaLang
  import opened Seqs
  import opened TimeoutConfig
  import opened OkHttp

  /** `HttpUtil.HttpMethod`. */
  datatype HttpMethod = GET | POST | PUT | DELETE

  /** `HttpUtil.UploadFile`: one file part of a multipart upload. */
  datatype UploadFile = UploadFile(name: string, fileName: string, fileData: seq<byte>)

  /** The fields of a `RequestBuilder` together with what its wrapped
      `Request.Builder` holds. The config is the very object tagged on the
      request at construction, so keeping it once here is what lets later
      timeout setters reach the request. */
  datatype RequestBuilder = RequestBuilder(
    httpMethod: HttpMethod,
    url: HttpUrl,
    headers: seq<Header>,
    body: Nullable<RequestBody>,
    config: HttpConfig)

  const NullUrlMessage: string := "request url is null"

  /** The private constructor: a null or empty URL is refused before anything
      else happens; otherwise the builder is bound to the method and URL,
      with no headers, no body and a default config. */
  function NewRequestBuilder(url: Nullable<string>, httpMethod: HttpMethod): (r: Result<RequestBuilder>)
    ensures r.Ok? <==> url.Ref? && |url.value| > 0
    ensures r.Thrown? ==> r.exception == IllegalArgument(NullUrlMessage)
    ensures r.Ok? ==> r.value.httpMethod == httpMethod && r.value.url.base == url.value
    ensures r.Ok? ==> r.value.url.query == [] && r.value.headers == [] && r.value.body.Null?
    ensures r.Ok? ==> forall p :: Timeout(r.value.config, p) == DefaultTimeoutSeconds
  {
    if url.Null? || |url.value| == 0 then Thrown(IllegalArgument(NullUrlMessage))
    else Ok(RequestBuilder(httpMethod, HttpUrl(url.value, []), [], Null, NewHttpConfig()))
  }

  /** `addHeader(key, String.valueOf(value))` for one entry. */
  function HeaderOf(e: (string, JavaValue)): Header
  {
    Header(e.0, ValueOf(e.1))
  }

  /** `addQueryParameter(key, String.valueOf(value))` for one entry. */
  function QueryOf(e: (string, JavaValue)): QueryParameter
  {
    QueryParameter(e.0, Ref(ValueOf(e.1)))
  }

  /** `FormBody.Builder.add(key, String.valueOf(value))` for one entry. */
  function FormFieldOf(e: (string, JavaValue)): FormField
  {
    FormField(e.0, ValueOf(e.1))
  }

  /** `addFormDataPart(name, fileName, RequestBody.create(null, fileData))`. */
  function FilePartOf(f: UploadFile): Part
  {
    FilePart(f.name, f.fileName, f.fileData)
  }

  /** `addFormDataPart(key, String.valueOf(value))`. */
  function FieldPartOf(e: (string, JavaValue)): Part
  {
    FieldPart(e.0, ValueOf(e.1))
  }

  /** `header(Map)`: every entry is appended after the existing headers, so a
      key given twice keeps both values; a null map changes nothing. */
  function WithHeaders(b: RequestBuilder, header: Nullable<JavaMap<JavaValue>>): (r: RequestBuilder)
    ensures header.Null? ==> r == b
    ensures header.Ref? ==> AppendsEach(b.headers, r.headers, header.value, HeaderOf)
    ensures r.(headers := b.headers) == b
  {
    if header.Null? then b
    else b.(headers := AppendEach(b.headers, header.value, HeaderOf))
  }

  /** `param(key, value)`: one query pair is appended to the URL, a null value
      giving a name-only pair. */
  function WithParam(b: RequestBuilder, key: string, value: Nullable<string>): (r: RequestBuilder)
    ensures r.url.base == b.url.base
    ensures |r.url.query| == |b.url.query| + 1 && r.url.query[..|b.url.query|] == b.url.query
    ensures r.url.query[|b.url.query|] == QueryParameter(key, value)
    ensures r.(url := b.url) == b
  {
    b.(url := b.url.(query := b.url.query + [QueryParameter(key, value)]))
  }

  /** `params(Map)`: every entry is appended as a query pair, its value
      stringified, in iteration order and without deduplication; a null or
      empty map leaves the URL as it was. */
  function WithParams(b: RequestBuilder, params: Nullable<JavaMap<JavaValue>>): (r: RequestBuilder)
    ensures params.Null? || |params.value| == 0 ==> r == b
    ensures params.Ref? ==> AppendsEach(b.url.query, r.url.query, params.value, QueryOf)
    ensures r.url.base == b.url.base
    ensures r.(url := b.url) == b
  {
    if params.Ref? && |params.value| > 0
    then b.(url := b.url.(query := AppendEach(b.url.query, params.value, QueryOf)))
    else b
  }

  /** `form(Map)`: the body slot becomes a form body with one stringified field
      per entry; a null map fails on `entrySet()` before the slot is touched. */
  function WithForm(b: RequestBuilder, form: Nullable<JavaMap<JavaValue>>): (r: Result<RequestBuilder>)
    ensures r.Thrown? <==> form.Null?
    ensures r.Thrown? ==> r.exception == NullPointer
    ensures r.Ok? ==> r.value.body.Ref? && r.value.body.value.FormBody?
    ensures r.Ok? ==> AppendsEach([], r.value.body.value.fields, form.value, FormFieldOf)
    ensures r.Ok? ==> r.value.(body := b.body) == b
  {
    if form.Null? then Thrown(NullPointer)
    else Ok(b.(body := Ref(FormBody(AppendEach([], form.value, FormFieldOf)))))
  }

  /** The part layout `formData` produces: one part per file first, in list
      order, then one part per field with its value stringified. */
  ghost predicate MultipartLayout(parts: seq<Part>, fields: JavaMap<JavaValue>, files: seq<UploadFile>)
  {
    && |parts| == |files| + |fields|
    && (forall i :: 0 <= i < |files| ==>
          parts[i] == FilePart(files[i].name, files[i].fileName, files[i].fileData))
    && (forall j :: 0 <= j < |fields| ==>
          parts[|files| + j] == FieldPart(fields[j].0, ValueOf(fields[j].1)))
  }

  const EmptyMultipartMessage: string := "Multipart body must have at least one part."

  /** `formData(Map, List<UploadFile>)`: the body slot becomes a multipart body
      laid out files-first. Empty file names and empty contents are accepted.
      A null list or a null map fails with a `NullPointerException`, and no
      files together with no fields makes `MultipartBody.Builder.build()` fail
      with an `IllegalStateException`; in both cases the slot is untouched. */
  function WithFormData(b: RequestBuilder, form: Nullable<JavaMap<JavaValue>>, files: Nullable<seq<UploadFile>>)
    : (r: Result<RequestBuilder>)
    ensures r.Thrown? <==> form.Null? || files.Null? || |files.value| + |form.value| == 0
    ensures form.Null? || files.Null? ==> r == Thrown(NullPointer)
    ensures form.Ref? && files.Ref? && |files.value| + |form.value| == 0 ==>
      r == Thrown(IllegalState(EmptyMultipartMessage))
    ensures r.Ok? ==> r.value.body.Ref? && r.value.body.value.MultipartBody?
    ensures r.Ok? ==> MultipartLayout(r.value.body.value.parts, form.value, files.value)
    ensures r.Ok? ==> r.value.(body := b.body) == b
  {
    if files.Null? || form.Null? then Thrown(NullPointer)
    else
      var fileParts := AppendEach([], files.value, FilePartOf);
      var parts := AppendEach(fileParts, form.value, FieldPartOf);
      if |parts| == 0 then Thrown(IllegalState(EmptyMultipartMessage))
      else Ok(b.(body := Ref(MultipartBody(parts))))
  }

  /** `body(String)`: the body slot becomes the raw text, declared as JSON. */
  function WithBody(b: RequestBuilder, content: string): (r: RequestBuilder)
    ensures r.body.Ref? && r.body.value.RawBody?
    ensures r.body.value.content == content && r.body.value.contentType == JsonMediaType
    ensures r.(body := b.body) == b
  {
    b.(body := Ref(RawBody(JsonMediaType, content)))
  }

  /** `connectTimeoutSeconds`, `readTimeoutSeconds`, `writeTimeoutSeconds`:
      the call's config takes the value in that phase only. */
  function WithTimeout(b: RequestBuilder, p: Phase, seconds: int32): (r: RequestBuilder)
    ensures Timeout(r.config, p) == seconds
    ensures forall q :: q != p ==> Timeout(r.config, q) == Timeout(b.config, q)
    ensures r.(config := b.config) == b
  {
    b.(config := SetTimeout(b.config, p, seconds))
  }

  /** The verb OkHttp is asked for. */
  function MethodName(m: HttpMethod): string
  {
    match m
    case GET => "GET"
    case POST => "POST"
    case PUT => "PUT"
    case DELETE => "DELETE"
  }

  /** `buildRequest()`: GET carries no body, POST, PUT and DELETE carry the
      body slot as it stands; the request keeps the URL and headers and is
      tagged with the builder's config. */
  function BuildRequest(b: RequestBuilder): (r: Request)
    ensures r.verb == MethodName(b.httpMethod)
    ensures r.url == b.url && r.headers == b.headers
    ensures r.body.Ref? <==> b.httpMethod != GET && b.body.Ref?
    ensures r.body.Ref? ==> r.body == b.body
    ensures r.configTag == Ref(b.config)
  {
    match b.httpMethod
    case GET => Request("GET", b.url, b.headers, Null, Ref(b.config))
    case POST => Request("POST", b.url, b.headers, b.body, Ref(b.config))
    case PUT => Request("PUT", b.url, b.headers, b.body, Ref(b.config))
    case DELETE => Request("DELETE", b.url, b.headers, b.body, Ref(b.config))
  }

  // ---------------------------------------------------------------------
  // Sequences of fluent calls

  /** One fluent call on a builder. */
  datatype Step =
    | AddHeaders(header: Nullable<JavaMap<JavaValue>>)
    | AddParam(key: string, value: Nullable<string>)
    | AddParams(params: Nullable<JavaMap<JavaValue>>)
    | SetForm(form: Nullable<JavaMap<JavaValue>>)
    | SetFormData(fields: Nullable<JavaMap<JavaValue>>, files: Nullable<seq<UploadFile>>)
    | SetBody(content: string)
    | SetTimeoutOf(phase: Phase, seconds: int32)

  /** Performs one fluent call. */
  function Apply(b: RequestBuilder, s: Step): Result<RequestBuilder>
  {
    match s
    case AddHeaders(h) => Ok(WithHeaders(b, h))
    case AddParam(k, v) => Ok(WithParam(b, k, v))
    case AddParams(m) => Ok(WithParams(b, m))
    case SetForm(m) => WithForm(b, m)
    case SetFormData(m, files) => WithFormData(b, m, files)
    case SetBody(c) => Ok(WithBody(b, c))
    case SetTimeoutOf(p, n) => Ok(WithTimeout(b, p, n))
  }

  /** Performs a chain of fluent calls; the first exception ends the chain. */
  function Run(b: RequestBuilder, steps: seq<Step>): Result<RequestBuilder>
    decreases |steps|
  {
    if |steps| == 0 then Ok(b)
    else
      match Apply(b, steps[0])
      case Thrown(e) => Thrown(e)
      case Ok(next) => Run(next, steps[1..])
  }

  // Reference descriptions of what each call contributes, stated without
  // the builder.

  /** The exception a step throws, if it throws: a null map passed to `form`
      or `formData`, or a null file list passed to `formData`, is a
      `NullPointerException`; `formData` with no files and no fields is an
      `IllegalStateException`. */
  function StepException(s: Step): Nullable<Exception>
  {
    match s
    case SetForm(Null) => Ref(NullPointer)
    case SetFormData(Null, _) => Ref(NullPointer)
    case SetFormData(_, Null) => Ref(NullPointer)
    case SetFormData(Ref(m), Ref(files)) =>
      if |files| + |m| == 0 then Ref(IllegalState(EmptyMultipartMessage)) else Null
    case _ => Null
  }

  predicate Throws(s: Step)
  {
    StepException(s).Ref?
  }

  /** The headers a step adds. */
  function HeadersAddedBy(s: Step): seq<Header>
  {
    if s.AddHeaders? && s.header.Ref? then Image(s.header.value, HeaderOf) else []
  }

  /** The query pairs a step adds. */
  function QueryAddedBy(s: Step): seq<QueryParameter>
  {
    match s
    case AddParam(k, v) => [QueryParameter(k, v)]
    case AddParams(Ref(m)) => Image(m, QueryOf)
    case _ => []
  }

  /** The body a step assigns, if it assigns one. */
  function BodyAssignedBy(s: Step): Nullable<RequestBody>
  {
    match s
    case SetForm(Ref(m)) => Ref(FormBody(Image(m, FormFieldOf)))
    case SetFormData(Ref(m), Ref(files)) => Ref(MultipartBody(Image(files, FilePartOf) + Image(m, FieldPartOf)))
    case SetBody(c) => Ref(RawBody(JsonMediaType, c))
    case _ => Null
  }

  /** The timeout a step sets in phase `p`, if it sets one. */
  function TimeoutSetBy(s: Step, p: Phase): Nullable<int32>
  {
    if s.SetTimeoutOf? && s.phase == p then Ref(s.seconds) else Null
  }

  /** What a step that does not throw does to a builder, by the reference
      descriptions above. */
  ghost predicate StepEffect(b: RequestBuilder, next: RequestBuilder, s: Step)
  {
    && next.httpMethod == b.httpMethod
    && next.url.base == b.url.base
    && next.headers == b.headers + HeadersAddedBy(s)
    && next.url.query == b.url.query + QueryAddedBy(s)
    && (if BodyAssignedBy(s).Ref? then next.body == BodyAssignedBy(s) else next.body == b.body)
    && (forall p :: if TimeoutSetBy(s, p).Ref? then Timeout(next.config, p) == TimeoutSetBy(s, p).value
                    else Timeout(next.config, p) == Timeout(b.config, p))
  }

  /** A multipart layout is the file parts' image followed by the field parts' image. */
  lemma MultipartIsFilesThenFields(fields: JavaMap<JavaValue>, files: seq<UploadFile>, parts: seq<Part>)
    requires MultipartLayout(parts, fields, files)
    ensures parts == Image(files, FilePartOf) + Image(fields, FieldPartOf)
  {
    var expected := Image(files, FilePartOf) + Image(fields, FieldPartOf);
    forall k | 0 <= k < |parts| ensures parts[k] == expected[k] {
      if k >= |files| {
        assert parts[|files| + (k - |files|)] == FieldPartOf(fields[k - |files|]);
      }
    }
  }

  /** Each fluent call throws exactly the exception its reference description
      names, and otherwise has the effect its reference description gives. */
  lemma ApplyStep(b: RequestBuilder, s: Step)
    ensures Apply(b, s).Thrown? <==> Throws(s)
    ensures Apply(b, s).Thrown? ==> Apply(b, s).exception == StepException(s).value
    ensures Apply(b, s).Ok? ==> StepEffect(b, Apply(b, s).value, s)
  {
    match s
    case AddHeaders(h) =>
      if h.Ref? {
        AppendsEachIsConcat(b.headers, WithHeaders(b, h).headers, h.value, HeaderOf);
      }
    case AddParam(k, v) =>
      var next := WithParam(b, k, v);
      assert next.url.query == next.url.query[..|b.url.query|] + [next.url.query[|b.url.query|]];
    case AddParams(m) =>
      if m.Ref? {
        AppendsEachIsConcat(b.url.query, WithParams(b, m).url.query, m.value, QueryOf);
      }
    case SetForm(m) =>
      if m.Ref? {
        var fields := WithForm(b, m).value.body.value.fields;
        AppendsEachIsConcat([], fields, m.value, FormFieldOf);
      }
    case SetFormData(m, files) =>
      if m.Ref? && files.Ref? && |files.value| + |m.value| > 0 {
        MultipartIsFilesThenFields(m.value, files.value, WithFormData(b, m, files).value.body.value.parts);
      }
    case SetBody(c) =>
    case SetTimeoutOf(p, n) =>
  }

  /** Step `i` is the first of `steps` that throws. */
  ghost predicate FirstThrowing(steps: seq<Step>, i: int)
  {
    && 0 <= i < |steps|
    && Throws(steps[i])
    && forall k :: 0 <= k < i ==> !Throws(steps[k])
  }

  /** A chain of calls succeeds exactly when none of its calls throws;
      otherwise it ends with the exception of the first call that does. */
  lemma {:induction false} RunSucceedsIff(b: RequestBuilder, steps: seq<Step>)
    ensures Run(b, steps).Ok? <==> forall i :: 0 <= i < |steps| ==> !Throws(steps[i])
    ensures forall i :: FirstThrowing(steps, i) ==>
      Run(b, steps) == Thrown(StepException(steps[i]).value)
    decreases |steps|
  {
    if |steps| > 0 {
      ApplyStep(b, steps[0]);
      if !Throws(steps[0]) {
        var rest := steps[1..];
        RunSucceedsIff(Apply(b, steps[0]).value, rest);
        assert forall i :: 0 <= i < |rest| ==> rest[i] == steps[i + 1];
        forall i | FirstThrowing(steps, i)
          ensures Run(b, steps) == Thrown(StepException(steps[i]).value)
        {
          assert FirstThrowing(rest, i - 1);
        }
        if forall i :: 0 <= i < |rest| ==> !Throws(rest[i]) {
          forall i | 0 <= i < |steps| ensures !Throws(steps[i]) {
            if i > 0 {
              assert steps[i] == rest[i - 1];
            }
          }
        }
      }
    }
  }

  /** Over a successful chain, the method and base URL never change, and the
      headers and query pairs are those already present followed by what each
      call added, in call order: nothing is replaced or deduplicated. */
  lemma {:induction false} RunAccumulates(b: RequestBuilder, steps: seq<Step>)
    requires Run(b, steps).Ok?
    ensures Run(b, steps).value.httpMethod == b.httpMethod
    ensures Run(b, steps).value.url.base == b.url.base
    ensures Run(b, steps).value.headers == b.headers + Concat(steps, HeadersAddedBy)
    ensures Run(b, steps).value.url.query == b.url.query + Concat(steps, QueryAddedBy)
    decreases |steps|
  {
    if |steps| > 0 {
      var s, rest := steps[0], steps[1..];
      ApplyStep(b, s);
      var next := Apply(b, s).value;
      assert Run(b, steps) == Run(next, rest);
      RunAccumulates(next, rest);
      assert next.headers == b.headers + HeadersAddedBy(s);
      assert next.url.query == b.url.query + QueryAddedBy(s);
      assert Concat(steps, HeadersAddedBy) == HeadersAddedBy(s) + Concat(rest, HeadersAddedBy);
      assert Concat(steps, QueryAddedBy) == QueryAddedBy(s) + Concat(rest, QueryAddedBy);
      SeqAssoc(b.headers, HeadersAddedBy(s), Concat(rest, HeadersAddedBy));
      SeqAssoc(b.url.query, QueryAddedBy(s), Concat(rest, QueryAddedBy));
    }
  }

  /** Step `j` is the last of `steps` that assigns the body. */
  ghost predicate LastBodyAssignment(steps: seq<Step>, j: int)
  {
    && 0 <= j < |steps|
    && BodyAssignedBy(steps[j]).Ref?
    && forall k :: j < k < |steps| ==> BodyAssignedBy(steps[k]).Null?
  }

  /** The body is one slot: after a successful chain it holds what the last
      body-assigning call put there, or what it held before if no call
      assigned one. */
  lemma {:induction false} RunBodyIsLastAssigned(b: RequestBuilder, steps: seq<Step>)
    requires Run(b, steps).Ok?
    ensures (forall j :: 0 <= j < |steps| ==> BodyAssignedBy(steps[j]).Null?) ==>
      Run(b, steps).value.body == b.body
    ensures forall j :: LastBodyAssignment(steps, j) ==>
      Run(b, steps).value.body == BodyAssignedBy(steps[j])
    decreases |steps|
  {
    if |steps| > 0 {
      ApplyStep(b, steps[0]);
      var next := Apply(b, steps[0]).value;
      var rest := steps[1..];
      RunBodyIsLastAssigned(next, rest);
      assert forall i :: 0 <= i < |rest| ==> rest[i] == steps[i + 1];
      forall j | LastBodyAssignment(steps, j)
        ensures Run(b, steps).value.body == BodyAssignedBy(steps[j])
      {
        if j > 0 {
          assert LastBodyAssignment(rest, j - 1);
        }
      }
    }
  }

  /** Step `j` is the last of `steps` that sets the timeout of phase `p`. */
  ghost predicate LastTimeoutSetting(steps: seq<Step>, p: Phase, j: int)
  {
    && 0 <= j < |steps|
    && TimeoutSetBy(steps[j], p).Ref?
    && forall k :: j < k < |steps| ==> TimeoutSetBy(steps[k], p).Null?
  }

  /** Each phase's timeout after a successful chain is the value of the last
      call that set that phase, whatever calls of other phases or other kinds
      came after it; a phase no call set keeps its earlier value. */
  lemma {:induction false} RunTimeoutIsLastSet(b: RequestBuilder, steps: seq<Step>, p: Phase)
    requires Run(b, steps).Ok?
    ensures (forall j :: 0 <= j < |steps| ==> TimeoutSetBy(steps[j], p).Null?) ==>
      Timeout(Run(b, steps).value.config, p) == Timeout(b.config, p)
    ensures forall j :: LastTimeoutSetting(steps, p, j) ==>
      Timeout(Run(b, steps).value.config, p) == TimeoutSetBy(steps[j], p).value
    decreases |steps|
  {
    if |steps| > 0 {
      ApplyStep(b, steps[0]);
      var next := Apply(b, steps[0]).value;
      var rest := steps[1..];
      RunTimeoutIsLastSet(next, rest, p);
      assert forall i :: 0 <= i < |rest| ==> rest[i] == steps[i + 1];
      forall j | LastTimeoutSetting(steps, p, j)
        ensures Timeout(Run(b, steps).value.config, p) == TimeoutSetBy(steps[j], p).value
      {
        if j > 0 {
          assert LastTimeoutSetting(rest, p, j - 1);
        }
      }
    }
  }
}
