/** The behaviours the repository's tests exercise over a socket, stated as
    lemmas about the model with the server as a parameter. */
module Scenarios {
  import opened JavaLang
  import opened TimeoutConfig
  import opened OkHttp
  import opened TimeoutInterceptor
  import opened Builder
  import opened Execution
  import HttpUtil

  /** A server that replies 200 with `content` after `delaySeconds`; a call
      whose read bound is shorter than the delay times out instead. */
  function SlowServer(delaySeconds: int, content: seq<byte>): (Request, ChainTimeouts) -> Exchange
  {
    (request: Request, bounds: ChainTimeouts) =>
      if (bounds.read as int) < delaySeconds then CallFailed("Read timed out")
      else Received(Response(200, [], Ref(Streaming(Null, Bytes(content)))))
  }

  /** A GET whose read timeout is set to 2 seconds fails against a server
      that needs 3; with 4 seconds (and a 10-second connect timeout) it
      returns the whole body, buffered. */
  lemma ReadTimeoutDecidesOutcome(url: string, content: seq<byte>)
    requires |url| > 0
    ensures var short := Run(HttpUtil.Get(Ref(url)).value, [SetTimeoutOf(Read, 2)]);
      && short.Ok?
      && Execute(short.value, SlowServer(3, content)).outcome == Thrown(IOException("Read timed out"))
    ensures var long := Run(HttpUtil.Get(Ref(url)).value, [SetTimeoutOf(Read, 4), SetTimeoutOf(Connect, 10)]);
      && long.Ok?
      && Execute(long.value, SlowServer(3, content)).outcome.Ok?
      && Execute(long.value, SlowServer(3, content)).outcome.value.body == Ref(Buffered(Null, content))
  {
    var b := HttpUtil.Get(Ref(url)).value;
    var short := WithTimeout(b, Read, 2);
    assert Run(b, [SetTimeoutOf(Read, 2)]) == Run(short, []);
    assert BuildRequest(short).configTag == Ref(short.config);
    var long := WithTimeout(WithTimeout(b, Read, 4), Connect, 10);
    assert Run(b, [SetTimeoutOf(Read, 4), SetTimeoutOf(Connect, 10)]) == Run(long, []);
    assert BuildRequest(long).configTag == Ref(long.config);
  }

  /** The upload the tests send: one file part named "file" with file name
      "test.txt", then the "description" field, in a POST. */
  lemma UploadPutsFileBeforeField(url: string, data: seq<byte>)
    requires |url| > 0
    ensures var r := WithFormData(HttpUtil.UploadFile(Ref(url)).value,
                                  Ref([("description", Object("Test file"))]),
                                  Ref([UploadFile("file", "test.txt", data)]));
      && r.Ok?
      && BuildRequest(r.value).verb == "POST"
      && BuildRequest(r.value).body
         == Ref(MultipartBody([FilePart("file", "test.txt", data), FieldPart("description", "Test file")]))
  {
    var r := WithFormData(HttpUtil.UploadFile(Ref(url)).value,
                          Ref([("description", Object("Test file"))]),
                          Ref([UploadFile("file", "test.txt", data)]));
    var parts := r.value.body.value.parts;
    assert parts[0] == FilePart("file", "test.txt", data);
    assert parts[1 + 0] == FieldPart("description", "Test file");
    assert parts == [FilePart("file", "test.txt", data), FieldPart("description", "Test file")];
  }

  /** A file with an empty name and no content is accepted locally: the
      request is built and sent, and any refusal is the server's. */
  lemma EmptyFileIsAccepted(url: string)
    requires |url| > 0
    ensures var r := WithFormData(HttpUtil.UploadFile(Ref(url)).value,
                                  Ref([("description", Object("Test file"))]),
                                  Ref([UploadFile("file", "", [])]));
      && r.Ok?
      && BuildRequest(r.value).body.Ref?
      && BuildRequest(r.value).body.value.parts[0] == FilePart("file", "", [])
  {
  }
}
