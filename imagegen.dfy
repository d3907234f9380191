/** The Stable Diffusion image-generation pipeline: how it builds its POST from
    the current valves and the prompt, how it reads the service's reply into a
    list of image URLs, and how `pipe` turns that list into one markdown chunk.
    The HTTP exchange itself is a parameter: a function from the request sent
    to what came back. */
module ImageGen {
  import opened Wrappers
  import opened Json

  // ---------------------------------------------------------------------------
  // Valves: the settings the host can replace between calls
  // ---------------------------------------------------------------------------

  datatype Valves = Valves(apiBaseUrl: string, apiKey: string, imageSize: string, numImages: int)

  /** The values a freshly constructed `Valves` holds. */
  const DefaultValves: Valves :=
    Valves("https://lab.volcanotester.com/images/api/v1/generations", "", "1024x1024", 1)

  // ---------------------------------------------------------------------------
  // The outgoing request
  // ---------------------------------------------------------------------------

  /** A POST: the target URL, the header dictionary and the JSON payload. */
  datatype Request = Request(url: string, headers: map<string, string>, payload: Json)

  const BearerPrefix: string := "Bearer "

  /** The header dictionary: a single Authorization entry, sent whatever the key. */
  function Headers(v: Valves): map<string, string>
  {
    map["Authorization" := BearerPrefix + v.apiKey]
  }

  /** The credential a header dictionary carries as a bearer token, if any. */
  function BearerToken(h: map<string, string>): Option<string>
  {
    if "Authorization" in h && |h["Authorization"]| >= |BearerPrefix|
       && h["Authorization"][..|BearerPrefix|] == BearerPrefix
    then Some(h["Authorization"][|BearerPrefix|..])
    else None
  }

  /** The JSON payload: the prompt, the image count and the image size. */
  function Payload(v: Valves, prompt: string): Json
  {
    Object(map["prompt" := Str(prompt), "num_images" := Number(v.numImages), "size" := Str(v.imageSize)])
  }

  datatype PayloadFields = PayloadFields(prompt: string, numImages: int, size: string)

  /** What a receiving service reads from a payload that has exactly the three
      expected keys with the expected kinds of value. */
  function ReadPayload(j: Json): Option<PayloadFields>
  {
    if j.Object? && j.fields.Keys == {"prompt", "num_images", "size"}
       && j.fields["prompt"].Str? && j.fields["num_images"].Number? && j.fields["size"].Str?
    then Some(PayloadFields(j.fields["prompt"].s, j.fields["num_images"].n, j.fields["size"].s))
    else None
  }

  /** The request `generate_images` posts for `prompt` under valves `v`. */
  function BuildRequest(v: Valves, prompt: string): (r: Request)
    ensures r.url == v.apiBaseUrl
    ensures r.headers.Keys == {"Authorization"}
    ensures BearerToken(r.headers) == Some(v.apiKey)
    ensures ReadPayload(r.payload) == Some(PayloadFields(prompt, v.numImages, v.imageSize))
  {
    var h := Headers(v);
    assert h["Authorization"][..|BearerPrefix|] == BearerPrefix;
    var p := Payload(v, prompt);
    assert p.fields.Keys == {"prompt", "num_images", "size"};
    Request(v.apiBaseUrl, h, p)
  }

  /** An empty key is not left out: the header still goes, as the bare prefix. */
  lemma EmptyKeyStillSent(v: Valves, prompt: string)
    requires v.apiKey == ""
    ensures "Authorization" in BuildRequest(v, prompt).headers
    ensures BuildRequest(v, prompt).headers["Authorization"] == "Bearer "
  {
  }

  /** Two valves that differ in any setting the request carries give different
      requests for the same prompt, and two prompts give different requests. */
  lemma BuildRequestInjective(v1: Valves, p1: string, v2: Valves, p2: string)
    requires BuildRequest(v1, p1) == BuildRequest(v2, p2)
    ensures v1 == v2 && p1 == p2
  {
  }

  // ---------------------------------------------------------------------------
  // The reply and how it is read
  // ---------------------------------------------------------------------------

  /** What one POST produces: no reply at all, or a status and a body that
      decodes as JSON (`Some`) or does not (`None`). */
  datatype Exchange = TransportFailure | Reply(status: int, body: Option<Json>)

  /** The exception `generate_images` lets escape. */
  datatype Error =
    | TransportError                 // the POST itself raised
    | HttpError(status: int)         // raise_for_status raised
    | NotJson                        // response.json() raised
    | NotIterable                    // the decoded body cannot be iterated
    | NotSubscriptable(index: nat)   // element `index` cannot be indexed by "url"
    | MissingUrl(index: nat)         // element `index` is an object without "url"

  /** The statuses `raise_for_status` raises for: client and server errors. */
  predicate IsErrorStatus(status: int)
  {
    400 <= status < 600
  }

  /** An element the comprehension can take a URL from. */
  predicate HasUrl(item: Json)
  {
    item.Object? && "url" in item.fields
  }

  /** `i` is the first element of `items` that has no URL. */
  predicate FirstWithoutUrl(items: seq<Json>, i: int)
  {
    0 <= i < |items| && !HasUrl(items[i]) && forall j :: 0 <= j < i ==> HasUrl(items[j])
  }

  /** The exception `image["url"]` raises for an element that has no URL. */
  function ElementError(item: Json, index: nat): Error
  {
    if item.Object? then MissingUrl(index) else NotSubscriptable(index)
  }

  /** `image["url"]` for the element at position `index`. */
  function UrlOf(item: Json, index: nat): Result<Json, Error>
  {
    if HasUrl(item) then Ok(item.fields["url"]) else Err(ElementError(item, index))
  }

  /** `[image["url"] for image in items]`, evaluated left to right: either every
      element's URL, in order, or the exception of the first element without one. */
  function UrlList(items: seq<Json>): (r: Result<seq<Json>, Error>)
    ensures r.Ok? <==> forall i :: 0 <= i < |items| ==> HasUrl(items[i])
    ensures r.Ok? ==> |r.value| == |items|
    ensures r.Ok? ==> forall i :: 0 <= i < |items| ==> r.value[i] == items[i].fields["url"]
    ensures r.Err? ==> (r.error.MissingUrl? || r.error.NotSubscriptable?)
                       && FirstWithoutUrl(items, r.error.index)
                       && r.error == ElementError(items[r.error.index], r.error.index)
    decreases |items|
  {
    if items == [] then Ok([])
    else
      var n := |items| - 1;
      match UrlList(items[..n])
      case Err(e) => Err(e)
      case Ok(urls) =>
        match UrlOf(items[n], n)
        case Err(e) => Err(e)
        case Ok(u) => Ok(urls + [u])
  }

  /** A decoded body from which the comprehension succeeds: a list whose every
      element has a URL, or one of the two empty values Python iterates zero
      times over (the empty string and the empty object). */
  predicate WellFormedBody(data: Json)
  {
    (data.Array? && forall i :: 0 <= i < |data.items| ==> HasUrl(data.items[i]))
    || data == Str("") || data == Object(map[])
  }

  /** Iterating the decoded body and indexing each element by "url". A string
      iterates over its characters and an object over its keys, both strings,
      so a non-empty one fails at its first element. */
  function ExtractUrls(data: Json): Result<seq<Json>, Error>
  {
    match data
    case Array(items) => UrlList(items)
    case Str(s) => if s == "" then Ok([]) else Err(NotSubscriptable(0))
    case Object(f) => if f == map[] then Ok([]) else Err(NotSubscriptable(0))
    case _ => Err(NotIterable)
  }

  /** `generate_images` after the POST: the status check, the decoding, the
      comprehension. */
  function Interpret(x: Exchange): (r: Result<seq<Json>, Error>)
    ensures x.TransportFailure? ==> r == Err(TransportError)
    ensures x.Reply? && IsErrorStatus(x.status) ==> r == Err(HttpError(x.status))
    ensures x.Reply? && !IsErrorStatus(x.status) && x.body.None? ==> r == Err(NotJson)
    ensures r.Ok? <==> x.Reply? && !IsErrorStatus(x.status) && x.body.Some? && WellFormedBody(x.body.value)
    ensures r.Ok? && x.body.value.Array? ==>
              |r.value| == |x.body.value.items|
              && forall i :: 0 <= i < |r.value| ==> r.value[i] == x.body.value.items[i].fields["url"]
    ensures r.Ok? && !x.body.value.Array? ==> r.value == []
    ensures x.Reply? && !IsErrorStatus(x.status) && x.body.Some?
            && (x.body.value.Null? || x.body.value.Bool? || x.body.value.Number?)
            ==> r == Err(NotIterable)
    ensures x.Reply? && !IsErrorStatus(x.status) && x.body.Some?
            && ((x.body.value.Str? && x.body.value.s != "") || (x.body.value.Object? && x.body.value.fields != map[]))
            ==> r == Err(NotSubscriptable(0))
  {
    match x
    case TransportFailure => Err(TransportError)
    case Reply(status, body) =>
      if IsErrorStatus(status) then Err(HttpError(status))
      else if body.None? then Err(NotJson)
      else ExtractUrls(body.value)
  }

  /** A list body with an element lacking a URL fails at the first such element
      and hands back no URLs at all. */
  lemma NoPartialResult(status: int, items: seq<Json>, i: nat)
    requires !IsErrorStatus(status)
    requires FirstWithoutUrl(items, i)
    ensures Interpret(Reply(status, Some(Array(items)))) == Err(ElementError(items[i], i))
  {
  }

  /** The service returning no descriptors is a success with no URLs, and the
      message for no URLs is the empty string. */
  lemma EmptyResultIsSuccess(status: int)
    requires !IsErrorStatus(status)
    ensures Interpret(Reply(status, Some(Array([])))) == Ok([])
    ensures Message(Texts([])) == ""
  {
  }

  // ---------------------------------------------------------------------------
  // The message `pipe` yields
  // ---------------------------------------------------------------------------

  const LinePrefix: string := "![image]("

  /** One markdown image reference and its line break. */
  function ImageLine(url: string): string
  {
    LinePrefix + url + ")\n"
  }

  /** The accumulator after appending one line per URL, in order. */
  function Message(urls: seq<string>): string
    decreases |urls|
  {
    if urls == [] then "" else Message(urls[..|urls| - 1]) + ImageLine(urls[|urls| - 1])
  }

  /** The message is empty exactly when there are no URLs, and otherwise ends
      with the line break of its last line. */
  lemma MessageShape(urls: seq<string>)
    ensures Message(urls) == "" <==> urls == []
    ensures urls != [] ==> Message(urls)[|Message(urls)| - 1] == '\n'
  {
  }

  /** The text of each URL value as the f-string interpolates it. */
  function Texts(vs: seq<Json>): seq<string>
  {
    seq(|vs|, i requires 0 <= i < |vs| => Text(vs[i]))
  }

  /** Formatting two lists one after the other is formatting their concatenation. */
  lemma {:induction false} MessageAppend(a: seq<string>, b: seq<string>)
    ensures Message(a + b) == Message(a) + Message(b)
    decreases |b|
  {
    if b == [] {
      assert a + b == a;
    } else {
      var n := |b| - 1;
      assert (a + b)[..|a + b| - 1] == a + b[..n];
      assert (a + b)[|a + b| - 1] == b[n];
      MessageAppend(a, b[..n]);
    }
  }

  lemma MessageCons(u: string, rest: seq<string>)
    ensures Message([u] + rest) == ImageLine(u) + Message(rest)
  {
    MessageAppend([u], rest);
    assert Message([u]) == Message([]) + ImageLine(u);
  }

  /** The sum over the list of each URL's length plus the eleven characters around it. */
  function TotalLength(urls: seq<string>): nat
  {
    if urls == [] then 0 else |urls[0]| + 11 + TotalLength(urls[1..])
  }

  lemma {:induction false} MessageLength(urls: seq<string>)
    ensures |Message(urls)| == TotalLength(urls)
    decreases |urls|
  {
    if urls != [] {
      assert urls == [urls[0]] + urls[1..];
      MessageCons(urls[0], urls[1..]);
      MessageLength(urls[1..]);
    }
  }

  // Reading a message back into its URLs: the partner of `Message`.

  /** The first line break in `m` at or after position `from`. */
  function FirstNewline(m: string, from: nat): (k: Option<nat>)
    ensures k.Some? ==> from <= k.value < |m| && m[k.value] == '\n'
                        && forall j :: from <= j < k.value ==> m[j] != '\n'
    ensures k.None? ==> forall j :: from <= j < |m| ==> m[j] != '\n'
    decreases |m| - from
  {
    if from >= |m| then None
    else if m[from] == '\n' then Some(from)
    else FirstNewline(m, from + 1)
  }

  /** The URLs of a text made of `![image](<url>)` lines, each ended by a line
      break, or `None` when the text is not of that shape. */
  function ParseMessage(m: string): Option<seq<string>>
    decreases |m|
  {
    if m == [] then Some([])
    else if |m| < |LinePrefix| || m[..|LinePrefix|] != LinePrefix then None
    else
      match FirstNewline(m, |LinePrefix|)
      case None => None
      case Some(k) =>
        if k <= |LinePrefix| || m[k - 1] != ')' then None
        else
          match ParseMessage(m[k + 1..])
          case None => None
          case Some(rest) => Some([m[|LinePrefix|..k - 1]] + rest)
  }

  /** A URL without line breaks, written as one image line in front of a
      text, is read back first, followed by whatever the text reads as. */
  lemma ParseImageLine(u: string, t: string)
    requires '\n' !in u
    ensures ParseMessage(ImageLine(u) + t)
            == if ParseMessage(t).Some? then Some([u] + ParseMessage(t).value) else None
  {
    var m := ImageLine(u) + t;
    var p := |LinePrefix|;
    var k := p + |u| + 1;
    assert m[..p] == LinePrefix;
    assert m[k] == '\n';
    assert forall j :: p <= j < k ==> m[j] != '\n' by {
      forall j | p <= j < k ensures m[j] != '\n' {
        if j < k - 1 {
          assert m[j] == u[j - p];
        }
      }
    }
    assert FirstNewline(m, p) == Some(k);
    assert m[k - 1] == ')';
    assert m[p..k - 1] == u;
    assert m[k + 1..] == t;
  }

  /** URLs without line breaks come back, all of them and in order, from the
      message: the message holds exactly one image line per URL. */
  lemma {:induction false} ParseMessageRoundTrip(urls: seq<string>)
    requires forall i :: 0 <= i < |urls| ==> '\n' !in urls[i]
    ensures ParseMessage(Message(urls)) == Some(urls)
    decreases |urls|
  {
    if urls != [] {
      var u, rest := urls[0], urls[1..];
      assert urls == [u] + rest;
      MessageCons(u, rest);
      ParseMessageRoundTrip(rest);
      ParseImageLine(u, Message(rest));
    }
  }

  /** How a non-empty text that parses splits: its first line, ended at `k`,
      and the text after it. */
  lemma ParseMessageHead(m: string) returns (k: nat)
    requires m != [] && ParseMessage(m).Some?
    ensures |LinePrefix| < k < |m|
    ensures m[..|LinePrefix|] == LinePrefix && m[k - 1] == ')' && m[k] == '\n'
    ensures ParseMessage(m[k + 1..]).Some?
    ensures ParseMessage(m).value == [m[|LinePrefix|..k - 1]] + ParseMessage(m[k + 1..]).value
  {
    k := FirstNewline(m, |LinePrefix|).value;
  }

  /** A first image line ended at `k`, followed by the message of `rest`,
      is the message of the line's URL followed by `rest`. */
  lemma MessageOfSplit(m: string, k: nat, rest: seq<string>)
    requires |LinePrefix| < k < |m|
    requires m[..|LinePrefix|] == LinePrefix && m[k - 1] == ')' && m[k] == '\n'
    requires Message(rest) == m[k + 1..]
    ensures Message([m[|LinePrefix|..k - 1]] + rest) == m
  {
    var p := |LinePrefix|;
    var u := m[p..k - 1];
    MessageCons(u, rest);
    assert m[k - 1..k + 1] == ")\n";
    assert m[..k + 1] == m[..p] + u + m[k - 1..k + 1];
    assert m == m[..k + 1] + m[k + 1..];
  }

  /** Every text that parses is the message of the URLs it parses to. */
  lemma {:induction false} ParseMessageSound(m: string, urls: seq<string>)
    requires ParseMessage(m) == Some(urls)
    ensures Message(urls) == m
    decreases |m|
  {
    if m != [] {
      var k := ParseMessageHead(m);
      var rest := ParseMessage(m[k + 1..]).value;
      ParseMessageSound(m[k + 1..], rest);
      MessageOfSplit(m, k, rest);
    }
  }

  // ---------------------------------------------------------------------------
  // The pipeline object
  // ---------------------------------------------------------------------------

  class Pipeline {
    /** The current settings; the host replaces this value between calls. */
    var valves: Valves

    constructor ()
      ensures valves == DefaultValves
    {
      valves := DefaultValves;
    }

    /** Posts the request built from the current valves and `prompt` through
        `service` once, and reads its reply. */
    method GenerateImages(prompt: string, service: Request -> Exchange) returns (urls: Result<seq<Json>, Error>)
      ensures urls == Interpret(service(BuildRequest(valves, prompt)))
    {
      var request := BuildRequest(valves, prompt);
      var response := service(request);
      urls := Interpret(response);
    }

    /** The host's entry point. The chunks it yields and the exception it raises:
        no chunk and the error when generation fails, otherwise exactly one
        chunk, the formatted message. The model id, the conversation and the
        request body play no part. */
    method Pipe(userMessage: string, modelId: string, messages: seq<map<string, Json>>,
                body: map<string, Json>, service: Request -> Exchange)
      returns (chunks: seq<string>, raised: Option<Error>)
      ensures match Interpret(service(BuildRequest(valves, userMessage)))
              case Ok(urls) => raised == None && chunks == [Message(Texts(urls))]
              case Err(e) => raised == Some(e) && chunks == []
    {
      var imageUrls := GenerateImages(userMessage, service);
      if imageUrls.Err? {
        return [], Some(imageUrls.error);
      }
      var urls := imageUrls.value;
      var message := "";
      for i := 0 to |urls|
        invariant message == Message(Texts(urls[..i]))
      {
        assert Texts(urls[..i + 1])[..i] == Texts(urls[..i]);
        message := message + ImageLine(Text(urls[i]));
      }
      assert urls[..|urls|] == urls;
      chunks, raised := [message], None;
    }
  }

  // ---------------------------------------------------------------------------
  // Worked cases
  // ---------------------------------------------------------------------------

  /** Two descriptors come back as two image lines, in the order returned. */
  lemma TwoImagesScenario()
    ensures var reply := Reply(200, Some(Array([Object(map["url" := Str("https://img/1.png")]),
                                                 Object(map["url" := Str("https://img/2.png")])])));
            Interpret(reply) == Ok([Str("https://img/1.png"), Str("https://img/2.png")])
            && Message(Texts(Interpret(reply).value))
               == "![image](https://img/1.png)\n" + "![image](https://img/2.png)\n"
  {
    var items := [Object(map["url" := Str("https://img/1.png")]), Object(map["url" := Str("https://img/2.png")])];
    var urls := [Str("https://img/1.png"), Str("https://img/2.png")];
    assert HasUrl(items[0]) && HasUrl(items[1]);
    var r := UrlList(items);
    assert r.value[0] == urls[0] && r.value[1] == urls[1];
    assert r.value == urls;
    var texts := Texts(urls);
    assert texts == ["https://img/1.png"] + ["https://img/2.png"];
    MessageAppend(["https://img/1.png"], ["https://img/2.png"]);
    assert Message(["https://img/1.png"]) == ImageLine("https://img/1.png");
    assert Message(["https://img/2.png"]) == ImageLine("https://img/2.png");
    TwoImageLines();
  }

  lemma TwoImageLines()
    ensures ImageLine("https://img/1.png") + ImageLine("https://img/2.png")
            == "![image](https://img/1.png)\n" + "![image](https://img/2.png)\n"
  {
  }

  /** The same exchange driven through a pipeline whose valves the host has set:
      one chunk, the two image lines in order, and no exception. */
  method TwoImagesThroughPipe() returns (chunks: seq<string>, raised: Option<Error>)
    ensures raised == None
    ensures chunks == ["![image](https://img/1.png)\n" + "![image](https://img/2.png)\n"]
  {
    var pipeline := new Pipeline();
    pipeline.valves := Valves("https://svc/generate", "abc", "512x512", 2);
    var reply := Reply(200, Some(Array([Object(map["url" := Str("https://img/1.png")]),
                                        Object(map["url" := Str("https://img/2.png")])])));
    TwoImagesScenario();
    chunks, raised := pipeline.Pipe("a red fox", "", [], map[], (request: Request) => reply);
  }

  /** A server error yields nothing but the error carrying its status. */
  lemma ServerErrorScenario(body: Option<Json>)
    ensures Interpret(Reply(500, body)) == Err(HttpError(500))
  {
  }
}
