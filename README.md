# Stable Diffusion image-generation pipeline, modelled in Dafny

The pipeline is a "manifold" adapter for a chat host. The host passes it the
user's message. The pipeline POSTs that message as a prompt to an image
service, reads the JSON list of image descriptors that comes back, and yields
one markdown chunk that holds an `![image](<url>)` line for each image. This
project models the deterministic logic around that one HTTP exchange:

- `Valves`: the settings record and its defaults.
- The request `generate_images` builds from the current valves and the prompt:
  the URL, the header dictionary and the JSON payload.
- How the reply is read: the status check of `raise_for_status`, the decoding
  of the body, and the comprehension `[image["url"] for image in data]`,
  including the exception each bad shape raises.
- The loop in `pipe` that builds the message one line at a time, and the single
  chunk it yields.

The network is a parameter, `service: Request -> Exchange`. It maps the request
sent to what came back: either `TransportFailure` (the POST raised), or
`Reply(status, body)` where `body` is `None` when the body is not JSON. The
pipeline object is a class with a `valves` field. The host replaces that field
between calls. `GenerateImages` and `Pipe` read it.

Files:
- `wrappers.dfy`: `Option` and `Result`.
- `json.dfy`: decoded JSON values, and Python's `str()` of a value as an
  f-string interpolates it.
- `imagegen.dfy`: everything else.

Edge cases of the code that the model keeps:
- **Which statuses fail.** `raise_for_status` raises only for 400–599. A 1xx or
  3xx status that reaches the pipeline is read like a 2xx.
- **The Authorization header.** It is always sent, as `"Bearer " + API_KEY`,
  which is `"Bearer "` for an empty key.
- **Bodies that are not lists.** Python iterates the decoded body whatever it
  is. The empty string and the empty object therefore succeed with zero URLs.
  A non-empty string or object fails at its first element, which is a string
  and cannot be indexed by `"url"`. `null`, booleans and numbers cannot be
  iterated at all.

## Model

| member | source | states |
|---|---|---|
| `ImageGen.BuildRequest` | pipeline_test.py:46-55 | The request goes to `API_BASE_URL`. Its headers are exactly one entry, `Authorization`, and that entry's bearer token is exactly `API_KEY`. Its payload is an object with exactly the keys `prompt`, `num_images` and `size`, holding the prompt unchanged, `NUM_IMAGES` and `IMAGE_SIZE`. |
| `ImageGen.EmptyKeyStillSent` | pipeline_test.py:46-48 | With an empty `API_KEY`, the Authorization header is still present for every prompt, and its value is `"Bearer "`. |
| `ImageGen.BuildRequestInjective` | pipeline_test.py:46-53 | Equal requests come from equal valves and equal prompts: the request carries every setting and the prompt. |
| `ImageGen.UrlList` | pipeline_test.py:59 | The comprehension succeeds if and only if every element is an object with a `url` key. On success the result has the same length as the input and element `i` is element `i`'s `url` value, so order is kept and nothing is dropped. On failure the error names the first element without a URL: `MissingUrl` for an object, `NotSubscriptable` for any other element. |
| `ImageGen.Interpret` | pipeline_test.py:55-59 | `Interpret` checks the status, then the decoding, then hands the decoded body to `ExtractUrls`, which iterates it as Python does. A failed POST gives `TransportError`. A status in 400–599 gives `HttpError` with that status. A body that is not JSON gives `NotJson`. The call succeeds if and only if none of these happened and the body is well formed. Then a list body yields its elements' `url` values in order, and an empty string or empty object yields no URLs. A decoded `null`, boolean or number gives `NotIterable`. A non-empty string or object gives `NotSubscriptable(0)`. |
| `ImageGen.NoPartialResult` | pipeline_test.py:57-59 | When a list body has an element without a URL, the whole call fails with the first such element's error, and no list of URLs comes back. |
| `ImageGen.EmptyResultIsSuccess` | pipeline_test.py:59-72 | A non-error reply with an empty list succeeds with no URLs, and the message for no URLs is the empty string. |
| `ImageGen.ServerErrorScenario` | pipeline_test.py:56 | A 500 reply fails with `HttpError(500)`, whatever its body. |
| `ImageGen.Message` | pipeline_test.py:68-70 | The text the loop accumulates: one `![image](<url>)` line per URL, each ended by a line break, in list order. Its properties are stated by the lemmas in the rows that follow and by `Pipe`'s loop invariant. |
| `ImageGen.MessageShape` | pipeline_test.py:68-70 | The accumulated message is empty exactly when there are no URLs, and otherwise ends with a line break. |
| `ImageGen.MessageAppend` | pipeline_test.py:68-70 | The message of two lists one after the other is the first list's message followed by the second's. |
| `ImageGen.MessageLength` | pipeline_test.py:68-70 | The message's length is the sum, over the URLs, of each URL's length plus 11. |
| `ImageGen.ParseMessageRoundTrip` | pipeline_test.py:68-70 | For URLs without line breaks, reading the message back line by line gives exactly the URL list: one `![image](<url>)` line per URL, in order. |
| `ImageGen.ParseMessageSound` | pipeline_test.py:68-70 | Every text that reads back as a list of image lines is the message of that list. |
| `ImageGen.TwoImagesScenario` | pipeline_test.py:55-72 | A 200 reply with two descriptors gives both URLs in the order returned. The message is exactly `![image](https://img/1.png)\n![image](https://img/2.png)\n`. |
| `ImageGen.TwoImagesThroughPipe` | pipeline_test.py:61-72 | A pipeline whose valves were replaced, asked through `Pipe` with that 200 reply, raises nothing and yields exactly one chunk, the two image lines in order. |
| `ImageGen.Pipeline.constructor` | pipeline_test.py:11-20 | A new pipeline holds the default valves: the volcanotester endpoint, an empty key, `1024x1024` and one image. |
| `ImageGen.Pipeline.GenerateImages` | pipeline_test.py:37-59 | The result is the reply to the request built from the current valves and the prompt, read by `Interpret`. |
| `ImageGen.Pipeline.Pipe` | pipeline_test.py:61-72 | When generation fails, no chunk is yielded and the error is raised. Otherwise exactly one chunk is yielded, and it is the loop's accumulated message: one image line per URL, in order, empty for no URLs. The model id, the conversation and the request body play no part. |
| `Json.NatTextRoundTrip` | pipeline_test.py:70 | The decimal text of a non-negative integer, which is how an integer `url` value is interpolated, reads back as that integer. |
| `Json.IntText` | pipeline_test.py:70 | The text of an integer is non-empty and starts with a minus sign exactly when the integer is negative. The remaining characters are decimal digits whose value is the integer's absolute value, with no leading zero; the integer 0 is exactly `"0"`. |
| `Json.Text` | pipeline_test.py:70 | A string `url` value is interpolated unchanged, and an integer one as its decimal text. |

## Left out

- The HTTP client and the POST itself (`requests.Session`, `client.post`, `response.json()`) are network I/O and a foreign library. They are the `service` parameter and the `Exchange` value: a transport failure, or a status with a body that is decoded JSON or not JSON.
- The async hooks `on_startup`, `on_shutdown` and `on_valves_updated` only print. They are not modelled.
- All `print` logging is output only. It is not modelled.
- Pydantic's validation and coercion of the valves is foreign library behaviour. `Valves` is a plain record with the same four fields and defaults.
- Generator laziness is not modelled. `Pipe` returns the list of chunks it would yield (none or one) together with the exception it would raise, if any.
- The host metadata `type`, `name` and `pipelines` are constants with no behaviour. They are not modelled.
- Concurrent invocations and the missing request timeout are outside a sequential model.
- JSON floating-point numbers are not modelled. `Json.Number` holds integers.
- Json.Text: for a `url` value that is a JSON array or object, Python would interpolate its `repr` (quoted, escaped, in document order). The model renders those two kinds as the fixed texts `[...]` and `{...}`. Strings, `null`, booleans and integers are rendered exactly as Python does.
- The diagnostic message text of each exception is not modelled. Only the kind of error is, plus the status of an HTTP error. Python's `KeyError` and `TypeError` carry no element index. The index in `NotSubscriptable` and `MissingUrl` is the model's own record of which element failed first.
