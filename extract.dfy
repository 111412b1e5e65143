/** The extract tool's argument check and its per-URL batch processor:
    URLs are sent in fixed-size batches, with a pause between batches, and a
    failed URL becomes an error entry rather than a failure of the batch. */
module ExtractTool {
  import opened Wrappers
  import opened JsonValues
  import opened ArgShapes
  import opened ToolEnvelope
  import opened ErrorHandling

  /** `execute`: the arguments go unchanged to `/extract` under the retry
      executor, and a success is answered with one text block of the response body. */
  method Execute(args: Json, server: (Request, nat) -> Attempt<Json>, config: Config)
    returns (result: Result<ToolResponse, McpError>, posted: seq<Request>, delays: seq<nat>)
    ensures var run := Run(Calling(server, Post("/extract", args)), config, 0);
      && |posted| == run.calls
      && (forall k :: 0 <= k < |posted| ==> posted[k] == Post("/extract", args))
      && delays == run.delays
      && (run.result.Ok? ==> result == Ok(Envelope(run.result.value)))
      && (run.result.Err? ==> result == Err(run.result.error))
  {
    result, posted, delays := ToolEnvelope.Execute("/extract", args, server, config);
  }

  /** Every member `validate` inspects; `urls` is the only required one. */
  const CheckedFields: seq<Field> := [
    Field("urls", StringArrayKind, true),
    Field("prompt", StringKind, false),
    Field("schema", ObjectKind, false),
    Field("enableWebSearch", BooleanKind, false),
    Field("ignoreSitemap", BooleanKind, false),
    Field("includeSubdomains", BooleanKind, false)
  ]

  /** Accepts exactly the objects whose `urls` is an array of strings, whose
      `prompt` is a string, `schema` a non-null object (arrays included) and
      `enableWebSearch`, `ignoreSitemap` and `includeSubdomains` booleans,
      each only when present. */
  function Validate(args: Json): (valid: bool)
    ensures valid <==> Conforms(args, ObjectOf(CheckedFields))
  {
    if TypeOf(Some(args)) != ObjectType || args == Null then false
    else
      var urls := Get(args, "urls");
      var prompt := Get(args, "prompt");
      var schema := Get(args, "schema");
      var enableWebSearch := Get(args, "enableWebSearch");
      var ignoreSitemap := Get(args, "ignoreSitemap");
      var includeSubdomains := Get(args, "includeSubdomains");
      if !IsArray(urls) || !EveryString(urls.value.items) then
        assert !MemberConforms(args, CheckedFields[0]);
        false
      else if prompt != None && TypeOf(prompt) != StringType then
        assert !MemberConforms(args, CheckedFields[1]);
        false
      else if schema != None && (TypeOf(schema) != ObjectType || schema == Some(Null)) then
        assert !MemberConforms(args, CheckedFields[2]);
        false
      else if enableWebSearch != None && TypeOf(enableWebSearch) != BooleanType then
        assert !MemberConforms(args, CheckedFields[3]);
        false
      else if ignoreSitemap != None && TypeOf(ignoreSitemap) != BooleanType then
        assert !MemberConforms(args, CheckedFields[4]);
        false
      else if includeSubdomains != None && TypeOf(includeSubdomains) != BooleanType then
        assert !MemberConforms(args, CheckedFields[5]);
        false
      else
        assert forall i :: 0 <= i < |CheckedFields| ==> MemberConforms(args, CheckedFields[i]);
        true
  }

  /** An empty URL list is accepted: nothing requires `urls` to be non-empty. */
  lemma EmptyUrlsAccepted()
    ensures Validate(Obj(map["urls" := Arr([])]))
  {
    var args := Obj(map["urls" := Arr([])]);
    assert Get(args, "urls") == Some(Arr([]));
    assert forall f :: f in CheckedFields && f.name != "urls" ==> Get(args, f.name) == None;
  }

  /** The outcome for one URL; `error` is present exactly when its request failed. */
  datatype ExtractionResult = ExtractionResult(url: string, data: Json, error: Option<string>)

  /** `error instanceof Error ? error.message : "Unknown error occurred"` */
  function ErrorMessage(error: Failure): (message: string)
    ensures error.NonError? ==> message == "Unknown error occurred"
    ensures !error.NonError? ==> message == error.message
  {
    match error
    case AxiosError(message, _, _) => message
    case PlainError(message) => message
    case NonError => "Unknown error occurred"
  }

  /** `processUrl`: the response body on success; on failure an empty object
      and the error's message. It never fails itself. */
  function ProcessUrl(url: string, outcome: Attempt<Json>): (r: ExtractionResult)
    ensures r.url == url
    ensures r.error.None? <==> outcome.Succeeded?
    ensures outcome.Succeeded? ==> r.data == outcome.value
    ensures outcome.Failed? ==> r.data == Obj(map[]) && r.error == Some(ErrorMessage(outcome.failure))
  {
    match outcome
    case Succeeded(data) => ExtractionResult(url, data, None)
    case Failed(error) => ExtractionResult(url, Obj(map[]), Some(ErrorMessage(error)))
  }

  const DefaultBatchSize: nat := 5
  const DefaultDelayMs: nat := 1000

  /** The batches `urls.slice(i, i + size)` for `i = 0, size, 2 * size, ...`
      below `|urls|`. A size of 0 never advances, so it is excluded unless
      there is nothing to process. */
  function Batches(urls: seq<string>, size: nat): (batches: seq<seq<string>>)
    requires size > 0 || urls == []
    ensures batches == [] <==> urls == []
    ensures urls != [] ==> batches[0] == urls[..if |urls| <= size then |urls| else size]
    ensures forall k :: 0 <= k < |batches| ==> 1 <= |batches[k]| <= size
    decreases |urls|
  {
    if urls == [] then []
    else if |urls| <= size then [urls]
    else [urls[..size]] + Batches(urls[size..], size)
  }

  function Flatten(parts: seq<seq<string>>): seq<string>
  {
    if parts == [] then [] else parts[0] + Flatten(parts[1..])
  }

  /** Batching neither loses, repeats nor reorders a URL. */
  lemma {:induction false} BatchesFlatten(urls: seq<string>, size: nat)
    requires size > 0 || urls == []
    ensures Flatten(Batches(urls, size)) == urls
    decreases |urls|
  {
    if urls != [] && |urls| > size {
      var rest := Batches(urls[size..], size);
      assert ([urls[..size]] + rest)[1..] == rest;
      BatchesFlatten(urls[size..], size);
      assert urls[..size] + urls[size..] == urls;
    }
  }

  /** Every batch holds between 1 and `size` URLs, and only the last may hold fewer than `size`. */
  lemma {:induction false} BatchesSizes(urls: seq<string>, size: nat)
    requires size > 0 || urls == []
    ensures forall k :: 0 <= k < |Batches(urls, size)| ==> 1 <= |Batches(urls, size)[k]| <= size
    ensures forall k :: 0 <= k < |Batches(urls, size)| - 1 ==> |Batches(urls, size)[k]| == size
    decreases |urls|
  {
    if urls != [] && |urls| > size {
      BatchesSizes(urls[size..], size);
    }
  }

  /** There are `ceil(|urls| / size)` batches: the fewest batches of `size` that hold every URL. */
  lemma {:induction false} BatchesCount(urls: seq<string>, size: nat)
    requires size > 0
    ensures urls == [] ==> |Batches(urls, size)| == 0
    ensures urls != [] ==> (|Batches(urls, size)| - 1) * size < |urls| <= |Batches(urls, size)| * size
    decreases |urls|
  {
    if urls != [] && |urls| > size {
      var rest := Batches(urls[size..], size);
      var k := |rest|;
      assert |Batches(urls, size)| == k + 1;
      BatchesCount(urls[size..], size);
      assert (k - 1) * size == k * size - size;
      assert (k + 1) * size == k * size + size;
    }
  }

  /** One step of the batching loop: if `done` followed by the batches from
      `i` on are all the batches, then so are `done` with the batch at `i`
      followed by the batches from `i + size` on (none when that is past the end). */
  lemma BatchStep(urls: seq<string>, size: nat, i: nat, done: seq<seq<string>>)
    requires size > 0 && i < |urls|
    requires done + Batches(urls[i..], size) == Batches(urls, size)
    ensures i + size < |urls| ==> (done + [urls[i..i + size]]) + Batches(urls[i + size..], size) == Batches(urls, size)
    ensures i + size >= |urls| ==> done + [urls[i..]] == Batches(urls, size)
  {
    if i + size < |urls| {
      assert urls[i..][..size] == urls[i..i + size];
      assert urls[i..][size..] == urls[i + size..];
      assert (done + [urls[i..i + size]]) + Batches(urls[i + size..], size) == done + ([urls[i..i + size]] + Batches(urls[i + size..], size));
    }
  }

  /** `batch.map((url) => processUrl(url, ...))`, gathered by `Promise.all`
      in batch order; the URL at position `k` of the batch is the
      `(offset + k)`-th URL overall. */
  function ProcessEach(batch: seq<string>, outcomes: nat -> Attempt<Json>, offset: nat): (rs: seq<ExtractionResult>)
    ensures |rs| == |batch|
    ensures forall k :: 0 <= k < |batch| ==> rs[k] == ProcessUrl(batch[k], outcomes(offset + k))
  {
    seq(|batch|, k requires 0 <= k < |batch| => ProcessUrl(batch[k], outcomes(offset + k)))
  }

  /** Appending the results of the batch starting at `i` extends the
      processed prefix of `urls` by that batch. */
  lemma AppendBatch(urls: seq<string>, outcomes: nat -> Attempt<Json>, results: seq<ExtractionResult>,
                    batch: seq<string>, batchResults: seq<ExtractionResult>, i: nat)
    requires |results| == i && i + |batch| <= |urls| && batch == urls[i..i + |batch|]
    requires forall j :: 0 <= j < i ==> results[j] == ProcessUrl(urls[j], outcomes(j))
    requires |batchResults| == |batch|
    requires forall k :: 0 <= k < |batch| ==> batchResults[k] == ProcessUrl(batch[k], outcomes(i + k))
    ensures forall j :: 0 <= j < i + |batch| ==> (results + batchResults)[j] == ProcessUrl(urls[j], outcomes(j))
  {
    forall j | 0 <= j < i + |batch|
      ensures (results + batchResults)[j] == ProcessUrl(urls[j], outcomes(j))
    {
      if j >= i {
        assert batch[j - i] == urls[j];
      }
    }
  }

  /** The state of the batching loop before the batch starting at `i`:
      the URLs before `i` are processed, the batches so far followed by the
      batches from `i` on are all the batches, and every batch so far but
      the last is followed by a pause. */
  predicate Progress(urls: seq<string>, outcomes: nat -> Attempt<Json>, size: nat, delay: nat, i: nat,
                     results: seq<ExtractionResult>, batches: seq<seq<string>>, pauses: seq<nat>)
  {
    && (size > 0 || urls == [])
    && |results| == (if i <= |urls| then i else |urls|)
    && (forall j :: 0 <= j < |results| ==> results[j] == ProcessUrl(urls[j], outcomes(j)))
    && (i < |urls| ==> batches + Batches(urls[i..], size) == Batches(urls, size) && |pauses| == |batches|)
    && (i >= |urls| ==> batches == Batches(urls, size) && |pauses| == if batches == [] then 0 else |batches| - 1)
    && (forall k :: 0 <= k < |pauses| ==> pauses[k] == delay)
  }

  /** One round of the loop: process the batch at `i`, pause unless it was the last, advance by `size`. */
  lemma ProgressStep(urls: seq<string>, outcomes: nat -> Attempt<Json>, size: nat, delay: nat, i: nat,
                     results: seq<ExtractionResult>, batches: seq<seq<string>>, pauses: seq<nat>)
    requires Progress(urls, outcomes, size, delay, i, results, batches, pauses) && i < |urls|
    ensures var end := if i + size <= |urls| then i + size else |urls|;
      var batch := urls[i..end];
      Progress(urls, outcomes, size, delay, i + size,
               results + ProcessEach(batch, outcomes, i), batches + [batch],
               if i + size < |urls| then pauses + [delay] else pauses)
  {
    var end := if i + size <= |urls| then i + size else |urls|;
    var batch := urls[i..end];
    BatchStep(urls, size, i, batches);
    assert i + size >= |urls| ==> urls[i..] == batch;
    AppendBatch(urls, outcomes, results, batch, ProcessEach(batch, outcomes, i), i);
  }

  /** `processBatch`: every URL is processed, in order, in the batches
      `Batches` gives, and the request for the `j`-th URL has outcome
      `outcomes(j)`; the delay is awaited after every batch but the last.
      Returns the results, the batches as issued and the pauses awaited. */
  method ProcessBatch(urls: seq<string>, outcomes: nat -> Attempt<Json>, batchSize: Option<nat>, delayMs: Option<nat>)
    returns (results: seq<ExtractionResult>, batches: seq<seq<string>>, pauses: seq<nat>)
    requires batchSize != Some(0) || urls == []
    ensures |results| == |urls|
    ensures forall j :: 0 <= j < |urls| ==> results[j] == ProcessUrl(urls[j], outcomes(j))
    ensures batches == Batches(urls, if batchSize.Some? then batchSize.value else DefaultBatchSize)
    ensures |pauses| == if batches == [] then 0 else |batches| - 1
    ensures forall k :: 0 <= k < |pauses| ==> pauses[k] == if delayMs.Some? then delayMs.value else DefaultDelayMs
  {
    var size := if batchSize.Some? then batchSize.value else DefaultBatchSize;
    var delay := if delayMs.Some? then delayMs.value else DefaultDelayMs;
    results, batches, pauses := [], [], [];
    var i := 0;
    while i < |urls|
      invariant Progress(urls, outcomes, size, delay, i, results, batches, pauses)
      decreases |urls| - i
    {
      var end := if i + size <= |urls| then i + size else |urls|;
      var batch := urls[i..end];
      ProgressStep(urls, outcomes, size, delay, i, results, batches, pauses);
      results := results + ProcessEach(batch, outcomes, i);
      batches := batches + [batch];
      if i + size < |urls| {
        pauses := pauses + [delay];
      }
      i := i + size;
    }
  }

  /** Seven URLs in batches of five: one full batch, then the remaining two. */
  lemma SevenUrlsExample(urls: seq<string>)
    requires |urls| == 7
    ensures Batches(urls, 5) == [urls[..5], urls[5..]]
  {
  }

  /** With the default batch size, twelve URLs go out in three batches. */
  lemma DefaultBatchingExample(urls: seq<string>)
    requires |urls| == 12
    ensures |Batches(urls, DefaultBatchSize)| == 3
  {
    BatchesCount(urls, DefaultBatchSize);
    var n := |Batches(urls, DefaultBatchSize)|;
    assert (n - 1) * 5 < 12 <= n * 5;
  }
}
