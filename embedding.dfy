/** `backend/services/embedding.py`: one request to the Hugging Face
    inference API per text, and batches of texts on top of that. What the
    API answers for a text is a parameter; what the service makes of the
    answer is modelled exactly. */
module Embedding {
  import opened Wrappers
  import opened Text
  import opened Seqs

  /** A decoded JSON value, as `response.json()` gives it. */
  datatype Json =
    | JNull
    | JBool(b: bool)
    | JNum(n: real)
    | JStr(s: string)
    | JList(items: seq<Json>)
    | JObject(fields: seq<(string, Json)>)

  /** What one POST of `{"inputs": text}` comes back with: a transport error
      (`httpx.RequestError`), or a status code with the decoded body (or the
      decoding error), the raw body text and how Python prints the decoded
      body. */
  datatype HfReply =
    | Transport(error: string)
    | Http(statusCode: int, body: Result<Json>, text: string, bodyRepr: string)

  /** `isinstance(x, (int, float))`: JSON numbers, and booleans, which are
      `int`s in Python. */
  predicate IsNumber(j: Json) {
    j.JNum? || j.JBool?
  }

  /** Python truthiness of a decoded value. */
  predicate Truthy(j: Json) {
    match j
    case JNull => false
    case JBool(b) => b
    case JNum(n) => n != 0.0
    case JStr(s) => s != ""
    case JList(items) => |items| > 0
    case JObject(fields) => |fields| > 0
  }

  /** The response-shape handling: a non-empty list whose first element is a
      number is the embedding itself; any other non-empty list holds the
      embedding as its first element, `[]` standing in for a falsy one; any
      other body is an unexpected format. */
  function Normalise(body: Json, bodyRepr: string): (r: Result<Json>)
    ensures r.Success? <==> body.JList? && |body.items| > 0
    ensures r.Failure? ==> r.error == "Unexpected response format: " + bodyRepr
    ensures r.Success? && IsNumber(body.items[0]) ==> r.value == body
    ensures r.Success? && !IsNumber(body.items[0]) ==>
      r.value == (if Truthy(body.items[0]) then body.items[0] else JList([]))
  {
    if body.JList? && |body.items| > 0 then
      if IsNumber(body.items[0]) then Success(body)
      else if Truthy(body.items[0]) then Success(body.items[0])
      else Success(JList([]))
    else Failure("Unexpected response format: " + bodyRepr)
  }

  const EmbeddingFailed := "Embedding generation failed: "

  /** The embedding one reply yields, or the text of the exception one
      attempt of `get_embeddings` raises for it: "Request failed: ..." for a
      transport error, "Embedding generation failed: ..." for everything
      else. The retry decorator replaces that text, once every attempt has
      failed, by its own `RetryError`; the model keeps the attempt's text. */
  function EmbeddingOf(reply: HfReply): (r: Result<Json>)
    ensures reply.Transport? ==> r == Failure("Request failed: " + reply.error)
    ensures r.Success? <==> (reply.Http? && reply.statusCode == 200 && reply.body.Success? &&
                             reply.body.value.JList? && |reply.body.value.items| > 0)
    ensures reply.Http? && reply.statusCode == 503 ==>
      r == Failure(EmbeddingFailed + "Model is loading, retrying...")
    ensures reply.Http? && reply.statusCode != 200 && reply.statusCode != 503 ==>
      r == Failure(EmbeddingFailed + "HF API error: " + IntToString(reply.statusCode) + " - " + reply.text)
  {
    match reply
    case Transport(e) => Failure("Request failed: " + e)
    case Http(code, body, text, bodyRepr) =>
      if code == 200 then
        match body
        case Failure(e) => Failure(EmbeddingFailed + e)
        case Success(j) =>
          match Normalise(j, bodyRepr)
          case Success(v) => Success(v)
          case Failure(e) => Failure(EmbeddingFailed + e)
      else if code == 503 then Failure(EmbeddingFailed + "Model is loading, retrying...")
      else Failure(EmbeddingFailed + "HF API error: " + IntToString(code) + " - " + text)
  }

  /** What `get_embeddings(texts)` returns or raises: the texts are sent in
      order, and the first one whose reply yields no embedding ends the call
      with that reply's error. */
  function Embeddings(hf: string -> HfReply, texts: seq<string>): Result<seq<Json>>
    decreases |texts|
  {
    if |texts| == 0 then Success([])
    else
      match Embeddings(hf, texts[..|texts| - 1])
      case Failure(e) => Failure(e)
      case Success(es) =>
        match EmbeddingOf(hf(texts[|texts| - 1]))
        case Failure(e) => Failure(e)
        case Success(v) => Success(es + [v])
  }

  /** The result of sending `a` and then `b`, each on its own. */
  function Sequenced(first: Result<seq<Json>>, second: Result<seq<Json>>): Result<seq<Json>> {
    match first
    case Failure(e) => Failure(e)
    case Success(x) =>
      match second
      case Failure(e) => Failure(e)
      case Success(y) => Success(x + y)
  }

  /** Embedding `a + b` is embedding `a`, then `b`, and concatenating: the
      result depends on the texts only, never on how they are grouped. */
  lemma {:induction false} EmbeddingsAppend(hf: string -> HfReply, a: seq<string>, b: seq<string>)
    ensures Embeddings(hf, a + b) == Sequenced(Embeddings(hf, a), Embeddings(hf, b))
    decreases |b|
  {
    if |b| == 0 {
      assert a + b == a;
      if Embeddings(hf, a).Success? {
        assert Embeddings(hf, a).value + [] == Embeddings(hf, a).value;
      }
    } else {
      var front := b[..|b| - 1];
      assert (a + b)[..|a + b| - 1] == a + front;
      assert (a + b)[|a + b| - 1] == b[|b| - 1];
      EmbeddingsAppend(hf, a, front);
      if Embeddings(hf, a).Success? && Embeddings(hf, front).Success? {
        var x, y := Embeddings(hf, a).value, Embeddings(hf, front).value;
        if EmbeddingOf(hf(b[|b| - 1])).Success? {
          assert x + (y + [EmbeddingOf(hf(b[|b| - 1])).value]) == (x + y) + [EmbeddingOf(hf(b[|b| - 1])).value];
        }
      }
    }
  }

  /** One batch more: the texts up to `stop` embed as the texts up to `i`
      followed by the batch between them, and a failing batch decides the
      result for all the texts. */
  lemma ExtendByBatch(hf: string -> HfReply, texts: seq<string>, i: nat, stop: nat, all: seq<Json>)
    requires i < stop <= |texts|
    requires Embeddings(hf, texts[..i]) == Success(all)
    ensures Embeddings(hf, texts[i..stop]).Success? ==>
      Embeddings(hf, texts[..stop]) == Success(all + Embeddings(hf, texts[i..stop]).value)
    ensures Embeddings(hf, texts[i..stop]).Failure? ==> Embeddings(hf, texts) == Embeddings(hf, texts[i..stop])
  {
    var head, batch, rest := texts[..i], texts[i..stop], texts[stop..];
    assert head + batch == texts[..stop];
    assert texts[..stop] + rest == texts;
    EmbeddingsAppend(hf, head, batch);
    EmbeddingsAppend(hf, texts[..stop], rest);
    SequencedTwice(Embeddings(hf, head), Embeddings(hf, batch), Embeddings(hf, rest),
                   Embeddings(hf, texts[..stop]), Embeddings(hf, texts), all);
  }

  /** Chaining two `Sequenced` steps whose first operand succeeded: the
      middle one's failure is the end result's. */
  lemma SequencedTwice(a: Result<seq<Json>>, b: Result<seq<Json>>, c: Result<seq<Json>>,
                       ab: Result<seq<Json>>, abc: Result<seq<Json>>, all: seq<Json>)
    requires a == Success(all) && ab == Sequenced(a, b) && abc == Sequenced(ab, c)
    ensures b.Success? ==> ab == Success(all + b.value)
    ensures b.Failure? ==> abc == b
  {
  }

  /** On success there is one embedding per text, in the texts' order, and
      it is what that text's reply yields. */
  lemma {:induction false} OneEmbeddingPerText(hf: string -> HfReply, texts: seq<string>)
    requires Embeddings(hf, texts).Success?
    ensures |Embeddings(hf, texts).value| == |texts|
    ensures forall k :: 0 <= k < |texts| ==>
      EmbeddingOf(hf(texts[k])).Success? && Embeddings(hf, texts).value[k] == EmbeddingOf(hf(texts[k])).value
    decreases |texts|
  {
    if |texts| > 0 {
      var front := texts[..|texts| - 1];
      OneEmbeddingPerText(hf, front);
      forall k | 0 <= k < |texts|
        ensures EmbeddingOf(hf(texts[k])).Success? && Embeddings(hf, texts).value[k] == EmbeddingOf(hf(texts[k])).value
      {
        if k < |front| {
          assert texts[k] == front[k];
        }
      }
    }
  }

  /** The call fails exactly when some text's reply yields no embedding, and
      then with the error of the first such text. */
  lemma {:induction false} FailsAtFirstBadReply(hf: string -> HfReply, texts: seq<string>)
    ensures Embeddings(hf, texts).Success? <==> forall k :: 0 <= k < |texts| ==> EmbeddingOf(hf(texts[k])).Success?
    ensures Embeddings(hf, texts).Failure? ==>
      exists k :: 0 <= k < |texts| && EmbeddingOf(hf(texts[k])) == Failure(Embeddings(hf, texts).error) &&
        forall j :: 0 <= j < k ==> EmbeddingOf(hf(texts[j])).Success?
    decreases |texts|
  {
    if |texts| > 0 {
      var front := texts[..|texts| - 1];
      var n := |texts| - 1;
      FailsAtFirstBadReply(hf, front);
      assert forall k :: 0 <= k < |front| ==> texts[k] == front[k];
      if Embeddings(hf, front).Success? {
        if Embeddings(hf, texts).Failure? {
          assert EmbeddingOf(hf(texts[n])) == Failure(Embeddings(hf, texts).error);
        }
      } else {
        var k :| 0 <= k < |front| && EmbeddingOf(hf(front[k])) == Failure(Embeddings(hf, front).error) &&
          forall j :: 0 <= j < k ==> EmbeddingOf(hf(front[j])).Success?;
        assert EmbeddingOf(hf(texts[k])) == Failure(Embeddings(hf, texts).error);
      }
    }
  }

  /** `get_embeddings`: `sent` lists the texts posted, in order. An empty
      list returns `[]` without any request; otherwise the texts are posted
      one by one until the first failure. */
  method GetEmbeddings(hf: string -> HfReply, texts: seq<string>) returns (r: Result<seq<Json>>, sent: seq<string>)
    ensures r == Embeddings(hf, texts)
    ensures texts == [] ==> sent == []
    ensures sent <= texts
    ensures r.Success? ==> sent == texts
    ensures r.Failure? ==> |sent| > 0 && EmbeddingOf(hf(sent[|sent| - 1])) == Failure(r.error)
    ensures forall k :: 0 <= k < |sent| - 1 ==> EmbeddingOf(hf(sent[k])).Success?
  {
    if |texts| == 0 {
      return Success([]), [];
    }
    var all: seq<Json> := [];
    sent := [];
    for i := 0 to |texts|
      invariant Embeddings(hf, texts[..i]) == Success(all)
      invariant sent == texts[..i]
      invariant forall k :: 0 <= k < i ==> EmbeddingOf(hf(texts[k])).Success?
    {
      var text := texts[i];
      assert texts[..i + 1][..i] == texts[..i];
      sent := sent + [text];
      var embedding := EmbeddingOf(hf(text));
      if embedding.Failure? {
        EmbeddingsAppend(hf, texts[..i + 1], texts[i + 1..]);
        assert texts[..i + 1] + texts[i + 1..] == texts;
        assert sent == texts[..i + 1];
        return Failure(embedding.error), sent;
      }
      all := all + [embedding.value];
    }
    assert texts[..|texts|] == texts;
    r := Success(all);
  }

  /** `get_single_embedding`: the embedding of the one text, `[]` if there
      were none. With one text sent there is always exactly one, so this is
      what the reply for that text yields. */
  method GetSingleEmbedding(hf: string -> HfReply, text: string) returns (r: Result<Json>)
    ensures r == EmbeddingOf(hf(text))
  {
    var all, _ := GetEmbeddings(hf, [text]);
    if all.Failure? {
      return Failure(all.error);
    }
    assert [text][..0] == [];
    r := if |all.value| > 0 then Success(all.value[0]) else Success(JList([]));
  }

  /** What the batch loop does, in order: post a batch, or wait a second. */
  datatype BatchStep = Post(batch: seq<string>) | Pause

  /** The steps for batches sent one after another: a pause between two
      batches, none after the last. */
  function Paced(batches: seq<seq<string>>): seq<BatchStep>
    decreases |batches|
  {
    if |batches| == 0 then []
    else if |batches| == 1 then [Post(batches[0])]
    else [Post(batches[0]), Pause] + Paced(batches[1..])
  }

  /** Batch `k` is step `2k`, and the steps between batches are pauses. */
  lemma {:induction false} PacedShape(batches: seq<seq<string>>)
    ensures |Paced(batches)| == if |batches| == 0 then 0 else 2 * |batches| - 1
    ensures forall k :: 0 <= k < |batches| ==> Paced(batches)[2 * k] == Post(batches[k])
    ensures forall k :: 0 <= k < |batches| - 1 ==> Paced(batches)[2 * k + 1] == Pause
    decreases |batches|
  {
    if |batches| > 1 {
      var rest := batches[1..];
      PacedShape(rest);
      var p := Paced(batches);
      assert p == [Post(batches[0]), Pause] + Paced(rest);
      forall k | 0 <= k < |batches|
        ensures p[2 * k] == Post(batches[k])
      {
        if k > 0 {
          assert p[2 * k] == Paced(rest)[2 * (k - 1)];
          assert batches[k] == rest[k - 1];
        }
      }
      forall k | 0 <= k < |batches| - 1
        ensures p[2 * k + 1] == Pause
      {
        if k > 0 {
          assert p[2 * k + 1] == Paced(rest)[2 * (k - 1) + 1];
        }
      }
    }
  }

  /** The steps that remain once the batches starting at offset `i` are all
      that is left to send. */
  lemma PacedUnfold(texts: seq<string>, size: nat, i: nat)
    requires size > 0 && i < |texts|
    ensures var stop := if i + size <= |texts| then i + size else |texts|;
      Paced(BatchesFrom(texts, size, i)) ==
        [Post(texts[i..stop])] + (if i + size < |texts| then [Pause] else []) + Paced(BatchesFrom(texts, size, i + size))
  {
    var rest := BatchesFrom(texts, size, i + size);
    var stop := if i + size <= |texts| then i + size else |texts|;
    assert BatchesFrom(texts, size, i) == [texts[i..stop]] + rest;
    if i + size < |texts| {
      assert |rest| > 0;
      assert ([texts[i..stop]] + rest)[1..] == rest;
    }
  }

  /** Posting the batch at offset `i`, and pausing if more texts remain,
      keeps the steps so far a prefix of the whole paced sequence. */
  lemma StepAdvance(steps: seq<BatchStep>, texts: seq<string>, size: nat, i: nat)
    requires size > 0 && i < |texts|
    requires steps + Paced(BatchesFrom(texts, size, i)) == Paced(Batches(texts, size))
    ensures var stop := if i + size <= |texts| then i + size else |texts|;
      var posted := steps + [Post(texts[i..stop])];
      && posted <= Paced(Batches(texts, size))
      && (posted + (if i + size < |texts| then [Pause] else [])) + Paced(BatchesFrom(texts, size, i + size)) ==
         Paced(Batches(texts, size))
  {
    PacedUnfold(texts, size, i);
  }

  /** The batch loop for a positive size: the texts go out in consecutive
      batches of `size` with a pause between two batches, and the result is
      exactly that of embedding all the texts at once. A failed batch ends
      the loop with its error, with no pause after it. */
  method EmbedInBatches(hf: string -> HfReply, texts: seq<string>, size: nat)
    returns (r: Result<seq<Json>>, steps: seq<BatchStep>)
    requires size > 0
    ensures r == Embeddings(hf, texts)
    ensures steps <= Paced(Batches(texts, size))
    ensures r.Success? ==> steps == Paced(Batches(texts, size))
    ensures r.Failure? ==> |steps| > 0 && steps[|steps| - 1].Post? && Embeddings(hf, steps[|steps| - 1].batch) == r
  {
    var all: seq<Json> := [];
    steps := [];
    var i: nat := 0;
    ghost var done: nat := 0;
    while i < |texts|
      invariant done == (if i <= |texts| then i else |texts|)
      invariant Embeddings(hf, texts[..done]) == Success(all)
      invariant steps + Paced(BatchesFrom(texts, size, i)) == Paced(Batches(texts, size))
      decreases |texts| - i
    {
      var stop := if i + size <= |texts| then i + size else |texts|;
      var batch := texts[i..stop];
      StepAdvance(steps, texts, size, i);
      ExtendByBatch(hf, texts, i, stop, all);
      var got, _ := GetEmbeddings(hf, batch);
      steps := steps + [Post(batch)];
      if got.Failure? {
        return got, steps;
      }
      all := all + got.value;
      if i + size < |texts| {
        steps := steps + [Pause];
      }
      i := i + size;
      done := stop;
    }
    assert texts[..done] == texts;
    r := Success(all);
  }

  /** `get_batch_embeddings`: a zero batch size is the `range()` error and a
      negative one sends nothing; a positive one runs the batch loop. */
  method GetBatchEmbeddings(hf: string -> HfReply, texts: seq<string>, batchSize: int)
    returns (r: Result<seq<Json>>, steps: seq<BatchStep>)
    ensures batchSize == 0 ==> r == Failure("range() arg 3 must not be zero") && steps == []
    ensures batchSize < 0 ==> r == Success([]) && steps == []
    ensures batchSize > 0 ==> r == Embeddings(hf, texts)
    ensures batchSize > 0 && r.Success? ==> steps == Paced(Batches(texts, batchSize))
    ensures batchSize > 0 ==> steps <= Paced(Batches(texts, batchSize))
    ensures batchSize > 0 && r.Failure? ==>
      |steps| > 0 && steps[|steps| - 1].Post? && Embeddings(hf, steps[|steps| - 1].batch) == r
  {
    if batchSize == 0 {
      return Failure("range() arg 3 must not be zero"), [];
    }
    if batchSize < 0 {
      return Success([]), [];
    }
    r, steps := EmbedInBatches(hf, texts, batchSize);
  }

  /** The batches posted are consecutive slices covering the texts in order,
      each of at most `size` texts, all but the last of exactly `size`, and
      there are `ceil(len(texts) / size)` of them. */
  lemma BatchesPartitionTexts(texts: seq<string>, size: nat)
    requires size > 0
    ensures Flatten(Batches(texts, size)) == texts
    ensures forall k :: 0 <= k < |Batches(texts, size)| ==> 0 < |Batches(texts, size)[k]| <= size
    ensures forall k :: 0 <= k < |Batches(texts, size)| - 1 ==> |Batches(texts, size)[k]| == size
    ensures |texts| <= |Batches(texts, size)| * size < |texts| + size
  {
    BatchesCover(texts, size, 0);
    BatchSizes(texts, size, 0);
    BatchCount(texts, size, 0);
  }
}
