/**
 * The `POST /api/convert` handler: rejects a request without files, and
 * otherwise converts the files one after another, in order, pausing after
 * each, and answers with the converted files in input order.
 */
module ConvertEndpoint {
  import opened Wrappers
  import opened Types
  import opened Generation
  import opened PromptBuilder
  import opened Converter

  /** The request body; `files` may be missing. */
  datatype Request = Request(files: Option<seq<UploadedFile>>, targetLanguage: string, targetVersion: string)

  /** The handler's answer: status 400, 200 or 500 with its JSON body. */
  datatype Response = BadRequest(error: string) | Success(files: seq<ConvertedFile>) | ServerError(error: string)

  /** What the handler does observably, in order: a provider call with its prompt, or a pause. */
  datatype Event = Call(prompt: string) | Pause(ms: nat)

  /** The pause after each file, in milliseconds. */
  const PaceMillis: nat := 200

  /** The error body of a request without files. */
  const NoFiles := "No files provided"

  /** The provider as the k-th call of a batch sees it; `oracle(k, p)` is the reply to that call with prompt `p`. */
  function NthCall(oracle: (nat, string) -> ProviderReply, k: nat): string -> ProviderReply
  {
    p => oracle(k, p)
  }

  /** The prompts of a batch, in file order. */
  function Prompts(files: seq<UploadedFile>, targetLanguage: string, targetVersion: string): (ps: seq<string>)
    ensures |ps| == |files|
    ensures forall i {:trigger ps[i]} :: 0 <= i < |files| ==> ps[i] == Prompt(files[i], targetLanguage, targetVersion)
  {
    seq(|files|, i requires 0 <= i < |files| => Prompt(files[i], targetLanguage, targetVersion))
  }

  /** The expected trace of a batch: each prompt's call followed by one pause. */
  function PacedCalls(prompts: seq<string>): seq<Event>
  {
    if prompts == [] then []
    else PacedCalls(prompts[..|prompts| - 1]) + [Call(prompts[|prompts| - 1]), Pause(PaceMillis)]
  }

  /** The prompts of the calls in a trace, in order. */
  function CallsIn(t: seq<Event>): seq<string>
  {
    if t == [] then []
    else CallsIn(t[..|t| - 1]) + (if t[|t| - 1].Call? then [t[|t| - 1].prompt] else [])
  }

  /** The number of pauses in a trace. */
  function PausesIn(t: seq<Event>): nat
  {
    if t == [] then 0
    else PausesIn(t[..|t| - 1]) + (if t[|t| - 1].Pause? then 1 else 0)
  }

  /** A paced trace alternates: call of the i-th prompt at 2i, a pause at 2i + 1. */
  lemma {:induction false} PacedCallsAt(prompts: seq<string>)
    ensures |PacedCalls(prompts)| == 2 * |prompts|
    ensures forall i :: 0 <= i < |prompts| ==>
      PacedCalls(prompts)[2 * i] == Call(prompts[i]) && PacedCalls(prompts)[2 * i + 1] == Pause(PaceMillis)
  {
    if prompts != [] {
      var init := prompts[..|prompts| - 1];
      PacedCallsAt(init);
      forall i | 0 <= i < |prompts|
        ensures PacedCalls(prompts)[2 * i] == Call(prompts[i]) && PacedCalls(prompts)[2 * i + 1] == Pause(PaceMillis)
      {
        if i < |init| {
          assert prompts[i] == init[i];
        }
      }
    }
  }

  /** A paced trace calls the provider once per prompt, in order, and pauses once per prompt. */
  lemma {:induction false} PacedCallsCount(prompts: seq<string>)
    ensures CallsIn(PacedCalls(prompts)) == prompts
    ensures PausesIn(PacedCalls(prompts)) == |prompts|
  {
    if prompts != [] {
      var init := prompts[..|prompts| - 1];
      var last := prompts[|prompts| - 1];
      var t := PacedCalls(init);
      var t1 := t + [Call(last)];
      var t2 := t1 + [Pause(PaceMillis)];
      assert PacedCalls(prompts) == t2;
      assert t2[..|t2| - 1] == t1;
      assert t1[..|t1| - 1] == t;
      PacedCallsCount(init);
      assert prompts == init + [last];
    }
  }

  /** The prompts the given rendering sends for a batch, in file order. */
  function Rendered(files: seq<UploadedFile>, render: UploadedFile -> string): (ps: seq<string>)
    ensures |ps| == |files|
    ensures forall i {:trigger ps[i]} :: 0 <= i < |files| ==> ps[i] == render(files[i])
  {
    seq(|files|, i requires 0 <= i < |files| => render(files[i]))
  }

  /**
   * The batch loop, for any per-file conversion: the k-th file is converted
   * by `convert(k, file)`, which sends `render(file)` to the provider; the
   * loop pauses after each file.
   */
  method RunBatch(files: seq<UploadedFile>, convert: (nat, UploadedFile) -> ConvertedFile,
                  render: UploadedFile -> string)
    returns (results: seq<ConvertedFile>, trace: seq<Event>)
    ensures |results| == |files|
    ensures forall i {:trigger results[i]} :: 0 <= i < |files| ==> results[i] == convert(i, files[i])
    ensures trace == PacedCalls(Rendered(files, render))
  {
    var prompts := Rendered(files, render);
    results := [];
    trace := [];
    for i := 0 to |files|
      invariant |results| == i
      invariant forall k {:trigger results[k]} :: 0 <= k < i ==> results[k] == convert(k, files[k])
      invariant trace == PacedCalls(prompts[..i])
    {
      var converted := convert(i, files[i]);
      results := results + [converted];
      trace := trace + [Call(prompts[i]), Pause(PaceMillis)];
      assert prompts[..i + 1][..i] == prompts[..i];
    }
    assert prompts[..|files|] == prompts;
  }

  /**
   * The handler: a missing or empty `files` is answered with 400 before any
   * provider call; otherwise every file comes back, in order, and the
   * handler never answers 500.
   */
  method HandleConvert(req: Request, oracle: (nat, string) -> ProviderReply)
    returns (resp: Response, trace: seq<Event>)
    ensures (req.files.None? || req.files.value == []) ==> resp == BadRequest(NoFiles) && trace == []
    ensures req.files.Some? && req.files.value != [] ==>
      var files := req.files.value;
      && resp.Success?
      && |resp.files| == |files|
      && (forall i {:trigger resp.files[i]} :: 0 <= i < |files| ==>
            resp.files[i] == ConvertFile(files[i], req.targetLanguage, req.targetVersion, NthCall(oracle, i)))
      && trace == PacedCalls(Prompts(files, req.targetLanguage, req.targetVersion))
      && CallsIn(trace) == Prompts(files, req.targetLanguage, req.targetVersion)
      && PausesIn(trace) == |files|
      && |trace| == 2 * |files|
      && (forall i :: 0 <= i < |files| ==>
            trace[2 * i] == Call(Prompt(files[i], req.targetLanguage, req.targetVersion))
            && trace[2 * i + 1] == Pause(PaceMillis))
      && (forall i {:trigger resp.files[i]} :: 0 <= i < |files| ==>
            resp.files[i] == Settle(files[i], GenerateObject(oracle(i, trace[2 * i].prompt))))
    ensures !resp.ServerError?
  {
    if req.files.None? || |req.files.value| == 0 {
      return BadRequest(NoFiles), [];
    }
    var files, lang, version := req.files.value, req.targetLanguage, req.targetVersion;
    var results;
    results, trace := RunBatch(files, (k: nat, f: UploadedFile) => ConvertFile(f, lang, version, NthCall(oracle, k)),
                               f => Prompt(f, lang, version));
    resp := Success(results);
    assert Rendered(files, f => Prompt(f, lang, version)) == Prompts(files, lang, version);
    PacedCallsAt(Prompts(files, lang, version));
    PacedCallsCount(Prompts(files, lang, version));
  }
}
