/** `OpenAIServing`, the shared base of the OpenAI-compatible endpoints:
    the LoRA registry (initial list, add, remove), model-name resolution,
    prompt validation against the context length, and the token and
    text-offset part of OpenAI-style logprobs.

    The tokenizer is a value of three uninterpreted functions; the engine
    model configuration fetched by `_post_init` arrives as constructor
    arguments. */
module ServingEngine {
  import opened Wrappers

  /** The Python exceptions the shown code raises, by class. */
  datatype ServingError = ValueError | TypeError | IndexError | KeyError

  datatype LoRA = LoRA(name: string, localPath: string)
  datatype LoRARequest = LoRARequest(loraName: string, loraIntId: int, loraLocalPath: string)
  datatype ErrorResponse = ErrorResponse(message: string, errType: string, code: int)
  datatype ModelCard = ModelCard(id: string, root: string)
  datatype RequestKind = ChatCompletion | Completion | Embedding

  /** `encode(prompt, max_length)` truncates to `max_length` when one is
      given; `decode` maps a list of ids and `decodeToken` one id to text. */
  datatype Tokenizer = Tokenizer(encode: (string, Option<int>) -> seq<int>,
                                 decode: seq<int> -> string,
                                 decodeToken: int -> string)

  /** The text and offsets of OpenAI-style logprobs (the float fields are
      not modelled). */
  datatype LogProbs = LogProbs(tokens: seq<string>, textOffset: seq<int>)

  const NotFound: int := 404

  // ---------------------------------------------------------------------
  // The LoRA registry on values

  /** `enumerate(mods, start=start)` turned into requests. */
  function Enumerate(mods: seq<LoRA>, start: int): (r: seq<LoRARequest>)
    ensures |r| == |mods|
    ensures forall i :: 0 <= i < |r| ==> r[i] == LoRARequest(mods[i].name, start + i, mods[i].localPath)
  {
    if mods == [] then []
    else [LoRARequest(mods[0].name, start, mods[0].localPath)] + Enumerate(mods[1..], start + 1)
  }

  /** The registry `__init__` builds: empty without modules, otherwise one
      request per module, in order, with ids 1..n. */
  function InitialLoraRequests(mods: Option<seq<LoRA>>): (r: seq<LoRARequest>)
    ensures mods.None? ==> r == []
    ensures mods.Some? ==> |r| == |mods.value|
    ensures mods.Some? ==> forall i :: 0 <= i < |r| ==> && r[i].loraIntId == i + 1
                                                        && r[i].loraName == mods.value[i].name
                                                        && r[i].loraLocalPath == mods.value[i].localPath
  {
    if mods.None? then [] else Enumerate(mods.value, 1)
  }

  /** The `lora_modules` argument as the caller supplies it: left out, or
      passed explicitly (possibly as `None`). */
  datatype LoraModulesArgument = Omitted | Passed(mods: Option<seq<LoRA>>)

  /** `__init__` as written: the parameter's default is the type expression
      `Optional[List[LoRA]]` itself, which is not `None`, so leaving the
      argument out iterates over a typing object and raises. */
  function InitialLoraRequestsAsWritten(arg: LoraModulesArgument): (r: Result<seq<LoRARequest>, ServingError>)
    ensures arg.Passed? ==> r == Success(InitialLoraRequests(arg.mods))
  {
    match arg
    case Omitted => Failure(TypeError)
    case Passed(mods) => Success(InitialLoraRequests(mods))
  }

  /** `__init__` with the evidently intended default `None`. */
  function InitialLoraRequestsCorrected(arg: LoraModulesArgument): (r: seq<LoRARequest>)
    ensures arg.Omitted? ==> r == []
    ensures arg.Passed? ==> r == InitialLoraRequests(arg.mods)
  {
    InitialLoraRequests(if arg.Omitted? then None else arg.mods)
  }

  lemma OmittedLoraModulesRaises()
    ensures InitialLoraRequestsAsWritten(Omitted).Failure?
    ensures InitialLoraRequestsCorrected(Omitted) == []
  {
  }

  predicate NameTaken(rs: seq<LoRARequest>, name: string) {
    exists i | 0 <= i < |rs| :: rs[i].loraName == name
  }

  /** No two registered requests share an integer id. */
  ghost predicate UniqueIds(rs: seq<LoRARequest>) {
    forall i, j :: 0 <= i < j < |rs| ==> rs[i].loraIntId != rs[j].loraIntId
  }

  /** The ids are exactly 1..n in registry order. */
  ghost predicate DenseIds(rs: seq<LoRARequest>) {
    forall i :: 0 <= i < |rs| ==> rs[i].loraIntId == i + 1
  }

  /** The largest id in the registry, 0 when it is empty. */
  function MaxId(rs: seq<LoRARequest>): (m: int)
    ensures m >= 0
    ensures forall i :: 0 <= i < |rs| ==> rs[i].loraIntId <= m
    ensures rs != [] && (forall i :: 0 <= i < |rs| ==> rs[i].loraIntId >= 1) ==>
              exists i :: 0 <= i < |rs| && rs[i].loraIntId == m
  {
    if rs == [] then 0
    else
      var m := MaxId(rs[..|rs| - 1]);
      var last := rs[|rs| - 1].loraIntId;
      if last > m then last else m
  }

  /** `add_lora` as written: a new name is appended with id
      `len(lora_requests) + 1`. */
  function AddedAsWritten(rs: seq<LoRARequest>, lora: LoRA): (r: seq<LoRARequest>)
    ensures NameTaken(rs, lora.name) ==> r == rs
    ensures !NameTaken(rs, lora.name) ==> r == rs + [LoRARequest(lora.name, |rs| + 1, lora.localPath)]
  {
    if NameTaken(rs, lora.name) then rs
    else rs + [LoRARequest(lora.name, |rs| + 1, lora.localPath)]
  }

  /** `add_lora` with an id one above every id in use, so an id freed by
      `remove_lora` is never handed out again while a later id is alive. */
  function Added(rs: seq<LoRARequest>, lora: LoRA): (r: seq<LoRARequest>)
    ensures NameTaken(rs, lora.name) ==> r == rs
    ensures !NameTaken(rs, lora.name) ==> && |r| == |rs| + 1 && r[..|rs|] == rs
                                          && r[|rs|].loraName == lora.name
                                          && r[|rs|].loraLocalPath == lora.localPath
                                          && forall i :: 0 <= i < |rs| ==> rs[i].loraIntId < r[|rs|].loraIntId
  {
    if NameTaken(rs, lora.name) then rs
    else rs + [LoRARequest(lora.name, MaxId(rs) + 1, lora.localPath)]
  }

  /** `remove_lora`: every entry with that name goes, the others stay in
      their order. */
  function Removed(rs: seq<LoRARequest>, name: string): (r: seq<LoRARequest>)
    ensures |r| <= |rs|
  {
    if rs == [] then []
    else
      var last := rs[|rs| - 1];
      Removed(rs[..|rs| - 1], name) + (if last.loraName != name then [last] else [])
  }

  /** Removal keeps exactly the entries with another name. */
  lemma {:induction false} RemovedMembers(rs: seq<LoRARequest>, name: string)
    ensures forall x :: x in Removed(rs, name) <==> x in rs && x.loraName != name
  {
    if rs != [] {
      RemovedMembers(rs[..|rs| - 1], name);
      assert rs == rs[..|rs| - 1] + [rs[|rs| - 1]];
    }
  }

  /** Removal works entry by entry, so it keeps the relative order of the
      survivors: removing from a concatenation concatenates the removals. */
  lemma {:induction false} RemovedDistributes(a: seq<LoRARequest>, b: seq<LoRARequest>, name: string)
    ensures Removed(a + b, name) == Removed(a, name) + Removed(b, name)
    decreases |b|
  {
    if b == [] {
      assert a + b == a;
    } else {
      var b', last := b[..|b| - 1], b[|b| - 1];
      assert (a + b)[..|a + b| - 1] == a + b';
      assert (a + b)[|a + b| - 1] == last;
      RemovedDistributes(a, b', name);
      var t := if last.loraName != name then [last] else [];
      assert Removed(a + b, name) == Removed(a + b', name) + t;
      assert Removed(b, name) == Removed(b', name) + t;
      assert Removed(a, name) + Removed(b', name) + t == Removed(a, name) + (Removed(b', name) + t);
    }
  }

  /** Removing a name nobody uses changes nothing. */
  lemma {:induction false} RemovedAbsentName(rs: seq<LoRARequest>, name: string)
    requires !NameTaken(rs, name)
    ensures Removed(rs, name) == rs
  {
    if rs != [] {
      var init := rs[..|rs| - 1];
      assert !NameTaken(init, name) by {
        forall i | 0 <= i < |init| ensures init[i].loraName != name {
          assert init[i] == rs[i];
        }
      }
      RemovedAbsentName(init, name);
      assert rs == init + [rs[|rs| - 1]];
    }
  }

  /** Removing a name leaves no entry with that name. */
  lemma RemovedNameAbsent(rs: seq<LoRARequest>, name: string)
    ensures !NameTaken(Removed(rs, name), name)
  {
    RemovedMembers(rs, name);
    var r := Removed(rs, name);
    forall i | 0 <= i < |r| ensures r[i].loraName != name {
      assert r[i] in r;
    }
  }

  lemma {:induction false} RemovedKeepsIdsUnique(rs: seq<LoRARequest>, name: string)
    requires UniqueIds(rs)
    ensures UniqueIds(Removed(rs, name))
  {
    if rs != [] {
      var init := rs[..|rs| - 1];
      var last := rs[|rs| - 1];
      assert UniqueIds(init) by {
        forall i, j | 0 <= i < j < |init| ensures init[i].loraIntId != init[j].loraIntId {
          assert init[i] == rs[i] && init[j] == rs[j];
        }
      }
      RemovedKeepsIdsUnique(init, name);
      RemovedMembers(init, name);
      var r0 := Removed(init, name);
      if last.loraName != name {
        forall i | 0 <= i < |r0| ensures r0[i].loraIntId != last.loraIntId {
          assert r0[i] in init;
          var k :| 0 <= k < |init| && init[k] == r0[i];
          assert rs[k] == init[k];
        }
      }
    }
  }

  lemma {:induction false} RemovedKeepsIdsPositive(rs: seq<LoRARequest>, name: string)
    requires forall i :: 0 <= i < |rs| ==> rs[i].loraIntId >= 1
    ensures forall i :: 0 <= i < |Removed(rs, name)| ==> Removed(rs, name)[i].loraIntId >= 1
  {
    RemovedMembers(rs, name);
    var r := Removed(rs, name);
    forall i | 0 <= i < |r| ensures r[i].loraIntId >= 1 {
      assert r[i] in rs;
    }
  }

  lemma AddedKeepsIdsUnique(rs: seq<LoRARequest>, lora: LoRA)
    requires UniqueIds(rs)
    ensures UniqueIds(Added(rs, lora))
  {
  }

  /** The initial registry has distinct ids. */
  lemma InitialIdsUnique(mods: Option<seq<LoRA>>)
    ensures UniqueIds(InitialLoraRequests(mods)) && DenseIds(InitialLoraRequests(mods))
  {
  }

  lemma {:induction false} MaxIdOfDense(rs: seq<LoRARequest>)
    requires DenseIds(rs)
    ensures MaxId(rs) == |rs|
  {
    if rs != [] {
      MaxIdOfDense(rs[..|rs| - 1]);
    }
  }

  /** As long as nothing was removed (ids still 1..n), the corrected rule
      hands out exactly the id `len + 1` the source does, and keeps the ids
      dense. */
  lemma AddedAgreesWhileDense(rs: seq<LoRARequest>, lora: LoRA)
    requires DenseIds(rs)
    ensures Added(rs, lora) == AddedAsWritten(rs, lora)
    ensures DenseIds(Added(rs, lora))
  {
    MaxIdOfDense(rs);
  }

  /** The source's rule after a removal: register "a" and "b", remove "a",
      register "c", and "b" and "c" both carry id 2. */
  lemma AddedAsWrittenReusesIds()
    ensures var a := LoRA("a", "/a");
            var b := LoRA("b", "/b");
            var c := LoRA("c", "/c");
            var rs := AddedAsWritten(Removed(AddedAsWritten(AddedAsWritten([], a), b), "a"), c);
            !UniqueIds(rs)
  {
    var a := LoRA("a", "/a");
    var b := LoRA("b", "/b");
    var c := LoRA("c", "/c");
    var r1 := AddedAsWritten([], a);
    assert !NameTaken([], "a");
    assert r1 == [LoRARequest("a", 1, "/a")];
    assert !NameTaken(r1, "b") by {
      assert r1[0].loraName == "a" && "a" != "b";
    }
    var r2 := AddedAsWritten(r1, b);
    assert r2 == [LoRARequest("a", 1, "/a"), LoRARequest("b", 2, "/b")];
    var r3 := Removed(r2, "a");
    assert r2[..1] == r1;
    assert Removed([], "a") == [];
    assert Removed(r1, "a") == [] by {
      assert r1[..0] == [];
    }
    assert r3 == [LoRARequest("b", 2, "/b")];
    assert !NameTaken(r3, "c") by {
      assert r3[0].loraName == "b" && "b" != "c";
    }
    var r4 := AddedAsWritten(r3, c);
    assert r4 == [LoRARequest("b", 2, "/b"), LoRARequest("c", 2, "/c")];
    assert r4[0].loraIntId == r4[1].loraIntId;
  }

  /** Index of the first request named `name`. */
  function FirstNamed(rs: seq<LoRARequest>, name: string): (r: Option<nat>)
    ensures r.Some? ==> r.value < |rs| && rs[r.value].loraName == name
                        && forall j :: 0 <= j < r.value ==> rs[j].loraName != name
    ensures r.None? <==> !NameTaken(rs, name)
  {
    if rs == [] then None
    else if rs[0].loraName == name then Some(0)
    else
      var t := FirstNamed(rs[1..], name);
      assert NameTaken(rs[1..], name) ==> NameTaken(rs, name) by {
        if NameTaken(rs[1..], name) {
          var i :| 0 <= i < |rs[1..]| && rs[1..][i].loraName == name;
          assert rs[i + 1].loraName == name;
        }
      }
      assert NameTaken(rs, name) ==> NameTaken(rs[1..], name) by {
        if NameTaken(rs, name) {
          var i :| 0 <= i < |rs| && rs[i].loraName == name;
          assert i > 0 && rs[1..][i - 1].loraName == name;
        }
      }
      if t.None? then None else Some(t.value + 1)
  }

  // ---------------------------------------------------------------------
  // Prompt validation on values

  /** Python truthiness of an optional string or list. */
  predicate Truthy<T>(o: Option<seq<T>>) {
    o.Some? && |o.value| > 0
  }

  /** Python's `s[start:]`, including a negative `start`. */
  function SliceFrom<T>(s: seq<T>, start: int): (r: seq<T>)
    ensures 0 <= start ==> r == if start <= |s| then s[start..] else []
  {
    if 0 <= start then (if start <= |s| then s[start..] else [])
    else if -start <= |s| then s[|s| + start..]
    else s
  }

  function Min(a: int, b: int): int {
    if a < b then a else b
  }

  /** The `(input_ids, input_text)` pair, or the error for giving neither
      or both of `prompt` and `prompt_ids`. */
  function TokenizedInput(prompt: Option<string>, promptIds: Option<seq<int>>,
                          truncate: Option<int>, tok: Tokenizer): (r: Result<(seq<int>, string), ServingError>)
    ensures r.Failure? <==> Truthy(prompt) == Truthy(promptIds)
    ensures r.Failure? ==> r.error == ValueError
  {
    if !(Truthy(prompt) || Truthy(promptIds)) then Failure(ValueError)
    else if Truthy(prompt) && Truthy(promptIds) then Failure(ValueError)
    else
      var ids := if promptIds.None? then tok.encode(prompt.value, truncate)
                 else if truncate.Some? then SliceFrom(promptIds.value, -truncate.value)
                 else promptIds.value;
      var text := if prompt.Some? then prompt.value else tok.decode(promptIds.value);
      Success((ids, text))
  }

  /** `max_tokens` after validation: filled in with the room left in the
      context for a non-embedding request that has none. */
  function MaxTokensAfter(kind: RequestKind, maxTokens: Option<int>, tokenNum: nat, maxModelLen: int): Option<int> {
    if kind != Embedding && maxTokens.None? then Some(maxModelLen - tokenNum) else maxTokens
  }

  function Validated(kind: RequestKind, maxTokens: Option<int>, maxModelLen: int,
                     prompt: Option<string>, promptIds: Option<seq<int>>,
                     truncate: Option<int>, tok: Tokenizer): (r: Result<(seq<int>, string), ServingError>)
    ensures r.Success? ==> r == TokenizedInput(prompt, promptIds, truncate, tok)
    ensures r.Failure? ==> r.error == ValueError
  {
    var input :- TokenizedInput(prompt, promptIds, truncate, tok);
    var n := |input.0|;
    if kind == Embedding then
      if n > maxModelLen then Failure(ValueError) else Success(input)
    else
      var m := MaxTokensAfter(kind, maxTokens, n, maxModelLen).value;
      if n + m > maxModelLen then Failure(ValueError) else Success(input)
  }

  /** `max_tokens` as the request holds it after the call: untouched when
      the prompt check failed first. */
  function RequestMaxTokensAfter(kind: RequestKind, maxTokens: Option<int>, maxModelLen: int,
                                 prompt: Option<string>, promptIds: Option<seq<int>>,
                                 truncate: Option<int>, tok: Tokenizer): Option<int>
  {
    var input := TokenizedInput(prompt, promptIds, truncate, tok);
    if input.Failure? then maxTokens else MaxTokensAfter(kind, maxTokens, |input.value.0|, maxModelLen)
  }

  /** Exactly one of `prompt` and `prompt_ids` must be non-empty. */
  lemma ExactlyOnePromptRequired(kind: RequestKind, maxTokens: Option<int>, maxModelLen: int,
                                 prompt: Option<string>, promptIds: Option<seq<int>>,
                                 truncate: Option<int>, tok: Tokenizer)
    requires Truthy(prompt) == Truthy(promptIds)
    ensures Validated(kind, maxTokens, maxModelLen, prompt, promptIds, truncate, tok) == Failure(ValueError)
    ensures RequestMaxTokensAfter(kind, maxTokens, maxModelLen, prompt, promptIds, truncate, tok) == maxTokens
  {
  }

  /** With `prompt_ids` and a truncation k >= 1, the input is the last
      min(k, len) ids, read from the ids without calling the tokenizer. */
  lemma TruncationKeepsLastIds(prompt: Option<string>, ids: seq<int>, k: int, tok: Tokenizer)
    requires !Truthy(prompt) && |ids| > 0 && k >= 1
    ensures var r := TokenizedInput(prompt, Some(ids), Some(k), tok);
            && r.Success?
            && r.value.0 == ids[|ids| - Min(k, |ids|)..]
            && |r.value.0| == Min(k, |ids|)
  {
  }

  /** The context-length rule: an embedding request fits iff its tokens
      fit; any other request fits iff its tokens plus its (possibly filled
      in) `max_tokens` fit. */
  lemma LengthBudget(kind: RequestKind, maxTokens: Option<int>, maxModelLen: int,
                     prompt: Option<string>, promptIds: Option<seq<int>>,
                     truncate: Option<int>, tok: Tokenizer)
    requires Truthy(prompt) != Truthy(promptIds)
    ensures var ids := TokenizedInput(prompt, promptIds, truncate, tok).value.0;
            var r := Validated(kind, maxTokens, maxModelLen, prompt, promptIds, truncate, tok);
            && (kind == Embedding ==> (r.Success? <==> |ids| <= maxModelLen))
            && (kind == Embedding ==> MaxTokensAfter(kind, maxTokens, |ids|, maxModelLen) == maxTokens)
            && (kind != Embedding && maxTokens.Some? ==> (r.Success? <==> |ids| + maxTokens.value <= maxModelLen))
            && (kind != Embedding && maxTokens.None? ==> MaxTokensAfter(kind, maxTokens, |ids|, maxModelLen) == Some(maxModelLen - |ids|))
  {
  }

  /** A non-embedding request without `max_tokens` is never rejected for
      length: the filled-in value is the room left, which is negative when
      the prompt alone is longer than the context. */
  lemma MissingMaxTokensAlwaysFits(kind: RequestKind, maxModelLen: int,
                                   prompt: Option<string>, promptIds: Option<seq<int>>,
                                   truncate: Option<int>, tok: Tokenizer)
    requires kind != Embedding && Truthy(prompt) != Truthy(promptIds)
    ensures Validated(kind, None, maxModelLen, prompt, promptIds, truncate, tok).Success?
    ensures var n := |TokenizedInput(prompt, promptIds, truncate, tok).value.0|;
            n > maxModelLen ==> RequestMaxTokensAfter(kind, None, maxModelLen, prompt, promptIds, truncate, tok).value < 0
  {
  }

  /** A non-empty prompt next to an empty (but present) `prompt_ids` passes
      the either/or check, and then the ids win: the input is empty and the
      prompt is only echoed back as text. */
  lemma PromptIgnoredBesideEmptyIds(prompt: string, truncate: Option<int>, tok: Tokenizer)
    requires |prompt| > 0
    ensures TokenizedInput(Some(prompt), Some([]), truncate, tok) == Success(([], prompt))
  {
  }

  // ---------------------------------------------------------------------
  // Logprobs: tokens and text offsets

  /** The token text of one step: the decoded id when the step has no
      candidates, else the candidate entry for the id. */
  function StepToken(tokenId: int, step: Option<map<int, string>>, tok: Tokenizer): Result<string, ServingError> {
    match step
    case None => Success(tok.decodeToken(tokenId))
    case Some(m) => if tokenId in m then Success(m[tokenId]) else Failure(KeyError)
  }

  predicate StepOk(ids: seq<int>, steps: seq<Option<map<int, string>>>, tok: Tokenizer, i: int)
    requires 0 <= i < |ids|
  {
    i < |steps| && StepToken(ids[i], steps[i], tok).Success?
  }

  /** The first `n` steps all produce a token. */
  predicate StepsOkUpTo(ids: seq<int>, steps: seq<Option<map<int, string>>>, tok: Tokenizer, n: nat)
    requires n <= |ids|
  {
    forall i | 0 <= i < n :: StepOk(ids, steps, tok, i)
  }

  /** The error step `i` raises: a missing step (IndexError) or a missing
      candidate (KeyError). */
  function StepError(ids: seq<int>, steps: seq<Option<map<int, string>>>, tok: Tokenizer, i: int): ServingError
    requires 0 <= i < |ids| && !StepOk(ids, steps, tok, i)
  {
    if i >= |steps| then IndexError else KeyError
  }

  /** `text_offset[0]` is the initial offset and each later offset adds the
      length of the token before it. */
  ghost predicate OffsetsFollow(tokens: seq<string>, offsets: seq<int>, initial: int) {
    && |offsets| == |tokens|
    && (|offsets| > 0 ==> offsets[0] == initial)
    && forall i :: 0 < i < |offsets| ==> offsets[i] == offsets[i - 1] + |tokens[i - 1]|
  }

  function TotalLength(tokens: seq<string>): nat {
    if tokens == [] then 0 else TotalLength(tokens[..|tokens| - 1]) + |tokens[|tokens| - 1]|
  }

  /** The offsets in closed form: the initial offset plus the length of
      every earlier token. */
  lemma {:induction false} OffsetsClosedForm(tokens: seq<string>, offsets: seq<int>, initial: int)
    requires OffsetsFollow(tokens, offsets, initial)
    ensures forall i :: 0 <= i < |offsets| ==> offsets[i] == initial + TotalLength(tokens[..i])
  {
    if |offsets| > 0 {
      var n := |offsets| - 1;
      OffsetsClosedForm(tokens[..n], offsets[..n], initial);
      forall i | 0 <= i < |offsets| ensures offsets[i] == initial + TotalLength(tokens[..i]) {
        if i == n && n > 0 {
          assert offsets[n - 1] == initial + TotalLength(tokens[..n][..n - 1]);
          assert tokens[..n][..n - 1] == tokens[..n - 1];
          assert tokens[..n][..n - 1] == tokens[..n - 1];
          assert tokens[..n] == tokens[..n - 1] + [tokens[n - 1]];
          assert tokens[..n][..|tokens[..n]| - 1] == tokens[..n - 1];
        } else if i < n {
          assert offsets[i] == offsets[..n][i];
          assert tokens[..n][..i] == tokens[..i];
        }
      }
    }
  }

  // ---------------------------------------------------------------------
  // The serving object

  /** One card per id, all with the same root. */
  function Cards(ids: seq<string>, root: string): (r: seq<ModelCard>)
    ensures |r| == |ids|
    ensures forall i :: 0 <= i < |r| ==> r[i] == ModelCard(ids[i], root)
  {
    seq(|ids|, i requires 0 <= i < |ids| => ModelCard(ids[i], root))
  }

  function LoraNames(rs: seq<LoRARequest>): (r: seq<string>)
    ensures |r| == |rs|
    ensures forall i :: 0 <= i < |r| ==> r[i] == rs[i].loraName
  {
    seq(|rs|, i requires 0 <= i < |rs| => rs[i].loraName)
  }

  lemma CardsAppend(a: seq<ModelCard>, b: seq<ModelCard>, root: string)
    requires forall i :: 0 <= i < |a| ==> a[i].root == root
    requires forall i :: 0 <= i < |b| ==> b[i].root == root
    ensures forall i :: 0 <= i < |a| ==> (a + b)[i] == a[i]
    ensures forall i :: 0 <= i < |b| ==> (a + b)[|a| + i] == b[i]
    ensures forall i :: 0 <= i < |a + b| ==> (a + b)[i].root == root
  {
  }

  class OpenAIServing {
    const servedModelNames: seq<string>
    var loraRequests: seq<LoRARequest>
    const maxModelLen: int
    const tokenizer: Tokenizer

    /** Registered LoRAs have positive, pairwise distinct integer ids. */
    ghost predicate Valid()
      reads this
    {
      && UniqueIds(loraRequests)
      && forall i :: 0 <= i < |loraRequests| ==> loraRequests[i].loraIntId >= 1
    }

    constructor (servedModelNames: seq<string>, loraModules: Option<seq<LoRA>>,
                 maxModelLen: int, tokenizer: Tokenizer)
      ensures Valid()
      ensures this.servedModelNames == servedModelNames
      ensures loraRequests == InitialLoraRequests(loraModules)
      ensures this.maxModelLen == maxModelLen && this.tokenizer == tokenizer
    {
      this.servedModelNames := servedModelNames;
      this.loraRequests := InitialLoraRequests(loraModules);
      this.maxModelLen := maxModelLen;
      this.tokenizer := tokenizer;
      InitialIdsUnique(loraModules);
    }

    /** `add_lora`, with the corrected id rule (see `AddedAsWritten` for the
        source's). */
    method AddLora(lora: LoRA)
      requires Valid()
      modifies this`loraRequests
      ensures Valid()
      ensures loraRequests == Added(old(loraRequests), lora)
    {
      if NameTaken(loraRequests, lora.name) {
        return;
      }
      AddedKeepsIdsUnique(loraRequests, lora);
      loraRequests := loraRequests + [LoRARequest(lora.name, MaxId(loraRequests) + 1, lora.localPath)];
    }

    method RemoveLora(name: string)
      requires Valid()
      modifies this`loraRequests
      ensures Valid()
      ensures loraRequests == Removed(old(loraRequests), name)
      ensures !NameTaken(loraRequests, name)
    {
      RemovedKeepsIdsUnique(loraRequests, name);
      RemovedKeepsIdsPositive(loraRequests, name);
      RemovedNameAbsent(loraRequests, name);
      loraRequests := Removed(loraRequests, name);
    }

    /** `_check_model`: no error iff the model is served or is a LoRA name;
        otherwise a 404 `NotFoundError` naming the model. */
    function CheckModel(model: string): (r: Option<ErrorResponse>)
      reads this
      ensures r.None? <==> model in servedModelNames || NameTaken(loraRequests, model)
      ensures r.Some? ==> && r.value.code == NotFound && r.value.errType == "NotFoundError"
                          && r.value.message == "The model `" + model + "` does not exist."
    {
      if model in servedModelNames then None
      else if NameTaken(loraRequests, model) then None
      else Some(ErrorResponse("The model `" + model + "` does not exist.", "NotFoundError", NotFound))
    }

    /** `_maybe_get_lora`: nothing for a served model, else the first LoRA
        with that name, else `ValueError`. */
    function MaybeGetLora(model: string): (r: Result<Option<LoRARequest>, ServingError>)
      reads this
      ensures model in servedModelNames ==> r == Success(None)
      ensures model !in servedModelNames ==>
                (r.Success? <==> NameTaken(loraRequests, model))
      ensures model !in servedModelNames && r.Success? ==>
                exists i :: && 0 <= i < |loraRequests| && r.value == Some(loraRequests[i])
                            && loraRequests[i].loraName == model
                            && forall j :: 0 <= j < i ==> loraRequests[j].loraName != model
      ensures r.Failure? ==> r.error == ValueError
    {
      if model in servedModelNames then Success(None)
      else
        var i := FirstNamed(loraRequests, model);
        if i.None? then Failure(ValueError) else Success(Some(loraRequests[i.value]))
    }

    /** `show_available_models`: one card per served name, then one per
        LoRA, every one rooted at the first served name; with no served
        name, any LoRA card raises `IndexError`. */
    function ShowAvailableModels(): (r: Result<seq<ModelCard>, ServingError>)
      reads this
      ensures r.Failure? <==> servedModelNames == [] && loraRequests != []
      ensures r.Failure? ==> r.error == IndexError
      ensures r.Success? ==>
                && |r.value| == |servedModelNames| + |loraRequests|
                && (forall i :: 0 <= i < |servedModelNames| ==> r.value[i].id == servedModelNames[i])
                && (forall i :: 0 <= i < |loraRequests| ==>
                      r.value[|servedModelNames| + i].id == loraRequests[i].loraName)
                && (forall i :: 0 <= i < |r.value| ==> r.value[i].root == servedModelNames[0])
    {
      if servedModelNames == [] then
        if loraRequests == [] then Success([]) else Failure(IndexError)
      else
        var root := servedModelNames[0];
        var modelCards := Cards(servedModelNames, root);
        var loraCards := Cards(LoraNames(loraRequests), root);
        CardsAppend(modelCards, loraCards, root);
        Success(modelCards + loraCards)
    }

    /** `_validate_prompt_and_tokenize`: the returned ids and text, and the
        request's `max_tokens` filled in when it had none. */
    method ValidatePromptAndTokenize(request: Request, prompt: Option<string>, promptIds: Option<seq<int>>,
                                     truncate: Option<int>) returns (r: Result<(seq<int>, string), ServingError>)
      requires truncate.Some? ==> truncate.value >= 1
      modifies request`maxTokens
      ensures r == Validated(request.kind, old(request.maxTokens), maxModelLen, prompt, promptIds, truncate, tokenizer)
      ensures request.maxTokens == RequestMaxTokensAfter(request.kind, old(request.maxTokens), maxModelLen,
                                                         prompt, promptIds, truncate, tokenizer)
    {
      if !(Truthy(prompt) || Truthy(promptIds)) {
        return Failure(ValueError);
      }
      if Truthy(prompt) && Truthy(promptIds) {
        return Failure(ValueError);
      }
      var inputIds: seq<int>;
      if promptIds.None? {
        inputIds := tokenizer.encode(prompt.value, truncate);
      } else if truncate.Some? {
        inputIds := SliceFrom(promptIds.value, -truncate.value);
      } else {
        inputIds := promptIds.value;
      }
      var inputText := if prompt.Some? then prompt.value else tokenizer.decode(promptIds.value);
      var tokenNum := |inputIds|;
      if request.kind == Embedding {
        if tokenNum > maxModelLen {
          return Failure(ValueError);
        }
        return Success((inputIds, inputText));
      }
      if request.maxTokens.None? {
        request.maxTokens := Some(maxModelLen - tokenNum);
      }
      if tokenNum + request.maxTokens.value > maxModelLen {
        r := Failure(ValueError);
      } else {
        r := Success((inputIds, inputText));
      }
    }

    /** `_create_logprobs`, for the tokens and text offsets: one entry per
        token id, offsets following the initial offset and the token
        lengths; fails at the first step without an entry. */
    method CreateLogprobs(tokenIds: seq<int>, topLogprobs: Option<seq<Option<map<int, string>>>>,
                          initialTextOffset: int) returns (r: Result<LogProbs, ServingError>)
      ensures tokenIds == [] ==> r == Success(LogProbs([], []))
      ensures tokenIds != [] && topLogprobs.None? ==> r == Failure(TypeError)
      ensures topLogprobs.Some? ==>
                (r.Success? <==> StepsOkUpTo(tokenIds, topLogprobs.value, tokenizer, |tokenIds|))
      ensures topLogprobs.Some? && r.Failure? ==>
                exists i :: && 0 <= i < |tokenIds| && StepsOkUpTo(tokenIds, topLogprobs.value, tokenizer, i)
                            && !StepOk(tokenIds, topLogprobs.value, tokenizer, i)
                            && r.error == StepError(tokenIds, topLogprobs.value, tokenizer, i)
      ensures r.Success? ==>
                && |r.value.tokens| == |tokenIds|
                && OffsetsFollow(r.value.tokens, r.value.textOffset, initialTextOffset)
                && (topLogprobs.Some? ==> forall i :: 0 <= i < |tokenIds| ==>
                      StepOk(tokenIds, topLogprobs.value, tokenizer, i)
                      && r.value.tokens[i] == StepToken(tokenIds[i], topLogprobs.value[i], tokenizer).value)
    {
      if tokenIds == [] {
        return Success(LogProbs([], []));
      }
      if topLogprobs.None? {
        return Failure(TypeError);
      }
      var steps := topLogprobs.value;
      var tokens: seq<string> := [];
      var offsets: seq<int> := [];
      var lastTokenLen := 0;
      var i := 0;
      while i < |tokenIds|
        invariant 0 <= i <= |tokenIds|
        invariant StepsOkUpTo(tokenIds, steps, tokenizer, i)
        invariant |tokens| == i
        invariant forall k :: 0 <= k < i ==> StepOk(tokenIds, steps, tokenizer, k)
                                             && tokens[k] == StepToken(tokenIds[k], steps[k], tokenizer).value
        invariant OffsetsFollow(tokens, offsets, initialTextOffset)
        invariant i > 0 ==> lastTokenLen == |tokens[i - 1]|
      {
        if i >= |steps| {
          assert !StepOk(tokenIds, steps, tokenizer, i);
          return Failure(IndexError);
        }
        var t := StepToken(tokenIds[i], steps[i], tokenizer);
        if t.Failure? {
          assert !StepOk(tokenIds, steps, tokenizer, i);
          return Failure(t.error);
        }
        tokens := tokens + [t.value];
        if |offsets| == 0 {
          offsets := offsets + [initialTextOffset];
        } else {
          offsets := offsets + [offsets[|offsets| - 1] + lastTokenLen];
        }
        lastTokenLen := |t.value|;
        i := i + 1;
      }
      r := Success(LogProbs(tokens, offsets));
    }

    /** The endpoint's two name checks agree: `_check_model` lets a model
        through exactly when `_maybe_get_lora` does not raise. */
    lemma CheckModelAgreesWithLookup(model: string)
      ensures CheckModel(model).None? <==> MaybeGetLora(model).Success?
    {
    }
  }

  /** The request fields validation reads and writes. */
  class Request {
    const kind: RequestKind
    var maxTokens: Option<int>

    constructor (kind: RequestKind, maxTokens: Option<int>)
      ensures this.kind == kind && this.maxTokens == maxTokens
    {
      this.kind := kind;
      this.maxTokens := maxTokens;
    }
  }
}
