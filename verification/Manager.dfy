/** The remote embedder's model manager: one resident model, sub-batched encoding, and the idle
    reaper. Calls are made one at a time, as under the manager's lock. */
module Manager {

  import opened Basics
  import Text
  import TableNames

  type Vector = seq<real>

  datatype Kind = Embed | Rerank

  datatype Spec = Spec(id: string, kind: Kind, dim: nat, quantize: bool)

  /** A loaded model; None stands for an exception. */
  datatype Model = Model(encode: seq<string> -> Option<seq<Vector>>, score: (string, seq<string>) -> Option<seq<real>>)

  datatype Error = UnknownModel | LoadFailed | WorkFailed

  datatype Result<T> = Ok(value: T) | Err(error: Error)

  const PROBE: seq<string> := ["dimension probe"]

  const INT8: set<string> := {"int8", "8bit", "8-bit", "q8", "q8_0"}
  const INT4: set<string> := {"int4", "4bit", "4-bit", "q4", "nf4"}
  const OFF: set<string> := {"none", "off", "full", "fp16", "float16", "fp32", "float32"}

  function QuantLabel(spec: Spec): string {
    if spec.kind.Rerank? then "int4" else "int8"
  }

  /** A request in the vocabulary of the spec's own kind decides; anything else leaves the default. */
  predicate ResolveQuantization(spec: Spec, requested: Option<string>) {
    if requested.None? then spec.quantize
    else
      var value := TableNames.Lower(Text.Strip(requested.value));
      if value in (if spec.kind.Rerank? then INT4 else INT8) then true
      else if value in OFF then false
      else spec.quantize
  }

  /** The width check: the probe's first vector has the declared dimension. */
  predicate PassesProbe(model: Model, spec: Spec) {
    var probe := model.encode(PROBE);
    probe.Some? && spec.dim == if probe.value == [] then 0 else |probe.value[0]|
  }

  /** A model that answers the text "dimension probe" with a vector of that many numbers, or with nothing
      if that many is none. */
  ghost predicate HasWidth(model: Model, dim: nat) {
    exists vectors :: model.encode(["dimension probe"]) == Some(vectors)
      && if vectors == [] then dim == 0 else |vectors[0]| == dim
  }

  lemma ProbeIs(model: Model, spec: Spec)
    ensures PassesProbe(model, spec) <==> HasWidth(model, spec.dim)
  {}

  /** In every valid state a resident embedder has the width it is registered with. */
  lemma ResidentHasWidth(c: Config, m: Memory)
    requires ValidMemory(c, m) && m.modelId.Some? && Lookup(c.specs, m.modelId.value).value.kind.Embed?
    ensures m.model.Some? && HasWidth(m.model.value, Lookup(c.specs, m.modelId.value).value.dim)
  {
    ProbeIs(m.model.value, Lookup(c.specs, m.modelId.value).value);
  }

  /** A word of visible, lower-case characters is read as it stands. */
  lemma PlainWord(w: string)
    requires forall i :: 0 <= i < |w| ==> !Text.IsSpace(w[i]) && !('A' <= w[i] <= 'Z')
    ensures TableNames.Lower(Text.Strip(w)) == w
  {
    assert Text.LStrip(w) == w && Text.RStrip(w) == w;
  }

  /** Int8 is for embedders, int4 for rerankers, "none" and its kin for both; a word for the other kind, or
      no request, leaves the default. */
  lemma QuantizationByWord(spec: Spec)
    ensures ResolveQuantization(spec, None) <==> spec.quantize
    ensures forall w :: w in ["int8", "8bit", "8-bit", "q8", "q8_0"] ==>
              (ResolveQuantization(spec, Some(w)) <==> spec.kind.Embed? || spec.quantize)
    ensures forall w :: w in ["int4", "4bit", "4-bit", "q4", "nf4"] ==>
              (ResolveQuantization(spec, Some(w)) <==> spec.kind.Rerank? || spec.quantize)
    ensures forall w :: w in ["none", "off", "full", "fp16", "float16", "fp32", "float32"] ==>
              !ResolveQuantization(spec, Some(w))
  {
    hide ResolveQuantization;
    Int8Words(spec);
    Int4Words(spec);
    OffWords(spec);
  }

  lemma Int8Words(spec: Spec)
    ensures ResolveQuantization(spec, None) <==> spec.quantize
    ensures forall w :: w in ["int8", "8bit", "8-bit", "q8", "q8_0"] ==>
              (ResolveQuantization(spec, Some(w)) <==> spec.kind.Embed? || spec.quantize)
  {
    hide Text.Strip, TableNames.Lower;
    forall w | w in ["int8", "8bit", "8-bit", "q8", "q8_0"]
      ensures ResolveQuantization(spec, Some(w)) <==> spec.kind.Embed? || spec.quantize
    {
      PlainWord(w);
    }
  }

  lemma Int4Words(spec: Spec)
    ensures forall w :: w in ["int4", "4bit", "4-bit", "q4", "nf4"] ==>
              (ResolveQuantization(spec, Some(w)) <==> spec.kind.Rerank? || spec.quantize)
  {
    hide Text.Strip, TableNames.Lower;
    forall w | w in ["int4", "4bit", "4-bit", "q4", "nf4"]
      ensures ResolveQuantization(spec, Some(w)) <==> spec.kind.Rerank? || spec.quantize
    {
      PlainWord(w);
    }
  }

  lemma OffWords(spec: Spec)
    ensures forall w :: w in ["none", "off", "full", "fp16", "float16", "fp32", "float32"] ==>
              !ResolveQuantization(spec, Some(w))
  {
    hide Text.Strip, TableNames.Lower;
    forall w | w in ["none", "off", "full", "fp16", "float16", "fp32", "float32"]
      ensures !ResolveQuantization(spec, Some(w))
    {
      PlainWord(w);
    }
  }

  // ------------------------------------------------------------- sub-batched encoding

  /** Encoding in slices of a fixed size, concatenated; an exception in any slice ends it. */
  function SubBatched(encode: seq<string> -> Option<seq<Vector>>, texts: seq<string>, size: nat): Option<seq<Vector>>
    requires size > 0
    decreases |texts|
  {
    if texts == [] then Some([])
    else
      var n := Smaller(size, |texts|);
      var head := encode(texts[..n]);
      if head.None? then None
      else
        var tail := SubBatched(encode, texts[n..], size);
        Behind(head.value, tail)
  }

  function Each(enc: string -> Vector, texts: seq<string>): (r: seq<Vector>)
    ensures |r| == |texts| && forall i :: 0 <= i < |r| ==> r[i] == enc(texts[i])
  {
    seq(|texts|, i requires 0 <= i < |texts| => enc(texts[i]))
  }

  ghost predicate Pointwise(encode: seq<string> -> Option<seq<Vector>>, enc: string -> Vector) {
    forall texts :: encode(texts) == Some(Each(enc, texts))
  }

  /** For a pointwise encoder the slice size does not matter: the result is each text's own vector,
      in input order. */
  lemma {:induction false} SubBatchedIsPointwise(encode: seq<string> -> Option<seq<Vector>>, enc: string -> Vector,
                                                 texts: seq<string>, size: nat)
    requires size > 0 && Pointwise(encode, enc)
    ensures SubBatched(encode, texts, size) == Some(Each(enc, texts))
    decreases |texts|
  {
    if texts != [] {
      var n := Smaller(size, |texts|);
      SubBatchedIsPointwise(encode, enc, texts[n..], size);
      assert texts[..n] + texts[n..] == texts;
      assert Each(enc, texts) == Each(enc, texts[..n]) + Each(enc, texts[n..]);
    }
  }

  // ------------------------------------------------------------------- the manager

  ghost predicate DistinctSpecs(specs: seq<Spec>) {
    forall i, j :: 0 <= i < j < |specs| ==> specs[i].id != specs[j].id
  }

  function Lookup(specs: seq<Spec>, id: string): (r: Option<Spec>)
    ensures r.Some? ==> r.value in specs && r.value.id == id
    ensures r.None? ==> forall i :: 0 <= i < |specs| ==> specs[i].id != id
  {
    if specs == [] then None else if specs[0].id == id then Some(specs[0]) else Lookup(specs[1..], id)
  }

  // --------------------------------------------------------- what each call does, on values

  datatype Config = Config(specs: seq<Spec>, maxBatchSize: int, idleUnload: real)

  datatype Memory = Memory(model: Option<Model>, modelId: Option<string>, quantized: bool, lastUsedAt: real)

  function Released(m: Memory): Memory {
    Memory(None, None, false, m.lastUsedAt)
  }

  predicate Serves(specs: seq<Spec>, id: string, kind: Kind) {
    Lookup(specs, id).Some? && Lookup(specs, id).value.kind == kind
  }

  /** A model is present exactly when an id is; the id is registered; and a resident embedder has
      passed the width check of its spec. */
  ghost predicate ValidMemory(c: Config, m: Memory) {
    && (m.model.Some? <==> m.modelId.Some?)
    && (m.modelId.None? ==> !m.quantized)
    && (m.modelId.Some? ==>
          && Lookup(c.specs, m.modelId.value).Some?
          && (Lookup(c.specs, m.modelId.value).value.kind.Embed? ==>
                PassesProbe(m.model.value, Lookup(c.specs, m.modelId.value).value)))
  }

  function AfterLoad(c: Config, m: Memory, id: string, requested: Option<string>, loader: Spec -> Option<Model>, now: real)
    : (Memory, Result<Spec>)
  {
    var base := Lookup(c.specs, id);
    if base.None? then (m, Err(UnknownModel))
    else
      var spec := base.value.(quantize := ResolveQuantization(base.value, requested));
      if m.modelId == Some(id) && m.quantized == spec.quantize then (m.(lastUsedAt := now), Ok(spec))
      else
        var loaded := loader(spec);
        if loaded.None? || (spec.kind.Embed? && !PassesProbe(loaded.value, spec)) then (Released(m), Err(LoadFailed))
        else (Memory(loaded, Some(id), spec.quantize, now), Ok(spec))
  }

  /** The model a piece of work will use, loaded on demand. */
  function AfterEnsure(c: Config, m: Memory, id: string, loader: Spec -> Option<Model>, now: real): (Memory, Option<Error>) {
    if m.modelId == Some(id) then (m, None)
    else
      var (loaded, r) := AfterLoad(c, m, id, None, loader, now);
      (loaded, if r.Err? then Some(r.error) else None)
  }

  function BatchSize(c: Config): nat {
    if c.maxBatchSize < 1 then 1 else c.maxBatchSize
  }

  function AfterEncode(c: Config, m: Memory, id: string, texts: seq<string>, loader: Spec -> Option<Model>,
                       now: real, done: real): (Memory, Result<seq<Vector>>)
  {
    if !Serves(c.specs, id, Embed) then (m, Err(UnknownModel))
    else if texts == [] then (m, Ok([]))
    else
      var (ready, error) := AfterEnsure(c, m, id, loader, now);
      if error.Some? then (ready, Err(error.value))
      else if ready.model.None? then (ready, Err(WorkFailed))
      else
        var vectors := SubBatched(ready.model.value.encode, texts, BatchSize(c));
        if vectors.None? then (ready, Err(WorkFailed))
        else (ready.(lastUsedAt := done), if |vectors.value| != |texts| then Err(LoadFailed) else Ok(vectors.value))
  }

  function AfterRerank(c: Config, m: Memory, id: string, query: string, documents: seq<string>,
                       loader: Spec -> Option<Model>, now: real, done: real): (Memory, Result<seq<real>>)
  {
    if !Serves(c.specs, id, Kind.Rerank) then (m, Err(UnknownModel))
    else if documents == [] then (m, Ok([]))
    else
      var (ready, error) := AfterEnsure(c, m, id, loader, now);
      if error.Some? then (ready, Err(error.value))
      else if ready.model.None? then (ready, Err(WorkFailed))
      else
        var scores := ready.model.value.score(query, documents);
        if scores.None? then (ready, Err(WorkFailed))
        else (ready.(lastUsedAt := done), if |scores.value| != |documents| then Err(LoadFailed) else Ok(scores.value))
  }

  function AfterUnload(m: Memory, id: Option<string>): (Memory, bool) {
    if m.modelId.None? || (id.Some? && m.modelId != id) then (m, false) else (Released(m), true)
  }

  function AfterReap(c: Config, m: Memory, now: real): (Memory, bool) {
    if c.idleUnload <= 0.0 || m.modelId.None? || now - m.lastUsedAt < c.idleUnload then (m, false)
    else (Released(m), true)
  }

  datatype Listed = Listed(id: string, loaded: bool, dim: nat, quantization: Option<string>)

  class ModelManager {
    const config: Config
    var model: Option<Model>
    var modelId: Option<string>
    var quantized: bool
    var lastUsedAt: real

    constructor (config: Config)
      requires DistinctSpecs(config.specs)
      ensures this.config == config && Valid() && modelId.None?
    {
      this.config := config;
      model, modelId, quantized, lastUsedAt := None, None, false, 0.0;
    }

    ghost function View(): Memory
      reads this
    {
      Memory(model, modelId, quantized, lastUsedAt)
    }

    ghost predicate Valid()
      reads this
    {
      DistinctSpecs(config.specs) && ValidMemory(config, View())
    }

    method Release()
      modifies this`model, this`modelId, this`quantized
      ensures View() == Released(old(View()))
    {
      model, modelId, quantized := None, None, false;
    }

    /** Makes a model resident at the requested precision, evicting any other first. An unknown id
        changes nothing; a failed load leaves nothing resident. */
    method Load(id: string, requested: Option<string>, loader: Spec -> Option<Model>, now: real) returns (r: Result<Spec>)
      requires Valid()
      modifies this
      ensures Valid() && (View(), r) == AfterLoad(config, old(View()), id, requested, loader, now)
      ensures r == Err(UnknownModel) <==> Lookup(config.specs, id).None?
      ensures r == Err(UnknownModel) ==> View() == old(View())
      ensures r.Err? && r.error != UnknownModel ==> View() == Released(old(View()))
      ensures r.Ok? ==> modelId == Some(id) && quantized == r.value.quantize && lastUsedAt == now
      ensures r.Ok? ==> Lookup(config.specs, id) == Some(r.value.(quantize := Lookup(config.specs, id).value.quantize))
                        && (r.value.quantize <==> ResolveQuantization(Lookup(config.specs, id).value, requested))
      ensures Lookup(config.specs, id).Some? ==>
                var base := Lookup(config.specs, id).value;
                var want := ResolveQuantization(base, requested);
                var there := old(modelId) == Some(id) && old(quantized) == want;
                var loaded := loader(base.(quantize := want));
                && (r.Ok? <==> there || (loaded.Some? && (base.kind.Embed? ==> HasWidth(loaded.value, base.dim))))
                && (r.Ok? ==> model == if there then old(model) else loaded)
    {
      var base := Lookup(config.specs, id);
      if base.None? {
        return Err(UnknownModel);
      }
      var want := ResolveQuantization(base.value, requested);
      var spec := base.value.(quantize := want);
      if modelId == Some(id) && quantized == want {
        lastUsedAt := now;
        return Ok(spec);
      }
      if modelId == Some(id) {
        Release();
      }
      if modelId.Some? {
        Release();
      }
      var loaded := loader(spec);
      if loaded.None? {
        return Err(LoadFailed);
      }
      if spec.kind.Embed? && !PassesProbe(loaded.value, spec) {
        return Err(LoadFailed);
      }
      model, modelId, quantized, lastUsedAt := loaded, Some(id), want, now;
      r := Ok(spec);
    }

    method Unload(id: Option<string>) returns (freed: bool)
      requires Valid()
      modifies this
      ensures Valid() && (View(), freed) == AfterUnload(old(View()), id)
      ensures freed <==> old(modelId).Some? && (id.None? || old(modelId) == id)
      ensures if freed then modelId.None? else View() == old(View())
    {
      if modelId.None? || (id.Some? && modelId != id) {
        return false;
      }
      Release();
      freed := true;
    }

    /** Embeds texts in input order, whatever the batch size; the id must be a registered embedder. */
    method Encode(id: string, texts: seq<string>, loader: Spec -> Option<Model>, now: real, done: real)
      returns (r: Result<seq<Vector>>)
      requires Valid()
      modifies this
      ensures Valid() && (View(), r) == AfterEncode(config, old(View()), id, texts, loader, now, done)
      ensures r == Err(UnknownModel) <==> !Serves(config.specs, id, Embed)
      ensures (!Serves(config.specs, id, Embed) || texts == []) ==> View() == old(View())
      ensures r.Ok? ==> |r.value| == |texts|
      ensures r.Ok? && texts != [] ==>
                && modelId == Some(id) && lastUsedAt == done
                && (old(modelId) == Some(id) ==> model == old(model))
                && forall enc :: Pointwise(model.value.encode, enc) ==> r.value == Each(enc, texts)
      ensures modelId == Some(id) && (exists enc :: Pointwise(model.value.encode, enc)) && Serves(config.specs, id, Embed) ==>
                r.Ok?
    {
      if !Serves(config.specs, id, Embed) {
        return Err(UnknownModel);
      }
      if texts == [] {
        return Ok([]);
      }
      if modelId != Some(id) {
        var loaded := Load(id, None, loader, now);
        if loaded.Err? {
          return Err(loaded.error);
        }
      }
      var vectors := EncodeAll(model.value.encode, texts, BatchSize(config));
      forall enc | Pointwise(model.value.encode, enc)
        ensures vectors == Some(Each(enc, texts))
      {
        SubBatchedIsPointwise(model.value.encode, enc, texts, BatchSize(config));
      }
      if vectors.None? {
        return Err(WorkFailed);
      }
      lastUsedAt := done;
      if |vectors.value| != |texts| {
        return Err(LoadFailed);
      }
      r := Ok(vectors.value);
    }

    /** Scores all documents in one call; the id must be a registered reranker. */
    method Rerank(id: string, query: string, documents: seq<string>, loader: Spec -> Option<Model>, now: real, done: real)
      returns (r: Result<seq<real>>)
      requires Valid()
      modifies this
      ensures Valid() && (View(), r) == AfterRerank(config, old(View()), id, query, documents, loader, now, done)
      ensures r == Err(UnknownModel) <==> !Serves(config.specs, id, Kind.Rerank)
      ensures (!Serves(config.specs, id, Kind.Rerank) || documents == []) ==> View() == old(View())
      ensures r.Ok? ==> |r.value| == |documents|
      ensures r.Ok? && documents != [] ==>
                modelId == Some(id) && lastUsedAt == done && model.value.score(query, documents) == Some(r.value)
    {
      if !Serves(config.specs, id, Kind.Rerank) {
        return Err(UnknownModel);
      }
      if documents == [] {
        return Ok([]);
      }
      if modelId != Some(id) {
        var loaded := Load(id, None, loader, now);
        if loaded.Err? {
          return Err(loaded.error);
        }
      }
      var scores := model.value.score(query, documents);
      if scores.None? {
        return Err(WorkFailed);
      }
      lastUsedAt := done;
      if |scores.value| != |documents| {
        return Err(LoadFailed);
      }
      r := Ok(scores.value);
    }

    /** Frees the model exactly when reaping is on and the model has been idle for the threshold. */
    method ReapOnce(now: real) returns (freed: bool)
      requires Valid()
      modifies this
      ensures Valid() && (View(), freed) == AfterReap(config, old(View()), now)
      ensures freed <==> config.idleUnload > 0.0 && old(modelId).Some? && now - lastUsedAt >= config.idleUnload
      ensures if freed then modelId.None? else View() == old(View())
    {
      if config.idleUnload <= 0.0 || modelId.None? {
        return false;
      }
      var idleFor := now - lastUsedAt;
      if idleFor < config.idleUnload {
        return false;
      }
      Release();
      freed := true;
    }

    /** Every registered model, in registry order; the resident one and no other is marked loaded. */
    method States() returns (r: seq<Listed>)
      requires Valid()
      ensures |r| == |config.specs|
      ensures forall i :: 0 <= i < |r| ==> r[i].id == config.specs[i].id && r[i].dim == config.specs[i].dim
      ensures forall i :: 0 <= i < |r| ==> (r[i].loaded <==> modelId == Some(r[i].id))
      ensures forall i, j :: 0 <= i < j < |r| ==> !(r[i].loaded && r[j].loaded)
      ensures model.Some? ==> exists i :: 0 <= i < |r| && r[i].loaded
      ensures forall i :: 0 <= i < |r| ==>
                r[i].quantization
                == if (if r[i].loaded then quantized else config.specs[i].quantize) then Some(QuantLabel(config.specs[i])) else None
    {
      r := [];
      for i := 0 to |config.specs|
        invariant |r| == i
        invariant forall j :: 0 <= j < i ==> r[j].id == config.specs[j].id && r[j].dim == config.specs[j].dim
        invariant forall j :: 0 <= j < i ==> (r[j].loaded <==> modelId == Some(r[j].id))
        invariant forall j :: 0 <= j < i ==>
                    r[j].quantization
                    == if (if r[j].loaded then quantized else config.specs[j].quantize) then Some(QuantLabel(config.specs[j])) else None
      {
        var spec := config.specs[i];
        var loaded := modelId == Some(spec.id);
        r := r + [Listed(spec.id, loaded, spec.dim,
                         if (if loaded then quantized else spec.quantize) then Some(QuantLabel(spec)) else None)];
      }
      if model.Some? {
        var spec := Lookup(config.specs, modelId.value).value;
        var i :| 0 <= i < |config.specs| && config.specs[i] == spec;
        assert r[i].loaded;
      }
    }
  }

  /** The slicing loop. */
  method EncodeAll(encode: seq<string> -> Option<seq<Vector>>, texts: seq<string>, size: nat)
    returns (vectors: Option<seq<Vector>>)
    requires size > 0
    ensures vectors == SubBatched(encode, texts, size)
  {
    var out: seq<Vector>, start := [], 0;
    assert texts[0..] == texts;
    BehindTwice([], [], SubBatched(encode, texts, size));
    while start < |texts|
      invariant 0 <= start <= |texts|
      invariant SubBatched(encode, texts, size) == Behind(out, SubBatched(encode, texts[start..], size))
    {
      var n := Smaller(size, |texts| - start);
      var batch := texts[start..start + n];
      assert texts[start..][..n] == batch && texts[start..][n..] == texts[start + n..];
      var raw := encode(batch);
      if raw.None? {
        return None;
      }
      BehindTwice(out, raw.value, SubBatched(encode, texts[start + n..], size));
      out := out + raw.value;
      start := start + n;
    }
    assert texts[start..] == [] && out + [] == out;
    vectors := Some(out);
  }

  function Behind(out: seq<Vector>, rest: Option<seq<Vector>>): Option<seq<Vector>> {
    if rest.None? then None else Some(out + rest.value)
  }

  lemma BehindTwice(a: seq<Vector>, b: seq<Vector>, rest: Option<seq<Vector>>)
    ensures Behind(a, Behind(b, rest)) == Behind(a + b, rest)
    ensures Behind([], rest) == rest
  {
    if rest.Some? {
      assert a + (b + rest.value) == (a + b) + rest.value;
      assert [] + rest.value == rest.value;
    }
  }

  // ---------------------------------------------------------------- every run of calls

  datatype Call =
    | LoadCall(id: string, requested: Option<string>)
    | UnloadCall(target: Option<string>)
    | EncodeCall(id: string, texts: seq<string>)
    | RerankCall(id: string, query: string, documents: seq<string>)
    | ReapCall

  /** A call, the loader it meets, and the clock when it starts, when a model it needed is loaded, and
      when it ends. */
  datatype Timed = Timed(call: Call, loader: Spec -> Option<Model>, start: real, loaded: real, end: real)

  function Next(c: Config, m: Memory, t: Timed): Memory {
    match t.call
    case LoadCall(id, requested) => AfterLoad(c, m, id, requested, t.loader, t.end).0
    case UnloadCall(target) => AfterUnload(m, target).0
    case EncodeCall(id, texts) => AfterEncode(c, m, id, texts, t.loader, t.loaded, t.end).0
    case RerankCall(id, query, documents) => AfterRerank(c, m, id, query, documents, t.loader, t.loaded, t.end).0
    case ReapCall => AfterReap(c, m, t.start).0
  }

  /** The call did what it was asked for with the resident model. */
  predicate Used(c: Config, m: Memory, t: Timed) {
    match t.call
    case LoadCall(id, requested) => AfterLoad(c, m, id, requested, t.loader, t.end).1.Ok?
    case EncodeCall(id, texts) => texts != [] && AfterEncode(c, m, id, texts, t.loader, t.loaded, t.end).1.Ok?
    case RerankCall(id, query, documents) =>
      documents != [] && AfterRerank(c, m, id, query, documents, t.loader, t.loaded, t.end).1.Ok?
    case UnloadCall(_) => false
    case ReapCall => false
  }

  /** The call is a reap that takes a resident model away. */
  predicate Reaps(c: Config, m: Memory, t: Timed) {
    t.call.ReapCall? && m.modelId.Some? && Next(c, m, t).modelId.None?
  }

  /** The memory before call i of a run, and after all of them for i == |calls|. */
  function At(c: Config, m: Memory, calls: seq<Timed>, i: nat): Memory
    requires i <= |calls|
  {
    if i == 0 then m else Next(c, At(c, m, calls, i - 1), calls[i - 1])
  }

  ghost predicate ClockRuns(m: Memory, calls: seq<Timed>) {
    && (forall i :: 0 <= i < |calls| ==> calls[i].start <= calls[i].loaded <= calls[i].end)
    && (forall i, j :: 0 <= i < j < |calls| ==> calls[i].end <= calls[j].start)
    && (forall i :: 0 <= i < |calls| ==> m.lastUsedAt <= calls[i].start)
  }

  lemma AtNext(c: Config, m: Memory, calls: seq<Timed>, i: nat)
    requires i < |calls|
    ensures At(c, m, calls, i + 1) == Next(c, At(c, m, calls, i), calls[i])
  {
    hide Next;
  }

  lemma NextKeepsValid(c: Config, m: Memory, t: Timed)
    requires ValidMemory(c, m)
    ensures ValidMemory(c, Next(c, m, t))
  {
    hide SubBatched, ResolveQuantization, AfterLoad;
    match t.call
    case LoadCall(id, requested) => LoadKeepsValid(c, m, id, requested, t.loader, t.end);
    case EncodeCall(id, _) => LoadKeepsValid(c, m, id, None, t.loader, t.loaded);
    case RerankCall(id, _, _) => LoadKeepsValid(c, m, id, None, t.loader, t.loaded);
    case _ =>
  }

  lemma LoadKeepsValid(c: Config, m: Memory, id: string, requested: Option<string>, loader: Spec -> Option<Model>, now: real)
    requires ValidMemory(c, m)
    ensures ValidMemory(c, AfterLoad(c, m, id, requested, loader, now).0)
  {
    hide ResolveQuantization;
  }

  /** After every prefix of every run a model is present iff an id is, and a resident embedder has
      passed its width check. */
  lemma {:induction false} AlwaysValid(c: Config, m: Memory, calls: seq<Timed>, i: nat)
    requires ValidMemory(c, m) && i <= |calls|
    ensures ValidMemory(c, At(c, m, calls, i))
  {
    if i > 0 {
      AlwaysValid(c, m, calls, i - 1);
      NextKeepsValid(c, At(c, m, calls, i - 1), calls[i - 1]);
    }
  }

  /** A call leaves the time of last use alone or moves it to a reading of the clock during the call;
      a use moves it to the end. */
  lemma NextTouches(c: Config, m: Memory, t: Timed)
    ensures var u := Next(c, m, t).lastUsedAt; u == m.lastUsedAt || u == t.loaded || u == t.end
    ensures Used(c, m, t) ==> Next(c, m, t).lastUsedAt == t.end && Next(c, m, t).modelId.Some?
  {
    hide PassesProbe, SubBatched, ResolveQuantization;
  }

  lemma {:induction false} LastUseBehindClock(c: Config, m: Memory, calls: seq<Timed>, i: nat)
    requires ClockRuns(m, calls) && i <= |calls|
    ensures forall k :: i <= k < |calls| ==> At(c, m, calls, i).lastUsedAt <= calls[k].start
  {
    hide Next;
    if i > 0 {
      LastUseBehindClock(c, m, calls, i - 1);
      NextTouches(c, At(c, m, calls, i - 1), calls[i - 1]);
    }
  }

  lemma {:induction false} LastUseNeverFalls(c: Config, m: Memory, calls: seq<Timed>, i: nat, j: nat)
    requires ClockRuns(m, calls) && i <= j <= |calls|
    ensures At(c, m, calls, i).lastUsedAt <= At(c, m, calls, j).lastUsedAt
    decreases j
  {
    hide Next;
    if i < j {
      LastUseNeverFalls(c, m, calls, i, j - 1);
      LastUseBehindClock(c, m, calls, j - 1);
      NextTouches(c, At(c, m, calls, j - 1), calls[j - 1]);
    }
  }

  /** A reap frees a resident model exactly when reaping is on and the model has not been touched for
      the threshold. */
  lemma ReapsIff(c: Config, m: Memory, t: Timed)
    ensures Reaps(c, m, t) <==>
            t.call.ReapCall? && m.modelId.Some? && c.idleUnload > 0.0 && t.start - m.lastUsedAt >= c.idleUnload
    ensures t.call.ReapCall? && !Reaps(c, m, t) ==> Next(c, m, t) == m
  {
  }

  /** Over every run of calls: a reap that meets a resident model frees it if and only if reaping is on and
      every use recorded before it, at whatever call, lies at least the threshold back. */
  lemma ReapedIff(c: Config, m: Memory, calls: seq<Timed>, j: nat)
    requires ClockRuns(m, calls) && j < |calls| && calls[j].call.ReapCall? && At(c, m, calls, j).modelId.Some?
    ensures Reaps(c, At(c, m, calls, j), calls[j])
            <==> c.idleUnload > 0.0 && forall i :: 0 <= i <= j ==> calls[j].start - At(c, m, calls, i).lastUsedAt >= c.idleUnload
  {
    hide Reaps, At, ClockRuns;
    ReapsIff(c, At(c, m, calls, j), calls[j]);
    forall i | 0 <= i <= j ensures At(c, m, calls, i).lastUsedAt <= At(c, m, calls, j).lastUsedAt {
      LastUseNeverFalls(c, m, calls, i, j);
    }
  }

  /** Over every run of calls: a reap that frees a model comes at least the threshold after the end of
      every call before it that used one. */
  lemma NeverReapedTooSoon(c: Config, m: Memory, calls: seq<Timed>, i: nat, j: nat)
    requires ClockRuns(m, calls) && i < j < |calls|
    requires Used(c, At(c, m, calls, i), calls[i]) && Reaps(c, At(c, m, calls, j), calls[j])
    ensures c.idleUnload > 0.0 && calls[j].start - calls[i].end >= c.idleUnload
  {
    hide *;
    AtNext(c, m, calls, i);
    NextTouches(c, At(c, m, calls, i), calls[i]);
    LastUseNeverFalls(c, m, calls, i + 1, j);
    ReapsIff(c, At(c, m, calls, j), calls[j]);
  }

  /** Running the calls on the manager computes that. */
  method Run(m: ModelManager, calls: seq<Timed>)
    requires m.Valid()
    modifies m
    ensures m.Valid() && m.View() == At(m.config, old(m.View()), calls, |calls|)
  {
    ghost var start := m.View();
    for n := 0 to |calls|
      invariant m.Valid() && m.View() == At(m.config, start, calls, n)
    {
      hide AfterLoad, AfterEncode, AfterRerank, AfterReap, AfterUnload, ValidMemory;
      var t := calls[n];
      match t.call
      case LoadCall(id, requested) => var _ := m.Load(id, requested, t.loader, t.end);
      case UnloadCall(target) => var _ := m.Unload(target);
      case EncodeCall(id, texts) => var _ := m.Encode(id, texts, t.loader, t.loaded, t.end);
      case RerankCall(id, query, documents) => var _ := m.Rerank(id, query, documents, t.loader, t.loaded, t.end);
      case ReapCall => var _ := m.ReapOnce(t.start);
    }
  }
}
