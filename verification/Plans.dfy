/** src/cacheslide_vllm/contracts.py: a request's chunks partition its prompt. */
module Plans {
  import opened Basics

  datatype RawChunk = RawChunk(id: string, role: string, start: int, end: int)

  datatype Chunk = Chunk(id: string, reuse: bool, start: nat, end: nat)

  datatype Plan = Plan(operation: string, space: string, task: string, chunks: seq<Chunk>, tokens: seq<int>)

  datatype Request = Request(operation: string, space: string, task: string, chunks: seq<RawChunk>)

  predicate Identifier(s: string) {
    0 < |s| <= 256 && forall c :: c in s ==> c >= ' '
  }

  predicate Operation(s: string) {
    s == "recompute" || s == "populate" || s == "reuse" || s == "calibrate"
  }

  predicate Acceptable(raw: RawChunk) {
    Identifier(raw.id) && (raw.role == "reuse" || raw.role == "recompute")
  }

  /** The chunks cover the prompt in order, each once and none empty. */
  predicate Covers(raw: seq<RawChunk>, tokens: nat) {
    && raw != [] && raw[0].start == 0 && raw[|raw| - 1].end == tokens
    && (forall i :: 0 <= i < |raw| ==> 0 <= raw[i].start < raw[i].end <= tokens)
    && (forall i, j :: 0 <= i < |raw| && i < j < |raw| && j == i + 1 ==> raw[j].start == raw[i].end)
  }

  predicate WellFormed(request: Request, tokens: seq<int>) {
    && Operation(request.operation) && Identifier(request.space) && Identifier(request.task)
    && tokens != [] && (forall t :: t in tokens ==> t >= 0)
    && |request.chunks| <= 1024 && Covers(request.chunks, |tokens|)
    && (forall raw :: raw in request.chunks ==> Acceptable(raw))
    && (forall i, j :: 0 <= i < j < |request.chunks| ==> request.chunks[i].id != request.chunks[j].id)
  }

  ghost predicate Contains(raw: RawChunk, i: nat) {
    raw.start <= i < raw.end
  }

  ghost predicate Somewhere(raw: seq<RawChunk>, i: nat) {
    exists k :: 0 <= k < |raw| && Contains(raw[k], i)
  }

  /** The chunks are nonempty stretches of the prompt in order, and every token is in exactly
      one of them. */
  ghost predicate Partitions(raw: seq<RawChunk>, tokens: nat) {
    && (forall k :: 0 <= k < |raw| ==> 0 <= raw[k].start < raw[k].end <= tokens)
    && (forall j, k :: 0 <= j < k < |raw| ==> raw[j].start < raw[k].start)
    && (forall i: nat :: i < tokens ==> Somewhere(raw, i))
    && (forall i: nat, j, k :: 0 <= j < k < |raw| ==> !(Contains(raw[j], i) && Contains(raw[k], i)))
  }

  /** Chunks that follow one another from the start to the end are a partition. */
  lemma {:induction false} LaterStarts(raw: seq<RawChunk>, tokens: nat, j: nat, k: nat)
    requires Covers(raw, tokens) && j < k < |raw|
    ensures raw[j].end <= raw[k].start
    decreases k
  {
    assert raw[k].start == raw[k - 1].end;
    if j < k - 1 { LaterStarts(raw, tokens, j, k - 1); }
  }

  lemma {:induction false} SomeContains(raw: seq<RawChunk>, tokens: nat, i: nat, k: nat)
    requires Covers(raw, tokens) && k < |raw| && i < raw[k].end
    ensures Somewhere(raw, i)
    decreases k
  {
    if raw[k].start <= i {
      assert Contains(raw[k], i);
    } else {
      assert raw[k].start == raw[k - 1].end;
      SomeContains(raw, tokens, i, k - 1);
    }
  }

  /** In a partition each chunk begins where the one before it ends. */
  lemma NextStarts(raw: seq<RawChunk>, tokens: nat, k: nat)
    requires Partitions(raw, tokens) && 0 < k < |raw|
    ensures raw[k].start == raw[k - 1].end
  {
    assert raw[k - 1].start < raw[k].start && Contains(raw[k], raw[k].start);
    assert !Contains(raw[k - 1], raw[k].start);
    var e := raw[k - 1].end;
    if e < raw[k].start {
      assert Somewhere(raw, e);
      var j :| 0 <= j < |raw| && Contains(raw[j], e);
      assert j < k - 1 ==> raw[j].start < raw[k - 1].start;
      assert Contains(raw[k - 1], e - 1) && Contains(raw[j], e - 1);
    }
  }

  lemma EndsAtLast(raw: seq<RawChunk>, tokens: nat)
    requires Partitions(raw, tokens) && tokens > 0
    ensures raw != [] && raw[0].start == 0 && raw[|raw| - 1].end == tokens
  {
    assert Somewhere(raw, 0) && Somewhere(raw, tokens - 1);
    var j :| 0 <= j < |raw| && Contains(raw[j], 0);
    var last := |raw| - 1;
    var k :| 0 <= k < |raw| && Contains(raw[k], tokens - 1);
    if k < last {
      assert raw[k].start < raw[last].start;
      assert Contains(raw[last], raw[last].end - 1) && Contains(raw[k], raw[last].end - 1);
    }
  }

  /** The check on the chunks accepts exactly the partitions of a prompt. */
  lemma CoversExactly(raw: seq<RawChunk>, tokens: nat)
    requires tokens > 0
    ensures Covers(raw, tokens) <==> Partitions(raw, tokens)
  {
    if Covers(raw, tokens) {
      forall j, k | 0 <= j < k < |raw| ensures raw[j].end <= raw[k].start { LaterStarts(raw, tokens, j, k); }
      forall i: nat | i < tokens ensures Somewhere(raw, i) {
        SomeContains(raw, tokens, i, |raw| - 1);
      }
    }
    if Partitions(raw, tokens) {
      EndsAtLast(raw, tokens);
      forall i, j | 0 <= i < |raw| && i < j < |raw| && j == i + 1 ensures raw[j].start == raw[i].end {
        NextStarts(raw, tokens, j);
      }
    }
  }

  function Accept(raw: RawChunk): Chunk
    requires 0 <= raw.start && 0 <= raw.end
  {
    Chunk(raw.id, raw.role == "reuse", raw.start, raw.end)
  }

  /** The first `k` chunks passed every check of the loop. */
  predicate Passed(raw: seq<RawChunk>, k: nat, tokens: nat)
    requires k <= |raw|
  {
    && (forall i :: 0 <= i < k ==> 0 <= raw[i].start < raw[i].end <= tokens && Acceptable(raw[i]))
    && (k > 0 ==> raw[0].start == 0)
    && (forall i, j :: 0 <= i < k && i < j < k && j == i + 1 ==> raw[j].start == raw[i].end)
    && (forall i, j :: 0 <= i < j < k ==> raw[i].id != raw[j].id)
  }

  lemma PassNext(raw: seq<RawChunk>, i: nat, tokens: nat)
    requires i < |raw| && Passed(raw, i, tokens)
    requires Acceptable(raw[i]) && raw[i].start == (if i == 0 then 0 else raw[i - 1].end)
    requires raw[i].start < raw[i].end <= tokens
    requires forall k :: 0 <= k < i ==> raw[k].id != raw[i].id
    ensures Passed(raw, i + 1, tokens)
  {
    assert 0 <= raw[i].start by { if i > 0 { assert 0 <= raw[i - 1].start < raw[i - 1].end; } }
  }

  /** The loop over the chunks with its `cursor` and `seen`. */
  method ParseChunks(raw: seq<RawChunk>, tokens: nat) returns (r: Option<seq<Chunk>>)
    ensures r.Some? <==> Passed(raw, |raw|, tokens) && (if raw == [] then 0 else raw[|raw| - 1].end) == tokens
    ensures r.Some? ==> |r.value| == |raw| && forall i :: 0 <= i < |raw| ==>
            0 <= raw[i].start < raw[i].end && r.value[i] == Accept(raw[i])
  {
    var chunks: seq<Chunk>, cursor: nat, seen: set<string> := [], 0, {};
    for i := 0 to |raw|
      invariant Passed(raw, i, tokens) == true
      invariant cursor == if i == 0 then 0 else raw[i - 1].end
      invariant |chunks| == i && forall k :: 0 <= k < i ==> chunks[k] == Accept(raw[k])
      invariant seen == set k | 0 <= k < i :: raw[k].id
    {
      if !Identifier(raw[i].id) { return None; }
      if raw[i].start != cursor || !(raw[i].start < raw[i].end <= tokens) { return None; }
      if (raw[i].role != "reuse" && raw[i].role != "recompute") || raw[i].id in seen { return None; }
      PassNext(raw, i, tokens);
      chunks := chunks + [Accept(raw[i])];
      cursor := raw[i].end;
      seen := seen + {raw[i].id};
    }
    r := if cursor == tokens then Some(chunks) else None;
  }

  lemma PassedIsWellFormed(request: Request, tokens: seq<int>)
    requires Operation(request.operation) && Identifier(request.space) && Identifier(request.task)
    requires tokens != [] && (forall t :: t in tokens ==> t >= 0) && |request.chunks| <= 1024 && request.chunks != []
    ensures WellFormed(request, tokens) <==>
              Passed(request.chunks, |request.chunks|, |tokens|)
              && request.chunks[|request.chunks| - 1].end == |tokens|
  {
    var raw := request.chunks;
    if Passed(raw, |raw|, |tokens|) {
      forall c | c in raw ensures Acceptable(c) { var i :| 0 <= i < |raw| && raw[i] == c; }
    }
    if WellFormed(request, tokens) {
      forall i | 0 <= i < |raw| ensures Acceptable(raw[i]) { assert raw[i] in raw; }
      assert Covers(raw, |tokens|);
      assert Passed(raw, |raw|, |tokens|);
    }
  }

  /** The fields, once they have their types. */
  method ParseFields(request: Request, tokens: seq<int>) returns (r: Result<Plan>)
    ensures r.Ok? <==> WellFormed(request, tokens)
    ensures r.Err? ==> r.error == Invalid
    ensures r.Ok? ==> r.value.operation == request.operation && r.value.tokens == tokens
    ensures r.Ok? ==> r.value.space == request.space && r.value.task == request.task
    ensures r.Ok? ==> |r.value.chunks| == |request.chunks|
    ensures r.Ok? ==> forall i :: 0 <= i < |request.chunks| ==>
                        0 <= request.chunks[i].start < request.chunks[i].end
                            && r.value.chunks[i] == Accept(request.chunks[i])
  {
    if !Operation(request.operation) { return Err(Invalid); }
    if tokens == [] || exists t :: t in tokens && t < 0 { return Err(Invalid); }
    if request.chunks == [] || |request.chunks| > 1024 { return Err(Invalid); }
    var chunks := ParseChunks(request.chunks, |tokens|);
    if chunks.None? {
      if Identifier(request.space) && Identifier(request.task) { PassedIsWellFormed(request, tokens); }
      return Err(Invalid);
    }
    if !Identifier(request.space) || !Identifier(request.task) { return Err(Invalid); }
    PassedIsWellFormed(request, tokens);
    r := Ok(Plan(request.operation, request.space, request.task, chunks.value, tokens));
  }

  // ---- the tokens of a plan --------------------------------------------------------------

  /** The chunks from one token on tile the rest of the prompt. */
  predicate Tiles(chunks: seq<Chunk>, from: nat, tokens: nat) {
    if chunks == [] then from == tokens
    else chunks[0].start == from < chunks[0].end <= tokens && Tiles(chunks[1..], chunks[0].end, tokens)
  }

  function Span(from: nat, to: nat): seq<nat>
    requires from <= to
  {
    seq(to - from, k requires 0 <= k < to - from => from + k)
  }

  /** The indices of the chunks of one role, in chunk order. */
  function IndicesOf(chunks: seq<Chunk>, reuse: bool): seq<nat>
    requires forall c :: c in chunks ==> c.start <= c.end
  {
    if chunks == [] then []
    else (if chunks[0].reuse == reuse then Span(chunks[0].start, chunks[0].end) else []) + IndicesOf(chunks[1..], reuse)
  }

  predicate Sensible(p: Plan) {
    (forall c :: c in p.chunks ==> c.start <= c.end) && Tiles(p.chunks, 0, |p.tokens|) && p.tokens != []
  }

  function Fixed(p: Plan): seq<nat>
    requires Sensible(p)
  {
    IndicesOf(p.chunks, true)
  }

  /** The recomputed chunks and the last prompt token. */
  function Mandatory(p: Plan): seq<nat>
    requires Sensible(p)
  {
    Sorted({|p.tokens| - 1} + set i | i in IndicesOf(p.chunks, false))
  }

  lemma {:induction false} ChunksTile(raw: seq<RawChunk>, chunks: seq<Chunk>, from: nat, tokens: nat)
    requires |chunks| == |raw| && forall i :: 0 <= i < |raw| ==>
             0 <= raw[i].start < raw[i].end <= tokens && chunks[i] == Accept(raw[i])
    requires forall i, j :: 0 <= i < |raw| && i < j < |raw| && j == i + 1 ==> raw[j].start == raw[i].end
    requires raw != [] && raw[0].start == from && raw[|raw| - 1].end == tokens
    ensures Tiles(chunks, from, tokens) && forall c :: c in chunks ==> c.start <= c.end
  {
    if |raw| > 1 { ChunksTile(raw[1..], chunks[1..], chunks[0].end, tokens); }
  }

  /** Every accepted plan is a partition. */
  lemma ParsedIsSensible(request: Request, p: Plan)
    requires WellFormed(request, p.tokens) && |p.chunks| == |request.chunks|
    requires forall i :: 0 <= i < |request.chunks| ==> p.chunks[i] == Accept(request.chunks[i])
    ensures Sensible(p)
  {
    ChunksTile(request.chunks, p.chunks, 0, |p.tokens|);
  }

  lemma SpanHas(from: nat, to: nat, i: nat)
    requires from <= to
    ensures i in Span(from, to) <==> from <= i < to
  {
    if from <= i < to { assert Span(from, to)[i - from] == i; }
  }

  /** Inside the tiled stretch a token has exactly one role, outside none. */
  lemma {:induction false} RolesSplit(chunks: seq<Chunk>, from: nat, tokens: nat, i: nat)
    requires Tiles(chunks, from, tokens) && forall c :: c in chunks ==> c.start <= c.end
    ensures from <= tokens
    ensures i in IndicesOf(chunks, true) || i in IndicesOf(chunks, false) <==> from <= i < tokens
    ensures !(i in IndicesOf(chunks, true) && i in IndicesOf(chunks, false))
  {
    if chunks != [] {
      RolesSplit(chunks[1..], chunks[0].end, tokens, i);
      SpanHas(chunks[0].start, chunks[0].end, i);
    }
  }

  lemma {:induction false} RoleAscends(chunks: seq<Chunk>, from: nat, tokens: nat, reuse: bool)
    requires Tiles(chunks, from, tokens) && forall c :: c in chunks ==> c.start <= c.end
    ensures Ascending(IndicesOf(chunks, reuse))
  {
    if chunks != [] {
      RoleAscends(chunks[1..], chunks[0].end, tokens, reuse);
      var rest := IndicesOf(chunks[1..], reuse);
      forall k | 0 <= k < |rest| ensures rest[k] >= chunks[0].end {
        assert rest[k] in rest;
        RolesSplit(chunks[1..], chunks[0].end, tokens, rest[k]);
      }
    }
  }

  /** Every prompt token is fixed or recomputed and never both; the fixed tokens are
      listed in ascending order; what is not fixed is mandatory, and so is the last. */
  lemma PlanPartitions(p: Plan, i: nat)
    requires Sensible(p)
    ensures Ascending(Fixed(p)) && Ascending(Mandatory(p))
    ensures i in Fixed(p) || i in Mandatory(p) <==> i < |p.tokens|
    ensures i in Fixed(p) && i in Mandatory(p) ==> i == |p.tokens| - 1
    ensures |p.tokens| - 1 in Mandatory(p)
  {
    RolesSplit(p.chunks, 0, |p.tokens|, i);
    RoleAscends(p.chunks, 0, |p.tokens|, true);
  }

  // ---- the roles of the request ----------------------------------------------------------

  lemma {:induction false} InRole(chunks: seq<Chunk>, reuse: bool, i: nat)
    requires forall c :: c in chunks ==> c.start <= c.end
    ensures i in IndicesOf(chunks, reuse) <==> exists c :: c in chunks && c.reuse == reuse && c.start <= i < c.end
  {
    if chunks != [] {
      InRole(chunks[1..], reuse, i);
      SpanHas(chunks[0].start, chunks[0].end, i);
      assert forall c :: c in chunks <==> c == chunks[0] || c in chunks[1..];
    }
  }

  /** Some chunk of the role, as the request has it, contains the token. */
  ghost predicate HasRole(raw: seq<RawChunk>, role: string, i: nat) {
    exists k :: 0 <= k < |raw| && raw[k].role == role && Contains(raw[k], i)
  }

  lemma RoleKept(raw: seq<RawChunk>, chunks: seq<Chunk>, i: nat)
    requires |chunks| == |raw| && forall k :: 0 <= k < |raw| ==>
             0 <= raw[k].start <= raw[k].end && Acceptable(raw[k]) && chunks[k] == Accept(raw[k])
    ensures (exists c :: c in chunks && c.reuse && c.start <= i < c.end) <==> HasRole(raw, "reuse", i)
    ensures (exists c :: c in chunks && !c.reuse && c.start <= i < c.end) <==> HasRole(raw, "recompute", i)
  {
    forall k | 0 <= k < |raw|
      ensures chunks[k] in chunks && (chunks[k].reuse <==> raw[k].role == "reuse")
      ensures !chunks[k].reuse <==> raw[k].role == "recompute"
      ensures chunks[k].start <= i < chunks[k].end <==> Contains(raw[k], i)
    {}
  }

  /** In the plan of an accepted request the fixed tokens are exactly those of its chunks to
      reuse, and the mandatory ones the last and those of its chunks to recompute. */
  lemma RolesDecide(request: Request, p: Plan, i: nat)
    requires WellFormed(request, p.tokens) && |p.chunks| == |request.chunks|
    requires forall k :: 0 <= k < |request.chunks| ==>
               0 <= request.chunks[k].start <= request.chunks[k].end && p.chunks[k] == Accept(request.chunks[k])
    ensures Sensible(p)
    ensures i in Fixed(p) <==> HasRole(request.chunks, "reuse", i)
    ensures i in Mandatory(p) <==> i == |p.tokens| - 1 || HasRole(request.chunks, "recompute", i)
  {
    ParsedIsSensible(request, p);
    AllAcceptable(request, p.tokens);
    RoleKept(request.chunks, p.chunks, i);
    IndicesByRole(p, i);
  }

  lemma AllAcceptable(request: Request, tokens: seq<int>)
    requires WellFormed(request, tokens)
    ensures forall k :: 0 <= k < |request.chunks| ==> Acceptable(request.chunks[k])
  {
    forall k | 0 <= k < |request.chunks| ensures Acceptable(request.chunks[k]) {
      assert request.chunks[k] in request.chunks;
    }
  }

  lemma IndicesByRole(p: Plan, i: nat)
    requires Sensible(p)
    ensures i in Fixed(p) <==> exists c :: c in p.chunks && c.reuse && c.start <= i < c.end
    ensures i in Mandatory(p) <==> i == |p.tokens| - 1 || exists c :: c in p.chunks && !c.reuse && c.start <= i < c.end
  {
    InRole(p.chunks, true, i);
    InRole(p.chunks, false, i);
  }

  // ---- the decoded request ---------------------------------------------------------------

  /** What JSON decodes to; floats, booleans and null are other values. */
  datatype Value = Text(text: string) | Whole(n: int) | List(items: seq<Value>) | Object(fields: map<string,
        Value>) | Other

  /** A request comes decoded, or as a string of so many bytes, which may not be JSON. */
  datatype Input = Decoded(value: Value) | Encoded(bytes: nat, json: Option<Value>)

  const MAX_METADATA: nat := 1048576

  function Opened(input: Input): Option<Value> {
    match input
    case Decoded(value) => Some(value)
    case Encoded(bytes, json) => if bytes > MAX_METADATA then None else json
  }

  function TextAt(fields: map<string, Value>, name: string): Option<string> {
    if name in fields && fields[name].Text? then Some(fields[name].text) else None
  }

  function WholeAt(fields: map<string, Value>, name: string): Option<int> {
    if name in fields && fields[name].Whole? then Some(fields[name].n) else None
  }

  /** A chunk has exactly four fields, two strings and two integers. */
  predicate ChunkShaped(v: Value) {
    && v.Object? && v.fields.Keys == {"id", "role", "start", "end"}
    && v.fields["id"].Text? && v.fields["role"].Text? && v.fields["start"].Whole? && v.fields["end"].Whole?
  }

  function ChunkOf(v: Value): RawChunk
    requires ChunkShaped(v)
  {
    RawChunk(v.fields["id"].text, v.fields["role"].text, v.fields["start"].n, v.fields["end"].n)
  }

  /** No unknown field, schema version one, and every field of its type. */
  predicate Shaped(v: Value) {
    && v.Object? && v.fields.Keys <= {"version", "operation", "namespace", "task_id", "chunks"}
    && WholeAt(v.fields, "version") == Some(1)
    && TextAt(v.fields, "operation").Some? && TextAt(v.fields, "namespace").Some? && TextAt(v.fields, "task_id").Some?
    && "chunks" in v.fields && v.fields["chunks"].List?
    && forall c :: c in v.fields["chunks"].items ==> ChunkShaped(c)
  }

  function RequestOf(v: Value): (r: Request)
    requires Shaped(v)
    ensures |r.chunks| == |v.fields["chunks"].items|
    ensures forall i :: 0 <= i < |r.chunks| ==>
              ChunkShaped(v.fields["chunks"].items[i]) && r.chunks[i] == ChunkOf(v.fields["chunks"].items[i])
  {
    var items := v.fields["chunks"].items;
    Request(TextAt(v.fields, "operation").value, TextAt(v.fields, "namespace").value, TextAt(v.fields, "task_id").value,
            seq(|items|, i requires 0 <= i < |items| => assert items[i] in items; ChunkOf(items[i])))
  }

  /** Some chunk of the decoded request has the role and contains the token. */
  ghost predicate GivesRole(chunks: seq<Value>, role: string, i: nat) {
    exists k :: 0 <= k < |chunks| && ChunkShaped(chunks[k]) && chunks[k].fields["role"].text == role
        && chunks[k].fields["start"].n <= i < chunks[k].fields["end"].n
  }

  lemma RoleGiven(v: Value, role: string, i: nat)
    requires Shaped(v)
    ensures HasRole(RequestOf(v).chunks, role, i) <==> GivesRole(v.fields["chunks"].items, role, i)
  {
    var raw, items := RequestOf(v).chunks, v.fields["chunks"].items;
    if HasRole(raw, role, i) {
      var k :| 0 <= k < |raw| && raw[k].role == role && Contains(raw[k], i);
      assert ChunkShaped(items[k]);
    }
    if GivesRole(items, role, i) {
      var k :| 0 <= k < |items| && ChunkShaped(items[k]) && items[k].fields["role"].text == role
          && items[k].fields["start"].n <= i < items[k].fields["end"].n;
      assert raw[k].role == role && Contains(raw[k], i);
    }
  }

  /** The tokens of the plan that `Parse` makes of a decoded request. */
  lemma PlanOfRequest(v: Value, p: Plan, i: nat)
    requires Shaped(v) && WellFormed(RequestOf(v), p.tokens) && |p.chunks| == |RequestOf(v).chunks|
    requires forall k :: 0 <= k < |p.chunks| ==>
               0 <= RequestOf(v).chunks[k].start < RequestOf(v).chunks[k].end
               && p.chunks[k] == Accept(RequestOf(v).chunks[k])
    ensures Sensible(p)
    ensures i in Fixed(p) <==> GivesRole(v.fields["chunks"].items, "reuse", i)
    ensures i in Mandatory(p) <==> i == |p.tokens| - 1 || GivesRole(v.fields["chunks"].items, "recompute", i)
  {
    RolesDecide(RequestOf(v), p, i);
    RoleGiven(v, "reuse", i);
    RoleGiven(v, "recompute", i);
  }

  /** `RequestPlan.parse`: accepted exactly if the metadata is small enough, decodes to the
      schema, and every check of the format holds; the chunks are kept as given. */
  method Parse(input: Input, tokens: seq<int>) returns (r: Result<Plan>)
    ensures r.Ok? <==>
            Opened(input).Some? && Shaped(Opened(input).value) && WellFormed(RequestOf(Opened(input).value), tokens)
    ensures r.Err? ==> r.error == Invalid
    ensures r.Ok? ==>
              var request := RequestOf(Opened(input).value);
              && r.value.operation == request.operation && r.value.space == request.space
                    && r.value.task == request.task
              && r.value.tokens == tokens && |r.value.chunks| == |request.chunks|
              && (forall i :: 0 <= i < |request.chunks| ==>
                    0 <= request.chunks[i].start < request.chunks[i].end
                        && r.value.chunks[i] == Accept(request.chunks[i]))
    ensures r.Ok? ==> Sensible(r.value) && forall i: nat ::
                        && (i in Fixed(r.value) <==>
                              GivesRole(Opened(input).value.fields["chunks"].items, "reuse", i))
                        && (i in Mandatory(r.value) <==>
                              i == |tokens| - 1
                              || GivesRole(Opened(input).value.fields["chunks"].items, "recompute", i))
  {
    var metadata := Opened(input);
    if metadata.None? || !Shaped(metadata.value) { return Err(Invalid); }
    r := ParseFields(RequestOf(metadata.value), tokens);
    if r.Ok? {
      PlanOfRequest(metadata.value, r.value, 0);
      forall i: nat
        ensures i in Fixed(r.value) <==> GivesRole(metadata.value.fields["chunks"].items, "reuse", i)
        ensures i in Mandatory(r.value) <==>
                i == |tokens| - 1 || GivesRole(metadata.value.fields["chunks"].items, "recompute", i)
      {
        PlanOfRequest(metadata.value, r.value, i);
      }
    }
  }
}
