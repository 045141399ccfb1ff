/** src/cacheslide_vllm/training_data.py: documents cut into windows that share one token
    with their neighbours, so that every transition is trained on exactly once. */
module Windows {
  import opened Basics

  /** `document_sha256`: given with the record, or the digest of its tokens. */
  datatype Document = Named(digest: nat) | Digested(ids: seq<nat>)

  /** The line a document stands on, counted from one, and its digest. */
  datatype Source = Source(line: nat, document: Document)

  datatype Window = Window(source: Source, start: nat, ids: seq<nat>)

  function Least(x: nat, y: nat): nat {
    if x < y then x else y
  }

  /** `ids[start : start + length + 1]` */
  function Slice(ids: seq<nat>, start: nat, length: nat): seq<nat>
    requires start <= |ids|
  {
    ids[start..Least(start + length + 1, |ids|)]
  }

  /** The windows of one document from a start on. */
  function Cut(source: Source, ids: seq<nat>, length: nat, start: nat): seq<Window>
    requires length > 0
    decreases |ids| - start
  {
    if start + 1 >= |ids| then []
    else [Window(source, start, Slice(ids, start, length))] + Cut(source, ids, length, start + length)
  }

  /** The window trains on the step from token `k` to the next. */
  predicate Trains(w: Window, k: nat) {
    w.start <= k && k + 1 < w.start + |w.ids|
  }

  predicate OnlyAt(ws: seq<Window>, k: nat, j: nat) {
    j < |ws| && forall i :: 0 <= i < |ws| ==> (Trains(ws[i], k) <==> i == j)
  }

  ghost predicate Unique(ws: seq<Window>, k: nat) {
    exists j: nat :: OnlyAt(ws, k, j)
  }

  /** A window holds consecutive tokens of the document: at least one transition and
      at most `length` of them. */
  lemma {:induction false} WindowsFit(source: Source, ids: seq<nat>, length: nat, start: nat, w: Window)
    requires length > 0 && w in Cut(source, ids, length, start)
    ensures 2 <= |w.ids| <= length + 1 && start <= w.start && w.source == source
    ensures w.start + |w.ids| <= |ids| && w.ids == ids[w.start..w.start + |w.ids|]
    decreases |ids| - start
  {
    if w != Window(source, start, Slice(ids, start, length)) {
      assert w in Cut(source, ids, length, start + length);
      WindowsFit(source, ids, length, start + length, w);
    }
  }

  lemma UniqueFirst(w: Window, rest: seq<Window>, k: nat)
    requires Trains(w, k) && forall i :: 0 <= i < |rest| ==> !Trains(rest[i], k)
    ensures Unique([w] + rest, k)
  {
    assert OnlyAt([w] + rest, k, 0);
  }

  lemma UniqueLater(w: Window, rest: seq<Window>, k: nat)
    requires !Trains(w, k) && Unique(rest, k)
    ensures Unique([w] + rest, k)
  {
    var j: nat :| OnlyAt(rest, k, j);
    forall i | 0 <= i < |[w] + rest| ensures Trains(([w] + rest)[i], k) <==> i == j + 1 {
      if i > 0 { assert ([w] + rest)[i] == rest[i - 1]; }
    }
    assert OnlyAt([w] + rest, k, j + 1);
  }

  /** Every adjacent pair of tokens falls into exactly one window. */
  lemma {:induction false} TrainsOnce(source: Source, ids: seq<nat>, length: nat, start: nat, k: nat)
    requires length > 0 && start <= k && k + 1 < |ids|
    ensures Unique(Cut(source, ids, length, start), k)
    decreases |ids| - start
  {
    var first, rest := Window(source, start, Slice(ids, start, length)), Cut(source, ids, length, start + length);
    if k < start + length {
      forall i | 0 <= i < |rest| ensures !Trains(rest[i], k) {
        WindowsFit(source, ids, length, start + length, rest[i]);
      }
      UniqueFirst(first, rest, k);
    } else {
      TrainsOnce(source, ids, length, start + length, k);
      UniqueLater(first, rest, k);
    }
  }

  /** Windows put back together, each sharing its first token with the one before. */
  function Rejoin(ws: seq<Window>): seq<nat> {
    if ws == [] then []
    else if |ws| == 1 || ws[0].ids == [] then ws[0].ids
    else ws[0].ids[..|ws[0].ids| - 1] + Rejoin(ws[1..])
  }

  lemma RejoinMore(first: Window, rest: seq<Window>)
    requires first.ids != [] && rest != []
    ensures Rejoin([first] + rest) == first.ids[..|first.ids| - 1] + Rejoin(rest)
  {
    assert ([first] + rest)[1..] == rest;
  }

  lemma SliceJoin(ids: seq<nat>, start: nat, length: nat)
    requires start + length + 1 <= |ids|
    ensures |Slice(ids, start, length)| == length + 1
    ensures Slice(ids, start, length)[..length] + ids[start + length..] == ids[start..]
  {}

  lemma {:induction false} WindowsRejoin(source: Source, ids: seq<nat>, length: nat, start: nat)
    requires length > 0 && start + 1 < |ids|
    ensures Rejoin(Cut(source, ids, length, start)) == ids[start..]
    decreases |ids| - start
  {
    var first, rest := Window(source, start, Slice(ids, start, length)), Cut(source, ids, length, start + length);
    if start + length + 1 < |ids| {
      WindowsRejoin(source, ids, length, start + length);
      RejoinMore(first, rest);
      SliceJoin(ids, start, length);
    } else {
      assert rest == [] && Cut(source, ids, length, start) == [first];
    }
  }

  /** Transitions a list of windows trains on. */
  function Targets(ws: seq<Window>): int {
    if ws == [] then 0 else |ws[0].ids| - 1 + Targets(ws[1..])
  }

  lemma {:induction false} TargetsJoin(a: seq<Window>, b: seq<Window>)
    ensures Targets(a + b) == Targets(a) + Targets(b)
  {
    if a == [] {
      assert a + b == b;
    } else {
      assert (a + b)[1..] == a[1..] + b;
      TargetsJoin(a[1..], b);
    }
  }

  /** None is lost and none counted twice. */
  lemma {:induction false} TargetsAreTransitions(source: Source, ids: seq<nat>, length: nat, start: nat)
    requires length > 0 && start + 1 <= |ids|
    ensures Targets(Cut(source, ids, length, start)) == |ids| - 1 - start
    decreases |ids| - start
  {
    if start + length + 1 < |ids| { TargetsAreTransitions(source, ids, length, start + length); }
  }

  // ---- the corpus -----------------------------------------------------------------------

  /** `document_sha256` of a record: absent, a lowercase digest, or something else. */
  datatype Name = Absent | Digest(digest: nat) | Malformed

  /** A line of the source: tokens, or text with what the tokenizer makes of it. */
  datatype Record =
    | NotAnObject
    | Tokens(ids: seq<int>, name: Name)
    | Text(blank: bool, encoded: seq<int>, name: Name)

  /** `_ids`: at least two nonnegative integers. */
  predicate Usable(ids: seq<int>) {
    |ids| >= 2 && forall i :: 0 <= i < |ids| ==> ids[i] >= 0
  }

  function Encoded(r: Record): seq<int>
    requires !r.NotAnObject?
  {
    if r.Tokens? then r.ids else r.encoded
  }

  /** A record the corpus can be made of; text needs a tokenizer. */
  predicate Acceptable(r: Record, tokenizer: bool) {
    && !r.NotAnObject? && (r.Text? ==> tokenizer && !r.blank) && Usable(Encoded(r)) && !r.name.Malformed?
  }

  function TokensOf(r: Record): (ids: seq<nat>)
    requires !r.NotAnObject? && Usable(Encoded(r))
    ensures |ids| >= 2
  {
    Encoded(r)
  }

  function DocumentOf(r: Record): Document
    requires !r.NotAnObject? && Usable(Encoded(r))
  {
    if r.name.Digest? then Named(r.name.digest) else Digested(TokensOf(r))
  }

  ghost predicate AllAcceptable(records: seq<Record>, tokenizer: bool) {
    forall i :: 0 <= i < |records| ==> Acceptable(records[i], tokenizer)
  }

  /** Every document cut on its own, in the order of the lines. */
  ghost function AllWindows(records: seq<Record>, tokenizer: bool, length: nat): seq<Window>
    requires length > 0 && AllAcceptable(records, tokenizer)
  {
    if records == [] then []
    else
      var n := |records| - 1;
      AllWindows(records[..n], tokenizer, length)
      + Cut(Source(n + 1, DocumentOf(records[n])), TokensOf(records[n]), length, 0)
  }

  ghost function Transitions(records: seq<Record>, tokenizer: bool): int
    requires AllAcceptable(records, tokenizer)
  {
    if records == [] then 0
    else Transitions(records[..|records| - 1], tokenizer) + |TokensOf(records[|records| - 1])| - 1
  }

  lemma CutOne(ws: seq<Window>, source: Source, ids: seq<nat>, length: nat, start: nat)
    requires length > 0 && start + 1 < |ids|
    ensures ws + Cut(source, ids, length, start) ==
      (ws + [Window(source, start, Slice(ids, start, length))]) + Cut(source, ids, length, start + length)
  {}

  /** The inner loop of `prepare_corpus`. */
  method WriteWindows(source: Source, ids: seq<nat>, length: nat) returns (ws: seq<Window>, count: nat, tokens: int)
    requires length > 0 && |ids| >= 2
    ensures ws == Cut(source, ids, length, 0) && count == |ws| > 0 && tokens == |ids| - 1
  {
    ws, count, tokens := [], 0, 0;
    var start := 0;
    while start < |ids| - 1
      invariant ws + Cut(source, ids, length, start) == Cut(source, ids, length, 0)
      invariant count == |ws| && tokens == Targets(ws) && (start > 0 ==> count > 0)
      decreases |ids| - start
    {
      var window := Window(source, start, Slice(ids, start, length));
      TargetsJoin(ws, [window]);
      CutOne(ws, source, ids, length, start);
      ws := ws + [window];
      count := count + 1;
      tokens := tokens + |window.ids| - 1;
      start := start + length;
    }
    TargetsAreTransitions(source, ids, length, 0);
  }

  // ---- the corpus, in terms of the records --------------------------------------------------

  /** The tokens and the digest that a record gives, if it can be used: an object with at least
      two tokens, none negative, that are its own or made from text by a tokenizer, and with no
      digest or a proper one. */
  ghost predicate Gives(r: Record, tokenizer: bool, ids: seq<int>, digest: Document) {
    && match r
       case NotAnObject => false
       case Tokens(own, name) => ids == own && Stamps(name, ids, digest)
       case Text(blank, encoded, name) => tokenizer && !blank && ids == encoded && Stamps(name, ids, digest)
  }

  ghost predicate Stamps(name: Name, ids: seq<int>, digest: Document) {
    && |ids| >= 2 && (forall i :: 0 <= i < |ids| ==> ids[i] >= 0)
    && match name
       case Absent => digest.Digested? && digest.ids == ids
       case Digest(d) => digest == Named(d)
       case Malformed => false
  }

  ghost predicate IsWindow(w: Window, source: Source, start: nat, ids: seq<int>) {
    w.source == source && w.start == start && start + |w.ids| <= |ids| && w.ids == ids[start..start + |w.ids|]
  }

  /** The windows of one document from a start on: each is stamped with its source, each but the
      last trains on `length` steps and the next one starts where it ends, the last one ends with
      the document. */
  ghost predicate Block(ws: seq<Window>, source: Source, start: nat, ids: seq<int>, length: nat)
    decreases |ws|
  {
    && ws != [] && IsWindow(ws[0], source, start, ids)
    && if |ws| == 1 then start + |ws[0].ids| == |ids| && 2 <= |ws[0].ids| <= length + 1
       else |ws[0].ids| == length + 1 && Block(ws[1..], source, start + length, ids, length)
  }

  /** The windows are the blocks of the records, in order, numbered from one. */
  ghost predicate Blocks(ws: seq<Window>, records: seq<Record>, tokenizer: bool, length: nat)
    decreases |records|
  {
    if records == [] then ws == []
    else
      var n := |records| - 1;
      exists k, ids, digest ::
        && 0 <= k <= |ws| && Gives(records[n], tokenizer, ids, digest)
        && Block(ws[k..], Source(n + 1, digest), 0, ids, length) && Blocks(ws[..k], records[..n], tokenizer, length)
  }

  ghost predicate GivesSome(r: Record, tokenizer: bool) {
    exists ids, digest :: Gives(r, tokenizer, ids, digest)
  }

  /** Every record can be used. */
  ghost predicate AllGive(records: seq<Record>, tokenizer: bool) {
    forall i :: 0 <= i < |records| ==> GivesSome(records[i], tokenizer)
  }

  lemma GivesExactly(r: Record, tokenizer: bool)
    ensures Acceptable(r, tokenizer) <==> GivesSome(r, tokenizer)
    ensures Acceptable(r, tokenizer) ==> Gives(r, tokenizer, TokensOf(r), DocumentOf(r))
  {
    if Acceptable(r, tokenizer) { assert Gives(r, tokenizer, TokensOf(r), DocumentOf(r)); }
    if GivesSome(r, tokenizer) {
      var ids, digest :| Gives(r, tokenizer, ids, digest);
      assert ids == Encoded(r);
    }
  }

  lemma AllGiveExactly(records: seq<Record>, tokenizer: bool)
    ensures AllAcceptable(records, tokenizer) <==> AllGive(records, tokenizer)
  {
    forall i | 0 <= i < |records|
      ensures Acceptable(records[i], tokenizer) <==> GivesSome(records[i], tokenizer) == true
    {
      GivesExactly(records[i], tokenizer);
    }
  }

  lemma {:induction false} CutIsBlock(source: Source, ids: seq<nat>, length: nat, start: nat)
    requires length > 0 && start + 1 < |ids|
    ensures Block(Cut(source, ids, length, start), source, start, ids, length)
    decreases |ids| - start
  {
    var first, rest := Window(source, start, Slice(ids, start, length)), Cut(source, ids, length, start + length);
    assert IsWindow(first, source, start, ids);
    if start + length + 1 < |ids| {
      CutIsBlock(source, ids, length, start + length);
      assert ([first] + rest)[1..] == rest;
    } else {
      assert rest == [];
    }
  }

  lemma BlocksGrow(before: seq<Window>, own: seq<Window>, records: seq<Record>, tokenizer: bool, length: nat,
                   ids: seq<nat>, digest: Document)
    requires records != [] && Blocks(before, records[..|records| - 1], tokenizer, length) == true
    requires Gives(records[|records| - 1], tokenizer, ids, digest)
    requires Block(own, Source(|records|, digest), 0, ids, length) == true
    ensures Blocks(before + own, records, tokenizer, length) == true
  {
    var ws, k := before + own, |before|;
    assert ws[k..] == own && ws[..k] == before;
  }

  /** The corpus of acceptable records. */
  lemma {:induction false} WindowsAreBlocks(records: seq<Record>, tokenizer: bool, length: nat)
    requires length > 0 && AllAcceptable(records, tokenizer)
    ensures Blocks(AllWindows(records, tokenizer, length), records, tokenizer, length)
  {
    if records != [] {
      var n := |records| - 1;
      var before := AllWindows(records[..n], tokenizer, length);
      var ids, digest := TokensOf(records[n]), DocumentOf(records[n]);
      var own := Cut(Source(n + 1, digest), ids, length, 0);
      WindowsAreBlocks(records[..n], tokenizer, length);
      GivesExactly(records[n], tokenizer);
      CutIsBlock(Source(n + 1, digest), ids, length, 0);
      BlocksGrow(before, own, records, tokenizer, length, ids, digest);
    }
  }

  /** The counts of the manifest, beside the lines written. */
  datatype Corpus = Corpus(windows: seq<Window>, documents: nat, sequences: nat, tokens: int)

  lemma OneMore(records: seq<Record>, i: nat, length: nat, tokenizer: bool)
    requires i < |records| && length > 0 && AllAcceptable(records[..i], tokenizer) && Acceptable(records[i], tokenizer)
    ensures AllAcceptable(records[..i + 1], tokenizer)
    ensures AllWindows(records[..i + 1], tokenizer, length) == AllWindows(records[..i], tokenizer, length)
              + Cut(Source(i + 1, DocumentOf(records[i])), TokensOf(records[i]), length, 0)
    ensures Transitions(records[..i + 1], tokenizer)
            == Transitions(records[..i], tokenizer) + |TokensOf(records[i])| - 1
  {
    assert records[..i + 1][..i] == records[..i] && records[..i + 1][i] == records[i];
  }

  /** The loop over the lines of the source. */
  method CutRecords(records: seq<Record>, length: nat, tokenizer: bool)
    returns (ok: bool, lines: seq<Window>, count: nat, tokens: int)
    requires length > 0
    ensures ok <==> AllAcceptable(records, tokenizer)
    ensures ok ==> lines == AllWindows(records, tokenizer, length) && tokens == Transitions(records, tokenizer)
    ensures ok ==> count == |lines| && (count == 0 <==> records == [])
  {
    ok, lines, count, tokens := true, [], 0, 0;
    for i := 0 to |records|
      invariant ok && AllAcceptable(records[..i], tokenizer) == true && count == |lines| && (count == 0 <==> i == 0)
      invariant lines == AllWindows(records[..i], tokenizer, length) && tokens == Transitions(records[..i], tokenizer)
    {
      var record := records[i];
      if record.NotAnObject? || (record.Text? && (!tokenizer || record.blank)) { return false, [], 0, 0; }
      if !Usable(Encoded(record)) || record.name.Malformed? { return false, [], 0, 0; }
      OneMore(records, i, length, tokenizer);
      var ws, n, t := WriteWindows(Source(i + 1, DocumentOf(record)), TokensOf(record), length);
      lines, count, tokens := lines + ws, count + n, tokens + t;
    }
    assert records[..|records|] == records;
  }

  /** `prepare_corpus`: the output must be new, every record usable, at least one there, and the
      source the same at the end as at the start. Then the windows are the blocks of the
      records and the counts are exact. */
  method PrepareCorpus(records: seq<Record>, length: int, tokenizer: bool, taken: bool, changed: bool)
    returns (r: Result<Corpus>)
    ensures r.Ok? <==> length >= 1 && !taken && records != [] && AllGive(records, tokenizer) == true && !changed
    ensures r.Err? ==> r.error == if length >= 1 && taken then Exists else Invalid
    ensures r.Ok? ==> length >= 0 && Blocks(r.value.windows, records, tokenizer, length) == true
    ensures r.Ok? ==> r.value.documents == |records| && r.value.sequences == |r.value.windows|
    ensures r.Ok? ==> AllAcceptable(records, tokenizer)
                      && r.value.windows == AllWindows(records, tokenizer, length)
                      && r.value.tokens == Transitions(records, tokenizer)
  {
    AllGiveExactly(records, tokenizer);
    if length < 1 { return Err(Invalid); }
    if taken { return Err(Exists); }
    var ok, lines, count, tokens := CutRecords(records, length, tokenizer);
    if !ok || count == 0 || changed { return Err(Invalid); }
    WindowsAreBlocks(records, tokenizer, length);
    r := Ok(Corpus(lines, |records|, count, tokens));
  }
}
