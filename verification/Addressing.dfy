/** Where in the native cache a token's record belongs: the block its table entry names,
    at the token's own offset inside the block. */
module Addressing {
  import opened Basics
  import opened Slide
  import opened Paged
  import opened PagedSafety
  import opened PagedTheorems

  /** The table names a block for the token. */
  ghost predicate InTable(table: seq<int>, blockSize: Size, token: nat) {
    token / blockSize < |table| && table[token / blockSize] >= 0
  }

  /** The engine looks for the token in this slot. */
  ghost predicate IsHome(table: seq<int>, blockSize: Size, token: nat, slot: nat) {
    && InTable(table, blockSize, token)
    && slot / blockSize == table[token / blockSize] && slot % blockSize == token % blockSize
  }

  lemma CanonicalIsHome(table: seq<int>, blockSize: Size, token: nat, slot: nat)
    requires CanonicalSlot(table, blockSize, token) == Some(slot)
    ensures IsHome(table, blockSize, token, slot)
  {
    QuotientOf(table[token / blockSize], blockSize, token % blockSize);
  }

  /** One slot at most is a token's home. */
  lemma HomeIsOne(table: seq<int>, blockSize: Size, token: nat, a: nat, b: nat)
    requires IsHome(table, blockSize, token, a) && IsHome(table, blockSize, token, b)
    ensures a == b
  {
    assert a == (a / blockSize) * blockSize + a % blockSize;
    assert b == (b / blockSize) * blockSize + b % blockSize;
  }

  /** A token has a home exactly if its block is there, and then it is the canonical slot. */
  lemma CanonicalExactly(table: seq<int>, blockSize: Size, token: nat, slot: nat)
    ensures CanonicalSlot(table, blockSize, token) == Some(slot) <==> IsHome(table, blockSize, token, slot)
    ensures CanonicalSlot(table, blockSize, token).Some? <==> InTable(table, blockSize, token)
  {
    if InTable(table, blockSize, token) {
      var home := CanonicalSlot(table, blockSize, token).value;
      CanonicalIsHome(table, blockSize, token, home);
      if IsHome(table, blockSize, token, slot) { HomeIsOne(table, blockSize, token, slot, home); }
    }
  }

  /** In every reachable arena each token's canonical slot is its home: the block the
      caller's table names for it, at the token's offset. */
  lemma TokensKeepTheirOffsets(p: Arena, t: nat)
    requires Reached(p) && t in p.canonical
    ensures IsHome(p.table, p.geo.blockSize, t, p.canonical[t])
  {
    assert CanonicalSlot(p.table, p.geo.blockSize, t) == Some(p.canonical[t]) by {
      ReachedGood(p);
      Part(p, Names);
    }
    CanonicalIsHome(p.table, p.geo.blockSize, t, p.canonical[t]);
  }

  /** Two tokens of different parts of the prompt have different blocks. */
  ghost predicate Apart(table: seq<int>, blockSize: Size, t: nat, u: nat)
    requires InTable(table, blockSize, t) && InTable(table, blockSize, u)
  {
    t / blockSize != u / blockSize ==> table[t / blockSize] != table[u / blockSize]
  }

  /** The blocks of the first `n` tokens are there and no two are alike. */
  ghost predicate DistinctBlocks(table: seq<int>, blockSize: Size, n: nat) {
    && (forall t: nat :: t < n ==> InTable(table, blockSize, t))
    && (forall t: nat, u: nat :: t < n && u < n ==> Apart(table, blockSize, t, u))
  }

  lemma BlocksAddress(table: seq<int>, blockSize: Size, n: nat)
    ensures (forall t: nat :: t < n ==> InTable(table, blockSize, t))
            <==> forall t :: 0 <= t < n ==> CanonicalSlot(table, blockSize, t).Some?
  {
    if forall t :: 0 <= t < n ==> CanonicalSlot(table, blockSize, t).Some? {
      forall t: nat | t < n ensures InTable(table, blockSize, t) { assert CanonicalSlot(table, blockSize, t).Some?; }
    }
    if forall t: nat :: t < n ==> InTable(table, blockSize, t) {
      forall t | 0 <= t < n ensures CanonicalSlot(table, blockSize, t).Some? { assert InTable(table, blockSize, t); }
    }
  }

  /** The first token of a block is in it. */
  lemma FirstOfBlock(blockSize: Size, t: nat)
    ensures (t / blockSize) * blockSize <= t
    ensures ((t / blockSize) * blockSize) / blockSize == t / blockSize
    ensures ((t / blockSize) * blockSize) % blockSize == 0
  {
    assert t == (t / blockSize) * blockSize + t % blockSize;
    QuotientOf(t / blockSize, blockSize, 0);
  }

  lemma SameSlotSameBlock(table: seq<int>, blockSize: Size, t: nat, u: nat)
    requires InTable(table, blockSize, t) && InTable(table, blockSize, u) && t != u && Apart(table, blockSize, t, u)
    ensures CanonicalSlot(table, blockSize, t) != CanonicalSlot(table, blockSize, u)
  {
    CanonicalIsHome(table, blockSize, t, CanonicalSlot(table, blockSize, t).value);
    CanonicalIsHome(table, blockSize, u, CanonicalSlot(table, blockSize, u).value);
    assert t == (t / blockSize) * blockSize + t % blockSize && u == (u / blockSize) * blockSize + u % blockSize;
  }

  lemma SameBlockSameSlot(table: seq<int>, blockSize: Size, t: nat, u: nat) returns (a: nat, b: nat)
    requires InTable(table, blockSize, t) && InTable(table, blockSize, u) && !Apart(table, blockSize, t, u)
    ensures a <= t && b <= u && a != b && CanonicalSlot(table, blockSize, a) == CanonicalSlot(table, blockSize, b)
  {
    FirstOfBlock(blockSize, t);
    FirstOfBlock(blockSize, u);
    a, b := (t / blockSize) * blockSize, (u / blockSize) * blockSize;
  }

  lemma SlotsDiffer(table: seq<int>, blockSize: Size, n: nat, a: nat, b: nat)
    requires forall t :: 0 <= t < n ==> CanonicalSlot(table, blockSize, t).Some?
    requires Injective(Prompt(table, blockSize, n)) && a < n && b < n && a != b
    ensures CanonicalSlot(table, blockSize, a) != CanonicalSlot(table, blockSize, b)
  {
    assert a in Prompt(table, blockSize, n) && b in Prompt(table, blockSize, n);
  }

  lemma DistinctSlotsBlocks(table: seq<int>, blockSize: Size, n: nat, t: nat, u: nat)
    requires forall t :: 0 <= t < n ==> CanonicalSlot(table, blockSize, t).Some?
    requires Injective(Prompt(table, blockSize, n)) && t < n && u < n
    requires InTable(table, blockSize, t) && InTable(table, blockSize, u)
    ensures Apart(table, blockSize, t, u) == true
  {
    if !Apart(table, blockSize, t, u) {
      var a, b := SameBlockSameSlot(table, blockSize, t, u);
      SlotsDiffer(table, blockSize, n, a, b);
      assert false;
    }
  }

  lemma DistinctBlocksSlots(table: seq<int>, blockSize: Size, n: nat)
    requires (forall t :: 0 <= t < n ==> CanonicalSlot(table, blockSize, t).Some?)
    requires DistinctBlocks(table, blockSize, n)
    ensures Injective(Prompt(table, blockSize, n))
  {
    var m := Prompt(table, blockSize, n);
    forall t, u | t in m && u in m && t != u ensures m[t] != m[u] { SameSlotSameBlock(table, blockSize, t, u); }
  }

  lemma DistinctSlotsAll(table: seq<int>, blockSize: Size, n: nat)
    requires (forall t :: 0 <= t < n ==> CanonicalSlot(table, blockSize, t).Some?)
    requires Injective(Prompt(table, blockSize, n))
    ensures DistinctBlocks(table, blockSize, n)
  {
    BlocksAddress(table, blockSize, n);
    forall t: nat, u: nat | t < n && u < n ensures Apart(table, blockSize, t, u) == true {
      DistinctSlotsBlocks(table, blockSize, n, t, u);
    }
  }

  /** As many slots as tokens means that no block is named twice. */
  lemma SlotsDistinctExactly(table: seq<int>, blockSize: Size, n: nat)
    requires forall t :: 0 <= t < n ==> CanonicalSlot(table, blockSize, t).Some?
    ensures |Prompt(table, blockSize, n).Values| == n <==> DistinctBlocks(table, blockSize, n)
  {
    var m := Prompt(table, blockSize, n);
    assert m.Keys == Below(n);
    if |m.Values| == n {
      ManyValues(m);
      DistinctSlotsAll(table, blockSize, n);
    }
    if DistinctBlocks(table, blockSize, n) == true {
      DistinctBlocksSlots(table, blockSize, n);
      InjectiveCount(m);
    }
  }

  lemma {:induction false} InjectiveCount(m: map<nat, nat>)
    requires Injective(m)
    ensures |m.Values| == |m|
    decreases |m|
  {
    if m == map[] {
      assert m.Values == {};
    } else {
      var t :| t in m;
      var rest := m - {t};
      assert rest.Keys == m.Keys - {t};
      InjectiveCount(rest);
      assert m.Values == rest.Values + {m[t]} && m[t] !in rest.Values by {
        forall x | x in m.Values ensures x in rest.Values + {m[t]} {
          var v :| v in m && m[v] == x;
          if v != t { assert rest[v] == x; }
        }
      }
    }
  }

  /** The slots another request may share with this prompt. */
  ghost predicate PromptSlots(table: seq<int>, blockSize: Size, n: nat, shared: set<nat>) {
    forall s :: s in shared ==> exists t: nat :: t < n && IsHome(table, blockSize, t, s)
  }

  lemma SharedExactly(table: seq<int>, blockSize: Size, n: nat, shared: set<nat>)
    requires forall t :: 0 <= t < n ==> CanonicalSlot(table, blockSize, t).Some?
    ensures shared <= Prompt(table, blockSize, n).Values <==> PromptSlots(table, blockSize, n, shared)
  {
    var m := Prompt(table, blockSize, n);
    if shared <= m.Values {
      forall s | s in shared ensures exists t: nat :: t < n && IsHome(table, blockSize, t, s) {
        var t :| t in m && m[t] == s;
        CanonicalExactly(table, blockSize, t, s);
      }
    }
    if PromptSlots(table, blockSize, n, shared) {
      forall s | s in shared ensures s in m.Values {
        var t: nat :| t < n && IsHome(table, blockSize, t, s);
        CanonicalExactly(table, blockSize, t, s);
        assert m[t] == s;
      }
    }
  }

  /** The map of a valid prompt always fits its arena. */
  lemma CreateFits(blocks: nat, blockSize: Size, table: seq<int>, n: nat, maxSelected: nat, shared: set<nat>)
    requires CanCreate(blocks, blockSize, table, n, shared)
    ensures Create(Prompt(table, blockSize, n), shared, NativeSlots(blocks, blockSize),
                Some(NativeSlots(blocks, blockSize) + maxSelected)).Some?
  {
    PromptBelow(blocks, blockSize, table, n);
  }

  /** The table is one of the cache's and names a block of its own for every part of the
      prompt; what is shared belongs to the prompt. */
  ghost predicate Describes(blocks: nat, blockSize: Size, table: seq<int>, n: nat, shared: set<nat>) {
    && blocks > 0 && n > 0 && table != [] && (forall i :: 0 <= i < |table| ==> -1 <= table[i] < blocks)
    && DistinctBlocks(table, blockSize, n) && PromptSlots(table, blockSize, n, shared)
  }

  lemma CreatableExactly(blocks: nat, blockSize: Size, table: seq<int>, n: nat, shared: set<nat>)
    ensures CanCreate(blocks, blockSize, table, n, shared)
            <==> Describes(blocks, blockSize, table, n, shared)
  {
    BlocksAddress(table, blockSize, n);
    if forall t :: 0 <= t < n ==> CanonicalSlot(table, blockSize, t).Some? {
      SlotsDistinctExactly(table, blockSize, n);
      SharedExactly(table, blockSize, n, shared);
    }
  }

  lemma CreatedFields(canonical: map<nat, nat>, shared: set<nat>, floor: nat, limit: nat)
    requires Create(canonical, shared, floor, Some(limit)).Some?
    ensures var s := Create(canonical, shared, floor, Some(limit)).value;
            s.core.slots == canonical && s.core.shared == shared
  {}

  lemma MadeExactly(blocks: nat, blockSize: Size, table: seq<int>, n: nat, maxSelected: nat, shared: set<nat>,
                    mem: map<nat, Row>)
    requires Addressed(mem, blocks, blockSize, maxSelected)
    ensures NewArena(blocks, blockSize, table, n, maxSelected, shared, mem).Some?
            <==> CanCreate(blocks, blockSize, table, n, shared)
  {
    if CanCreate(blocks, blockSize, table, n, shared) == true {
      CreateFits(blocks, blockSize, table, n, maxSelected, shared);
    }
  }

  /** An arena exists exactly for a table of the cache's blocks that names a block of its
      own for every part of the prompt. */
  lemma CreatedExactly(blocks: nat, blockSize: Size, table: seq<int>, n: nat, maxSelected: nat, shared: set<nat>,
                       mem: map<nat, Row>)
    requires Addressed(mem, blocks, blockSize, maxSelected)
    ensures NewArena(blocks, blockSize, table, n, maxSelected, shared, mem).Some?
            <==> Describes(blocks, blockSize, table, n, shared)
  {
    CreatableExactly(blocks, blockSize, table, n, shared);
    MadeExactly(blocks, blockSize, table, n, maxSelected, shared, mem);
  }

  /** In a new arena every token of the prompt lives at its home. */
  lemma CreatedAtHome(blocks: nat, blockSize: Size, table: seq<int>, n: nat, maxSelected: nat, shared: set<nat>,
                      mem: map<nat, Row>, p: Arena)
    requires Addressed(mem, blocks, blockSize, maxSelected)
    requires NewArena(blocks, blockSize, table, n, maxSelected, shared, mem) == Some(p)
    ensures p.slide.core.slots == p.canonical && p.canonical.Keys == Below(n) && p.slide.core.shared == shared
    ensures forall t :: t in p.canonical ==> IsHome(table, blockSize, t, p.canonical[t])
  {
    var canonical, floor := Prompt(table, blockSize, n), NativeSlots(blocks, blockSize);
    NewIsCreated(blocks, blockSize, table, n, maxSelected, shared, mem);
    CreatedFields(canonical, shared, floor, floor + maxSelected);
    assert canonical.Keys == Below(n);
    forall t | t in canonical ensures IsHome(table, blockSize, t, canonical[t]) {
      CanonicalIsHome(table, blockSize, t, canonical[t]);
    }
  }
}
