/** Parent lookup and the commit walk over a block store (consensus/synchronizer.go,
    consensus/core.go commit). */
module Chains {
  import opened Messages

  type BlockStore = map<Digest, Block>

  /** getParentBlock: genesis, a stored block, or not found. */
  function Parent(store: BlockStore, b: Block): Option<Block> {
    if IsGenesisQC(b.qc) then Some(GENESIS)
    else if b.qc.hash in store then Some(store[b.qc.hash])
    else None
  }

  // ----- the three ways a commit loop can go -----

  /** A stretch of the commit loop: every block but the last lies above the committed round plus
      one and is followed by its parent. */
  ghost predicate IsTrail(store: BlockStore, last: nat, w: seq<Block>) {
    w != [] && forall i :: 0 <= i < |w| - 1 ==> w[i].round > last + 1 && Parent(store, w[i]) == Some(w[i + 1])
  }

  /** The loop goes no further from this block: it is done, or it panics on a missing parent. */
  predicate Stops(store: BlockStore, last: nat, b: Block) {
    b.round <= last + 1 || Parent(store, b).None?
  }

  ghost predicate IsStopped(store: BlockStore, last: nat, w: seq<Block>) {
    IsTrail(store, last, w) && Stops(store, last, w[|w| - 1])
  }

  /** All the blocks a loop that ends properly looks at. */
  ghost predicate IsWalk(store: BlockStore, last: nat, walk: seq<Block>) {
    IsTrail(store, last, walk) && walk[|walk| - 1].round <= last + 1
  }

  /** The walk from a block, if the loop ends properly. */
  ghost function CommitWalk(store: BlockStore, last: nat, b: Block): (r: Option<seq<Block>>)
    ensures r.Some? ==> IsWalk(store, last, r.value) && r.value[0] == b
    ensures r.None? ==> forall walk :: IsWalk(store, last, walk) ==> walk[0] != b
  {
    if exists walk :: IsWalk(store, last, walk) && walk[0] == b then
      var walk :| IsWalk(store, last, walk) && walk[0] == b;
      Some(walk)
    else None
  }

  /** The loop runs into a block whose parent is missing. */
  ghost predicate Panics(store: BlockStore, last: nat, b: Block) {
    exists w: seq<Block> :: IsStopped(store, last, w) && w[0] == b && w[|w| - 1].round > last + 1
  }

  /** A trail that comes back to a block it has been at. */
  ghost predicate IsLasso(store: BlockStore, last: nat, w: seq<Block>) {
    IsTrail(store, last, w) && exists i :: 0 <= i < |w| - 1 && w[i] == w[|w| - 1]
  }

  /** Following parents from the block leads into a cycle above the committed round plus one. */
  ghost predicate LeadsIntoCycle(store: BlockStore, last: nat, b: Block) {
    exists w :: IsLasso(store, last, w) && w[0] == b
  }

  /** Sent on the commit channel: nearest ancestor first, then older ones, then the block itself. */
  function Emission(walk: seq<Block>): seq<Block>
    requires walk != []
  {
    walk[1..] + [walk[0]]
  }

  /** The loop is deterministic: a stopped trail contains every other trail from the same block. */
  lemma {:induction false} TrailsAgree(store: BlockStore, last: nat, w: seq<Block>, full: seq<Block>, i: nat)
    requires IsTrail(store, last, w) && IsStopped(store, last, full) && w[0] == full[0] && i < |w|
    ensures i < |full| && w[i] == full[i]
  {
    if i > 0 {
      TrailsAgree(store, last, w, full, i - 1);
      assert w[i - 1 + 1] == w[i];
      assert i - 1 < |full| - 1;
      assert full[i - 1 + 1] == full[i];
    }
  }

  lemma StoppedUnique(store: BlockStore, last: nat, w: seq<Block>, w': seq<Block>)
    requires IsStopped(store, last, w) && IsStopped(store, last, w') && w[0] == w'[0]
    ensures w == w'
  {
    TrailsAgree(store, last, w, w', |w| - 1);
    TrailsAgree(store, last, w', w, |w'| - 1);
    forall i | 0 <= i < |w| ensures w[i] == w'[i] {
      TrailsAgree(store, last, w, w', i);
    }
  }

  lemma WalkUnique(store: BlockStore, last: nat, w: seq<Block>, w': seq<Block>)
    requires IsWalk(store, last, w) && IsWalk(store, last, w') && w[0] == w'[0]
    ensures w == w'
  {
    StoppedUnique(store, last, w, w');
  }

  /** A loop that stops never sees a block twice. */
  lemma NoRepeat(store: BlockStore, last: nat, w: seq<Block>, i: nat, j: nat)
    requires IsStopped(store, last, w) && i < j < |w|
    ensures w[i] != w[j]
  {
    if w[i] == w[j] {
      StoppedSuffix(store, last, w, i);
      StoppedSuffix(store, last, w, j);
      StoppedUnique(store, last, w[i..], w[j..]);
    }
  }

  lemma StoppedSuffix(store: BlockStore, last: nat, w: seq<Block>, i: nat)
    requires IsStopped(store, last, w) && i < |w|
    ensures IsStopped(store, last, w[i..])
  {
    var v := w[i..];
    forall j | 0 <= j < |v| - 1 ensures v[j].round > last + 1 && Parent(store, v[j]) == Some(v[j + 1]) {
      assert v[j] == w[i + j] && v[j + 1] == w[i + j + 1];
    }
  }

  lemma LassoNeverStops(store: BlockStore, last: nat, lasso: seq<Block>, w: seq<Block>)
    requires IsLasso(store, last, lasso) && IsTrail(store, last, w) && w[0] == lasso[0]
    ensures !Stops(store, last, w[|w| - 1])
  {
    if IsStopped(store, last, w) {
      var j := |lasso| - 1;
      var i :| 0 <= i < j && lasso[i] == lasso[j];
      TrailsAgree(store, last, lasso, w, i);
      TrailsAgree(store, last, lasso, w, j);
      NoRepeat(store, last, w, i, j);
    }
  }

  /** More distinct keys than the store has cannot be looked up. */
  lemma {:induction false} Pigeonhole(keys: seq<Digest>, all: set<Digest>) returns (i: nat, j: nat)
    requires (forall k :: 0 <= k < |keys| ==> keys[k] in all) && |keys| > |all|
    ensures i < j < |keys| && keys[i] == keys[j]
    decreases |keys|
  {
    var n := |keys| - 1;
    if k :| 0 <= k < n && keys[k] == keys[n] {
      i, j := k, n;
    } else {
      i, j := Pigeonhole(keys[..n], all - {keys[n]});
    }
  }

  /** A loop that has taken more steps than the store has blocks has been somewhere twice. */
  lemma LongTrailRepeats(store: BlockStore, last: nat, w: seq<Block>)
    requires IsTrail(store, last, w) && w[|w| - 1].round > last + 1 && |w| > |store| + 1
    ensures LeadsIntoCycle(store, last, w[0])
  {
    var keys := seq(|w| - 1, i requires 0 <= i < |w| - 1 => w[i].qc.hash);
    forall i | 0 <= i < |keys| ensures keys[i] in store && w[i + 1] == store[keys[i]] {
      assert Parent(store, w[i]) == Some(w[i + 1]);
      assert w[i + 1].round > last + 1;
    }
    var i, j := Pigeonhole(keys, store.Keys);
    var lasso := w[..j + 2];
    assert w[i + 1] == w[j + 1];
    assert lasso[i + 1] == lasso[|lasso| - 1];
    assert IsLasso(store, last, lasso) && lasso[0] == w[0];
  }

  /** The trail the loop makes in at most as many steps as the store has blocks, plus one. */
  lemma Trail(store: BlockStore, last: nat, b: Block) returns (w: seq<Block>)
    ensures IsTrail(store, last, w) && w[0] == b
    ensures Stops(store, last, w[|w| - 1]) || |w| > |store| + 1
  {
    w := [b];
    while !Stops(store, last, w[|w| - 1]) && |w| <= |store| + 1
      invariant IsTrail(store, last, w) && w[0] == b
      decreases |store| + 2 - |w|
    {
      w := w + [Parent(store, w[|w| - 1]).value];
    }
  }

  lemma CycleExcludes(store: BlockStore, last: nat, b: Block)
    requires LeadsIntoCycle(store, last, b)
    ensures CommitWalk(store, last, b).None? && !Panics(store, last, b)
  {
    var lasso :| IsLasso(store, last, lasso) && lasso[0] == b;
    forall w | IsTrail(store, last, w) && w[0] == b ensures !IsStopped(store, last, w) {
      LassoNeverStops(store, last, lasso, w);
    }
  }

  lemma PanicExcludes(store: BlockStore, last: nat, b: Block)
    requires Panics(store, last, b)
    ensures CommitWalk(store, last, b).None?
  {
    var w: seq<Block> :| IsStopped(store, last, w) && w[0] == b && w[|w| - 1].round > last + 1;
    if CommitWalk(store, last, b).Some? {
      StoppedUnique(store, last, w, CommitWalk(store, last, b).value);
    }
  }

  /** Exactly one of three things happens to a commit loop: it ends, it panics, or following
      parents leads into a cycle and it goes round forever. */
  lemma CommitFate(store: BlockStore, last: nat, b: Block)
    ensures CommitWalk(store, last, b).Some? <==> !Panics(store, last, b) && !LeadsIntoCycle(store, last, b)
    ensures !(Panics(store, last, b) && LeadsIntoCycle(store, last, b))
  {
    hide IsTrail, LeadsIntoCycle;
    if LeadsIntoCycle(store, last, b) {
      CycleExcludes(store, last, b);
    } else if Panics(store, last, b) {
      PanicExcludes(store, last, b);
    } else {
      var w := Trail(store, last, b);
      if !Stops(store, last, w[|w| - 1]) {
        LongTrailRepeats(store, last, w);
      }
      assert IsWalk(store, last, w);
    }
  }

  /** Where every block found has its parent, a loop can only fail by going round forever. */
  lemma {:induction false} ClosedTrail(store: BlockStore, last: nat, w: seq<Block>, i: nat)
    requires forall d :: d in store ==> Parent(store, store[d]).Some?
    requires IsTrail(store, last, w) && Parent(store, w[0]).Some? && i < |w|
    ensures Parent(store, w[i]).Some?
  {
    if i > 0 {
      ClosedTrail(store, last, w, i - 1);
      assert Parent(store, w[i - 1]) == Some(w[i - 1 + 1]);
    }
  }

  lemma ClosedNeverPanics(store: BlockStore, last: nat, b: Block)
    requires forall d :: d in store ==> Parent(store, store[d]).Some?
    requires Parent(store, b).Some?
    ensures !Panics(store, last, b)
    ensures CommitWalk(store, last, b).Some? <==> !LeadsIntoCycle(store, last, b)
  {
    hide LeadsIntoCycle;
    if Panics(store, last, b) {
      var w: seq<Block> :| IsStopped(store, last, w) && w[0] == b && w[|w| - 1].round > last + 1;
      ClosedTrail(store, last, w, |w| - 1);
    }
    CommitFate(store, last, b);
  }

  /** A block's whole ancestry in the store, itself first, genesis last, rounds falling. */
  ghost predicate IsLine(store: BlockStore, line: seq<Block>) {
    && line != []
    && (forall i :: 0 <= i < |line| - 1 ==>
          Parent(store, line[i]) == Some(line[i + 1]) && line[i + 1].round < line[i].round)
    && line[|line| - 1] == GENESIS
  }

  lemma {:induction false} LineFalls(store: BlockStore, line: seq<Block>, i: nat, j: nat)
    requires IsLine(store, line) && i < j < |line|
    ensures line[j].round < line[i].round
    decreases j
  {
    if i + 1 < j {
      LineFalls(store, line, i, j - 1);
    }
    assert line[j - 1 + 1] == line[j];
  }

  /** On a grounded block the loop ends, and it has seen exactly a prefix of the ancestry. */
  lemma WalkIsPrefix(store: BlockStore, last: nat, line: seq<Block>) returns (n: nat)
    requires IsLine(store, line)
    ensures 0 < n <= |line| && IsWalk(store, last, line[..n])
  {
    var i := 0;
    while line[i].round > last + 1
      invariant 0 <= i < |line|
      invariant forall j :: 0 <= j < i ==> line[j].round > last + 1
      decreases |line| - i
    {
      i := i + 1;
    }
    n := i + 1;
  }

  /** One commit call on a grounded block: it ends, sends every ancestor-or-self above the old
      committed round exactly once, nearest ancestor first and the block itself last, and at most
      one block at or below the old round, just before the block itself. */
  lemma CommitEmission(store: BlockStore, last: nat, line: seq<Block>)
    requires IsLine(store, line) && line[0].round > last
    ensures CommitWalk(store, last, line[0]).Some?
    ensures var sent := Emission(CommitWalk(store, last, line[0]).value);
            && (forall i :: 0 <= i < |line| && line[i].round > last ==> multiset(sent)[line[i]] == 1)
            && (forall j :: 0 <= j < |sent| - 2 ==> sent[j].round > last)
            && 0 < |sent| <= |line| && sent == line[1..|sent|] + [line[0]]
  {
    var n := WalkIsPrefix(store, last, line);
    var walk := line[..n];
    assert walk[0] == line[0];
    var w := CommitWalk(store, last, line[0]).value;
    WalkUnique(store, last, w, walk);
    var sent := Emission(walk);
    assert walk[1..] == line[1..n];
    forall j | 0 <= j < |sent| - 2 ensures sent[j].round > last {
      assert sent[j] == walk[j + 1];
    }
    SentOnce(store, last, line, n);
  }

  lemma SentOnce(store: BlockStore, last: nat, line: seq<Block>, n: nat)
    requires IsLine(store, line) && 0 < n <= |line| && IsWalk(store, last, line[..n])
    ensures forall i :: 0 <= i < |line| && line[i].round > last ==> multiset(Emission(line[..n]))[line[i]] == 1
  {
    var walk := line[..n];
    assert [walk[0]] + walk[1..] == walk;
    assert multiset(Emission(walk)) == multiset(walk[1..]) + multiset{walk[0]} == multiset(walk);
    forall i | 0 <= i < |line| && line[i].round > last ensures multiset(walk)[line[i]] == 1 {
      if i >= n {
        BelowWalk(store, last, line, n, i);
      }
      CountOnce(store, line, n, i);
    }
  }

  lemma BelowWalk(store: BlockStore, last: nat, line: seq<Block>, n: nat, i: nat)
    requires IsLine(store, line) && 0 < n <= i < |line| && IsWalk(store, last, line[..n])
    ensures line[i].round <= last
  {
    assert line[..n][n - 1].round <= last + 1;
    LineFalls(store, line, n - 1, i);
  }

  lemma {:induction false} CountOnce(store: BlockStore, line: seq<Block>, n: nat, i: nat)
    requires IsLine(store, line) && n <= |line| && i < |line|
    ensures multiset(line[..n])[line[i]] == if i < n then 1 else 0
    decreases n
  {
    if n > 0 {
      CountOnce(store, line, n - 1, i);
      assert line[..n] == line[..n - 1] + [line[n - 1]];
      if i < n - 1 {
        LineFalls(store, line, i, n - 1);
      } else if n - 1 < i {
        LineFalls(store, line, n - 1, i);
      }
    }
  }
}
