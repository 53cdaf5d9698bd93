/** What becomes of each file's entry in the metadata map, over one operation and over whole runs.
 */
module CacheEntries {
  import opened CachePolicy

  // ---- one operation ----

  /** A new file is taken into PM if it fits there, otherwise into SSD if it fits there, otherwise not
      at all; sums are compared in 64 bits. It is entered open, with no accesses, so it cannot be a
      victim; every other entry stays, and a known file is not entered again. */
  lemma AddedFile(p: Policy, path: string, size: U64)
    ensures Step(p, AddFile(path, size)).Running?
    ensures var p' := Step(p, AddFile(path, size)).policy;
            var pm, ssd := (p.pmUsed + size) % TWO_TO_64 <= p.pmCap, (p.ssdUsed + size) % TWO_TO_64 <= p.ssdCap;
            && (path in p.meta ==> p' == p)
            && (path !in p.meta ==> (path in p'.meta <==> pm || ssd))
            && (path !in p.meta && path in p'.meta ==>
                  && p'.meta[path].size == size && p'.meta[path].accesses == 0 && p'.meta[path].isOpen
                  && p'.meta[path].tier == if pm then Fsdax else Ssd)
            && (forall f :: f != path ==> (f in p'.meta <==> f in p.meta) && (f in p.meta ==> p'.meta[f] == p.meta[f]))
            && (path !in p.meta && p'.meta == p.meta ==> p' == p)
  {
  }

  /** A move changes only the tier of its file: PM to SSD if it fits, SSD to PM if it fits. */
  lemma MovedFile(p: Policy, path: string, tier: Tier)
    requires Step(p, UpdateTier(path, tier)).Running?
    ensures var p' := Step(p, UpdateTier(path, tier)).policy;
            && p'.meta.Keys == p.meta.Keys
            && (forall f <- p.meta :: f != path ==> p'.meta[f] == p.meta[f])
            && (path in p.meta ==>
                  var file, file' := p.meta[path], p'.meta[path];
                  && file'.size == file.size && file'.accesses == file.accesses && file'.isOpen == file.isOpen
                  && (tier == Ssd && file.tier == Fsdax ==> file'.tier == Ssd)
                  && (tier == Fsdax && file.tier == Ssd ==>
                        file'.tier == if (p.pmUsed + file.size) % TWO_TO_64 <= p.pmCap then Fsdax else Ssd)
                  && (!(tier == Ssd && file.tier == Fsdax) && !(tier == Fsdax && file.tier == Ssd) ==> p' == p))
  {
  }

  /** The process exits exactly when an unknown file is removed, opened or closed, or a PM file is
      moved to an SSD without room; and hangs exactly when eviction finds PM over its capacity. */
  lemma ExitsExactly(p: Policy, op: Op)
    ensures Step(p, op).Exited? <==>
      || ((op.RemoveFile? || op.SetOpenState?) && op.path !in p.meta)
      || (op.UpdateTier? && op.path in p.meta && op.tier == Ssd && p.meta[op.path].tier == Fsdax
          && (p.ssdUsed + p.meta[op.path].size) % TWO_TO_64 > p.ssdCap)
    ensures Step(p, op).Stuck? <==> op.EvictIfNeeded? && p.pmUsed > p.pmCap
  {
  }

  predicate About(op: Op, path: string) {
    !op.EvictIfNeeded? && op.path == path
  }

  /** No operation touches the entry of a file it does not name. */
  lemma OthersStay(p: Policy, op: Op, path: string)
    requires Step(p, op).Running? && !About(op, path)
    ensures var p' := Step(p, op).policy;
            (path in p'.meta <==> path in p.meta) && (path in p.meta ==> p'.meta[path] == p.meta[path])
  {
  }

  // ---- whole runs ----

  function Accesses(path: string, ops: seq<Op>): nat
    decreases |ops|
  {
    if ops == [] then 0 else (if ops[0] == UpdateAccess(path) then 1 else 0) + Accesses(path, ops[1..])
  }

  /** The flag the last SetOpenState of path set, or flag if there was none. */
  function LastFlag(path: string, ops: seq<Op>, flag: bool): bool
    decreases |ops|
  {
    if ops == [] then flag
    else LastFlag(path, ops[1..], if ops[0].SetOpenState? && ops[0].path == path then ops[0].isOpen else flag)
  }

  lemma StepEntry(p: Policy, op: Op, path: string)
    requires path in p.meta && Step(p, op).Running? && op != RemoveFile(path)
    ensures var p' := Step(p, op).policy;
            && path in p'.meta && p'.meta[path].size == p.meta[path].size
            && p'.meta[path].accesses == (p.meta[path].accesses + if op == UpdateAccess(path) then 1 else 0) % TWO_TO_64
            && p'.meta[path].isOpen == (if op.SetOpenState? && op.path == path then op.isOpen else p.meta[path].isOpen)
            && (p'.meta[path].tier == p.meta[path].tier || (op.UpdateTier? && op.path == path))
  {
    if !About(op, path) { OthersStay(p, op, path); }
  }

  /** As long as a file is not removed its entry keeps its size, counts its accesses in 64 bits, and is
      open exactly if the last change of its flag says so; only a move of its own changes its tier. */
  lemma {:induction false} EntryHistory(p: Policy, ops: seq<Op>, path: string)
    requires path in p.meta && Run(p, ops).Running? && RemoveFile(path) !in ops
    ensures var p' := Run(p, ops).policy;
            && path in p'.meta && p'.meta[path].size == p.meta[path].size
            && p'.meta[path].accesses == (p.meta[path].accesses + Accesses(path, ops)) % TWO_TO_64
            && p'.meta[path].isOpen == LastFlag(path, ops, p.meta[path].isOpen)
            && ((forall op <- ops :: op.UpdateTier? ==> op.path != path) ==> p'.meta[path].tier == p.meta[path].tier)
    decreases |ops|
  {
    hide Step;
    if ops != [] {
      assert ops[0] in ops;
      var p1 := Step(p, ops[0]).policy;
      StepEntry(p, ops[0], path);
      EntryHistory(p1, ops[1..], path);
      AddMod(p.meta[path].accesses, if ops[0] == UpdateAccess(path) then 1 else 0, Accesses(path, ops[1..]));
    }
  }

  lemma AddMod(a: int, b: int, c: int)
    ensures ((a + b) % TWO_TO_64 + c) % TWO_TO_64 == (a + (b + c)) % TWO_TO_64
  {
  }

  /** A file nobody has closed is never a victim: from its admission on, in every run, removed and
      added again or not, until it is closed. */
  lemma {:induction false} OpenIsSafe(p: Policy, ops: seq<Op>, path: string)
    requires path in p.meta ==> p.meta[path].isOpen
    requires Run(p, ops).Running? && SetOpenState(path, false) !in ops && path != ""
    ensures var p' := Run(p, ops).policy;
            && (path in p'.meta ==> p'.meta[path].isOpen)
            && forall v :: IsVictim(p', v) ==> v != path
    decreases |ops|
  {
    hide Step;
    if ops != [] {
      assert ops[0] in ops;
      StepKeepsOpen(p, ops[0], path);
      OpenIsSafe(Step(p, ops[0]).policy, ops[1..], path);
    }
  }

  lemma StepKeepsOpen(p: Policy, op: Op, path: string)
    requires path in p.meta ==> p.meta[path].isOpen
    requires Step(p, op).Running? && op != SetOpenState(path, false)
    ensures path in Step(p, op).policy.meta ==> Step(p, op).policy.meta[path].isOpen
  {
    if !About(op, path) { OthersStay(p, op, path); }
  }

  // ---- the order of the scan ----

  /** The order of strings is the lexicographic one: a proper prefix comes first, otherwise the first
      difference decides. */
  lemma {:induction false} LessIff(a: string, b: string)
    ensures StrLess(a, b) <==> a < b || exists k :: DiffersAt(a, b, k)
  {
    if a != [] && b != [] {
      LessIff(a[1..], b[1..]);
      if a[0] < b[0] {
        assert DiffersAt(a, b, 0);
      } else if a[0] == b[0] {
        if k :| DiffersAt(a[1..], b[1..], k) {
          assert a[..k + 1] == [a[0]] + a[1..][..k] && b[..k + 1] == [b[0]] + b[1..][..k];
          assert DiffersAt(a, b, k + 1);
        }
        if k :| DiffersAt(a, b, k) {
          assert a[1..][..k - 1] == a[..k][1..] && b[1..][..k - 1] == b[..k][1..];
          assert DiffersAt(a[1..], b[1..], k - 1);
        }
        assert a == [a[0]] + a[1..] && b == [b[0]] + b[1..];
      }
    }
  }

  predicate DiffersAt(a: string, b: string, k: int) {
    0 <= k < |a| && k < |b| && a[..k] == b[..k] && a[k] < b[k]
  }
}
