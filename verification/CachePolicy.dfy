/** The tiered cache policy: a metadata map, two byte counters in 64-bit arithmetic, and victim
    selection. The step functions say what each operation does to the whole state; the class at the
    end is the code, proved against them.
 */
module CachePolicy {
  const TWO_TO_64: int := 0x1_0000_0000_0000_0000

  type U64 = n: int | 0 <= n < TWO_TO_64

  function Add64(a: U64, b: U64): U64 { (a + b) % TWO_TO_64 }

  function Sub64(a: U64, b: U64): U64 { (a - b) % TWO_TO_64 }

  datatype Tier = Fsdax | Ssd | Pfs | Unknown

  datatype Meta = Meta(tier: Tier, size: U64, accesses: U64, isOpen: bool)

  datatype Policy = Policy(meta: map<string, Meta>, pmCap: U64, ssdCap: U64, pmUsed: U64, ssdUsed: U64)

  datatype Op =
    | AddFile(path: string, size: U64)
    | UpdateAccess(path: string)
    | UpdateTier(path: string, tier: Tier)
    | SetOpenState(path: string, isOpen: bool)
    | RemoveFile(path: string)
    | EvictIfNeeded

  /** exit(-1) ends the process; a thread that locks g_cacheMutex twice never returns. */
  datatype Outcome = Running(policy: Policy) | Exited | Stuck

  // ---- operations ----

  function Add(p: Policy, path: string, size: U64): Policy {
    var file := Meta(Fsdax, size, 0, true);
    if path in p.meta then p
    else if Add64(p.pmUsed, size) <= p.pmCap then
      p.(meta := p.meta[path := file], pmUsed := Add64(p.pmUsed, size))
    else if Add64(p.ssdUsed, size) <= p.ssdCap then
      p.(meta := p.meta[path := file.(tier := Ssd)], ssdUsed := Add64(p.ssdUsed, size))
    else p
  }

  function Touch(p: Policy, path: string): Policy {
    if path !in p.meta then p
    else p.(meta := p.meta[path := p.meta[path].(accesses := Add64(p.meta[path].accesses, 1))])
  }

  function Move(p: Policy, path: string, tier: Tier): Outcome {
    if path !in p.meta then Running(p) else
      var file := p.meta[path];
      if tier == Ssd && file.tier == Fsdax then
        if Add64(p.ssdUsed, file.size) <= p.ssdCap then
          Running(p.(meta := p.meta[path := file.(tier := Ssd)],
                     ssdUsed := Add64(p.ssdUsed, file.size), pmUsed := Sub64(p.pmUsed, file.size)))
        else Exited
      else if tier == Fsdax && file.tier == Ssd then
        if Add64(p.pmUsed, file.size) <= p.pmCap then
          Running(p.(meta := p.meta[path := file.(tier := Fsdax)],
                     pmUsed := Add64(p.pmUsed, file.size), ssdUsed := Sub64(p.ssdUsed, file.size)))
        else Running(p)
      else Running(p)
  }

  function Remove(p: Policy, path: string): Outcome {
    if path !in p.meta then Exited else
      var file := p.meta[path];
      Running(p.(meta := p.meta - {path},
                 pmUsed := if file.tier == Fsdax then Sub64(p.pmUsed, file.size) else p.pmUsed,
                 ssdUsed := if file.tier == Ssd then Sub64(p.ssdUsed, file.size) else p.ssdUsed))
  }

  function Step(p: Policy, op: Op): Outcome {
    match op
    case AddFile(path, size) => Running(Add(p, path, size))
    case UpdateAccess(path) => Running(Touch(p, path))
    case UpdateTier(path, tier) => Move(p, path, tier)
    case SetOpenState(path, isOpen) =>
      if path in p.meta then Running(p.(meta := p.meta[path := p.meta[path].(isOpen := isOpen)])) else Exited
    case RemoveFile(path) => Remove(p, path)
    case EvictIfNeeded => if p.pmUsed <= p.pmCap then Running(p) else Stuck
  }

  function Run(p: Policy, ops: seq<Op>): Outcome
    decreases |ops|
  {
    if ops == [] then Running(p) else
      var out := Step(p, ops[0]);
      if out.Running? then Run(out.policy, ops[1..]) else out
  }

  function Empty(pmCap: U64, ssdCap: U64): Policy {
    Policy(map[], pmCap, ssdCap, 0, 0)
  }

  // ---- the bytes really tracked ----

  function In(file: Meta, tier: Tier): nat {
    if file.tier == tier then file.size else 0
  }

  /** The sum of the sizes of the files of a tier. */
  ghost function TierBytes(meta: map<string, Meta>, tier: Tier): nat
    decreases |meta|
  {
    if meta == map[] then 0 else
      var path :| path in meta;
      In(meta[path], tier) + TierBytes(meta - {path}, tier)
  }

  /** The sum does not depend on the order the files are taken in. */
  lemma {:induction false} TakeOut(meta: map<string, Meta>, tier: Tier, path: string)
    requires path in meta
    ensures TierBytes(meta, tier) == In(meta[path], tier) + TierBytes(meta - {path}, tier)
    decreases |meta|
  {
    var first :| first in meta && TierBytes(meta, tier) == In(meta[first], tier) + TierBytes(meta - {first}, tier);
    if first != path {
      TakeOut(meta - {first}, tier, path);
      TakeOut(meta - {path}, tier, first);
      assert meta - {first} - {path} == meta - {path} - {first};
    }
  }

  function Held(meta: map<string, Meta>, path: string, tier: Tier): nat {
    if path in meta then In(meta[path], tier) else 0
  }

  lemma Replaced(meta: map<string, Meta>, path: string, file: Meta, tier: Tier)
    ensures TierBytes(meta[path := file], tier) == TierBytes(meta, tier) - Held(meta, path, tier) + In(file, tier)
  {
    TakeOut(meta[path := file], tier, path);
    assert meta[path := file] - {path} == meta - {path};
    if path in meta {
      TakeOut(meta, tier, path);
    } else {
      assert meta - {path} == meta;
    }
  }

  /** Both tiers after path's entry is replaced, or added. */
  lemma Put(meta: map<string, Meta>, path: string, file: Meta)
    ensures TierBytes(meta[path := file], Fsdax) == TierBytes(meta, Fsdax) - Held(meta, path, Fsdax) + In(file, Fsdax)
    ensures TierBytes(meta[path := file], Ssd) == TierBytes(meta, Ssd) - Held(meta, path, Ssd) + In(file, Ssd)
  {
    Replaced(meta, path, file, Fsdax);
    Replaced(meta, path, file, Ssd);
  }

  // ---- accounting ----

  /** The counters are the true sums, reduced to 64 bits. */
  ghost predicate Congruent(p: Policy) {
    && p.pmUsed == TierBytes(p.meta, Fsdax) % TWO_TO_64
    && p.ssdUsed == TierBytes(p.meta, Ssd) % TWO_TO_64
  }

  lemma ModAdd(a: int, b: U64)
    ensures (a % TWO_TO_64 + b) % TWO_TO_64 == (a + b) % TWO_TO_64
  {
  }

  lemma ModSub(a: int, b: U64)
    ensures ((a + b) % TWO_TO_64 - b) % TWO_TO_64 == a % TWO_TO_64
  {
  }

  lemma AddCongruent(p: Policy, path: string, size: U64)
    requires Congruent(p)
    ensures Congruent(Add(p, path, size))
  {
    hide TierBytes;
    if path !in p.meta {
      Put(p.meta, path, Meta(Fsdax, size, 0, true));
      Put(p.meta, path, Meta(Ssd, size, 0, true));
      ModAdd(TierBytes(p.meta, Fsdax), size);
      ModAdd(TierBytes(p.meta, Ssd), size);
    }
  }

  lemma MoveCongruent(p: Policy, path: string, tier: Tier)
    requires Congruent(p) && Move(p, path, tier).Running?
    ensures Congruent(Move(p, path, tier).policy)
  {
    hide TierBytes;
    if path in p.meta {
      var file := p.meta[path];
      var pm, ssd := TierBytes(p.meta, Fsdax), TierBytes(p.meta, Ssd);
      if tier == Ssd && file.tier == Fsdax {
        Put(p.meta, path, file.(tier := Ssd));
        ModAdd(ssd, file.size);
        ModSub(pm - file.size, file.size);
      } else if tier == Fsdax && file.tier == Ssd {
        Put(p.meta, path, file.(tier := Fsdax));
        ModAdd(pm, file.size);
        ModSub(ssd - file.size, file.size);
      }
    }
  }

  lemma OthersCongruent(p: Policy, op: Op)
    requires Congruent(p) && Step(p, op).Running? && !op.AddFile? && !op.UpdateTier?
    ensures Congruent(Step(p, op).policy)
  {
    hide TierBytes;
    if op.EvictIfNeeded? || op.path !in p.meta { return; }
    var file := p.meta[op.path];
    TakeOut(p.meta, Fsdax, op.path);
    TakeOut(p.meta, Ssd, op.path);
    ModSub(TierBytes(p.meta - {op.path}, Fsdax), file.size);
    ModSub(TierBytes(p.meta - {op.path}, Ssd), file.size);
    Put(p.meta, op.path, file.(accesses := Add64(file.accesses, 1)));
    if op.SetOpenState? { Put(p.meta, op.path, file.(isOpen := op.isOpen)); }
  }

  lemma StepCongruent(p: Policy, op: Op)
    requires Congruent(p) && Step(p, op).Running?
    ensures Congruent(Step(p, op).policy)
  {
    hide Congruent, Add, Move;
    match op
    case AddFile(path, size) => AddCongruent(p, path, size);
    case UpdateTier(path, tier) => MoveCongruent(p, path, tier);
    case _ => OthersCongruent(p, op);
  }

  /** After any operations whatever the counters are the true sums modulo 2^64. */
  lemma {:induction false} RunCongruent(p: Policy, ops: seq<Op>)
    requires Congruent(p) && Run(p, ops).Running?
    ensures Congruent(Run(p, ops).policy)
    decreases |ops|
  {
    hide Step, Congruent;
    if ops != [] {
      StepCongruent(p, ops[0]);
      RunCongruent(Step(p, ops[0]).policy, ops[1..]);
    }
  }

  /** The counters are the true sums and within capacity. */
  ghost predicate Sound(p: Policy) {
    && p.pmUsed == TierBytes(p.meta, Fsdax) <= p.pmCap
    && p.ssdUsed == TierBytes(p.meta, Ssd) <= p.ssdCap
  }

  /** No file of the tiers is larger than the counters have room for. */
  ghost predicate Small(p: Policy) {
    forall path <- p.meta :: p.meta[path].size + p.pmCap < TWO_TO_64 && p.meta[path].size + p.ssdCap < TWO_TO_64
  }

  /** Adding keeps the accounts right if and only if the sums it compares do not wrap: a wrapped sum
      is smaller than the counter, so it always passes the capacity test. */
  lemma AddSoundIff(p: Policy, path: string, size: U64)
    requires Sound(p)
    ensures Sound(Add(p, path, size)) <==>
      path in p.meta || (p.pmUsed + size < TWO_TO_64 && (p.pmUsed + size <= p.pmCap || p.ssdUsed + size < TWO_TO_64))
  {
    hide TierBytes;
    if path !in p.meta {
      Put(p.meta, path, Meta(Fsdax, size, 0, true));
      Put(p.meta, path, Meta(Ssd, size, 0, true));
    }
  }

  /** A move between tiers keeps the accounts right if and only if the sum it compares does not
      wrap. */
  lemma MoveSoundIff(p: Policy, path: string, tier: Tier)
    requires Sound(p) && Move(p, path, tier).Running?
    ensures Sound(Move(p, path, tier).policy) <==>
      (path in p.meta && tier == Ssd && p.meta[path].tier == Fsdax ==> p.ssdUsed + p.meta[path].size < TWO_TO_64)
      && (path in p.meta && tier == Fsdax && p.meta[path].tier == Ssd ==> p.pmUsed + p.meta[path].size < TWO_TO_64)
  {
    hide Sound, Move;
    if path in p.meta && tier == Ssd && p.meta[path].tier == Fsdax {
      DemoteSoundIff(p, path);
    } else if path in p.meta && tier == Fsdax && p.meta[path].tier == Ssd {
      PromoteSoundIff(p, path);
    } else {
      assert Move(p, path, tier) == Running(p) by { Unmoved(p, path, tier); }
    }
  }

  lemma Unmoved(p: Policy, path: string, tier: Tier)
    requires path in p.meta ==> !(tier == Ssd && p.meta[path].tier == Fsdax) && !(tier == Fsdax && p.meta[path].tier == Ssd)
    ensures Move(p, path, tier) == Running(p)
  {
  }

  lemma DemoteSoundIff(p: Policy, path: string)
    requires Sound(p) && path in p.meta && p.meta[path].tier == Fsdax && Move(p, path, Ssd).Running?
    ensures Sound(Move(p, path, Ssd).policy) <==> p.ssdUsed + p.meta[path].size < TWO_TO_64
  {
    hide TierBytes;
    TakeOut(p.meta, Fsdax, path);
    Put(p.meta, path, p.meta[path].(tier := Ssd));
  }

  lemma PromoteSoundIff(p: Policy, path: string)
    requires Sound(p) && path in p.meta && p.meta[path].tier == Ssd && Move(p, path, Fsdax).Running?
    ensures Sound(Move(p, path, Fsdax).policy) <==>
      p.pmUsed + p.meta[path].size < TWO_TO_64
  {
    hide TierBytes;
    TakeOut(p.meta, Ssd, path);
    Put(p.meta, path, p.meta[path].(tier := Fsdax));
  }

  /** Wrapped or not, a move keeps the set of files, their sizes, and the bytes of both tiers
      together. */
  lemma MoveConserves(p: Policy, path: string, tier: Tier)
    requires Move(p, path, tier).Running?
    ensures var p' := Move(p, path, tier).policy;
            && p'.meta.Keys == p.meta.Keys
            && (forall f <- p.meta :: p'.meta[f].size == p.meta[f].size)
            && TierBytes(p'.meta, Fsdax) + TierBytes(p'.meta, Ssd) == TierBytes(p.meta, Fsdax) + TierBytes(p.meta, Ssd)
  {
    hide TierBytes;
    if path in p.meta {
      Put(p.meta, path, p.meta[path].(tier := Fsdax));
      Put(p.meta, path, p.meta[path].(tier := Ssd));
    }
  }

  /** The operations that compare nothing keep the accounts right without conditions. */
  lemma OthersSound(p: Policy, op: Op)
    requires Sound(p) && Step(p, op).Running? && !op.AddFile? && !op.UpdateTier?
    ensures Sound(Step(p, op).policy)
  {
    hide TierBytes;
    if op.EvictIfNeeded? || op.path !in p.meta { return; }
    var file := p.meta[op.path];
    TakeOut(p.meta, Fsdax, op.path);
    TakeOut(p.meta, Ssd, op.path);
    Put(p.meta, op.path, file.(accesses := Add64(file.accesses, 1)));
    if op.SetOpenState? { Put(p.meta, op.path, file.(isOpen := op.isOpen)); }
  }

  predicate SmallOps(pmCap: U64, ssdCap: U64, ops: seq<Op>) {
    forall op <- ops :: op.AddFile? ==> op.size + pmCap < TWO_TO_64 && op.size + ssdCap < TWO_TO_64
  }

  lemma StepSound(p: Policy, op: Op)
    requires Sound(p) && Small(p) && SmallOps(p.pmCap, p.ssdCap, [op])
    ensures !Step(p, op).Stuck?
    ensures op.EvictIfNeeded? ==> Step(p, op) == Running(p)
    ensures Step(p, op).Running? ==>
      var p' := Step(p, op).policy; Sound(p') && Small(p') && p'.pmCap == p.pmCap && p'.ssdCap == p.ssdCap
  {
    assert op in [op];
    match op
    case AddFile(path, size) => AddSoundIff(p, path, size);
    case UpdateTier(path, tier) => if Step(p, op).Running? { MoveSoundIff(p, path, tier); }
    case _ => if Step(p, op).Running? { OthersSound(p, op); }
  }

  /** No counter is smaller than a file of its tier, so no subtraction goes below zero. */
  ghost predicate Covered(p: Policy) {
    forall path <- p.meta ::
      && (p.meta[path].tier == Fsdax ==> p.meta[path].size <= p.pmUsed)
      && (p.meta[path].tier == Ssd ==> p.meta[path].size <= p.ssdUsed)
  }

  lemma SoundCovers(p: Policy)
    requires Sound(p)
    ensures Covered(p)
  {
    hide TierBytes;
    forall path <- p.meta ensures In(p.meta[path], p.meta[path].tier) <= TierBytes(p.meta, p.meta[path].tier) {
      TakeOut(p.meta, p.meta[path].tier, path);
    }
  }

  /** From any sound state, the empty one for instance, with files that fit under 2^64 together with
      either capacity, every run keeps both counters equal to the true sums and within capacity, no
      subtraction can go below zero, and cache_policy_evict_if_needed never gets to lock its mutex a
      second time. */
  lemma {:induction false} RunSound(p: Policy, ops: seq<Op>)
    requires Sound(p) && Small(p) && SmallOps(p.pmCap, p.ssdCap, ops)
    ensures !Run(p, ops).Stuck?
    ensures Run(p, ops).Running? ==> Sound(Run(p, ops).policy) && Covered(Run(p, ops).policy)
    decreases |ops|
  {
    hide Step, Sound, Small, Covered;
    if ops == [] {
      SoundCovers(p);
    } else {
      assert ops[0] in ops;
      StepSound(p, ops[0]);
      if Step(p, ops[0]).Running? {
        RunSound(Step(p, ops[0]).policy, ops[1..]);
      }
    }
  }

  /** Every run from the empty state: whatever state is reached, eviction returns at once and
      changes nothing. */
  lemma FromEmpty(pmCap: U64, ssdCap: U64, ops: seq<Op>)
    requires SmallOps(pmCap, ssdCap, ops)
    ensures !Run(Empty(pmCap, ssdCap), ops).Stuck?
    ensures Run(Empty(pmCap, ssdCap), ops).Running? ==>
      var p := Run(Empty(pmCap, ssdCap), ops).policy; Sound(p) && Covered(p) && Step(p, EvictIfNeeded) == Running(p)
  {
    RunSound(Empty(pmCap, ssdCap), ops);
    hide Run, TierBytes, Covered;
  }

  /** Without that bound: a huge file wraps the sum, passes the test of a ten-byte tier, and after the
      small file beside it is removed the eviction call hangs on its own mutex. */
  lemma WrapHangs()
    ensures var ops := [AddFile("a", 6), AddFile("b", TWO_TO_64 - 5)];
            && Run(Empty(10, 10), ops).Running?
            && Run(Empty(10, 10), ops).policy.pmUsed == 1
            && "b" in Run(Empty(10, 10), ops).policy.meta && Run(Empty(10, 10), ops).policy.meta["b"].tier == Fsdax
    ensures Run(Empty(10, 10), [AddFile("a", 6), AddFile("b", TWO_TO_64 - 5), RemoveFile("a"), EvictIfNeeded]).Stuck?
  {
    var ops := [AddFile("a", 6), AddFile("b", TWO_TO_64 - 5), RemoveFile("a"), EvictIfNeeded];
    var p1 := Add(Empty(10, 10), "a", 6);
    var p2 := Add(p1, "b", TWO_TO_64 - 5);
    var p3 := Remove(p2, "a").policy;
    assert p3.pmUsed == TWO_TO_64 - 5;
    assert ops[1..][1..] == ops[2..] && ops[2..][1..] == ops[3..];
    assert Run(p3, ops[3..]) == Stuck;
    assert Run(p2, ops[2..]) == Stuck;
    assert Run(p1, ops[1..]) == Stuck;
    var two := [AddFile("a", 6), AddFile("b", TWO_TO_64 - 5)];
    assert Run(p1, two[1..]) == Run(p2, two[1..][1..]);
  }

  // ---- the order of std::map<std::string, ...> ----

  predicate StrLess(a: string, b: string) {
    b != [] && (a == [] || a[0] < b[0] || (a[0] == b[0] && StrLess(a[1..], b[1..])))
  }

  lemma {:induction false} LessTotal(a: string, b: string)
    ensures StrLess(a, b) || StrLess(b, a) || a == b
    ensures !(StrLess(a, b) && StrLess(b, a)) && !StrLess(a, a)
  {
    if a != [] { LessTotal(a[1..], a[1..]); }
    if a != [] && b != [] {
      LessTotal(a[1..], b[1..]);
      if a[0] == b[0] && a[1..] == b[1..] {
        assert a == [a[0]] + a[1..] && b == [b[0]] + b[1..];
      }
    }
  }

  lemma {:induction false} LessTrans(a: string, b: string, c: string)
    requires StrLess(a, b) && StrLess(b, c)
    ensures StrLess(a, c)
  {
    if a != [] && a[0] == b[0] == c[0] {
      LessTrans(a[1..], b[1..], c[1..]);
    }
  }

  // ---- victims ----

  /** A closed file in the PM tier. */
  predicate Evictable(p: Policy, path: string) {
    path in p.meta && p.meta[path].tier == Fsdax && !p.meta[path].isOpen
  }

  /** v goes before w: fewer accesses, or as many and a smaller path. */
  predicate Before(p: Policy, v: string, w: string)
    requires v in p.meta && w in p.meta
  {
    p.meta[v].accesses < p.meta[w].accesses || (p.meta[v].accesses == p.meta[w].accesses && StrLess(v, w))
  }

  /** What the selection returns. The scan uses the empty string for "none yet", so a file of that
      name is never chosen. */
  ghost predicate IsVictim(p: Policy, v: string) {
    if v == "" then forall w <- p.meta :: Evictable(p, w) ==> w == ""
    else Evictable(p, v) && forall w <- p.meta :: Evictable(p, w) && w != "" && w != v ==> Before(p, v, w)
  }

  lemma OneVictim(p: Policy, v: string, w: string)
    requires IsVictim(p, v) && IsVictim(p, w)
    ensures v == w
  {
    LessTotal(v, w);
  }

  lemma {:induction false} Smallest(s: set<string>) returns (m: string)
    requires s != {}
    ensures m in s && forall x <- s :: x != m ==> StrLess(m, x)
    decreases |s|
  {
    m :| m in s;
    if s != {m} {
      assert s - {m} != {};
      var r := Smallest(s - {m});
      LessTotal(m, r);
      if StrLess(r, m) {
        m := r;
      } else {
        forall x <- s | x != m && x != r ensures StrLess(m, x) { LessTrans(m, r, x); }
      }
    }
  }

  /** The state of the code: the map, the counters and the capacities. */
  class Cache {
    var meta: map<string, Meta>
    const pmCap: U64
    const ssdCap: U64
    var pmUsed: U64
    var ssdUsed: U64

    constructor (pmCap: U64, ssdCap: U64)
      ensures View() == Empty(pmCap, ssdCap)
    {
      meta, pmUsed, ssdUsed := map[], 0, 0;
      this.pmCap, this.ssdCap := pmCap, ssdCap;
    }

    function View(): Policy
      reads this
    {
      Policy(meta, pmCap, ssdCap, pmUsed, ssdUsed)
    }

    method AddFile(path: string, size: U64)
      modifies this
      ensures View() == Add(old(View()), path, size)
    {
      if path in meta {
        return;
      }
      var tier;
      if Add64(pmUsed, size) <= pmCap {
        tier := Fsdax;
        pmUsed := Add64(pmUsed, size);
      } else if Add64(ssdUsed, size) <= ssdCap {
        tier := Ssd;
        ssdUsed := Add64(ssdUsed, size);
      } else {
        return;
      }
      meta := meta[path := Meta(tier, size, 0, true)];
    }

    method UpdateAccess(path: string)
      modifies this`meta
      ensures View() == Touch(old(View()), path)
    {
      if path in meta {
        meta := meta[path := meta[path].(accesses := Add64(meta[path].accesses, 1))];
      }
    }

    /** exits: the process ended in exit(-1). */
    method UpdateTier(path: string, newTier: Tier) returns (exits: bool)
      modifies this
      ensures Move(old(View()), path, newTier) == if exits then Exited else Running(View())
    {
      exits := false;
      if path !in meta || meta[path].tier == newTier {
        return;
      }
      if newTier == Ssd && meta[path].tier == Fsdax {
        if Add64(ssdUsed, meta[path].size) <= ssdCap {
          ssdUsed := Add64(ssdUsed, meta[path].size);
          pmUsed := Sub64(pmUsed, meta[path].size);
          meta := meta[path := meta[path].(tier := Ssd)];
        } else {
          exits := true;
          return;
        }
      }
      if newTier == Fsdax && meta[path].tier == Ssd {
        if Add64(pmUsed, meta[path].size) <= pmCap {
          pmUsed := Add64(pmUsed, meta[path].size);
          ssdUsed := Sub64(ssdUsed, meta[path].size);
          meta := meta[path := meta[path].(tier := Fsdax)];
        }
      }
    }

    method SetOpen(path: string, isOpen: bool) returns (exits: bool)
      modifies this`meta
      ensures Step(old(View()), SetOpenState(path, isOpen)) == if exits then Exited else Running(View())
    {
      exits := path !in meta;
      if !exits {
        meta := meta[path := meta[path].(isOpen := isOpen)];
      }
    }

    method GetTier(path: string) returns (tier: Tier)
      ensures tier == if path in meta then meta[path].tier else Unknown
    {
      tier := Unknown;
      if path in meta {
        tier := meta[path].tier;
      }
    }

    /** The scan over the map in key order. It writes nothing: operator[] is only ever applied to
        the current victim, which is in the map. */
    method SelectVictim() returns (victim: string)
      ensures victim != "" ==> victim in meta && meta[victim].tier == Fsdax && !meta[victim].isOpen
      ensures forall w <- meta :: w != "" && w != victim && meta[w].tier == Fsdax && !meta[w].isOpen ==>
                victim != "" && (meta[victim].accesses < meta[w].accesses
                                 || (meta[victim].accesses == meta[w].accesses && StrLess(victim, w)))
      ensures IsVictim(View(), victim)
    {
      victim := "";
      var rest := meta.Keys;
      while rest != {}
        invariant rest <= meta.Keys
        invariant forall x, y :: x in meta.Keys - rest && y in rest ==> StrLess(x, y)
        invariant victim != "" ==> victim in meta.Keys - rest && Evictable(View(), victim)
        invariant forall w <- meta.Keys - rest :: Evictable(View(), w) && w != "" && w != victim ==>
                    victim != "" && Before(View(), victim, w)
        decreases |rest|
      {
        ghost var least := Smallest(rest);
        assert forall x <- rest :: x == least || StrLess(least, x);
        var file: string :| file in rest && forall x <- rest :: x == file || StrLess(file, x);
        if meta[file].tier == Fsdax && !meta[file].isOpen {
          if victim == "" {
            victim := file;
          } else if meta[file].accesses < meta[victim].accesses {
            victim := file;
          }
        }
        rest := rest - {file};
      }
      forall w <- meta | w != "" && w != victim && meta[w].tier == Fsdax && !meta[w].isOpen
        ensures victim != "" && Before(View(), victim, w)
      {
        assert w in meta.Keys - rest && Evictable(View(), w);
      }
    }

    method RemoveFile(path: string) returns (exits: bool)
      modifies this
      ensures Remove(old(View()), path) == if exits then Exited else Running(View())
    {
      exits := path !in meta;
      if exits {
        return;
      }
      if meta[path].tier == Fsdax {
        pmUsed := Sub64(pmUsed, meta[path].size);
      } else if meta[path].tier == Ssd {
        ssdUsed := Sub64(ssdUsed, meta[path].size);
      }
      meta := meta - {path};
    }

    /** hangs: g_cacheMutex, already held, is locked again by the selection. */
    method EvictIfNeeded() returns (hangs: bool, ret: int)
      ensures Step(View(), Op.EvictIfNeeded) == if hangs then Stuck else Running(View())
      ensures !hangs ==> ret == 0
    {
      hangs, ret := false, 0;
      if pmUsed > pmCap {
        hangs := true;
      }
    }
  }
}
