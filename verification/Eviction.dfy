/** Repeated eviction: select a victim and remove it, until the selection names none. */
module Eviction {
  import opened CachePolicy

  /** The alternation of cache_policy_select_victim_for_eviction and cache_policy_remove_file from p:
      the victims in order, and the state in which none is left. */
  ghost predicate Evicts(p: Policy, victims: seq<string>, last: Policy)
    decreases |victims|
  {
    if victims == [] then IsVictim(p, "") && last == p
    else
      && victims[0] != "" && IsVictim(p, victims[0])
      && Remove(p, victims[0]).Running? && Evicts(Remove(p, victims[0]).policy, victims[1..], last)
  }

  ghost function Victims(p: Policy): set<string> {
    set w | w in p.meta && Evictable(p, w) && w != ""
  }

  lemma BeforeTotal(p: Policy, v: string, w: string)
    requires v in p.meta && w in p.meta && v != w
    ensures Before(p, v, w) || Before(p, w, v)
  {
    LessTotal(v, w);
  }

  lemma BeforeTrans(p: Policy, u: string, v: string, w: string)
    requires u in p.meta && v in p.meta && w in p.meta && Before(p, u, v) && Before(p, v, w)
    ensures Before(p, u, w)
  {
    if StrLess(u, v) && StrLess(v, w) { LessTrans(u, v, w); }
  }

  lemma {:induction false} FirstOf(p: Policy, s: set<string>) returns (v: string)
    requires s != {} && s <= p.meta.Keys
    ensures v in s && forall w <- s :: w != v ==> Before(p, v, w)
    decreases |s|
  {
    v :| v in s;
    if s != {v} {
      assert s - {v} != {};
      var r := FirstOf(p, s - {v});
      BeforeTotal(p, v, r);
      if !Before(p, v, r) {
        v := r;
      } else {
        forall w <- s | w != v && w != r ensures Before(p, v, w) { BeforeTrans(p, v, r, w); }
      }
    }
  }

  /** The selection always has an answer. */
  lemma VictimExists(p: Policy) returns (v: string)
    ensures IsVictim(p, v)
  {
    v := "";
    if Victims(p) != {} {
      v := FirstOf(p, Victims(p));
    } else {
      forall w <- p.meta | Evictable(p, w) ensures w == "" {
        assert w == "" || w in Victims(p);
      }
    }
  }

  lemma RemovedVictims(p: Policy, v: string)
    requires IsVictim(p, v) && v != ""
    ensures v in Victims(p) && Remove(p, v).Running?
    ensures Victims(Remove(p, v).policy) == Victims(p) - {v}
  {
  }

  lemma {:induction false} OneEviction(p: Policy, vs: seq<string>, l: Policy, ws: seq<string>, m: Policy)
    requires Evicts(p, vs, l) && Evicts(p, ws, m)
    ensures vs == ws && l == m
    decreases |vs|
  {
    hide IsVictim, Remove;
    OneVictim(p, if vs == [] then "" else vs[0], if ws == [] then "" else ws[0]);
    if vs != [] {
      OneEviction(Remove(p, vs[0]).policy, vs[1..], l, ws[1..], m);
      assert vs == [vs[0]] + vs[1..] && ws == [ws[0]] + ws[1..];
    }
  }

  /** The loop ends, whatever the state: the number of evictable files falls each turn. With
      OneEviction, there is only one way it can go. */
  lemma {:induction false} EvictionEnds(p: Policy) returns (victims: seq<string>, last: Policy)
    ensures Evicts(p, victims, last)
    decreases |Victims(p)|
  {
    hide IsVictim, Remove, Victims;
    var v := VictimExists(p);
    if v == "" {
      victims, last := [], p;
    } else {
      RemovedVictims(p, v);
      var rest;
      rest, last := EvictionEnds(Remove(p, v).policy);
      victims := [v] + rest;
    }
  }

  function Sizes(p: Policy, files: seq<string>): nat
    requires forall f <- files :: f in p.meta
  {
    if files == [] then 0 else p.meta[files[0]].size + Sizes(p, files[1..])
  }

  lemma {:induction false} SizesStay(p: Policy, p': Policy, files: seq<string>)
    requires forall f <- files :: f in p.meta && f in p'.meta && p'.meta[f] == p.meta[f]
    ensures Sizes(p', files) == Sizes(p, files)
    decreases |files|
  {
    if files != [] { SizesStay(p, p', files[1..]); }
  }

  /** The loop evicts exactly the closed PM files, each once, fewest accesses first and by path among
      equals. Every other file, open or on SSD, stays as it was. */
  lemma EvictionIs(p: Policy, victims: seq<string>, last: Policy)
    requires Evicts(p, victims, last)
    ensures forall f :: f in victims <==> f in p.meta && p.meta[f].tier == Fsdax && !p.meta[f].isOpen && f != ""
    ensures forall i, j | 0 <= i < j < |victims| ::
      && victims[i] in p.meta && victims[j] in p.meta && victims[i] != victims[j]
      && (p.meta[victims[i]].accesses < p.meta[victims[j]].accesses
          || (p.meta[victims[i]].accesses == p.meta[victims[j]].accesses && StrLess(victims[i], victims[j])))
    ensures last.meta == p.meta - (set f | f in victims)
  {
    OrderedEviction(p, victims, last);
    forall f ensures f in victims <==> f in Victims(p) {}
    assert (set f | f in victims) == Victims(p);
  }

  lemma {:induction false} OrderedEviction(p: Policy, victims: seq<string>, last: Policy)
    requires Evicts(p, victims, last)
    ensures forall f <- victims :: f in Victims(p)
    ensures forall f <- Victims(p) :: f in victims
    ensures forall i, j | 0 <= i < j < |victims| ::
      victims[i] in p.meta && victims[j] in p.meta && victims[i] != victims[j] && Before(p, victims[i], victims[j])
    ensures last.meta == p.meta - Victims(p)
    decreases |victims|
  {
    if victims != [] {
      var v, rest := victims[0], victims[1..];
      var p1 := Remove(p, v).policy;
      RemovedVictims(p, v);
      OrderedEviction(p1, rest, last);
      assert victims == [v] + rest;
      forall i, j | 0 <= i < j < |victims|
        ensures victims[i] in p.meta && victims[j] in p.meta && victims[i] != victims[j] && Before(p, victims[i], victims[j])
      {
        assert victims[j] == rest[j - 1] && rest[j - 1] in Victims(p1);
        if i > 0 {
          assert victims[i] == rest[i - 1] && Before(p1, rest[i - 1], rest[j - 1]);
        }
      }
    }
  }

  /** It frees exactly the sum of the victims' sizes in PM and nothing on SSD. */
  lemma {:induction false} EvictionFrees(p: Policy, victims: seq<string>, last: Policy)
    requires Evicts(p, victims, last)
    ensures forall f <- victims :: f in p.meta
    ensures TierBytes(p.meta, Fsdax) == TierBytes(last.meta, Fsdax) + Sizes(p, victims)
    ensures TierBytes(last.meta, Ssd) == TierBytes(p.meta, Ssd) && last.ssdUsed == p.ssdUsed
    ensures Sound(p) ==> Sound(last) && last.pmUsed == p.pmUsed - Sizes(p, victims)
    decreases |victims|
  {
    hide TierBytes;
    if victims != [] {
      var v, rest := victims[0], victims[1..];
      var p1 := Remove(p, v).policy;
      RemovedVictims(p, v);
      EvictionFrees(p1, rest, last);
      SizesStay(p, p1, rest);
      TakeOut(p.meta, Fsdax, v);
      TakeOut(p.meta, Ssd, v);
      assert victims == [v] + rest;
    }
  }
}
