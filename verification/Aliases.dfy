/** Allocation of topic aliases to filters, over the free list of a slab. */
module Aliases {
  import opened Basics

  datatype Slot = Occupied | Vacant(next: nat)

  /** The library's slab, which hands out keys: its vacant slots form a list, last in first out, that
      ends at the length. */
  datatype Slab = Slab(entries: seq<Slot>, next: nat) {
    ghost function Used(): set<nat> {
      set k | 0 <= k < |entries| && entries[k].Occupied?
    }

    function Insert(): (Slab, nat)
      requires next < |entries| ==> entries[next].Vacant?
    {
      if next >= |entries| then (Slab(entries + [Occupied], next + 1), next)
      else (Slab(entries[next := Occupied], entries[next].next), next)
    }

    function Remove(key: nat): Slab
      requires key < |entries|
    {
      Slab(entries[key := Vacant(next)], key)
    }
  }

  /** `free` lists the vacant slots in the order in which they will be reused. */
  ghost predicate Chain(entries: seq<Slot>, start: nat, free: seq<nat>)
    decreases |free|
  {
    if free == [] then start == |entries|
    else
      && start == free[0] < |entries|
      && free[0] !in free[1..]
      && entries[start].Vacant?
      && Chain(entries, entries[start].next, free[1..])
  }

  ghost predicate SlabOk(slab: Slab, free: seq<nat>) {
    && Chain(slab.entries, slab.next, free)
    && forall k :: 0 <= k < |slab.entries| && slab.entries[k].Vacant? ==> k in free
  }

  lemma {:induction false} ChainElsewhere(entries: seq<Slot>, start: nat, free: seq<nat>, k: nat, v: Slot)
    requires Chain(entries, start, free) && k < |entries| && k !in free
    ensures Chain(entries[k := v], start, free)
    decreases |free|
  {
    if free != [] {
      ChainElsewhere(entries, entries[start].next, free[1..], k, v);
    }
  }

  lemma {:induction false} ChainVacant(entries: seq<Slot>, start: nat, free: seq<nat>, k: nat)
    requires Chain(entries, start, free) && k in free
    ensures k < |entries| && entries[k].Vacant?
    decreases |free|
  {
    if k != free[0] {
      ChainVacant(entries, entries[start].next, free[1..], k);
    }
  }

  lemma InsertOk(slab: Slab, free: seq<nat>)
    requires SlabOk(slab, free)
    ensures var (s, key) := slab.Insert();
            && SlabOk(s, if free == [] then [] else free[1..])
            && key == (if free == [] then |slab.entries| else free[0])
            && |s.entries| == (if free == [] then key + 1 else |slab.entries|)
            && key !in slab.Used() && s.Used() == slab.Used() + {key}
  {
    if free != [] {
      ChainElsewhere(slab.entries, slab.entries[slab.next].next, free[1..], slab.next, Occupied);
    }
  }

  lemma RemoveOk(slab: Slab, free: seq<nat>, key: nat)
    requires SlabOk(slab, free) && key in slab.Used()
    ensures SlabOk(slab.Remove(key), [key] + free)
    ensures |slab.Remove(key).entries| == |slab.entries|
    ensures slab.Remove(key).Used() == slab.Used() - {key}
  {
    if key in free {
      ChainVacant(slab.entries, slab.next, free, key);
    }
    ChainElsewhere(slab.entries, slab.next, free, key, Vacant(slab.next));
    assert ([key] + free)[1..] == free;
  }

  class BrokerAliases {
    var aliases: map<Text, nat>
    var usedAliases: Slab
    const topicAliasMax: PacketId
    ghost var free: seq<nat>

    ghost predicate Valid()
      reads this
    {
      Accounts(aliases, usedAliases, free, topicAliasMax)
    }

    /** Slot 0 is occupied for good: it is not a valid alias. */
    constructor (topicAliasMax: PacketId)
      ensures Valid() && aliases == map[] && this.topicAliasMax == topicAliasMax
    {
      this.usedAliases := Slab([], 0).Insert().0;
      this.topicAliasMax := topicAliasMax;
      this.aliases := map[];
      this.free := [];
    }

    function GetAlias(topic: Text): Option<nat>
      reads this
    {
      if topic in aliases then Some(aliases[topic]) else None
    }

    method RemoveAlias(topic: Text)
      requires Valid()
      modifies this
      ensures Valid() && aliases == old(aliases) - {topic} && GetAlias(topic) == None
    {
      if topic in aliases {
        ValuesWithout(aliases, topic);
        RemoveOk(usedAliases, free, aliases[topic]);
        var alias := aliases[topic];
        aliases := aliases - {topic};
        usedAliases := usedAliases.Remove(alias);
        free := [alias] + free;
      } else {
        assert aliases - {topic} == aliases;
      }
    }

    /** The router asks for a new alias only when the topic has none.  A new alias is one that no topic
        has; there is none exactly when the maximum number of aliases is live. */
    method SetNewAlias(topic: Text) returns (r: Option<nat>)
      requires Valid() && GetAlias(topic) == None
      modifies this
      ensures Valid() && GetAlias(topic) == r
      ensures r.None? <==> |old(aliases)| == topicAliasMax
      ensures r.None? ==> aliases == old(aliases)
      ensures r.Some? ==> 1 <= r.value <= topicAliasMax && r.value !in old(aliases).Values
      ensures r.Some? ==> aliases == old(aliases)[topic := r.value]
    {
      FullWhenAllLive(aliases, topicAliasMax);
      NextIsFreeOrLast(aliases, usedAliases, free, topicAliasMax);
      InsertOk(usedAliases, free);
      var (slab, aliasToUse) := usedAliases.Insert();
      if aliasToUse > topicAliasMax {
        RefusedOk(aliases, usedAliases, free, topicAliasMax);
        usedAliases := slab.Remove(aliasToUse);
        free := [aliasToUse];
        return None;
      }
      GrantedOk(aliases, usedAliases, free, topicAliasMax, topic);
      usedAliases := slab;
      free := if free == [] then [] else free[1..];
      aliases := aliases[topic := aliasToUse];
      return Some(aliasToUse);
    }
  }

  /** Live aliases are distinct and between 1 and the maximum, the slab holds exactly them and the
      reserved slot 0, and the slot just past the maximum, once it exists, is the last to be reused. */
  ghost predicate Accounts(aliases: map<Text, nat>, slab: Slab, free: seq<nat>, max: nat) {
    && SlabOk(slab, free)
    && Distinct(aliases, max)
    && slab.Used() == {0} + aliases.Values
    && 1 <= |slab.entries| <= max + 2
    && (|slab.entries| == max + 2 ==> free != [] && free[|free| - 1] == max + 1)
  }

  /** The slot to be used next is a vacant one up to the maximum, or the one just past it, and then
      every alias is live. */
  lemma NextIsFreeOrLast(aliases: map<Text, nat>, slab: Slab, free: seq<nat>, max: nat)
    requires Accounts(aliases, slab, free, max)
    ensures slab.next <= max + 1
    ensures slab.next <= max ==> slab.next !in aliases.Values && slab.next != 0
    ensures slab.next == max + 1 ==> |free| == (if |slab.entries| == max + 2 then 1 else 0)
    ensures slab.next == max + 1 ==> forall a :: 1 <= a <= max ==> a in aliases.Values
  {
    assert 0 in slab.Used();
    if free != [] {
      ChainVacant(slab.entries, slab.next, free, slab.next);
      assert |free| > 1 ==> free[|free| - 1] == free[1..][|free| - 2];
    }
    if slab.next == max + 1 {
      forall a | 1 <= a <= max ensures a in aliases.Values {
        assert slab.entries[a].Occupied?;
        assert a in slab.Used();
      }
    }
  }

  lemma GrantedOk(aliases: map<Text, nat>, slab: Slab, free: seq<nat>, max: nat, topic: Text)
    requires Accounts(aliases, slab, free, max) && topic !in aliases && slab.next <= max
    ensures Accounts(aliases[topic := slab.next], slab.Insert().0, if free == [] then [] else free[1..], max)
  {
    InsertOk(slab, free);
    NextIsFreeOrLast(aliases, slab, free, max);
    ValuesWith(aliases, topic, slab.next);
    assert |free| > 1 ==> free[1..][|free| - 2] == free[|free| - 1];
  }

  lemma RefusedOk(aliases: map<Text, nat>, slab: Slab, free: seq<nat>, max: nat)
    requires Accounts(aliases, slab, free, max) && slab.next > max
    ensures slab.next < |slab.Insert().0.entries|
    ensures Accounts(aliases, slab.Insert().0.Remove(slab.next), [slab.next], max)
  {
    InsertOk(slab, free);
    NextIsFreeOrLast(aliases, slab, free, max);
    RemoveOk(slab.Insert().0, [], slab.next);
    assert [slab.next] + [] == [slab.next];
  }

  ghost predicate Distinct(m: map<Text, nat>, max: nat) {
    && (forall t :: t in m ==> 1 <= m[t] <= max)
    && (forall t, u :: t in m && u in m && t != u ==> m[t] != m[u])
  }

  lemma ValuesWithout(m: map<Text, nat>, t: Text)
    requires t in m && forall u :: u in m && u != t ==> m[u] != m[t]
    ensures (m - {t}).Values == m.Values - {m[t]}
  {
    var rest := m - {t};
    forall v | v in m.Values - {m[t]} ensures v in rest.Values {
      var u :| u in m && m[u] == v;
      assert u in rest && rest[u] == v;
    }
  }

  lemma ValuesWith(m: map<Text, nat>, t: Text, a: nat)
    requires t !in m
    ensures m[t := a].Values == m.Values + {a}
  {
    var m' := m[t := a];
    assert t in m' && m'[t] == a;
    forall v | v in m.Values ensures v in m'.Values {
      var u :| u in m && m[u] == v;
      assert u in m' && m'[u] == v;
    }
  }

  lemma {:induction false} AsManyAsValues(m: map<Text, nat>, max: nat)
    requires Distinct(m, max)
    ensures |m| == |m.Values|
    decreases |m|
  {
    if m != map[] {
      var t :| t in m;
      ValuesWithout(m, t);
      AsManyAsValues(m - {t}, max);
      assert m.Values == (m - {t}).Values + {m[t]};
      assert m.Keys == (m - {t}).Keys + {t};
    } else {
      assert m.Values == {};
    }
  }

  function UpTo(max: nat): (r: set<nat>)
    ensures |r| == max
    ensures forall a :: a in r <==> 1 <= a <= max
  {
    if max == 0 then {} else UpTo(max - 1) + {max}
  }

  lemma FullWhenAllLive(m: map<Text, nat>, max: nat)
    requires Distinct(m, max)
    ensures |m| == max <==> forall a :: 1 <= a <= max ==> a in m.Values
  {
    AsManyAsValues(m, max);
    var all := UpTo(max);
    assert m.Values <= all;
    if m.Values != all {
      assert |all - m.Values| == |all| - |m.Values|;
      var a :| a in all && a !in m.Values;
      assert a in all - m.Values;
    }
  }
}
