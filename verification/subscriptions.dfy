/** The client's index of subscriptions: one list and two maps into it. */
module Subscriptions {
  import opened Wrappers

  /** The address of a subscription object. */
  type Sub = nat

  /**
   A record of the list. The maps hold list iterators; channels are distinct, so a record
   stands for the node that holds it.
   */
  datatype Details = Details(channel: string, sub: Sub)

  // ----- the plain list, searched from its front

  function SearchChannel(list: seq<Details>, channel: string): (r: Option<Details>)
    ensures r.Some? ==> r.value in list && r.value.channel == channel
    ensures r.None? ==> forall d :: d in list ==> d.channel != channel
  {
    if list == [] then None
    else if list[0].channel == channel then Some(list[0])
    else SearchChannel(list[1..], channel)
  }

  function SearchSub(list: seq<Details>, sub: Sub): (r: Option<Details>)
    ensures r.Some? ==> r.value in list && r.value.sub == sub
    ensures r.None? ==> forall d :: d in list ==> d.sub != sub
  {
    if list == [] then None
    else if list[0].sub == sub then Some(list[0])
    else SearchSub(list[1..], sub)
  }

  /** The list without the nodes of one channel. */
  function WithoutChannel(list: seq<Details>, channel: string): seq<Details>
  {
    if list == [] then []
    else if list[0].channel == channel then WithoutChannel(list[1..], channel)
    else [list[0]] + WithoutChannel(list[1..], channel)
  }

  lemma {:induction false} WhatIsLeft(list: seq<Details>, channel: string)
    ensures forall d :: d in WithoutChannel(list, channel) <==> d in list && d.channel != channel
  {
    if list != [] {
      WhatIsLeft(list[1..], channel);
    }
  }

  ghost predicate Distinct(list: seq<Details>)
  {
    forall i, j :: 0 <= i < j < |list| ==> list[i].channel != list[j].channel && list[i].sub != list[j].sub
  }

  lemma {:induction false} WithoutStaysDistinct(list: seq<Details>, channel: string)
    requires Distinct(list)
    ensures Distinct(WithoutChannel(list, channel))
  {
    if list != [] {
      WithoutStaysDistinct(list[1..], channel);
      WhatIsLeft(list[1..], channel);
      assert forall d :: d in list[1..] ==> d.channel != list[0].channel && d.sub != list[0].sub;
    }
  }

  /** Erasing one node from a list of distinct channels is removing its channel. */
  lemma ErasingANodeRemovesItsChannel(list: seq<Details>, k: nat)
    requires Distinct(list) && k < |list|
    ensures list[..k] + list[k + 1..] == WithoutChannel(list, list[k].channel)
  {
    hide Distinct, WithoutChannel;
    var a, d, b := list[..k], list[k], list[k + 1..];
    assert list == a + ([d] + b);
    OthersDiffer(list, k);
    WithoutAppend(a, [d] + b, d.channel);
    FirstIsRemoved(d, b);
    NothingToRemove(a, d.channel);
    NothingToRemove(b, d.channel);
  }

  lemma OthersDiffer(list: seq<Details>, k: nat)
    requires Distinct(list) && k < |list|
    ensures forall d :: d in list[..k] || d in list[k + 1..] ==> d.channel != list[k].channel
  {
  }

  lemma FirstIsRemoved(d: Details, rest: seq<Details>)
    ensures WithoutChannel([d] + rest, d.channel) == WithoutChannel(rest, d.channel)
  {
    assert ([d] + rest)[1..] == rest;
  }

  lemma {:induction false} WithoutAppend(a: seq<Details>, b: seq<Details>, channel: string)
    ensures WithoutChannel(a + b, channel) == WithoutChannel(a, channel) + WithoutChannel(b, channel)
  {
    if a == [] {
      assert a + b == b;
    } else {
      assert (a + b)[0] == a[0] && (a + b)[1..] == a[1..] + b;
      WithoutAppend(a[1..], b, channel);
    }
  }

  lemma {:induction false} NothingToRemove(list: seq<Details>, channel: string)
    requires forall d :: d in list ==> d.channel != channel
    ensures WithoutChannel(list, channel) == list
  {
    if list != [] {
      NothingToRemove(list[1..], channel);
    }
  }

  lemma {:induction false} RemovingFromAPrefix(list: seq<Details>, longer: seq<Details>, channel: string)
    requires list <= longer
    ensures WithoutChannel(list, channel) <= WithoutChannel(longer, channel)
  {
    if list != [] {
      assert list[1..] <= longer[1..];
      RemovingFromAPrefix(list[1..], longer[1..], channel);
    }
  }

  datatype Change = Add(details: Details) | Delete(channel: string) | Clear

  /** What a change does to the plain list; None where it fails a CHECK. */
  function Changed(list: seq<Details>, change: Change): Option<seq<Details>>
  {
    match change
    case Add(d) =>
      if SearchChannel(list, d.channel).None? && SearchSub(list, d.sub).None? then Some(list + [d]) else None
    case Delete(channel) => Some(WithoutChannel(list, channel))
    case Clear => Some([])
  }

  function AllChanged(list: seq<Details>, changes: seq<Change>): Option<seq<Details>>
    decreases |changes|
  {
    if changes == [] then Some(list)
    else match Changed(list, changes[0])
      case None => None
      case Some(next) => AllChanged(next, changes[1..])
  }

  class SubscriptionsMap {
    var infos: seq<Details>
    var channels: map<string, Details>
    var subs: map<Sub, Details>

    /** The three structures hold the same records: both maps are bijections onto the list. */
    ghost predicate Valid()
      reads this
    {
      && Distinct(infos)
      && (forall d :: d in infos ==> d.channel in channels && channels[d.channel] == d)
      && (forall d :: d in infos ==> d.sub in subs && subs[d.sub] == d)
      && (forall c :: c in channels ==> channels[c] in infos && channels[c].channel == c)
      && (forall s :: s in subs ==> subs[s] in infos && subs[s].sub == s)
    }

    constructor ()
      ensures Valid() && infos == []
    {
      infos, channels, subs := [], map[], map[];
    }

    /** False where one of the two CHECKs fails; the program ends there. */
    method Add(d: Details) returns (ok: bool)
      requires Valid()
      modifies this
      ensures Valid()
      ensures ok <==> Changed(old(infos), Change.Add(d)).Some?
      ensures infos == if ok then old(infos) + [d] else old(infos)
    {
      if d.channel in channels || d.sub in subs {
        return false;
      }
      infos := infos + [d];
      channels := channels[d.channel := d];
      subs := subs[d.sub := d];
      return true;
    }

    method FindByChannel(channel: string) returns (r: Option<Details>)
      requires Valid()
      ensures r == SearchChannel(infos, channel)
    {
      if channel !in channels {
        return None;
      }
      return Some(channels[channel]);
    }

    method FindBySub(sub: Sub) returns (r: Option<Details>)
      requires Valid()
      ensures r == SearchSub(infos, sub)
    {
      if sub !in subs {
        return None;
      }
      return Some(subs[sub]);
    }

    method DeleteByChannel(channel: string) returns (found: bool)
      requires Valid()
      modifies this
      ensures Valid()
      ensures found <==> SearchChannel(old(infos), channel).Some?
      ensures infos == WithoutChannel(old(infos), channel)
    {
      if channel !in channels {
        NothingToRemove(infos, channel);
        return false;
      }
      var d := channels[channel];
      subs := map s | s in subs && s != d.sub :: subs[s];
      channels := map c | c in channels && c != d.channel :: channels[c];
      ghost var list := infos;
      Erase(d);
      WithoutStaysDistinct(list, channel);
      WhatIsLeft(list, channel);
      return true;
    }

    /** list::erase: takes one node out and leaves the others in place. */
    method Erase(d: Details)
      requires Distinct(infos) && d in infos
      modifies this`infos
      ensures infos == WithoutChannel(old(infos), d.channel)
    {
      var k := 0;
      while infos[k] != d
        invariant 0 <= k < |infos| && d in infos[k..]
        decreases |infos| - k
      {
        k := k + 1;
      }
      ErasingANodeRemovesItsChannel(infos, k);
      infos := infos[..k] + infos[k + 1..];
    }

    method Clear()
      modifies this
      ensures Valid() && infos == []
    {
      infos, channels, subs := [], map[], map[];
    }

    /**
     Every sequence of changes, up to the first failing CHECK: the three structures agree and
     hold what the plain list would.
     */
    method Run(changes: seq<Change>) returns (ok: bool)
      requires Valid()
      modifies this
      ensures Valid()
      ensures ok <==> AllChanged(old(infos), changes).Some?
      ensures ok ==> infos == AllChanged(old(infos), changes).value
    {
      for k := 0 to |changes|
        invariant Valid()
        invariant AllChanged(infos, changes[k..]) == old(AllChanged(infos, changes))
      {
        assert changes[k..][1..] == changes[k + 1..];
        match changes[k] {
          case Add(d) =>
            ok := Add(d);
            if !ok {
              return;
            }
          case Delete(channel) =>
            var _ := DeleteByChannel(channel);
          case Clear =>
            Clear();
        }
      }
      ok := true;
    }
  }
}
