/**
  Reindexing of streamed content blocks: sparse raw indices become dense ones, per namespace and node,
  between message boundaries.
 */
module ContentBlockReindexing {
  import opened Wrappers
  import opened Sequences

  datatype Kind = MessageStart | MessageFinish | Failure | BlockStart | BlockDelta | BlockFinish | OtherKind

  /**
    A protocol event: on the messages channel with a string event name, or anything else. `payload` stands for the rest
    of its content.
   */
  datatype Event =
    | Message(namespace: seq<string>, node: string, kind: Kind, index: Option<int>, payload: nat)
    | Elsewhere(payload: nat)

  function Joined(parts: seq<string>): string {
    if parts == [] then ""
    else if |parts| == 1 then parts[0]
    else parts[0] + "/" + Joined(parts[1..])
  }

  function KeyOf(e: Event): string
    requires e.Message?
  {
    Joined(e.namespace) + "::" + e.node
  }

  predicate Resets(e: Event) {
    e.Message? && (e.kind.MessageStart? || e.kind.MessageFinish? || e.kind.Failure?)
  }

  predicate Indexed(e: Event) {
    e.Message? && (e.kind.BlockStart? || e.kind.BlockDelta? || e.kind.BlockFinish?) && e.index.Some?
  }

  // ---------------------------------------------------------------- what the stream says

  function RawNext(raw: seq<int>, e: Event, key: string): seq<int> {
    if Resets(e) && KeyOf(e) == key then []
    else if Indexed(e) && KeyOf(e) == key then raw + [e.index.value]
    else raw
  }

  /** The raw indices of a key since its last boundary, in order. */
  function Raw(es: seq<Event>, key: string): seq<int> {
    if es == [] then [] else RawNext(Raw(es[..|es| - 1], key), es[|es| - 1], key)
  }

  /** The distinct values of a sequence in order of first appearance. */
  function Distinct(s: seq<int>): (d: seq<int>)
    ensures forall x :: x in d <==> x in s
    ensures forall i, j :: 0 <= i < j < |d| ==> d[i] != d[j]
  {
    if s == [] then []
    else
      var before := Distinct(s[..|s| - 1]);
      var x := s[|s| - 1];
      assert s == s[..|s| - 1] + [x];
      if x in before then before else before + [x]
  }

  function Position(d: seq<int>, x: int): (i: nat)
    requires x in d
    ensures i < |d| && d[i] == x
  {
    if d[0] == x then 0 else 1 + Position(d[1..], x)
  }

  /**
    What an event should become after the given ones: an indexed block carries its raw index's rank by first appearance;
    all else is unchanged.
   */
  function Relabelled(before: seq<Event>, e: Event): Event {
    if !Indexed(e) then e
    else
      var seen := Raw(before, KeyOf(e)) + [e.index.value];
      e.(index := Some(Position(Distinct(seen), e.index.value)))
  }

  // ---------------------------------------------------------------- the reindexer

  type Maps = map<string, map<int, nat>>

  function MapFor(maps: Maps, key: string): map<int, nat> {
    if key in maps then maps[key] else map[]
  }

  function Dense(m: map<int, nat>, rawIndex: int): nat {
    if rawIndex in m then m[rawIndex] else |m|
  }

  function NextMaps(maps: Maps, e: Event): Maps {
    if Resets(e) then maps - {KeyOf(e)}
    else if Indexed(e) then
      var m := MapFor(maps, KeyOf(e));
      maps[KeyOf(e) := m[e.index.value := Dense(m, e.index.value)]]
    else maps
  }

  function Emit(maps: Maps, e: Event): Event {
    if Indexed(e) then e.(index := Some(Dense(MapFor(maps, KeyOf(e)), e.index.value))) else e
  }

  function MapsAfter(es: seq<Event>): Maps {
    if es == [] then map[] else NextMaps(MapsAfter(es[..|es| - 1]), es[|es| - 1])
  }

  /** The stream a fresh reindexer emits. */
  function Output(es: seq<Event>): (out: seq<Event>)
    ensures |out| == |es|
  {
    seq(|es|, k requires 0 <= k < |es| => Emit(MapsAfter(es[..k]), es[k]))
  }

  class ContentBlockReindexer {
    var maps: Maps

    constructor ()
      ensures maps == map[]
    {
      maps := map[];
    }

    method Process(event: Event) returns (result: Event)
      modifies this
      ensures maps == NextMaps(old(maps), event)
      ensures result == Emit(old(maps), event)
    {
      result := event;
      if event.Elsewhere? {
        return;
      }
      var key := KeyOf(event);
      if event.kind.MessageStart? || event.kind.MessageFinish? || event.kind.Failure? {
        maps := maps - {key};
        return;
      }
      if !event.kind.BlockStart? && !event.kind.BlockDelta? && !event.kind.BlockFinish? {
        return;
      }
      if event.index.None? {
        return;
      }
      var rawIndex := event.index.value;
      var m := MapFor(maps, key);
      var dense := if rawIndex in m then m[rawIndex] else |m|;
      m := m[rawIndex := dense];
      maps := maps[key := m];
      if dense != rawIndex {
        result := event.(index := Some(dense));
      }
    }
  }

  // ---------------------------------------------------------------- dense, injective, by first appearance

  /** A key's map ranks exactly the values of d. */
  ghost predicate Ranks(m: map<int, nat>, d: seq<int>) {
    && (forall x :: x in m <==> x in d)
    && (forall i :: 0 <= i < |d| ==> m[d[i]] == i)
  }

  lemma RanksSize(m: map<int, nat>, d: seq<int>)
    requires Ranks(m, d) && forall i, j :: 0 <= i < j < |d| ==> d[i] != d[j]
    ensures |m| == |d|
  {
    DistinctSize(d);
    var values := set x | x in d;
    assert forall x :: x in m.Keys <==> x in values;
    assert m.Keys == values && |m| == |m.Keys|;
  }

  lemma {:induction false} DistinctSize(d: seq<int>)
    requires forall i, j :: 0 <= i < j < |d| ==> d[i] != d[j]
    ensures |set x | x in d| == |d|
  {
    if d != [] {
      DistinctSize(d[1..]);
      assert (set x | x in d) == (set x | x in d[1..]) + {d[0]};
    }
  }

  /** Seeing x: its rank is its position among the distinct values, and the map still ranks them. */
  lemma RankStep(m: map<int, nat>, s: seq<int>, x: int)
    requires Ranks(m, Distinct(s))
    ensures Ranks(m[x := Dense(m, x)], Distinct(s + [x]))
    ensures x in Distinct(s + [x]) && Dense(m, x) == Position(Distinct(s + [x]), x)
  {
    var d := Distinct(s);
    assert (s + [x])[..|s|] == s;
    RanksSize(m, d);
    var d' := Distinct(s + [x]);
    assert d' == if x in d then d else d + [x];
    assert d'[Dense(m, x)] == x;
  }

  /** The reindexer's maps rank the distinct raw indices of each key since its last boundary. */
  lemma {:induction false} MapsRank(es: seq<Event>, key: string)
    ensures Ranks(MapFor(MapsAfter(es), key), Distinct(Raw(es, key)))
  {
    if es != [] {
      var n := |es| - 1;
      var e := es[n];
      MapsRank(es[..n], key);
      if Indexed(e) && KeyOf(e) == key {
        RankStep(MapFor(MapsAfter(es[..n]), key), Raw(es[..n], key), e.index.value);
      }
    }
  }

  lemma OutputGrows(es: seq<Event>, n: nat)
    requires n <= |es|
    ensures Output(es)[..n] == Output(es[..n])
  {
    forall k | 0 <= k < n ensures Output(es)[k] == Output(es[..n])[k] {
      assert es[..n][..k] == es[..k];
    }
  }

  lemma OutputSnoc(before: seq<Event>, e: Event)
    ensures Output(before + [e]) == Output(before) + [Emit(MapsAfter(before), e)]
    ensures MapsAfter(before + [e]) == NextMaps(MapsAfter(before), e)
  {
    var es := before + [e];
    assert es[..|before|] == before;
    OutputGrows(es, |before|);
  }

  lemma RawSnoc(before: seq<Event>, e: Event, key: string)
    ensures Raw(before + [e], key) == RawNext(Raw(before, key), e, key)
  {
    assert (before + [e])[..|before|] == before;
  }

  /** Every event comes out as the stream says it should: relabelled by first appearance, and otherwise as it was. */
  lemma EmitsRelabelled(es: seq<Event>, k: nat)
    requires k < |es|
    ensures Output(es)[k] == Relabelled(es[..k], es[k])
  {
    var e := es[k];
    if Indexed(e) {
      MapsRank(es[..k], KeyOf(e));
      RankStep(MapFor(MapsAfter(es[..k]), KeyOf(e)), Raw(es[..k], KeyOf(e)), e.index.value);
    }
  }

  /** Rank by rank: t says where each value of s stands among its distinct values. */
  ghost predicate RanksOf(t: seq<int>, s: seq<int>) {
    |t| == |s| && forall i :: 0 <= i < |s| ==> 0 <= t[i] < |Distinct(s)| && Distinct(s)[t[i]] == s[i]
  }

  lemma RanksOfNext(t: seq<int>, s: seq<int>, m: map<int, nat>, x: int)
    requires RanksOf(t, s) && Ranks(m, Distinct(s))
    ensures RanksOf(t + [Dense(m, x)], s + [x])
  {
    RankStep(m, s, x);
    assert (s + [x])[..|s|] == s;
    assert Distinct(s) <= Distinct(s + [x]);
  }

  lemma NextRanks(t: seq<int>, s: seq<int>, maps: Maps, e: Event, key: string)
    requires RanksOf(t, s) && Ranks(MapFor(maps, key), Distinct(s))
    ensures RanksOf(RawNext(t, Emit(maps, e), key), RawNext(s, e, key))
  {
    EmittedNext(t, maps, e, key);
    if Indexed(e) && KeyOf(e) == key {
      RanksOfNext(t, s, MapFor(maps, key), e.index.value);
    }
  }

  lemma EmittedNext(t: seq<int>, maps: Maps, e: Event, key: string)
    ensures RawNext(t, Emit(maps, e), key) ==
      if Resets(e) && KeyOf(e) == key then []
      else if Indexed(e) && KeyOf(e) == key then t + [Dense(MapFor(maps, key), e.index.value)]
      else t
  {
    var emitted := Emit(maps, e);
    assert Resets(emitted) == Resets(e) && Indexed(emitted) == Indexed(e);
    assert e.Message? ==> KeyOf(emitted) == KeyOf(e);
  }

  /** Between boundaries, the emitted indices of a key are the ranks of its raw ones. */
  lemma {:induction false} EmitsRanks(es: seq<Event>, key: string)
    ensures RanksOf(Raw(Output(es), key), Raw(es, key))
  {
    if es != [] {
      var n := |es| - 1;
      var before, e := es[..n], es[n];
      assert es == before + [e];
      EmitsRanks(before, key);
      MapsRank(before, key);
      OutputSnoc(before, e);
      RawSnoc(before, e, key);
      RawSnoc(Output(before), Emit(MapsAfter(before), e), key);
      NextRanks(Raw(Output(before), key), Raw(before, key), MapsAfter(before), e, key);
    }
  }

  /** Between boundaries, the emitted indices of a key are equal exactly when the raw ones are, and fill 0 to k - 1. */
  lemma DenseAndInjective(es: seq<Event>, key: string)
    ensures var s, t := Raw(es, key), Raw(Output(es), key);
      && |t| == |s|
      && (forall i, j :: 0 <= i < |s| && 0 <= j < |s| ==> (t[i] == t[j] <==> s[i] == s[j]))
      && (forall x :: x in t <==> 0 <= x < |Distinct(s)|)
  {
    EmitsRanks(es, key);
    RanksFill(Raw(Output(es), key), Raw(es, key));
  }

  lemma RanksFill(t: seq<int>, s: seq<int>)
    requires RanksOf(t, s)
    ensures forall i, j :: 0 <= i < |s| && 0 <= j < |s| ==> (t[i] == t[j] <==> s[i] == s[j])
    ensures forall x :: x in t <==> 0 <= x < |Distinct(s)|
  {
    var d := Distinct(s);
    forall x | 0 <= x < |d| ensures x in t {
      assert d[x] in s;
      var i :| 0 <= i < |s| && s[i] == d[x];
      assert d[t[i]] == d[x];
    }
  }

  // ---------------------------------------------------------------- keys

  /** Namespace names as the runtime makes them: not empty, no slash; and a node's name without a colon. */
  predicate Plain(e: Event)
    requires e.Message?
  {
    (forall name :: name in e.namespace ==> name != "" && '/' !in name) && ':' !in e.node
  }

  lemma NameStops(name: string, rest: string)
    requires '/' !in name
    ensures var u := name + ("/" + rest);
      && u[|name|] == '/' && (forall i :: 0 <= i < |name| ==> u[i] != '/')
      && u[..|name|] == name && u[|name| + 1..] == rest
  {
    var u := name + ("/" + rest);
    forall i | 0 <= i < |name| ensures u[i] != '/' {
      assert u[i] == name[i] && name[i] in name;
    }
  }

  lemma FirstNameTells(a: string, b: string, s: string, t: string)
    requires '/' !in a && '/' !in b && a + ("/" + s) == b + ("/" + t)
    ensures a == b && s == t
  {
    NameStops(a, s);
    NameStops(b, t);
  }

  lemma SlashWithin(parts: seq<string>)
    requires |parts| > 1
    ensures Joined(parts) == parts[0] + ("/" + Joined(parts[1..])) && '/' in Joined(parts)
  {
    var name, rest := parts[0], Joined(parts[1..]);
    Assoc(name, "/", rest);
    assert (name + ("/" + rest))[|name|] == '/';
  }

  lemma {:induction false} JoinedTells(a: seq<string>, b: seq<string>)
    requires forall name :: name in a || name in b ==> name != "" && '/' !in name
    requires Joined(a) == Joined(b)
    ensures a == b
    decreases |a|
  {
    assert a != [] ==> a[0] in a;
    assert b != [] ==> b[0] in b;
    if |a| > 1 {
      SlashWithin(a);
    }
    if |b| > 1 {
      SlashWithin(b);
    }
    if |a| > 1 && |b| > 1 {
      FirstNameTells(a[0], b[0], Joined(a[1..]), Joined(b[1..]));
      assert forall name :: (name in a[1..] ==> name in a) && (name in b[1..] ==> name in b);
      JoinedTells(a[1..], b[1..]);
      assert a == [a[0]] + a[1..] && b == [b[0]] + b[1..];
    }
  }

  lemma NodeStarts(key: string, node: string)
    requires ':' !in node
    ensures var u := key + "::" + node;
      && u[|key| + 1] == ':' && (forall i :: |key| + 1 < i < |u| ==> u[i] != ':')
      && u[..|key|] == key && u[|key| + 2..] == node
  {
    var u := key + "::" + node;
    forall i | |key| + 1 < i < |u| ensures u[i] != ':' {
      assert u[i] == node[i - |key| - 2] && node[i - |key| - 2] in node;
    }
  }

  lemma NodeTells(a: string, b: string, m: string, n: string)
    requires ':' !in m && ':' !in n && a + "::" + m == b + "::" + n
    ensures a == b && m == n
  {
    NodeStarts(a, m);
    NodeStarts(b, n);
  }

  /** Blocks are counted together exactly if they are of the same namespace and node. */
  lemma KeysApart(a: Event, b: Event)
    requires a.Message? && b.Message? && Plain(a) && Plain(b)
    ensures KeyOf(a) == KeyOf(b) <==> a.namespace == b.namespace && a.node == b.node
  {
    if KeyOf(a) == KeyOf(b) {
      NodeTells(Joined(a.namespace), Joined(b.namespace), a.node, b.node);
      JoinedTells(a.namespace, b.namespace);
    }
  }

  /** Names with the separators in them can be confused. */
  lemma KeysCanMeet(node: string, k: Kind, index: Option<int>, payload: nat)
    ensures KeyOf(Message(["a/b"], node, k, index, payload)) == KeyOf(Message(["a", "b"], node, k, index, payload))
  {
    assert ["a", "b"][1..] == ["b"];
    assert Joined(["a", "b"]) == "a" + "/" + "b";
  }

  // ---------------------------------------------------------------- idempotence

  /** A map on 0..n-1 that changes nothing. */
  ghost predicate Identity(m: map<int, nat>, n: nat) {
    |m| == n && (forall x :: x in m <==> 0 <= x < n) && forall x :: x in m ==> m[x] == x
  }

  ghost predicate Mirrors(again: Maps, maps: Maps) {
    forall key ::
      && Identity(MapFor(again, key), |MapFor(maps, key)|)
      && forall x :: x in MapFor(maps, key) ==> MapFor(maps, key)[x] < |MapFor(maps, key)|
  }

  lemma IdentityStep(again: map<int, nat>, m: map<int, nat>, x: int)
    requires Identity(again, |m|) && forall y :: y in m ==> m[y] < |m|
    ensures var next := m[x := Dense(m, x)]; var r := Dense(m, x);
      Dense(again, r) == r && Identity(again[r := r], |next|) && forall y :: y in next ==> next[y] < |next|
  {
    var r := Dense(m, x);
    assert |m[x := r]| == if x in m then |m| else |m| + 1;
    assert |again[r := r]| == if r in again then |again| else |again| + 1;
  }

  lemma MirrorStep(again: Maps, maps: Maps, e: Event)
    requires Mirrors(again, maps)
    ensures Mirrors(NextMaps(again, Emit(maps, e)), NextMaps(maps, e))
    ensures Emit(again, Emit(maps, e)) == Emit(maps, e)
  {
    if Indexed(e) {
      var key := KeyOf(e);
      assert Identity(MapFor(again, key), |MapFor(maps, key)|);
      IdentityStep(MapFor(again, key), MapFor(maps, key), e.index.value);
    }
    var next, next2 := NextMaps(maps, e), NextMaps(again, Emit(maps, e));
    forall key
      ensures Identity(MapFor(next2, key), |MapFor(next, key)|)
      ensures forall x :: x in MapFor(next, key) ==> MapFor(next, key)[x] < |MapFor(next, key)|
    {
      assert Identity(MapFor(again, key), |MapFor(maps, key)|);
    }
  }

  lemma {:induction false} MirrorAfter(es: seq<Event>)
    ensures Mirrors(MapsAfter(Output(es)), MapsAfter(es)) && Output(Output(es)) == Output(es)
  {
    if es != [] {
      var n := |es| - 1;
      var before, e := es[..n], es[n];
      MirrorAfter(before);
      MirrorStep(MapsAfter(Output(before)), MapsAfter(before), e);
      OutputSnoc(before, e);
      OutputSnoc(Output(before), Emit(MapsAfter(before), e));
      assert es == before + [e];
    }
  }

  /** Reindexing a reindexed stream changes nothing. */
  lemma Idempotent(es: seq<Event>)
    ensures Output(Output(es)) == Output(es)
  {
    MirrorAfter(es);
  }
}
