/**
  Grants of host folders. A canonical host path is the sequence of its names below the root; links and
  the case where a path cannot be resolved are settled before a grant gets here.
 */
module FolderGrants {
  import opened Wrappers
  import opened Sequences
  import opened LocalFolderPaths

  type HostPath = seq<string>

  datatype Folder = Folder(id: string, path: HostPath, readOnly: bool)

  predicate Canonical(p: HostPath) {
    AreNames(p) && forall n :: n in p ==> n != "." && n != ".."
  }

  /** path.relative: up from where the paths part, then down. */
  function Relative(root: HostPath, candidate: HostPath): HostPath {
    if root != [] && candidate != [] && root[0] == candidate[0] then Relative(root[1..], candidate[1..])
    else seq(|root|, i => "..") + candidate
  }

  /** The relative path is empty or does not start by going up. */
  predicate PathIsWithin(root: HostPath, candidate: HostPath) {
    var relative := Relative(root, candidate);
    relative == [] || relative[0] != ".."
  }

  /** Containment of paths is the prefix order. */
  lemma {:induction false} WithinIsPrefix(root: HostPath, candidate: HostPath)
    requires Canonical(candidate)
    ensures PathIsWithin(root, candidate) <==> root <= candidate
  {
    assert candidate != [] ==> candidate[0] in candidate;
    if root != [] && candidate != [] && root[0] == candidate[0] {
      assert forall n :: n in candidate[1..] ==> n in candidate;
      WithinIsPrefix(root[1..], candidate[1..]);
      assert root == [root[0]] + root[1..] && candidate == [candidate[0]] + candidate[1..];
    } else if root == [] {
      assert Relative(root, candidate) == candidate;
    } else {
      assert Relative(root, candidate)[0] == "..";
    }
  }

  // ---------------------------------------------------------------- admission

  datatype Overlap = WritableParent(folder: Folder) | Redundant(folder: Folder)

  /** The two paths overlap with different access, and the outer one is writable. */
  predicate Clashes(f: Folder, path: HostPath, readOnly: bool) {
    f.readOnly != readOnly && if f.path <= path then !f.readOnly else path <= f.path && !readOnly
  }

  predicate Repeats(f: Folder, path: HostPath, readOnly: bool) {
    f.readOnly == readOnly && (f.path <= path || path <= f.path)
  }

  predicate CanonicalAll(folders: seq<Folder>) {
    forall i :: 0 <= i < |folders| ==> Canonical(folders[i].path)
  }

  ghost predicate FirstClash(folders: seq<Folder>, f: Folder, path: HostPath, readOnly: bool) {
    exists i :: 0 <= i < |folders| && f == folders[i] && Clashes(f, path, readOnly)
      && forall j :: 0 <= j < i ==> !Clashes(folders[j], path, readOnly)
  }

  ghost predicate FirstRepeat(folders: seq<Folder>, f: Folder, path: HostPath, readOnly: bool) {
    exists i :: 0 <= i < |folders| && f == folders[i] && Repeats(f, path, readOnly)
      && forall j :: 0 <= j < i ==> !Repeats(folders[j], path, readOnly)
  }

  /** The first clash wins over any repeat; otherwise the first repeat; otherwise no objection. */
  method OverlappingGrantError(folders: seq<Folder>, path: HostPath, readOnly: bool) returns (error: Option<Overlap>)
    requires CanonicalAll(folders) && Canonical(path)
    ensures error.None? <==> forall f :: f in folders ==> !Clashes(f, path, readOnly) && !Repeats(f, path, readOnly)
    ensures error.Some? && error.value.WritableParent? ==>
      FirstClash(folders, error.value.folder, path, readOnly)
    ensures error.Some? && error.value.Redundant? ==>
      && (forall f :: f in folders ==> !Clashes(f, path, readOnly))
      && FirstRepeat(folders, error.value.folder, path, readOnly)
  {
    var redundantWith: Option<Folder> := None;
    ghost var first := 0;
    for i := 0 to |folders|
      invariant forall j :: 0 <= j < i ==> !Clashes(folders[j], path, readOnly)
      invariant redundantWith.None? ==> forall j :: 0 <= j < i ==> !Repeats(folders[j], path, readOnly)
      invariant redundantWith.Some? ==>
        && first < i && redundantWith.value == folders[first] && Repeats(folders[first], path, readOnly)
        && forall j :: 0 <= j < first ==> !Repeats(folders[j], path, readOnly)
    {
      var existing := folders[i];
      WithinIsPrefix(existing.path, path);
      WithinIsPrefix(path, existing.path);
      var existingIsAncestor := PathIsWithin(existing.path, path);
      var candidateIsAncestor := PathIsWithin(path, existing.path);
      if existingIsAncestor || candidateIsAncestor {
        if existing.readOnly == readOnly {
          if redundantWith.None? {
            redundantWith := Some(existing);
            first := i;
          }
        } else {
          var ancestorReadOnly := if existingIsAncestor then existing.readOnly else readOnly;
          if !ancestorReadOnly {
            assert folders[i] in folders;
            return Some(WritableParent(existing));
          }
        }
      }
    }
    error := if redundantWith.Some? then Some(Redundant(redundantWith.value)) else None;
    assert redundantWith.Some? ==> folders[first] in folders;
  }

  // ---------------------------------------------------------------- what admission keeps

  ghost predicate NoDuplicates(folders: seq<Folder>) {
    forall i, j :: 0 <= i < j < |folders| ==> folders[i] != folders[j]
  }

  /**
    Two grants of one set: different ids and paths, and if one contains the other, the outer is read-only and the inner
    writable.
   */
  predicate Compatible(f: Folder, g: Folder) {
    && f.id != g.id && f.path != g.path
    && (f.path <= g.path ==> f.readOnly && !g.readOnly)
    && (g.path <= f.path ==> g.readOnly && !f.readOnly)
  }

  ghost predicate Layered(folders: seq<Folder>) {
    && NoDuplicates(folders)
    && (forall f :: f in folders ==> Canonical(f.path))
    && (forall f, g :: f in folders && g in folders && f != g ==> Compatible(f, g))
  }

  predicate HasPath(folders: seq<Folder>, path: HostPath) {
    exists f :: f in folders && f.path == path
  }

  predicate HasId(folders: seq<Folder>, id: string) {
    exists f :: f in folders && f.id == id
  }

  ghost predicate Admitted(folders: seq<Folder>, path: HostPath, readOnly: bool) {
    && !HasPath(folders, path)
    && forall f :: f in folders ==> !Clashes(f, path, readOnly) && !Repeats(f, path, readOnly)
  }

  /** The rule admits a grant exactly when the set with it is still layered. */
  lemma AdmissionIsExact(folders: seq<Folder>, f: Folder)
    requires Layered(folders) && Canonical(f.path) && !HasId(folders, f.id)
    ensures Admitted(folders, f.path, f.readOnly) <==> Layered(folders + [f])
  {
    var more := folders + [f];
    assert forall g :: g in more <==> g in folders || g == f;
    assert f !in folders;
    assert forall i :: 0 <= i < |folders| ==> more[i] == folders[i] && folders[i] in folders;
    assert NoDuplicates(more);
    if Layered(more) {
      forall g | g in folders
        ensures g.path != f.path && !Clashes(g, f.path, f.readOnly) && !Repeats(g, f.path, f.readOnly)
      {
        assert Compatible(g, f);
      }
    }
  }

  function Without(folders: seq<Folder>, id: string): (r: seq<Folder>)
    ensures forall f :: f in r <==> f in folders && f.id != id
  {
    if folders == [] then [] else (if folders[0].id == id then [] else [folders[0]]) + Without(folders[1..], id)
  }

  lemma {:induction false} WithoutNoDuplicates(folders: seq<Folder>, id: string)
    requires NoDuplicates(folders)
    ensures NoDuplicates(Without(folders, id))
  {
    if folders != [] {
      WithoutNoDuplicates(folders[1..], id);
      assert folders[0] !in folders[1..];
      var tail := Without(folders[1..], id);
      assert forall k :: 0 <= k < |tail| ==> tail[k] in folders[1..];
    }
  }

  lemma DeleteKeepsLayers(folders: seq<Folder>, id: string)
    requires Layered(folders)
    ensures Layered(Without(folders, id))
  {
    WithoutNoDuplicates(folders, id);
  }

  // ---------------------------------------------------------------- what it means for access

  /** No path lies in three grants. */
  lemma AtMostTwoContain(folders: seq<Folder>, p: HostPath, f: Folder, g: Folder, h: Folder)
    requires Layered(folders) && f in folders && g in folders && h in folders
    requires f.path <= p && g.path <= p && h.path <= p
    ensures f == g || g == h || f == h
  {
    PrefixesChain(f.path, g.path, p);
    PrefixesChain(g.path, h.path, p);
    PrefixesChain(f.path, h.path, p);
  }

  lemma PrefixesChain(a: HostPath, b: HostPath, p: HostPath)
    requires a <= p && b <= p
    ensures a <= b || b <= a
    ensures |a| <= |b| ==> a <= b
  {
  }

  /** A path's length as text. */
  function TextLength(p: HostPath): nat {
    |FolderPath(p)|
  }

  lemma {:induction false} JoinLength(names: seq<string>, name: string)
    requires names != []
    ensures |JoinPath(names + [name])| == |JoinPath(names)| + 1 + |name|
  {
    if |names| == 1 {
      assert (names + [name])[1..] == [name];
    } else {
      JoinLength(names[1..], name);
      assert (names + [name])[1..] == names[1..] + [name];
    }
  }

  /** Going further down makes the text longer. */
  lemma {:induction false} DeeperIsLonger(a: HostPath, b: HostPath)
    requires Canonical(b) && a <= b
    ensures TextLength(a) <= TextLength(b) && (a != b ==> TextLength(a) < TextLength(b))
    decreases |b|
  {
    if |a| < |b| {
      var c := b[..|b| - 1];
      var name := b[|b| - 1];
      assert b == c + [name] && name in b;
      assert forall n :: n in c ==> n in b;
      DeeperIsLonger(a, c);
      if c != [] {
        JoinLength(c, name);
      } else {
        assert b == [name];
      }
    } else {
      assert a == b;
    }
  }

  /** The agent's list: a stable sort, longest host path first. */
  function Insert(f: Folder, sorted: seq<Folder>): seq<Folder> {
    if sorted == [] || TextLength(sorted[0].path) <= TextLength(f.path) then [f] + sorted
    else [sorted[0]] + Insert(f, sorted[1..])
  }

  function ByLength(folders: seq<Folder>): seq<Folder> {
    if folders == [] then [] else Insert(folders[0], ByLength(folders[1..]))
  }

  predicate LongestFirst(s: seq<Folder>) {
    forall i, j :: 0 <= i < j < |s| ==> TextLength(s[j].path) <= TextLength(s[i].path)
  }

  lemma {:induction false} InsertElements(f: Folder, s: seq<Folder>)
    ensures multiset(Insert(f, s)) == multiset(s) + multiset{f}
  {
    if s == [] || TextLength(s[0].path) <= TextLength(f.path) {
    } else {
      InsertElements(f, s[1..]);
      assert s == [s[0]] + s[1..];
    }
  }

  predicate AtMost(s: seq<Folder>, n: nat) {
    forall i :: 0 <= i < |s| ==> TextLength(s[i].path) <= n
  }

  lemma {:induction false} InsertSorted(f: Folder, s: seq<Folder>, n: nat)
    requires LongestFirst(s) && AtMost(s, n) && TextLength(f.path) <= n
    ensures LongestFirst(Insert(f, s)) && AtMost(Insert(f, s), n)
  {
    if s == [] || TextLength(s[0].path) <= TextLength(f.path) {
    } else {
      InsertSorted(f, s[1..], TextLength(s[0].path));
    }
  }

  lemma InsertKeeps(f: Folder, s: seq<Folder>)
    requires LongestFirst(s)
    ensures LongestFirst(Insert(f, s)) && multiset(Insert(f, s)) == multiset(s) + multiset{f}
  {
    InsertElements(f, s);
    InsertSorted(f, s, TextLength(f.path) + if s == [] then 0 else TextLength(s[0].path));
  }

  lemma {:induction false} ByLengthSorts(folders: seq<Folder>)
    ensures LongestFirst(ByLength(folders)) && multiset(ByLength(folders)) == multiset(folders)
  {
    if folders != [] {
      var f, rest := folders[0], folders[1..];
      ByLengthSorts(rest);
      InsertKeeps(f, ByLength(rest));
      HeadMultiset(f, rest);
      HeadAndTail(folders);
    }
  }

  function OfLength(folders: seq<Folder>, n: nat): seq<Folder> {
    if folders == [] then []
    else (if TextLength(folders[0].path) == n then [folders[0]] else []) + OfLength(folders[1..], n)
  }

  lemma {:induction false} InsertStable(f: Folder, s: seq<Folder>, n: nat)
    ensures OfLength(Insert(f, s), n) == (if TextLength(f.path) == n then [f] else []) + OfLength(s, n)
  {
    if s == [] || TextLength(s[0].path) <= TextLength(f.path) {
      assert ([f] + s)[1..] == s;
    } else {
      InsertStable(f, s[1..], n);
      assert ([s[0]] + Insert(f, s[1..]))[1..] == Insert(f, s[1..]);
      EmptyIsUnit(OfLength(s[1..], n));
      EmptyIsUnit(OfLength(s, n));
      EmptyIsUnit(OfLength(Insert(f, s[1..]), n));
    }
  }

  /** Grants of equally long paths keep their order. */
  lemma {:induction false} ByLengthStable(folders: seq<Folder>, n: nat)
    ensures OfLength(ByLength(folders), n) == OfLength(folders, n)
  {
    if folders != [] {
      ByLengthStable(folders[1..], n);
      InsertStable(folders[0], ByLength(folders[1..]), n);
    }
  }

  lemma HeadMultiset(f: Folder, rest: seq<Folder>)
    ensures multiset([f] + rest) == multiset(rest) + multiset{f}
  {
  }

  /** The longest matching host path: the first in the agent's list to contain the path. */
  function Select(sorted: seq<Folder>, p: HostPath): Option<Folder> {
    if sorted == [] then None
    else if sorted[0].path <= p then Some(sorted[0])
    else Select(sorted[1..], p)
  }

  lemma {:induction false} SelectIsLongest(s: seq<Folder>, p: HostPath)
    requires LongestFirst(s)
    ensures match Select(s, p)
            case Some(f) =>
              && f in s && f.path <= p
              && forall g :: g in s && g.path <= p ==> TextLength(g.path) <= TextLength(f.path)
            case None => forall g :: g in s ==> !(g.path <= p)
  {
    if s != [] {
      SelectIsLongest(s[1..], p);
      forall g | g in s && g.path <= p
        ensures Select(s, p).Some? && TextLength(g.path) <= TextLength(Select(s, p).value.path)
      {
        assert g == s[0] || g in s[1..];
        var i :| 0 <= i < |s| && s[i] == g;
      }
    }
  }

  /**
    Additive access and longest-match access agree: some grant containing the path is writable exactly when the longest
    one is.
   */
  lemma LongestMatchDecides(folders: seq<Folder>, p: HostPath)
    requires Layered(folders)
    ensures var chosen := Select(ByLength(folders), p);
      && (chosen.None? <==> forall f :: f in folders ==> !(f.path <= p))
      && ((chosen.Some? && !chosen.value.readOnly) <==> exists f :: f in folders && f.path <= p && !f.readOnly)
  {
    var sorted := ByLength(folders);
    ByLengthSorts(folders);
    SelectIsLongest(sorted, p);
    forall f ensures f in sorted <==> f in folders {
      assert f in multiset(sorted) <==> f in multiset(folders);
    }
    var chosen := Select(sorted, p);
    if f :| f in folders && f.path <= p && !f.readOnly {
      InnerIsWritable(folders, f, chosen.value, p);
    }
  }

  /** If a writable grant contains the path, so does no longer read-only one. */
  lemma InnerIsWritable(folders: seq<Folder>, f: Folder, longest: Folder, p: HostPath)
    requires Layered(folders) && f in folders && longest in folders && f.path <= p && longest.path <= p && !f.readOnly
    requires TextLength(f.path) <= TextLength(longest.path)
    ensures !longest.readOnly
  {
    PrefixesChain(f.path, longest.path, p);
    if longest.path <= f.path {
      DeeperIsLonger(longest.path, f.path);
    }
  }
}
