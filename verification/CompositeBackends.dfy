/** The composite as the mutable object callers hold. */
module CompositeBackends {
  import opened Wrappers
  import opened Seqs
  import opened Paths
  import opened StateStore
  import opened Composite

  class CompositeBackend {
    var routes: seq<(BackendPath, StateBackend)>
    const base: StateBackend

    ghost function Backends(): set<StateBackend>
      reads this
    {
      {base} + set r | r in routes :: r.1
    }

    /** Distinct prefixes over distinct backends, longest prefix first. */
    ghost predicate Valid()
      reads this
    {
      && NoDup(Prefixes(routes)) && Sorted(Prefixes(routes))
      && (forall i, j :: 0 <= i < j < |routes| ==> routes[i].1 != routes[j].1)
      && (forall r <- routes :: r.1 != base)
    }

    /** `m` lists what the backends hold. */
    ghost predicate Holds(m: Mounts)
      reads this, Backends()
    {
      && m.prefixes == Prefixes(routes) && |m.stores| == |m.prefixes| && m.base == base.files
      && forall i :: 0 <= i < |routes| ==> m.stores[i] == routes[i].1.files
    }

    constructor (base: StateBackend)
      ensures routes == [] && this.base == base && Valid()
    {
      this.base := base;
      routes := [];
    }

    method WithRoute(prefix: BackendPath, child: StateBackend)
      requires Sorted(Prefixes(routes))
      modifies this
      ensures routes == InsertRoute(old(routes), (prefix, child))
      ensures Sorted(Prefixes(routes)) && multiset(routes) == old(multiset(routes)) + multiset{(prefix, child)}
    {
      InsertRouteSorts(routes, (prefix, child));
      routes := InsertRoute(routes, (prefix, child));
    }

    /** The first matching route's backend with the translated path, or the default backend. */
    method Resolve(path: BackendPath) returns (child: StateBackend, translated: BackendPath)
      ensures translated == ChildPath(Prefixes(routes), path)
      ensures child == match Route(Prefixes(routes), path) case None => base case Some(i) => routes[i].1
    {
      hide IsAncestorOf, Translate, Route, Normal;
      for i := 0 to |routes|
        invariant forall j :: 0 <= j < i ==> !IsAncestorOf(routes[j].0, path)
      {
        if IsAncestorOf(routes[i].0, path) {
          TranslateNormal(routes[i].0, path);
          return routes[i].1, Translate(routes[i].0, path);
        }
      }
      return base, path;
    }

    method Read(path: BackendPath, offset: nat, limit: nat, ghost m: Mounts) returns (r: ReadResult)
      requires Holds(m)
      ensures WasRead(r) == StepMounts(m, Op.Read(path, offset, limit)).1
    {
      var child, translated := Resolve(path);
      r := child.Read(translated, offset, limit);
    }

    method Write(path: BackendPath, content: string, now: nat, ghost m: Mounts) returns (r: WriteResult)
      requires Valid() && Holds(m)
      modifies Backends()
      ensures Valid() && routes == old(routes)
      ensures Holds(StepMounts(m, Op.Write(path, content, now)).0)
      ensures WasWritten(r) == StepMounts(m, Op.Write(path, content, now)).1
    {
      hide IsAncestorOf, Route, ChildPath, WriteFile, IsWritten, Sorted, StepMounts;
      var child, translated := Resolve(path);
      ghost var before := child.files;
      r := child.Write(translated, content, now);
      WrittenIsWriteFile(before, child.files, translated, content, now);
      OneStoreChanged(m, path, child.files);
      StepOfWrite(m, path, content, now);
    }

    method Edit(path: BackendPath, oldText: string, newText: string, all: bool, now: nat, ghost m: Mounts)
      returns (r: Result<EditResult, BackendError>)
      requires Valid() && Holds(m)
      modifies Backends()
      ensures Valid() && routes == old(routes)
      ensures Holds(StepMounts(m, Op.Edit(path, oldText, newText, all, now)).0)
      ensures WasEdited(r) == StepMounts(m, Op.Edit(path, oldText, newText, all, now)).1
    {
      hide IsAncestorOf, Route, ChildPath, EditFile, StepMounts, Edits, Sorted;
      var child, translated := Resolve(path);
      ghost var before := child.files;
      r := child.Edit(translated, oldText, newText, all, now);
      EditedIsEditFile(before, child.files, translated, oldText, newText, all, now, r);
      OneStoreChanged(m, path, child.files);
      StepOfEdit(m, path, oldText, newText, all, now);
    }

    /** Searches the default backend, then every mounted one, moving its matches under its prefix. */
    method Grep(pattern: string, ghost m: Mounts, ghost flat: Files) returns (merged: seq<GrepMatch>)
      requires Holds(m) && Represents(m, flat)
      ensures multiset(merged) == multiset(GrepSet(flat, pattern, "", None))
    {
      merged := base.Grep(pattern, "", None);
      merged := GrepRoutes(pattern, merged, m, flat);
      MergedAll(m, flat, pattern, merged);
    }

    /** Every mounted backend's matches, moved under its prefix, are appended in turn. */
    method GrepRoutes(pattern: string, merged0: seq<GrepMatch>, ghost m: Mounts, ghost flat: Files)
      returns (merged: seq<GrepMatch>)
      requires Holds(m) && Represents(m, flat) && MergedSoFar(m, pattern, 0, merged0)
      ensures MergedSoFar(m, pattern, |m.stores|, merged)
    {
      hide Represents, MergedSoFar, GrepSet, NoDup, RebaseSeq;
      merged := merged0;
      for i := 0 to |routes|
        invariant MergedSoFar(m, pattern, i, merged)
      {
        var found := routes[i].1.Grep(pattern, "", None);
        AppendRebased(m, flat, pattern, i, found, merged);
        merged := merged + RebaseSeq(routes[i].0, found);
      }
    }
  }

  /** `merged` lists the first `n` routes' matches, and the default backend's, without repeats. */
  ghost predicate MergedSoFar(m: Mounts, pattern: string, n: nat, merged: seq<GrepMatch>)
  {
    && n <= |m.stores| == |m.prefixes|
    && NoDup(merged) && Elems(merged) == MergedUpTo(m, pattern, n)
  }

  lemma {:induction false} OneStoreChanged(m: Mounts, path: BackendPath, files: Files)
    requires |m.stores| == |m.prefixes|
    ensures WithStore(m, path, files).base == if Route(m.prefixes, path) == None then files else m.base
    ensures forall i :: 0 <= i < |m.stores| ==>
              WithStore(m, path, files).stores[i] == if Route(m.prefixes, path) == Some(i) then files else m.stores[i]
  {
  }

  lemma StepOfWrite(m: Mounts, path: BackendPath, content: string, now: nat)
    requires |m.stores| == |m.prefixes|
    ensures var k := ChildPath(m.prefixes, path);
            StepMounts(m, Op.Write(path, content, now)) ==
            (WithStore(m, path, WriteFile(StoreFor(m, path), k, content, now)), WasWritten(WriteResult(k)))
  {
  }

  lemma {:induction false} StepOfEdit(m: Mounts, path: BackendPath, a: string, b: string, all: bool, now: nat)
    requires |m.stores| == |m.prefixes|
    ensures var (f, r) := EditFile(StoreFor(m, path), ChildPath(m.prefixes, path), a, b, all, now);
            StepMounts(m, Op.Edit(path, a, b, all, now)) == (WithStore(m, path, f), WasEdited(r))
  {
  }

  function RebaseSeq(prefix: BackendPath, found: seq<GrepMatch>): (r: seq<GrepMatch>)
    ensures |r| == |found| && forall i :: 0 <= i < |r| ==> r[i] == Rebased(prefix, found[i])
  {
    seq(|found|, i requires 0 <= i < |found| => Rebased(prefix, found[i]))
  }

  /** What has been merged once the first `n` routes are done. */
  ghost function MergedUpTo(m: Mounts, pattern: string, n: nat): set<GrepMatch>
    requires n <= |m.stores| == |m.prefixes|
  {
    UnionUpTo(GrepSet(m.base, pattern, "", None), RouteSets(m, pattern), n)
  }

  /** What each route contributes. */
  ghost function RouteSets(m: Mounts, pattern: string): (r: seq<set<GrepMatch>>)
    requires |m.stores| == |m.prefixes|
    ensures |r| == |m.stores|
    ensures forall i :: 0 <= i < |r| ==> r[i] == RebasedAll(m.prefixes[i], GrepSet(m.stores[i], pattern, "", None))
  {
    seq(|m.stores|, i requires 0 <= i < |m.stores| => RebasedAll(m.prefixes[i],
        GrepSet(m.stores[i], pattern, "", None)))
  }

  ghost function UnionUpTo<T>(base: set<T>, sets: seq<set<T>>, n: nat): set<T>
    requires n <= |sets|
  {
    if n == 0 then base else UnionUpTo(base, sets, n - 1) + sets[n - 1]
  }

  lemma {:induction false} UnionHas<T>(base: set<T>, sets: seq<set<T>>, n: nat, x: T)
    requires n <= |sets|
    ensures x in UnionUpTo(base, sets, n) <==> x in base || exists i :: 0 <= i < n && x in sets[i]
  {
    if n > 0 {
      UnionHas(base, sets, n - 1, x);
    }
  }

  lemma {:induction false} MergedUpToHas(m: Mounts, pattern: string, n: nat, g: GrepMatch)
    requires n <= |m.stores| == |m.prefixes|
    ensures g in MergedUpTo(m, pattern, n) <==>
            || g in GrepSet(m.base, pattern, "", None)
            || exists i :: 0 <= i < n && InRoute(m, pattern, i, g)
  {
    var base, sets := GrepSet(m.base, pattern, "", None), RouteSets(m, pattern);
    UnionHas(base, sets, n, g);
    assert forall i :: 0 <= i < n ==> (InRoute(m, pattern, i, g) <==> g in sets[i]);
  }

  /** Route `i` contributes this match. */
  ghost predicate InRoute(m: Mounts, pattern: string, i: nat, g: GrepMatch)
    requires i < |m.stores| == |m.prefixes|
  {
    g in RebasedAll(m.prefixes[i], GrepSet(m.stores[i], pattern, "", None))
  }

  lemma {:induction false} MergedAll(m: Mounts, flat: Files, pattern: string, merged: seq<GrepMatch>)
    requires Represents(m, flat) && MergedSoFar(m, pattern, |m.stores|, merged)
    ensures multiset(merged) == multiset(GrepSet(flat, pattern, "", None))
  {
    forall g ensures g in MergedUpTo(m, pattern, |m.stores|) <==> g in MergedSet(m, pattern) {
      MergedUpToHas(m, pattern, |m.stores|, g);
      assert forall i :: 0 <= i < |m.stores| ==>
        (InRoute(m, pattern, i, g) <==> g in RebasedAll(m.prefixes[i], GrepSet(m.stores[i], pattern, "", None)));
    }
    GrepRepresents(m, flat, pattern);
    NoDupMultiset(merged);
  }

  /** A backend's matches, seen from outside, route back to that backend and keep their own path. */
  lemma {:induction false} RebasedRoutesBack(m: Mounts, flat: Files, pattern: string, i: nat, g: GrepMatch)
    requires Represents(m, flat) && i < |m.stores| && g in GrepSet(m.stores[i], pattern, "", None)
    ensures var p := Rebased(m.prefixes[i], g).path;
            Normal(p) && Route(m.prefixes, p) == Some(i) && ChildPath(m.prefixes, p) == g.path
  {
    StoredMatch(m, flat, pattern, i, g);
    assert Addressable(m.prefixes, i, g.path);
  }

  lemma {:induction false} EarlierRouteElsewhere(m: Mounts, flat: Files, pattern: string, i: nat, g: GrepMatch)
    requires Represents(m, flat) && i < |m.stores| && g in MergedUpTo(m, pattern, i)
    ensures Normal(g.path) && Route(m.prefixes, g.path) != Some(i)
  {
    MergedUpToHas(m, pattern, i, g);
    if g in GrepSet(m.base, pattern, "", None) {
      BaseMatch(m, flat, pattern, g);
    } else {
      var j :| 0 <= j < i && InRoute(m, pattern, j, g);
      var h :| h in GrepSet(m.stores[j], pattern, "", None) && g == Rebased(m.prefixes[j], h);
      RebasedRoutesBack(m, flat, pattern, j, h);
    }
  }

  lemma {:induction false} RebaseInjective(m: Mounts, flat: Files, pattern: string, i: nat, g: GrepMatch, h: GrepMatch)
    requires Represents(m, flat) && i < |m.stores|
    requires g in GrepSet(m.stores[i], pattern, "", None) && h in GrepSet(m.stores[i], pattern, "", None)
    ensures Rebased(m.prefixes[i], g) == Rebased(m.prefixes[i], h) ==> g == h
  {
    RebasedRoutesBack(m, flat, pattern, i, g);
    RebasedRoutesBack(m, flat, pattern, i, h);
  }

  lemma {:induction false} RebasedElems(prefix: BackendPath, found: seq<GrepMatch>)
    ensures Elems(RebaseSeq(prefix, found)) == RebasedAll(prefix, Elems(found))
  {
    var moved := RebaseSeq(prefix, found);
    forall g | g in RebasedAll(prefix, Elems(found)) ensures g in Elems(moved) {
      var k :| 0 <= k < |found| && g == Rebased(prefix, found[k]);
      assert moved[k] == g;
    }
    forall g | g in Elems(moved) ensures g in RebasedAll(prefix, Elems(found)) {
      var k :| 0 <= k < |moved| && g == moved[k];
      assert found[k] in Elems(found);
    }
  }

  /** Adding one route's matches repeats nothing. */
  lemma {:induction false} AppendRebased(m: Mounts, flat: Files, pattern: string, i: nat,
                                         found: seq<GrepMatch>, merged: seq<GrepMatch>)
    requires Represents(m, flat) && i < |m.stores|
    requires NoDup(found) && Elems(found) == GrepSet(m.stores[i], pattern, "", None)
    requires MergedSoFar(m, pattern, i, merged)
    ensures MergedSoFar(m, pattern, i + 1, merged + RebaseSeq(m.prefixes[i], found))
  {
    var moved := RebaseSeq(m.prefixes[i], found);
    forall a, b | 0 <= a < b < |moved| ensures moved[a] != moved[b] {
      assert found[a] in Elems(found) && found[b] in Elems(found);
      RebaseInjective(m, flat, pattern, i, found[a], found[b]);
    }
    forall a, b | 0 <= a < |merged| && 0 <= b < |moved| ensures merged[a] != moved[b] {
      assert merged[a] in Elems(merged) && found[b] in Elems(found);
      EarlierRouteElsewhere(m, flat, pattern, i, merged[a]);
      RebasedRoutesBack(m, flat, pattern, i, found[b]);
    }
    AppendApart(merged, moved);
    RebasedElems(m.prefixes[i], found);
    assert RouteSets(m, pattern)[i] == Elems(moved);
  }

  lemma {:induction false} AppendApart(a: seq<GrepMatch>, b: seq<GrepMatch>)
    requires NoDup(a) && NoDup(b)
    requires forall i, j :: 0 <= i < |a| && 0 <= j < |b| ==> a[i] != b[j]
    ensures NoDup(a + b) && Elems(a + b) == Elems(a) + Elems(b)
  {
  }
}
