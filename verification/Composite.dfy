/** A tree of mounted stores, and the proof that it behaves like one flat store. */
module Composite {
  import opened Wrappers
  import opened Seqs
  import opened Paths
  import opened StateStore

  // ── Routing ─────────────────────────────────────────────────────────

  ghost predicate Sorted(prefixes: seq<BackendPath>) {
    forall i, j :: 0 <= i < j < |prefixes| ==> |prefixes[i]| >= |prefixes[j]|
  }

  /** The first prefix that is an ancestor of the path. */
  ghost function Route(prefixes: seq<BackendPath>, path: BackendPath): (r: Option<nat>)
    ensures r.Some? ==> r.value < |prefixes| && IsAncestorOf(prefixes[r.value], path)
    ensures r.Some? ==> forall j :: 0 <= j < r.value ==> !IsAncestorOf(prefixes[j], path)
    ensures r.None? ==> forall j :: 0 <= j < |prefixes| ==> !IsAncestorOf(prefixes[j], path)
  {
    if prefixes == [] then None
    else if IsAncestorOf(prefixes[0], path) then Some(0)
    else
      match Route(prefixes[1..], path)
      case None => None
      case Some(i) => Some(i + 1)
  }

  /** Scanning a sorted list finds the one longest mounted ancestor. */
  lemma {:induction false} RouteIsLongest(prefixes: seq<BackendPath>, path: BackendPath, p: BackendPath)
    requires Sorted(prefixes)
    ensures Route(prefixes, path).Some? && prefixes[Route(prefixes, path).value] == p <==>
            && p in prefixes && IsAncestorOf(p, path)
            && forall q <- prefixes :: IsAncestorOf(q, path) ==> IsAncestorOf(q, p)
  {
    var r := Route(prefixes, path);
    if r.Some? {
      var longest := prefixes[r.value];
      forall q | q in prefixes && IsAncestorOf(q, path) ensures IsAncestorOf(q, longest) {
        var j :| 0 <= j < |prefixes| && prefixes[j] == q;
        AncestorsFormChain(q, longest, path);
      }
      if p in prefixes && IsAncestorOf(p, path) && IsAncestorOf(longest, p) {
        AncestorIsSegmentPrefix(longest, p);
        AncestorIsSegmentPrefix(p, longest);
        NormalIsRender(p);
        NormalIsRender(longest);
      }
    }
  }

  /** The order in which distinct prefixes were mounted does not matter. */
  lemma {:induction false} RouteIgnoresMountOrder(a: seq<BackendPath>, b: seq<BackendPath>, path: BackendPath)
    requires Sorted(a) && Sorted(b) && (forall p :: p in a <==> p in b)
    ensures Route(a, path).Some? <==> Route(b, path).Some?
    ensures Route(a, path).Some? ==> a[Route(a, path).value] == b[Route(b, path).value]
  {
    if Route(a, path).Some? {
      var p := a[Route(a, path).value];
      RouteIsLongest(a, path, p);
      RouteIsLongest(b, path, p);
    }
    if Route(b, path).Some? {
      var p := b[Route(b, path).value];
      RouteIsLongest(a, path, p);
      RouteIsLongest(b, path, p);
    }
  }

  function Prefixes<T>(routes: seq<(BackendPath, T)>): (r: seq<BackendPath>)
    ensures |r| == |routes| && forall i :: 0 <= i < |r| ==> r[i] == routes[i].0
  {
    seq(|routes|, i requires 0 <= i < |routes| => routes[i].0)
  }

  /** How many leading prefixes are at least as long. */
  function Position(prefixes: seq<BackendPath>, p: BackendPath): (k: nat)
    ensures k <= |prefixes|
    ensures forall j :: 0 <= j < k ==> |prefixes[j]| >= |p|
    ensures k < |prefixes| ==> |p| > |prefixes[k]|
  {
    if prefixes == [] || |p| > |prefixes[0]| then 0 else Position(prefixes[1..], p) + 1
  }

  /** Pushing a route and sorting stably, longest prefix first. */
  function InsertRoute<T>(routes: seq<(BackendPath, T)>, r: (BackendPath, T)): seq<(BackendPath, T)> {
    var k := Position(Prefixes(routes), r.0);
    routes[..k] + [r] + routes[k..]
  }

  lemma {:induction false} SpliceKeepsOrder(lens: seq<nat>, k: nat, x: nat)
    requires k <= |lens| && forall i, j :: 0 <= i < j < |lens| ==> lens[i] >= lens[j]
    requires (forall j :: 0 <= j < k ==> lens[j] >= x) && (k < |lens| ==> x > lens[k])
    ensures var all := lens[..k] + [x] + lens[k..]; forall i, j :: 0 <= i < j < |all| ==> all[i] >= all[j]
  {
  }

  ghost function Lengths(prefixes: seq<BackendPath>): seq<nat> {
    seq(|prefixes|, i requires 0 <= i < |prefixes| => |prefixes[i]|)
  }

  /** Mounting keeps the routes sorted and adds exactly the new one. */
  lemma {:induction false} InsertRouteSorts<T>(routes: seq<(BackendPath, T)>, r: (BackendPath, T))
    requires Sorted(Prefixes(routes))
    ensures Sorted(Prefixes(InsertRoute(routes, r)))
    ensures multiset(InsertRoute(routes, r)) == multiset(routes) + multiset{r}
  {
    InsertRoutePrefixes(routes, r);
    SpliceStaysSorted(Prefixes(routes), r.0);
    InsertRouteAdds(routes, r);
  }

  lemma {:induction false} SpliceStaysSorted(ps: seq<BackendPath>, p: BackendPath)
    requires Sorted(ps)
    ensures var k := Position(ps, p); Sorted(ps[..k] + [p] + ps[k..])
  {
    var k := Position(ps, p);
    SpliceKeepsOrder(Lengths(ps), k, |p|);
    SpliceLengths(ps, k, p);
    SortedByLength(ps[..k] + [p] + ps[k..]);
  }

  lemma {:induction false} SpliceLengths(ps: seq<BackendPath>, k: nat, p: BackendPath)
    requires k <= |ps|
    ensures Lengths(ps[..k] + [p] + ps[k..]) == Lengths(ps)[..k] + [|p|] + Lengths(ps)[k..]
  {
  }

  lemma {:induction false} SortedByLength(ps: seq<BackendPath>)
    requires var lens := Lengths(ps); forall i, j :: 0 <= i < j < |lens| ==> lens[i] >= lens[j]
    ensures Sorted(ps)
  {
    forall i, j | 0 <= i < j < |ps| ensures |ps[i]| >= |ps[j]| {
      assert Lengths(ps)[i] >= Lengths(ps)[j];
    }
  }

  lemma {:induction false} InsertRoutePrefixes<T>(routes: seq<(BackendPath, T)>, r: (BackendPath, T))
    ensures var ps := Prefixes(routes);
            var k := Position(ps, r.0);
            Prefixes(InsertRoute(routes, r)) == ps[..k] + [r.0] + ps[k..]
  {
  }

  lemma {:induction false} InsertRouteAdds<T>(routes: seq<(BackendPath, T)>, r: (BackendPath, T))
    ensures multiset(InsertRoute(routes, r)) == multiset(routes) + multiset{r}
  {
    SpliceAdds(routes, Position(Prefixes(routes), r.0), r);
  }

  lemma {:induction false} SpliceAdds<T>(s: seq<T>, k: nat, x: T)
    requires k <= |s|
    ensures multiset(s[..k] + [x] + s[k..]) == multiset(s) + multiset{x}
  {
    assert s == s[..k] + s[k..];
  }

  // ── Values of a composite ───────────────────────────────────────────

  /** The contents behind each prefix, and of the default backend. */
  datatype Mounts = Mounts(prefixes: seq<BackendPath>, stores: seq<Files>, base: Files)

  ghost predicate WellMounted(m: Mounts) {
    |m.stores| == |m.prefixes| && NoDup(m.prefixes) && Sorted(m.prefixes)
  }

  lemma {:induction false} TranslateNormal(prefix: BackendPath, path: BackendPath)
    requires IsAncestorOf(prefix, path)
    ensures Normal(Translate(prefix, path))
  {
    if prefix == path {
      assert path[|prefix|..] == "";
    } else {
      TranslateSegments(prefix, path);
    }
  }

  /** The path the selected backend is asked for. */
  ghost function ChildPath(prefixes: seq<BackendPath>, path: BackendPath): BackendPath {
    match Route(prefixes, path)
    case None => path
    case Some(i) =>
      TranslateNormal(prefixes[i], path);
      Translate(prefixes[i], path)
  }

  /** What a path reported by the backend serving `path` means outside the composite. */
  ghost function Outside(prefixes: seq<BackendPath>, path: BackendPath, reported: string): string {
    match Route(prefixes, path)
    case None => reported
    case Some(i) => Rebuild(prefixes[i], reported)
  }

  ghost function StoreFor(m: Mounts, path: BackendPath): Files
    requires |m.stores| == |m.prefixes|
  {
    match Route(m.prefixes, path)
    case None => m.base
    case Some(i) => m.stores[i]
  }

  ghost function WithStore(m: Mounts, path: BackendPath, files: Files): (r: Mounts)
    requires |m.stores| == |m.prefixes|
    ensures r.prefixes == m.prefixes && |r.stores| == |r.prefixes|
  {
    match Route(m.prefixes, path)
    case None => m.(base := files)
    case Some(i) => m.(stores := m.stores[i := files])
  }

  /** A mount point other than the root is the one kind of path that does not round-trip. */
  ghost predicate Clear(prefixes: seq<BackendPath>, path: string) {
    path !in prefixes || path == "/"
  }

  /** For clear paths, `Outside` undoes `ChildPath`. */
  lemma {:induction false} OutsideChild(prefixes: seq<BackendPath>, path: BackendPath)
    requires Clear(prefixes, path)
    ensures Outside(prefixes, path, ChildPath(prefixes, path)) == path
  {
    var r := Route(prefixes, path);
    if r.Some? {
      if prefixes[r.value] == path {
        assert path == "/" && "/"[1..] == "";
      } else {
        RebuildTranslate(prefixes[r.value], path);
      }
    }
  }

  // ── The abstraction ─────────────────────────────────────────────────

  /** A key of store `i` is what some clear outside path routed to `i` translates to. */
  ghost predicate Addressable(prefixes: seq<BackendPath>, i: nat, k: BackendPath)
    requires i < |prefixes|
  {
    var p := Rebuild(prefixes[i], k);
    Normal(p) && Clear(prefixes, p) && Route(prefixes, p) == Some(i) && ChildPath(prefixes, p) == k
  }

  ghost predicate Agree(m: Mounts, flat: Files, p: BackendPath)
    requires |m.stores| == |m.prefixes|
  {
    var store, k := StoreFor(m, p), ChildPath(m.prefixes, p);
    (p in flat <==> k in store) && (p in flat ==> flat[p] == store[k])
  }

  /** `flat` is the composite's contents under outside paths. */
  ghost predicate Represents(m: Mounts, flat: Files) {
    && WellMounted(m)
    && (forall p: BackendPath :: Clear(m.prefixes, p) ==> Agree(m, flat, p))
    && (forall p :: p in flat ==> Clear(m.prefixes, p))
    && (forall i, k :: 0 <= i < |m.stores| && k in m.stores[i] ==> Addressable(m.prefixes, i, k))
    && (forall k :: k in m.base ==> Route(m.prefixes, k) == None)
  }

  ghost function EmptyMounts(prefixes: seq<BackendPath>): Mounts {
    Mounts(prefixes, seq(|prefixes|, _ => map[]), map[])
  }

  lemma {:induction false} EmptyRepresents(prefixes: seq<BackendPath>)
    requires NoDup(prefixes) && Sorted(prefixes)
    ensures Represents(EmptyMounts(prefixes), map[])
  {
  }

  /** Two clear paths served by the same backend under the same key are the same path. */
  lemma {:induction false} ChildPathInjective(prefixes: seq<BackendPath>, p: BackendPath, q: BackendPath)
    requires Clear(prefixes, p) && Clear(prefixes, q)
    requires Route(prefixes, p) == Route(prefixes, q) && ChildPath(prefixes, p) == ChildPath(prefixes, q)
    ensures p == q
  {
    OutsideChild(prefixes, p);
    OutsideChild(prefixes, q);
  }

  lemma {:induction false} StoreAgrees(m: Mounts, flat: Files, path: BackendPath, data: FileData, p: BackendPath)
    requires WellMounted(m) && Agree(m, flat, p) && Clear(m.prefixes, path) && Clear(m.prefixes, p)
    ensures Agree(WithStore(m, path, StoreFor(m, path)[ChildPath(m.prefixes, path) := data]), flat[path := data], p)
  {
    var files := StoreFor(m, path)[ChildPath(m.prefixes, path) := data];
    StoreForAfter(m, path, files, p);
    if Route(m.prefixes, p) == Route(m.prefixes, path) && ChildPath(m.prefixes, p) == ChildPath(m.prefixes, path) {
      ChildPathInjective(m.prefixes, p, path);
    }
  }

  /** Replacing one backend's contents shows exactly on the paths routed to it. */
  lemma {:induction false} StoreForAfter(m: Mounts, path: BackendPath, files: Files, p: BackendPath)
    requires |m.stores| == |m.prefixes|
    ensures StoreFor(WithStore(m, path, files), p)
         == if Route(m.prefixes, p) == Route(m.prefixes, path) then files else StoreFor(m, p)
  {
  }

  lemma {:induction false} StoreAddressable(m: Mounts, path: BackendPath)
    requires WellMounted(m) && Clear(m.prefixes, path)
    ensures match Route(m.prefixes, path)
            case None => Route(m.prefixes, ChildPath(m.prefixes, path)) == None
            case Some(i) => Addressable(m.prefixes, i, ChildPath(m.prefixes, path))
  {
    OutsideChild(m.prefixes, path);
  }

  /** Storing through the composite is storing in the flat map. */
  lemma {:induction false} StoreRepresents(m: Mounts, flat: Files, path: BackendPath, data: FileData)
    requires Represents(m, flat) && Clear(m.prefixes, path)
    ensures Represents(WithStore(m, path, StoreFor(m, path)[ChildPath(m.prefixes, path) := data]), flat[path := data])
  {
    var key := ChildPath(m.prefixes, path);
    var m2 := WithStore(m, path, StoreFor(m, path)[key := data]);
    forall p: BackendPath | Clear(m.prefixes, p) ensures Agree(m2, flat[path := data], p) {
      StoreAgrees(m, flat, path, data, p);
    }
    hide Agree, Clear;
    StoreAddressable(m, path);
    forall i, k | 0 <= i < |m2.stores| && k in m2.stores[i] ensures Addressable(m2.prefixes, i, k) {
      if k in m.stores[i] {
        assert Addressable(m.prefixes, i, k);
      }
    }
  }

  // ── Searching everywhere ────────────────────────────────────────────

  function Rebased(prefix: BackendPath, g: GrepMatch): GrepMatch {
    g.(path := Rebuild(prefix, g.path))
  }

  ghost function RebasedAll(prefix: BackendPath, found: set<GrepMatch>): set<GrepMatch> {
    set g | g in found :: Rebased(prefix, g)
  }

  /** The default backend's matches, and every route's, moved under its prefix. */
  ghost function MergedSet(m: Mounts, pattern: string): set<GrepMatch>
    requires |m.stores| == |m.prefixes|
  {
    GrepSet(m.base, pattern, "", None) +
    set i, g | 0 <= i < |m.stores| && g in RebasedAll(m.prefixes[i], GrepSet(m.stores[i], pattern, "", None)) :: g
  }

  lemma {:induction false} StoredMatch(m: Mounts, flat: Files, pattern: string, i: nat, g: GrepMatch)
    requires Represents(m, flat) && i < |m.stores| && g in GrepSet(m.stores[i], pattern, "", None)
    ensures Normal(g.path) && g.path in m.stores[i]
    ensures Rebased(m.prefixes[i], g) in GrepSet(flat, pattern, "", None)
  {
    var k :| k in m.stores[i] && g in FileMatches(k, m.stores[i][k].content, pattern);
    assert Addressable(m.prefixes, i, k);
    var p: BackendPath := Rebuild(m.prefixes[i], k);
    assert Agree(m, flat, p);
    assert Rebased(m.prefixes[i], g) in FileMatches(p, flat[p].content, pattern);
  }

  lemma {:induction false} BaseMatch(m: Mounts, flat: Files, pattern: string, g: GrepMatch)
    requires Represents(m, flat) && g in GrepSet(m.base, pattern, "", None)
    ensures g in GrepSet(flat, pattern, "", None) && Normal(g.path) && Route(m.prefixes, g.path) == None
  {
    var k :| k in m.base && g in FileMatches(k, m.base[k].content, pattern);
    assert IsAncestorOf(k, k);
    assert Clear(m.prefixes, k);
    assert Agree(m, flat, k);
  }

  /** Moving a match between two paths with the same content. */
  lemma {:induction false} MatchMoves(p: string, q: string, content: string, pattern: string, g: GrepMatch)
    requires g in FileMatches(p, content, pattern)
    ensures g.path == p && g.(path := q) in FileMatches(q, content, pattern)
  {
  }

  lemma {:induction false} FlatMatch(m: Mounts, flat: Files, pattern: string, g: GrepMatch)
    requires Represents(m, flat) && g in GrepSet(flat, pattern, "", None)
    ensures g in MergedSet(m, pattern)
  {
    var p :| p in flat && g in FileMatches(p, flat[p].content, pattern);
    assert Agree(m, flat, p);
    OutsideChild(m.prefixes, p);
    var store, k := StoreFor(m, p), ChildPath(m.prefixes, p);
    var h := g.(path := k);
    MatchMoves(p, k, flat[p].content, pattern, g);
    assert Searched(k, "", None);
    assert h in GrepSet(store, pattern, "", None);
    if Route(m.prefixes, p).Some? {
      var i := Route(m.prefixes, p).value;
      assert g == Rebased(m.prefixes[i], h);
      assert g in RebasedAll(m.prefixes[i], GrepSet(m.stores[i], pattern, "", None));
    }
  }

  /** An unscoped search of the composite finds what the same search of the flat map finds. */
  lemma {:induction false} GrepRepresents(m: Mounts, flat: Files, pattern: string)
    requires Represents(m, flat)
    ensures MergedSet(m, pattern) == GrepSet(flat, pattern, "", None)
  {
    forall g | g in MergedSet(m, pattern) ensures g in GrepSet(flat, pattern, "", None) {
      if g in GrepSet(m.base, pattern, "", None) {
        BaseMatch(m, flat, pattern, g);
      } else {
        var i, h :| 0 <= i < |m.stores| && h in GrepSet(m.stores[i], pattern, "", None)
           && g == Rebased(m.prefixes[i], h);
        StoredMatch(m, flat, pattern, i, h);
      }
    }
    forall g | g in GrepSet(flat, pattern, "", None) ensures g in MergedSet(m, pattern) {
      FlatMatch(m, flat, pattern, g);
    }
  }

  // ── Runs ────────────────────────────────────────────────────────────

  datatype Op =
    | Read(path: BackendPath, offset: nat, limit: nat)
    | Write(path: BackendPath, content: string, now: nat)
    | Edit(path: BackendPath, oldText: string, newText: string, all: bool, now: nat)
    | Grep(pattern: string)

  datatype Answer =
    | WasRead(read: ReadResult)
    | WasWritten(written: WriteResult)
    | WasEdited(edited: Result<EditResult, BackendError>)
    | Found(matches: set<GrepMatch>)

  ghost function StepFlat(files: Files, op: Op): (Files, Answer) {
    match op
    case Read(p, o, l) => (files, WasRead(ReadFile(files, p, o, l)))
    case Write(p, c, now) => (WriteFile(files, p, c, now), WasWritten(WriteResult(p)))
    case Edit(p, a, b, all, now) => var (f, r) := EditFile(files, p, a, b, all, now); (f, WasEdited(r))
    case Grep(pattern) => (files, Found(GrepSet(files, pattern, "", None)))
  }

  /** The composite resolves the path, asks the backend, and passes its answer on unchanged. */
  ghost function StepMounts(m: Mounts, op: Op): (Mounts, Answer)
    requires |m.stores| == |m.prefixes|
  {
    match op
    case Read(p, o, l) => (m, WasRead(ReadFile(StoreFor(m, p), ChildPath(m.prefixes, p), o, l)))
    case Write(p, c, now) =>
      var k := ChildPath(m.prefixes, p);
      (WithStore(m, p, WriteFile(StoreFor(m, p), k, c, now)), WasWritten(WriteResult(k)))
    case Edit(p, a, b, all, now) =>
      var (f, r) := EditFile(StoreFor(m, p), ChildPath(m.prefixes, p), a, b, all, now);
      (WithStore(m, p, f), WasEdited(r))
    case Grep(pattern) => (m, Found(MergedSet(m, pattern)))
  }

  /** The path an answer to `op` mentions, read from outside. */
  ghost function FromOutside(prefixes: seq<BackendPath>, op: Op, answer: Answer): Answer {
    match (op, answer)
    case (Write(p, _, _), WasWritten(w)) => WasWritten(WriteResult(Outside(prefixes, p, w.path)))
    case (Edit(p, _, _, _, _), WasEdited(Ok(e))) => WasEdited(Ok(e.(path := Outside(prefixes, p, e.path))))
    case (Edit(p, _, _, _, _), WasEdited(Err(e))) => WasEdited(Err(e.(path := Outside(prefixes, p, e.path))))
    case _ => answer
  }

  ghost predicate ClearOp(prefixes: seq<BackendPath>, op: Op) {
    op.Grep? || Clear(prefixes, op.path)
  }

  /** One operation: same answer, and the states still correspond. */
  lemma {:induction false} StepRefines(m: Mounts, flat: Files, op: Op)
    requires Represents(m, flat) && ClearOp(m.prefixes, op)
    ensures Represents(StepMounts(m, op).0, StepFlat(flat, op).0)
    ensures StepMounts(m, op).0.prefixes == m.prefixes
    ensures FromOutside(m.prefixes, op, StepMounts(m, op).1) == StepFlat(flat, op).1
  {
    match op
    case Grep(pattern) => GrepRepresents(m, flat, pattern);
    case Read(p, _, _) => assert Agree(m, flat, p);
    case Write(p, c, now) => WriteRefines(m, flat, p, c, now);
    case Edit(p, a, b, all, now) => EditRefines(m, flat, p, a, b, all, now);
  }

  lemma {:induction false} WriteRefines(m: Mounts, flat: Files, p: BackendPath, c: string, now: nat)
    requires Represents(m, flat) && Clear(m.prefixes, p)
    ensures var op := Write(p, c, now);
            && Represents(StepMounts(m, op).0, StepFlat(flat, op).0)
            && FromOutside(m.prefixes, op, StepMounts(m, op).1) == StepFlat(flat, op).1
  {
    assert Agree(m, flat, p);
    WriteStores(m, flat, p, c, now);
    StoreRepresents(m, flat, p, WriteFile(flat, p, c, now)[p]);
  }

  /** On both sides a write stores the same data; the answers name the path as each side knows it. */
  lemma {:induction false} WriteStores(m: Mounts, flat: Files, p: BackendPath, c: string, now: nat)
    requires |m.stores| == |m.prefixes| && Clear(m.prefixes, p) && Agree(m, flat, p)
    ensures var op, k, data := Write(p, c, now), ChildPath(m.prefixes, p), WriteFile(flat, p, c, now)[p];
            && StepMounts(m, op).0 == WithStore(m, p, StoreFor(m, p)[k := data])
            && StepFlat(flat, op).0 == flat[p := data]
            && FromOutside(m.prefixes, op, StepMounts(m, op).1) == StepFlat(flat, op).1
  {
    WriteAlike(flat, p, StoreFor(m, p), ChildPath(m.prefixes, p), c, now);
    OutsideChild(m.prefixes, p);
  }

  /** Two stores that agree on a file, or its absence, store the same data for a write to it. */
  lemma {:induction false} WriteAlike(f: Files, p: BackendPath, g: Files, q: BackendPath, c: string, now: nat)
    requires p in f <==> q in g
    requires p in f ==> f[p] == g[q]
    ensures var data := WriteFile(f, p, c, now)[p];
            WriteFile(f, p, c, now) == f[p := data] && WriteFile(g, q, c, now) == g[q := data]
  {
  }

  lemma {:induction false} SameStore(m: Mounts, p: BackendPath)
    requires |m.stores| == |m.prefixes|
    ensures WithStore(m, p, StoreFor(m, p)) == m
  {
  }

  /** Two stores holding the same file treat an edit of it the same way. */
  lemma {:induction false} EditAlike(f: Files, p: BackendPath, g: Files, q: BackendPath,
                                     a: string, b: string, all: bool, now: nat)
    requires p in f <==> q in g
    requires p in f ==> f[p] == g[q]
    ensures var (f2, r) := EditFile(f, p, a, b, all, now);
            var (g2, s) := EditFile(g, q, a, b, all, now);
            match r
            case Ok(e) => p in f2 && f2 == f[p := f2[p]] && g2 == g[q := f2[p]] && e.path == p && s == Ok(e.(path := q))
            case Err(e) => f2 == f && g2 == g && e.path == p && s == Err(e.(path := q))
  {
  }

  lemma {:induction false} EditRefines(m: Mounts, flat: Files, p: BackendPath, a: string, b: string, all: bool,
                                       now: nat)
    requires Represents(m, flat) && Clear(m.prefixes, p)
    ensures var op := Edit(p, a, b, all, now);
            && Represents(StepMounts(m, op).0, StepFlat(flat, op).0)
            && FromOutside(m.prefixes, op, StepMounts(m, op).1) == StepFlat(flat, op).1
  {
    var store, k := StoreFor(m, p), ChildPath(m.prefixes, p);
    assert Agree(m, flat, p);
    OutsideChild(m.prefixes, p);
    EditAlike(flat, p, store, k, a, b, all, now);
    var (f, r) := EditFile(flat, p, a, b, all, now);
    assert Represents(WithStore(m, p, EditFile(store, k, a, b, all, now).0), f) by {
      if r.Ok? {
        StoreRepresents(m, flat, p, f[p]);
      } else {
        SameStore(m, p);
      }
    }
    EditAnswer(m, p, a, b, all, now, flat);
  }

  lemma {:induction false} EditAnswer(m: Mounts, p: BackendPath, a: string, b: string, all: bool, now: nat, flat: Files)
    requires |m.stores| == |m.prefixes| && Clear(m.prefixes, p) && Agree(m, flat, p)
    ensures var op := Edit(p, a, b, all, now);
            FromOutside(m.prefixes, op, StepMounts(m, op).1) == StepFlat(flat, op).1
  {
    OutsideChild(m.prefixes, p);
    EditAlike(flat, p, StoreFor(m, p), ChildPath(m.prefixes, p), a, b, all, now);
  }

  ghost function RunFlat(files: Files, ops: seq<Op>): (r: seq<Answer>)
    ensures |r| == |ops|
    decreases |ops|
  {
    if ops == [] then []
    else var (f, a) := StepFlat(files, ops[0]); [a] + RunFlat(f, ops[1..])
  }

  ghost function RunMounts(m: Mounts, ops: seq<Op>): (r: seq<Answer>)
    requires |m.stores| == |m.prefixes|
    ensures |r| == |ops|
    decreases |ops|
  {
    if ops == [] then []
    else
      var (n, a) := StepMounts(m, ops[0]);
      [FromOutside(m.prefixes, ops[0], a)] + RunMounts(n, ops[1..])
  }

  lemma {:induction false} RunRefines(m: Mounts, flat: Files, ops: seq<Op>)
    requires Represents(m, flat) && forall op <- ops :: ClearOp(m.prefixes, op)
    ensures RunMounts(m, ops) == RunFlat(flat, ops)
    decreases |ops|
  {
    if ops != [] {
      StepRefines(m, flat, ops[0]);
      RunRefines(StepMounts(m, ops[0]).0, StepFlat(flat, ops[0]).0, ops[1..]);
    }
  }

  /** Started empty, the composite cannot be told from one flat store on clear paths. */
  lemma {:induction false} CompositeIsFlat(prefixes: seq<BackendPath>, ops: seq<Op>)
    requires NoDup(prefixes) && Sorted(prefixes) && forall op <- ops :: ClearOp(prefixes, op)
    ensures RunMounts(EmptyMounts(prefixes), ops) == RunFlat(map[], ops)
  {
    EmptyRepresents(prefixes);
    RunRefines(EmptyMounts(prefixes), map[], ops);
  }

  // ── The answers as they are ─────────────────────────────────────────

  /** The backend serving this path knows it by the same name. */
  ghost predicate Unmoved(prefixes: seq<BackendPath>, path: BackendPath) {
    match Route(prefixes, path)
    case None => true
    case Some(i) => prefixes[i] == "/"
  }

  lemma {:induction false} ChildKeepsNameIff(prefixes: seq<BackendPath>, path: BackendPath)
    requires Clear(prefixes, path)
    ensures ChildPath(prefixes, path) == path <==> Unmoved(prefixes, path)
  {
    var r := Route(prefixes, path);
    if r.Some? && prefixes[r.value] != path {
      var prefix, child := prefixes[r.value], ChildPath(prefixes, path);
      TranslateSegments(prefix, path);
      NormalIsRender(prefix);
      NormalIsRender(path);
      NormalIsRender(child);
      assert |Segments(child)| == |Segments(path)| - |Segments(prefix)|;
      NormalRoot();
    } else if r.Some? {
      OutsideChild(prefixes, path);
    }
  }

  /** Reads and searches answer alike; a write or edit, even a failing one, only where the path keeps its name. */
  ghost predicate AnswersAlike(prefixes: seq<BackendPath>, op: Op) {
    op.Read? || op.Grep? || Unmoved(prefixes, op.path)
  }

  /** The composite's own answer is the flat map's exactly where the child is asked under the same name. */
  lemma {:induction false} RawAnswerIff(m: Mounts, flat: Files, op: Op)
    requires Represents(m, flat) && ClearOp(m.prefixes, op)
    ensures StepMounts(m, op).1 == StepFlat(flat, op).1 <==> AnswersAlike(m.prefixes, op)
  {
    match op
    case Grep(pattern) => GrepRepresents(m, flat, pattern);
    case Read(p, _, _) => assert Agree(m, flat, p);
    case Write(p, c, now) => ChildKeepsNameIff(m.prefixes, p);
    case Edit(p, a, b, all, now) =>
      assert Agree(m, flat, p);
      RawEditIff(m, flat, p, a, b, all, now);
  }

  lemma {:induction false} RawEditIff(m: Mounts, flat: Files, p: BackendPath, a: string, b: string, all: bool, now: nat)
    requires |m.stores| == |m.prefixes| && Clear(m.prefixes, p) && Agree(m, flat, p)
    ensures var op := Edit(p, a, b, all, now); StepMounts(m, op).1 == StepFlat(flat, op).1 <==> Unmoved(m.prefixes, p)
  {
    EditAlike(flat, p, StoreFor(m, p), ChildPath(m.prefixes, p), a, b, all, now);
    ChildKeepsNameIff(m.prefixes, p);
  }

  /** A run's answers exactly as the composite gives them. */
  ghost function RunRaw(m: Mounts, ops: seq<Op>): (r: seq<Answer>)
    requires |m.stores| == |m.prefixes|
    ensures |r| == |ops|
    decreases |ops|
  {
    if ops == [] then [] else var (n, a) := StepMounts(m, ops[0]); [a] + RunRaw(n, ops[1..])
  }

  /** A whole run is answered like the flat map's run exactly if each of its operations is. */
  lemma {:induction false} RunRawIff(m: Mounts, flat: Files, ops: seq<Op>)
    requires Represents(m, flat) && forall op <- ops :: ClearOp(m.prefixes, op)
    ensures RunRaw(m, ops) == RunFlat(flat, ops) <==> forall op <- ops :: AnswersAlike(m.prefixes, op)
    decreases |ops|
  {
    if ops != [] {
      StepRefines(m, flat, ops[0]);
      RawAnswerIff(m, flat, ops[0]);
      RunRawIff(StepMounts(m, ops[0]).0, StepFlat(flat, ops[0]).0, ops[1..]);
      ConsAlike(m.prefixes, ops);
      var raw, one := RunRaw(m, ops), RunFlat(flat, ops);
      assert raw[1..] == RunRaw(StepMounts(m, ops[0]).0, ops[1..])
         && one[1..] == RunFlat(StepFlat(flat, ops[0]).0, ops[1..]);
      assert raw == [raw[0]] + raw[1..] && one == [one[0]] + one[1..];
    }
  }

  lemma ConsAlike(prefixes: seq<BackendPath>, ops: seq<Op>)
    requires ops != []
    ensures (forall op <- ops :: AnswersAlike(prefixes, op)) <==>
            AnswersAlike(prefixes, ops[0]) && forall op <- ops[1..] :: AnswersAlike(prefixes, op)
  {
    assert forall op :: op in ops <==> op == ops[0] || op in ops[1..];
  }

  lemma OneLine()
    ensures Lines("x") == ["x"]
  {
    var x := "x";
    assert "" + [x[0]] == x && x[1..] == "";
    assert LinesFrom("", x) == LinesFrom("" + [x[0]], x[1..]) == LinesFrom(x, "") == [x];
  }

  lemma {:induction false} MountPointRoutesToItself(prefixes: seq<BackendPath>, p: BackendPath)
    requires NoDup(prefixes) && Sorted(prefixes) && !Clear(prefixes, p)
    ensures Route(prefixes, p).Some? && prefixes[Route(prefixes, p).value] == p
    ensures ChildPath(prefixes, p) == p && Rebuild(p, p) != p
  {
    assert IsAncestorOf(p, p);
    var j :| 0 <= j < |prefixes| && prefixes[j] == p;
    RouteIsLongest(prefixes, p, p);
    assert p[|p|..] == "";
    NormalIsRender(p);
    assert Segments(p) != [];
    RebuildSegments(p, p);
  }

  /** After the write, the composite's search reports the file under another path. */
  lemma {:induction false} SearchAfterWrite(prefixes: seq<BackendPath>, p: BackendPath)
    requires NoDup(prefixes) && Sorted(prefixes) && !Clear(prefixes, p)
    ensures var hit := GrepMatch(p, 1, "x");
            && hit !in MergedSet(StepMounts(EmptyMounts(prefixes), Write(p, "x", 0)).0, "x")
            && hit in GrepSet(StepFlat(map[], Write(p, "x", 0)).0, "x", "", None)
  {
    var m := StepMounts(EmptyMounts(prefixes), Write(p, "x", 0)).0;
    OneLine();
    assert "x"[0..] == "x" && Has("x", "x");
    assert Lines("x")[0] == "x" && GrepMatch(p, 1, "x") in FileMatches(p, "x", "x");
    OnlyAtItsMount(prefixes, p);
    assert m.base == map[];
    forall i | 0 <= i < |m.stores| ensures GrepMatch(p, 1, "x") !in RebasedAll(prefixes[i],
        GrepSet(m.stores[i], "x", "", None)) {
      MountHidesItself(prefixes, p, m.stores[i], i);
    }
  }

  /** The written file sits in the store mounted at its own path, under its own path. */
  lemma {:induction false} OnlyAtItsMount(prefixes: seq<BackendPath>, p: BackendPath)
    requires NoDup(prefixes) && Sorted(prefixes) && !Clear(prefixes, p)
    ensures var m := StepMounts(EmptyMounts(prefixes), Write(p, "x", 0)).0;
            && m.base == map[] && m.prefixes == prefixes && |m.stores| == |prefixes|
            && forall i, q :: 0 <= i < |m.stores| && q in m.stores[i] ==> q == p && prefixes[i] == p
  {
    MountPointRoutesToItself(prefixes, p);
  }

  lemma {:induction false} MountHidesItself(prefixes: seq<BackendPath>, p: BackendPath, store: Files, i: nat)
    requires NoDup(prefixes) && Sorted(prefixes) && !Clear(prefixes, p) && i < |prefixes|
    requires forall q :: q in store ==> q == p && prefixes[i] == p
    ensures GrepMatch(p, 1, "x") !in RebasedAll(prefixes[i], GrepSet(store, "x", "", None))
  {
    MountPointRoutesToItself(prefixes, p);
    forall h | h in GrepSet(store, "x", "", None) ensures GrepMatch(p, 1, "x") != Rebased(prefixes[i], h) {
      var q :| q in store && h in FileMatches(q, store[q].content, "x");
      assert q == p && h.path == p && prefixes[i] == p;
    }
  }

  /** Writing to any mount point but the root gives the composite away. */
  lemma {:induction false} MountPointTells(prefixes: seq<BackendPath>, p: BackendPath)
    requires NoDup(prefixes) && Sorted(prefixes) && !Clear(prefixes, p)
    ensures exists ops: seq<Op> :: (forall op <- ops :: op.Grep? || op.path == p)
                                   && RunMounts(EmptyMounts(prefixes), ops) != RunFlat(map[], ops)
  {
    SearchAfterWrite(prefixes, p);
    var w, g := Write(p, "x", 0), Grep("x");
    SecondAnswers(EmptyMounts(prefixes), map[], w, g);
    var ops := [w, g];
    assert forall op <- ops :: op.Grep? || op.path == p;
  }

  lemma {:induction false} SecondAnswers(m: Mounts, flat: Files, a: Op, b: Op)
    requires |m.stores| == |m.prefixes|
    ensures RunMounts(m, [a, b])[1] == FromOutside(m.prefixes, b, StepMounts(StepMounts(m, a).0, b).1)
    ensures RunFlat(flat, [a, b])[1] == StepFlat(StepFlat(flat, a).0, b).1
  {
    assert [a, b][1..] == [b];
    assert RunMounts(m, [a, b])[1] == RunMounts(StepMounts(m, a).0, [b])[0];
    assert RunFlat(flat, [a, b])[1] == RunFlat(StepFlat(flat, a).0, [b])[0];
  }
}
