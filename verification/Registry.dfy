/** Declared resources resolved against a snapshot of the bus: which node owns which tool. */
module Registry {
  import opened Wrappers
  import opened Seqs
  import opened Messages

  datatype DeclaredFilter = All | Subset(names: seq<string>) | NoNames
  {
    predicate Accepts(name: string) {
      All? || (Subset? && name in names)
    }
  }

  datatype ModelDecl = ModelDecl(provider: string, modelName: string)

  datatype ResourceSpec = ResourceSpec(resourceName: string, nodeType: string, capabilities: Option<Json>)

  datatype Binding = Binding(resourceName: string, nodeId: NodeId, filter: DeclaredFilter)

  datatype ResourceRegistry = ResourceRegistry(model: NodeId, mcp: map<NodeId, Binding>, custom: map<NodeId, Binding>,
                                               toolIndex: map<string, NodeId>)

  datatype BuildError =
    | MissingModel(providerMatched: bool)
    | MissingNode(resourceName: string, nodeType: string)
    | AmbiguousTool(tool: string, owner: NodeId, resourceName: string)

  datatype ToolSpec = ToolSpec(name: string, description: string, params: Json)

  // ── What declarations and nodes say ─────────────────────────────────

  ghost predicate ListsText(caps: Json, key: string, text: string) {
    exists items :: HasField(caps, key, Arr(items)) && Str(text) in items
  }

  /** "all" as the value, or in the list. */
  ghost predicate AsksAll(caps: Json, key: string) {
    HasField(caps, key, Str("all")) || ListsText(caps, key, "all")
  }

  ghost predicate TakesAll(caps: Option<Json>) {
    caps.Some? && (AsksAll(caps.value, "tools") || AsksAll(caps.value, "skills"))
  }

  /** A declaration takes any name if it asks for all, else the non-empty names of its two lists. */
  ghost predicate Admits(caps: Option<Json>, name: string) {
    || TakesAll(caps)
    || (caps.Some? && name != "" && (ListsText(caps.value, "tools", name) || ListsText(caps.value, "skills", name)))
  }

  /** The item at `m` of the node's tools has this non-empty name. */
  ghost predicate ToolAt(node: NodeInfo, m: nat, tool: string) {
    exists items :: HasField(node.capabilities, "tools", Arr(items)) && NamedAt(items, m, tool)
  }

  ghost predicate NamedAt(items: seq<Json>, m: nat, name: string) {
    m < |items| && HasField(items[m], "name", Str(name)) && name != ""
  }

  ghost predicate Has(node: NodeInfo, name: string) {
    (exists m :: ToolAt(node, m, name)) || (name != "" && ListsText(node.capabilities, "skills", name))
  }

  /** Of the type asked for; if names are asked for, but not all, with one of them. */
  ghost predicate Suits(spec: ResourceSpec, n: NodeInfo) {
    && n.nodeType == spec.nodeType
    && (!TakesAll(spec.capabilities) && (exists name :: Admits(spec.capabilities, name)) ==>
          exists name :: Admits(spec.capabilities, name) && Has(n, name))
  }

  /** The resource gets the first node that suits it. */
  ghost predicate Chosen(spec: ResourceSpec, nodes: seq<NodeInfo>, j: nat) {
    j < |nodes| && Suits(spec, nodes[j]) && forall k :: 0 <= k < j ==> !Suits(spec, nodes[k])
  }

  ghost predicate OffersTools(spec: ResourceSpec) {
    spec.nodeType == "mcp" || (|spec.nodeType| >= 4 && spec.nodeType[..4] == "mcp/")
  }

  // ── Reading capabilities ────────────────────────────────────────────

  /** The array at `key`, empty if there is none. */
  function Items(caps: Json, key: string): seq<Json> {
    match caps.Get(key)
    case Some(v) => if v.Arr? then v.items else []
    case None => []
  }

  /** The non-empty `name` fields, in order. */
  function NameFields(items: seq<Json>): seq<string> {
    if items == [] then []
    else
      var front, last := NameFields(items[..|items| - 1]), items[|items| - 1].GetStr("name");
      if last.Some? && last.value != "" then front + [last.value] else front
  }

  /** The non-empty strings, in order. */
  function Strings(items: seq<Json>): seq<string> {
    if items == [] then []
    else
      var front, last := Strings(items[..|items| - 1]), items[|items| - 1].AsStr();
      if last.Some? && last.value != "" then front + [last.value] else front
  }

  function ToolNames(node: NodeInfo): seq<string> {
    NameFields(Items(node.capabilities, "tools"))
  }

  predicate HasAnyOf(node: NodeInfo, names: seq<string>) {
    exists n <- names :: n in ToolNames(node) || n in Strings(Items(node.capabilities, "skills"))
  }

  /** "all" stands in either list, or as either value. */
  predicate SaysAll(caps: Json) {
    || Str("all") in Items(caps, "tools") || caps.Get("tools") == Some(Str("all"))
    || Str("all") in Items(caps, "skills") || caps.Get("skills") == Some(Str("all"))
  }

  function Declared(caps: Option<Json>): DeclaredFilter {
    match caps
    case None => NoNames
    case Some(c) =>
      if SaysAll(c) then All
      else
        var names := Strings(Items(c, "tools")) + Strings(Items(c, "skills"));
        if names == [] then NoNames else Subset(names)
  }

  /** One of the two lists: the names collected so far, or none if "all" turned up. */
  method CollectNames(c: Json, key: string, names: seq<string>) returns (r: Option<seq<string>>)
    ensures r.None? <==> Str("all") in Items(c, key) || c.Get(key) == Some(Str("all"))
    ensures r.Some? ==> r.value == names + Strings(Items(c, key))
  {
    var out := names;
    match c.Get(key) {
      case Some(Arr(items)) =>
        for i := 0 to |items|
          invariant Str("all") !in items[..i] && out == names + Strings(items[..i])
        {
          assert items[..i + 1][..i] == items[..i] && items[..i + 1] == items[..i] + [items[i]];
          match items[i].AsStr() {
            case Some(s) =>
              if s == "all" {
                return None;
              } else if s != "" {
                out := out + [s];
              }
            case None =>
          }
        }
        assert items[..|items|] == items;
      case Some(Str(s)) =>
        if s == "all" {
          return None;
        }
      case _ =>
    }
    r := Some(out);
  }

  /** All, or just the admitted names, or nothing if there are none. */
  ghost predicate Filters(caps: Option<Json>, filter: DeclaredFilter) {
    match filter
    case All => TakesAll(caps)
    case Subset(names) => !TakesAll(caps) && names != [] && forall name :: name in names <==> Admits(caps, name)
    case NoNames => forall name :: !Admits(caps, name)
  }

  lemma ListsIff(caps: Json, key: string, text: string)
    ensures ListsText(caps, key, text) <==> Str(text) in Items(caps, key)
  {
    if Str(text) in Items(caps, key) {
      assert HasField(caps, key, Arr(Items(caps, key)));
    }
  }

  lemma {:induction false} StringsMean(items: seq<Json>, name: string)
    ensures name in Strings(items) <==> name != "" && Str(name) in items
    decreases |items|
  {
    if items != [] {
      StringsMean(items[..|items| - 1], name);
      assert items == items[..|items| - 1] + [items[|items| - 1]];
    }
  }

  lemma AllIff(c: Json)
    ensures TakesAll(Some(c)) <==> SaysAll(c)
  {
    ListsIff(c, "tools", "all");
    ListsIff(c, "skills", "all");
  }

  lemma DeclaredFilters(caps: Option<Json>)
    ensures Filters(caps, Declared(caps))
    ensures forall name :: Declared(caps).Accepts(name) <==> Admits(caps, name)
  {
    if caps.Some? {
      AllIff(caps.value);
      hide TakesAll, SaysAll, ListsText;
      var names := Strings(Items(caps.value, "tools")) + Strings(Items(caps.value, "skills"));
      forall name ensures !TakesAll(caps) ==> (name in names <==> Admits(caps, name)) {
        ListsIff(caps.value, "tools", name);
        ListsIff(caps.value, "skills", name);
        StringsMean(Items(caps.value, "tools"), name);
        StringsMean(Items(caps.value, "skills"), name);
      }
      assert names != [] ==> names[0] in names;
    }
  }

  method ParseDeclaredFilter(caps: Option<Json>) returns (r: DeclaredFilter)
    ensures r == Declared(caps) && Filters(caps, r)
  {
    DeclaredFilters(caps);
    if caps.None? {
      return NoNames;
    }
    var tools := CollectNames(caps.value, "tools", []);
    if tools.None? {
      return All;
    }
    var names := CollectNames(caps.value, "skills", tools.value);
    if names.None? {
      return All;
    }
    r := if names.value == [] then NoNames else Subset(names.value);
  }

  // ── Finding nodes ───────────────────────────────────────────────────

  predicate ProviderMatches(n: NodeInfo, decl: ModelDecl) {
    n.nodeType == "model" && n.capabilities.GetStr("provider") == Some(decl.provider)
  }

  /** A node without a list of models is taken to support every model. */
  predicate Supports(n: NodeInfo, decl: ModelDecl) {
    match n.capabilities.Get("models")
    case Some(Arr(items)) => Str(decl.modelName) in items
    case _ => true
  }

  predicate ServesModel(n: NodeInfo, decl: ModelDecl) {
    ProviderMatches(n, decl) && Supports(n, decl)
  }

  ghost predicate IsOfProvider(n: NodeInfo, decl: ModelDecl) {
    n.nodeType == "model" && HasField(n.capabilities, "provider", Str(decl.provider))
  }

  /** A model node of the provider; if it lists its models, with this one among them. */
  ghost predicate Serves(n: NodeInfo, decl: ModelDecl) {
    && IsOfProvider(n, decl)
    && forall items :: HasField(n.capabilities, "models", Arr(items)) ==> Str(decl.modelName) in items
  }

  lemma ServesIff(n: NodeInfo, decl: ModelDecl)
    ensures ServesModel(n, decl) <==> Serves(n, decl)
    ensures ProviderMatches(n, decl) <==> IsOfProvider(n, decl)
  {
  }

  /** Picks the first node that serves the model; looks for a mere provider match only to word the error. */
  method ResolveModel(decl: ModelDecl, nodes: seq<NodeInfo>) returns (r: Result<NodeId, BuildError>, ghost at: nat)
    ensures r.Ok? <==> exists n <- nodes :: Serves(n, decl)
    ensures r.Ok? ==> at < |nodes| && r.value == nodes[at].nodeId && Serves(nodes[at], decl)
    ensures r.Ok? ==> forall j :: 0 <= j < at ==> !Serves(nodes[j], decl)
    ensures r.Err? ==> r.error == MissingModel(exists n <- nodes :: IsOfProvider(n, decl))
  {
    hide Serves, IsOfProvider;
    forall n ensures ServesModel(n, decl) <==> Serves(n, decl)
      ensures ProviderMatches(n, decl) <==> IsOfProvider(n, decl)
    {
      ServesIff(n, decl);
    }
    hide ServesModel, ProviderMatches;
    at := 0;
    for i := 0 to |nodes|
      invariant forall j :: 0 <= j < i ==> !Serves(nodes[j], decl)
    {
      if ServesModel(nodes[i], decl) {
        return Ok(nodes[i].nodeId), i;
      }
    }
    r := Err(MissingModel(exists n <- nodes :: ProviderMatches(n, decl)));
  }

  predicate Fits(spec: ResourceSpec, n: NodeInfo) {
    && n.nodeType == spec.nodeType
    && var filter := Declared(spec.capabilities);
       filter.Subset? ==> HasAnyOf(n, filter.names)
  }

  /** The first node that fits. */
  function Bound(spec: ResourceSpec, nodes: seq<NodeInfo>): (r: Option<NodeInfo>)
    ensures r.Some? <==> exists n <- nodes :: Fits(spec, n)
    ensures r.Some? ==> r.value in nodes && Fits(spec, r.value)
  {
    if nodes == [] then None
    else if Fits(spec, nodes[0]) then Some(nodes[0])
    else Bound(spec, nodes[1..])
  }

  lemma {:induction false} NameFieldsMean(items: seq<Json>, name: string)
    ensures name in NameFields(items) <==> exists m :: NamedAt(items, m, name)
    decreases |items|
  {
    if items != [] {
      var n := |items| - 1;
      var front := items[..n];
      NameFieldsMean(front, name);
      if m: nat :| NamedAt(front, m, name) {
        assert NamedAt(items, m, name);
      }
      if NamedAt(items, n, name) {
        assert name in NameFields(items);
      }
      if m: nat :| NamedAt(items, m, name) {
        assert m == n || NamedAt(front, m, name);
      }
    }
  }

  lemma ToolNamesMean(node: NodeInfo, name: string)
    ensures name in ToolNames(node) <==> exists m :: ToolAt(node, m, name)
  {
    var items := Items(node.capabilities, "tools");
    NameFieldsMean(items, name);
    hide NamedAt;
    if m: nat :| NamedAt(items, m, name) {
      assert items != [] by {
        ItemsThere(items, m, name);
      }
      assert HasField(node.capabilities, "tools", Arr(items));
      assert ToolAt(node, m, name);
    }
    if m: nat :| ToolAt(node, m, name) {
      assert NamedAt(items, m, name);
    }
  }

  lemma ItemsThere(items: seq<Json>, m: nat, name: string)
    requires NamedAt(items, m, name)
    ensures items != []
  {
  }

  lemma HasIff(node: NodeInfo, name: string)
    ensures Has(node, name) <==> name in ToolNames(node) || name in Strings(Items(node.capabilities, "skills"))
  {
    ToolNamesMean(node, name);
    ListsIff(node.capabilities, "skills", name);
    StringsMean(Items(node.capabilities, "skills"), name);
  }

  lemma FitsIff(spec: ResourceSpec, n: NodeInfo)
    ensures Fits(spec, n) <==> Suits(spec, n)
  {
    hide TakesAll, Admits, Has, ToolNames, Strings, Declared;
    DeclaredFilters(spec.capabilities);
    forall name ensures Has(n, name) <==> name in ToolNames(n) || name in Strings(Items(n.capabilities, "skills")) {
      HasIff(n, name);
    }
    var filter := Declared(spec.capabilities);
    if filter.Subset? {
      assert filter.names[0] in filter.names;
    }
  }

  /** The node that is bound is the first that suits. */
  lemma {:induction false} BoundIsChosen(spec: ResourceSpec, nodes: seq<NodeInfo>) returns (j: nat)
    ensures Bound(spec, nodes).Some? <==> exists k :: Chosen(spec, nodes, k)
    ensures Bound(spec, nodes).Some? ==> Chosen(spec, nodes, j) && Bound(spec, nodes).value == nodes[j]
    decreases |nodes|
  {
    hide Suits, Fits;
    j := 0;
    if nodes != [] {
      FitsIff(spec, nodes[0]);
      if Fits(spec, nodes[0]) {
        assert Chosen(spec, nodes, 0);
      } else {
        var rest := nodes[1..];
        var k := BoundIsChosen(spec, rest);
        if Bound(spec, rest).Some? {
          j := k + 1;
          assert forall i :: 0 < i < |nodes| ==> nodes[i] == rest[i - 1];
          assert Chosen(spec, nodes, j);
        }
        if i: nat :| Chosen(spec, nodes, i) {
          assert Chosen(spec, rest, i - 1);
        }
      }
    }
  }

  predicate IsMcp(spec: ResourceSpec) {
    spec.nodeType == "mcp" || "mcp/" <= spec.nodeType
  }

  lemma McpIff(spec: ResourceSpec)
    ensures IsMcp(spec) <==> OffersTools(spec)
  {
  }

  // ── What a build must produce ───────────────────────────────────────

  ghost function Accepted(names: seq<string>, filter: DeclaredFilter): seq<string> {
    if names == [] then []
    else
      var front, last := Accepted(names[..|names| - 1], filter), names[|names| - 1];
      if filter.Accepts(last) then front + [last] else front
  }

  ghost function Offers(spec: ResourceSpec, node: NodeInfo): seq<string> {
    if IsMcp(spec) then Accepted(ToolNames(node), Declared(spec.capabilities)) else []
  }

  ghost predicate AllBound(specs: seq<ResourceSpec>, nodes: seq<NodeInfo>) {
    forall s <- specs :: Bound(s, nodes).Some?
  }

  ghost function WithOwner(names: seq<string>, owner: NodeId): seq<(string, NodeId)> {
    seq(|names|, k requires 0 <= k < |names| => (names[k], owner))
  }

  /** Every accepted occurrence of a tool name, with the node that lists it, spec after spec. */
  ghost function Occurrences(specs: seq<ResourceSpec>, nodes: seq<NodeInfo>): seq<(string, NodeId)>
    requires AllBound(specs, nodes)
  {
    if specs == [] then []
    else
      var last := specs[|specs| - 1];
      var node := Bound(last, nodes).value;
      Occurrences(specs[..|specs| - 1], nodes) + WithOwner(Offers(last, node), node.nodeId)
  }

  ghost function Bindings(specs: seq<ResourceSpec>, nodes: seq<NodeInfo>, mcp: bool): map<NodeId, Binding>
    requires AllBound(specs, nodes)
  {
    if specs == [] then map[]
    else
      var before, last := Bindings(specs[..|specs| - 1], nodes, mcp), specs[|specs| - 1];
      var id := Bound(last, nodes).value.nodeId;
      if IsMcp(last) == mcp then before[id := Binding(last.resourceName, id, Declared(last.capabilities))] else before
  }

  /** No name occurs twice. */
  ghost predicate Unambiguous(occ: seq<(string, NodeId)>) {
    forall i, j :: 0 <= i < j < |occ| ==> occ[i].0 != occ[j].0
  }

  /** The index lists exactly the occurrences. */
  ghost predicate Indexes(index: map<string, NodeId>, occ: seq<(string, NodeId)>) {
    && (forall k :: 0 <= k < |occ| ==> occ[k].0 in index && index[occ[k].0] == occ[k].1)
    && (forall t <- index :: exists k :: 0 <= k < |occ| && occ[k].0 == t)
  }

  lemma IndexesSnoc(index: map<string, NodeId>, occ: seq<(string, NodeId)>, t: string, n: NodeId)
    requires Indexes(index, occ) && Unambiguous(occ)
    ensures t in index ==> !Unambiguous(occ + [(t, n)])
    ensures t !in index ==> Unambiguous(occ + [(t, n)]) && Indexes(index[t := n], occ + [(t, n)])
  {
    var more, index' := occ + [(t, n)], index[t := n];
    if t in index {
      var k :| 0 <= k < |occ| && occ[k].0 == t;
      assert more[k].0 == more[|occ|].0;
    } else {
      forall u | u in index' ensures exists k :: 0 <= k < |more| && more[k].0 == u {
        if u == t {
          assert more[|occ|].0 == t;
        } else {
          var k :| 0 <= k < |occ| && occ[k].0 == u;
          assert more[k].0 == u;
        }
      }
    }
  }

  lemma AmbiguityStays(occ: seq<(string, NodeId)>, more: seq<(string, NodeId)>)
    requires occ <= more && Unambiguous(more)
    ensures Unambiguous(occ)
  {
    assert forall k :: 0 <= k < |occ| ==> occ[k] == more[k];
  }

  /** Enters one node's accepted tools; stops at the first name that is already taken. */
  method IndexTools(spec: ResourceSpec, node: NodeInfo, filter: DeclaredFilter, index: map<string, NodeId>,
                    ghost occ: seq<(string, NodeId)>)
    returns (r: Result<map<string, NodeId>, BuildError>)
    requires filter == Declared(spec.capabilities) && IsMcp(spec)
    requires Indexes(index, occ) && Unambiguous(occ)
    ensures var all := occ + WithOwner(Offers(spec, node), node.nodeId);
            && (r.Ok? <==> Unambiguous(all)) && (r.Ok? ==> Indexes(r.value, all))
            && (r.Err? ==> r.error.AmbiguousTool? && r.error.resourceName == spec.resourceName)
  {
    var names := ToolNames(node);
    var out := index;
    ghost var done := occ;
    for i := 0 to |names|
      invariant done == occ + WithOwner(Accepted(names[..i], filter), node.nodeId)
      invariant Indexes(out, done) && Unambiguous(done)
    {
      AcceptedSnoc(names, filter, i, occ, node.nodeId);
      if filter.Accepts(names[i]) {
        IndexesSnoc(out, done, names[i], node.nodeId);
        if names[i] in out {
          if Unambiguous(occ + WithOwner(Accepted(names, filter), node.nodeId)) {
            AcceptedGrows(names, filter, i + 1, occ, node.nodeId);
            AmbiguityStays(done + [(names[i], node.nodeId)], occ + WithOwner(Accepted(names, filter), node.nodeId));
          }
          return Err(AmbiguousTool(names[i], out[names[i]], spec.resourceName));
        }
        out := out[names[i] := node.nodeId];
        done := done + [(names[i], node.nodeId)];
      }
    }
    assert names[..|names|] == names;
    r := Ok(out);
  }

  lemma AcceptedSnoc(names: seq<string>, filter: DeclaredFilter, i: nat, occ: seq<(string, NodeId)>, owner: NodeId)
    requires i < |names|
    ensures occ + WithOwner(Accepted(names[..i + 1], filter), owner) ==
            occ + WithOwner(Accepted(names[..i], filter), owner)
            + if filter.Accepts(names[i]) then [(names[i], owner)] else []
  {
    assert names[..i + 1][..i] == names[..i];
  }

  lemma {:induction false} AcceptedGrows(names: seq<string>, filter: DeclaredFilter, i: nat,
                                         occ: seq<(string, NodeId)>, owner: NodeId)
    requires i <= |names|
    ensures occ + WithOwner(Accepted(names[..i], filter), owner) <= occ + WithOwner(Accepted(names, filter), owner)
    decreases |names| - i
  {
    if i == |names| {
      assert names[..i] == names;
    } else {
      AcceptedSnoc(names, filter, i, occ, owner);
      AcceptedGrows(names, filter, i + 1, occ, owner);
    }
  }

  // ── Tools and their places ──────────────────────────────────────────

  /** The specs of the accepted tools among `items`. */
  ghost function Advertised(items: seq<Json>, filter: DeclaredFilter): seq<ToolSpec> {
    if items == [] then []
    else
      var front, last := Advertised(items[..|items| - 1], filter), items[|items| - 1];
      var name := NameOf(last);
      if name != "" && filter.Accepts(name) then front + [AsToolSpec(last)] else front
  }

  function NameOf(item: Json): string {
    match item.GetStr("name")
    case Some(s) => s
    case None => ""
  }

  function AsToolSpec(item: Json): ToolSpec {
    ToolSpec(NameOf(item),
             match item.GetStr("description") case Some(s) => s case None => "",
             match item.Get("params_schema") case Some(v) => v case None => Obj(map[]))
  }

  /** The item's name, its description if it is text, and its parameters, an empty object if it has none. */
  ghost predicate IsSpecOf(item: Json, t: ToolSpec) {
    && HasField(item, "name", Str(t.name))
    && (HasField(item, "description", Str(t.description))
        || (t.description == "" && HasText(item, "description", None)))
    && (HasField(item, "params_schema", t.params)
        || (t.params == Obj(map[]) && forall v :: !HasField(item, "params_schema", v)))
  }

  /** The specs are those of the accepted items, in their order: of those at the places `at`. */
  ghost predicate AdvertisedAt(items: seq<Json>, filter: DeclaredFilter, at: seq<nat>, specs: seq<ToolSpec>) {
    && |at| == |specs| && Rising(at)
    && (forall k :: 0 <= k < |at| ==>
          && at[k] < |items| && IsSpecOf(items[at[k]], specs[k]) && NamedAt(items, at[k], specs[k].name)
          && filter.Accepts(specs[k].name))
    && forall m, name :: NamedAt(items, m, name) && filter.Accepts(name) ==> m in at
  }

  lemma SpecIsOf(item: Json)
    ensures NameOf(item) != "" ==> IsSpecOf(item, AsToolSpec(item))
    ensures forall name :: name != "" ==> (HasField(item, "name", Str(name)) <==> NameOf(item) == name)
  {
  }

  lemma AdvertisedSnoc(items: seq<Json>, filter: DeclaredFilter, at: seq<nat>, specs: seq<ToolSpec>, item: Json)
    requires AdvertisedAt(items, filter, at, specs)
    ensures var name := NameOf(item);
            if name != "" && filter.Accepts(name)
            then AdvertisedAt(items + [item], filter, at + [|items|], specs + [AsToolSpec(item)])
            else AdvertisedAt(items + [item], filter, at, specs)
  {
    SpecIsOf(item);
    hide IsSpecOf;
    assert AsToolSpec(item).name == NameOf(item);
    hide NameOf, AsToolSpec;
    var all := items + [item];
    assert forall m :: 0 <= m < |items| ==> all[m] == items[m];
    forall m: nat, name | NamedAt(all, m, name) && m < |items| ensures NamedAt(items, m, name) {
    }
    assert forall m :: m in at ==> m in at + [|items|];
    assert |items| in at + [|items|];
  }

  lemma {:induction false} AdvertisedPlaces(items: seq<Json>, filter: DeclaredFilter) returns (at: seq<nat>)
    ensures AdvertisedAt(items, filter, at, Advertised(items, filter))
    decreases |items|
  {
    hide AdvertisedAt, NameOf, AsToolSpec;
    if items == [] {
      at := [];
      assert AdvertisedAt(items, filter, at, []) by {
        NothingAdvertised(filter);
      }
    } else {
      var n := |items| - 1;
      at := AdvertisedPlaces(items[..n], filter);
      AdvertisedSnoc(items[..n], filter, at, Advertised(items[..n], filter), items[n]);
      assert items[..n] + [items[n]] == items;
      if NameOf(items[n]) != "" && filter.Accepts(NameOf(items[n])) {
        at := at + [n];
      }
    }
  }

  lemma NothingAdvertised(filter: DeclaredFilter)
    ensures AdvertisedAt([], filter, [], [])
  {
  }

  ghost function SpecNames(specs: seq<ToolSpec>): seq<string> {
    seq(|specs|, k requires 0 <= k < |specs| => specs[k].name)
  }

  lemma {:induction false} AdvertisedNames(items: seq<Json>, filter: DeclaredFilter)
    ensures SpecNames(Advertised(items, filter)) == Accepted(NameFields(items), filter)
    decreases |items|
  {
    if items != [] {
      var front, last := items[..|items| - 1], items[|items| - 1];
      AdvertisedNames(front, filter);
      if NameOf(last) != "" {
        assert NameFields(items)[..|NameFields(front)|] == NameFields(front);
        if filter.Accepts(NameOf(last)) {
          assert SpecNames(Advertised(items, filter)) == SpecNames(Advertised(front, filter)) + [NameOf(last)];
        }
      }
    }
  }

  /** Resource `e.0` takes the tool that stands at `e.1` in the node it gets. */
  ghost predicate Taken(specs: seq<ResourceSpec>, nodes: seq<NodeInfo>, e: (nat, nat), tool: string, id: NodeId) {
    && e.0 < |specs| && OffersTools(specs[e.0]) && Admits(specs[e.0].capabilities, tool)
    && exists j: nat :: Chosen(specs[e.0], nodes, j) && nodes[j].nodeId == id && ToolAt(nodes[j], e.1, tool)
  }

  /** No tool name is taken at two places. */
  ghost predicate NoneTwice(specs: seq<ResourceSpec>, nodes: seq<NodeInfo>) {
    forall e, f, tool, id, other ::
      Taken(specs, nodes, e, tool, id) && Taken(specs, nodes, f, tool, other) ==> e == f
  }

  ghost predicate AllSuited(specs: seq<ResourceSpec>, nodes: seq<NodeInfo>) {
    forall s <- specs :: exists n <- nodes :: Suits(s, n)
  }

  /** The occurrences are what is taken at these distinct places, which are all there are. */
  ghost predicate TakenAt(specs: seq<ResourceSpec>, nodes: seq<NodeInfo>, at: seq<(nat, nat)>,
                          occ: seq<(string, NodeId)>) {
    && |at| == |occ| && NoDup(at)
    && (forall k :: 0 <= k < |at| ==> Taken(specs, nodes, at[k], occ[k].0, occ[k].1))
    && forall e, tool, id :: Taken(specs, nodes, e, tool, id) ==> e in at
  }

  lemma ChosenOnce(spec: ResourceSpec, nodes: seq<NodeInfo>, j: nat, k: nat)
    requires Chosen(spec, nodes, j) && Chosen(spec, nodes, k)
    ensures j == k
  {
    hide Suits;
  }

  /** What one resource takes, place by place. */
  lemma TakenByOne(specs: seq<ResourceSpec>, nodes: seq<NodeInfo>, i: nat) returns (at: seq<nat>)
    requires i < |specs| && Bound(specs[i], nodes).Some?
    ensures var node := Bound(specs[i], nodes).value; var names := Offers(specs[i], node);
            && |at| == |names| && Rising(at)
            && (forall k :: 0 <= k < |at| ==> Taken(specs, nodes, (i, at[k]), names[k], node.nodeId))
            && forall m, tool, id :: Taken(specs, nodes, (i, m), tool, id) ==> m in at
  {
    hide Chosen, Admits, AdvertisedAt, Advertised, Accepted, NameFields;
    var node, spec := Bound(specs[i], nodes).value, specs[i];
    var items, filter := Items(node.capabilities, "tools"), Declared(spec.capabilities);
    var j := BoundIsChosen(spec, nodes);
    McpIff(spec);
    hide Bound;
    at := [];
    if IsMcp(spec) {
      at := AdvertisedPlaces(items, filter);
      AdvertisedNames(items, filter);
      DeclaredFilters(spec.capabilities);
      TakenIff(specs, nodes, i, j, node);
      PlacesTaken(specs, nodes, i, at, node);
    }
  }

  lemma TakenIff(specs: seq<ResourceSpec>, nodes: seq<NodeInfo>, i: nat, j: nat, node: NodeInfo)
    requires i < |specs| && OffersTools(specs[i]) && Chosen(specs[i], nodes, j) && nodes[j] == node
    ensures forall m: nat, tool, id :: Taken(specs, nodes, (i, m), tool, id) <==>
              id == node.nodeId && Declared(specs[i].capabilities).Accepts(tool)
              && NamedAt(Items(node.capabilities, "tools"), m, tool)
  {
    DeclaredFilters(specs[i].capabilities);
    hide Chosen, Admits, OffersTools;
    forall m: nat, tool, id ensures Taken(specs, nodes, (i, m), tool, id) <==>
        id == node.nodeId && Admits(specs[i].capabilities, tool) && ToolAt(node, m, tool)
    {
      if Taken(specs, nodes, (i, m), tool, id) {
        var k: nat :| Chosen(specs[i], nodes, k) && nodes[k].nodeId == id && ToolAt(nodes[k], m, tool);
        ChosenOnce(specs[i], nodes, j, k);
      }
    }
    forall m: nat, tool ensures ToolAt(node, m, tool) <==> NamedAt(Items(node.capabilities, "tools"), m, tool) {
      ToolAtIff(node, m, tool);
    }
  }

  lemma ToolAtIff(node: NodeInfo, m: nat, tool: string)
    ensures ToolAt(node, m, tool) <==> NamedAt(Items(node.capabilities, "tools"), m, tool)
  {
    var items := Items(node.capabilities, "tools");
    if NamedAt(items, m, tool) {
      assert HasField(node.capabilities, "tools", Arr(items));
    }
  }

  lemma PlacesTaken(specs: seq<ResourceSpec>, nodes: seq<NodeInfo>, i: nat, at: seq<nat>, node: NodeInfo)
    requires i < |specs| && IsMcp(specs[i])
    requires var items, filter := Items(node.capabilities, "tools"), Declared(specs[i].capabilities);
             && AdvertisedAt(items, filter, at, Advertised(items, filter))
             && SpecNames(Advertised(items, filter)) == Accepted(NameFields(items), filter)
    requires forall m: nat, tool, id :: Taken(specs, nodes, (i, m), tool, id) <==>
               id == node.nodeId && Declared(specs[i].capabilities).Accepts(tool)
               && NamedAt(Items(node.capabilities, "tools"), m, tool)
    ensures var names := Offers(specs[i], node);
            && |at| == |names| && Rising(at)
            && (forall k :: 0 <= k < |at| ==> Taken(specs, nodes, (i, at[k]), names[k], node.nodeId))
            && forall m, tool, id :: Taken(specs, nodes, (i, m), tool, id) ==> m in at
  {
    hide Taken, IsSpecOf, NamedAt, Advertised, Accepted, NameFields, Declared, Items;
    var items, filter := Items(node.capabilities, "tools"), Declared(specs[i].capabilities);
    var adv, names := Advertised(items, filter), Offers(specs[i], node);
    forall k | 0 <= k < |at| ensures Taken(specs, nodes, (i, at[k]), names[k], node.nodeId) {
      assert names[k] == SpecNames(adv)[k] == adv[k].name;
    }
  }

  ghost function Placed(i: nat, at: seq<nat>): seq<(nat, nat)> {
    seq(|at|, k requires 0 <= k < |at| => (i, at[k]))
  }

  /** One resource more. */
  lemma TakenSnoc(specs: seq<ResourceSpec>, nodes: seq<NodeInfo>, e: (nat, nat), tool: string, id: NodeId)
    requires specs != [] && e.0 < |specs| - 1
    ensures Taken(specs, nodes, e, tool, id) <==> Taken(specs[..|specs| - 1], nodes, e, tool, id)
  {
    hide Chosen, Admits, OffersTools, ToolAt;
  }

  lemma {:induction false} OccurrencesTaken(specs: seq<ResourceSpec>, nodes: seq<NodeInfo>)
    returns (at: seq<(nat, nat)>)
    requires AllBound(specs, nodes)
    ensures TakenAt(specs, nodes, at, Occurrences(specs, nodes)) && forall e <- at :: e.0 < |specs|
    decreases |specs|
  {
    hide Taken, Offers, Bound;
    if specs == [] {
      at := [];
      assert TakenAt([], nodes, [], []) by {
        NothingTaken(nodes);
      }
    } else {
      var n := |specs| - 1;
      var before := OccurrencesTaken(specs[..n], nodes);
      var own := TakenByOne(specs, nodes, n);
      at := before + Placed(n, own);
      OneMore(specs, nodes, before, own);
    }
  }

  lemma NothingTaken(nodes: seq<NodeInfo>)
    ensures TakenAt([], nodes, [], [])
  {
  }

  lemma OneMore(specs: seq<ResourceSpec>, nodes: seq<NodeInfo>, before: seq<(nat, nat)>, own: seq<nat>)
    requires specs != [] && AllBound(specs, nodes)
    requires var front, n := specs[..|specs| - 1], |specs| - 1;
             var node := Bound(specs[n], nodes).value; var names := Offers(specs[n], node);
             && TakenAt(front, nodes, before, Occurrences(front, nodes)) && (forall e <- before :: e.0 < n)
             && |own| == |names| && Rising(own)
             && (forall k :: 0 <= k < |own| ==> Taken(specs, nodes, (n, own[k]), names[k], node.nodeId))
             && forall m, tool, id :: Taken(specs, nodes, (n, m), tool, id) ==> m in own
    ensures TakenAt(specs, nodes, before + Placed(|specs| - 1, own), Occurrences(specs, nodes))
    ensures forall e <- before + Placed(|specs| - 1, own) :: e.0 < |specs|
  {
    var front, n := specs[..|specs| - 1], |specs| - 1;
    var node := Bound(specs[n], nodes).value;
    var names := Offers(specs[n], node);
    assert Occurrences(specs, nodes) == Occurrences(front, nodes) + WithOwner(names, node.nodeId);
    hide Taken, Offers, Bound, Rising;
    DistinctPlaces(before, n, own);
    hide NoDup, Occurrences;
    forall e: (nat, nat), tool, id ensures e.0 < n ==> (Taken(specs, nodes, e, tool, id) <==>
        Taken(front, nodes, e, tool, id))
      ensures Taken(specs, nodes, e, tool, id) ==> e.0 <= n && (e.0 == n ==> e.1 in own)
    {
      assert e == (e.0, e.1);
      TakenInside(specs, nodes, e, tool, id);
      if e.0 < n {
        TakenSnoc(specs, nodes, e, tool, id);
      }
    }
    EachTaken(specs, nodes, before, own, Occurrences(front, nodes), names, node.nodeId);
    AllTaken(specs, nodes, before, own, Occurrences(front, nodes));
  }

  lemma TakenInside(specs: seq<ResourceSpec>, nodes: seq<NodeInfo>, e: (nat, nat), tool: string, id: NodeId)
    ensures Taken(specs, nodes, e, tool, id) ==> e.0 < |specs|
  {
  }

  lemma DistinctPlaces(before: seq<(nat, nat)>, n: nat, own: seq<nat>)
    requires NoDup(before) && Rising(own) && forall e <- before :: e.0 < n
    ensures NoDup(before + Placed(n, own)) && forall e <- before + Placed(n, own) :: e.0 <= n
  {
    var at := before + Placed(n, own);
    forall i, j | 0 <= i < j < |at| ensures at[i] != at[j] {
      if i < |before| <= j {
        assert at[i] in before;
      } else if |before| <= i {
        assert own[i - |before|] < own[j - |before|];
      }
    }
  }

  lemma EachTaken(specs: seq<ResourceSpec>, nodes: seq<NodeInfo>, before: seq<(nat, nat)>, own: seq<nat>,
                  occ: seq<(string, NodeId)>, names: seq<string>, owner: NodeId)
    requires specs != [] && TakenAt(specs[..|specs| - 1], nodes, before, occ) && |own| == |names|
    requires forall k :: 0 <= k < |own| ==> Taken(specs, nodes, (|specs| - 1, own[k]), names[k], owner)
    requires forall e: (nat, nat), tool, id :: Taken(specs[..|specs| - 1], nodes, e, tool, id) ==>
               Taken(specs, nodes, e, tool, id)
    ensures var at, all := before + Placed(|specs| - 1, own), occ + WithOwner(names, owner);
            |at| == |all| && forall k :: 0 <= k < |at| ==> Taken(specs, nodes, at[k], all[k].0, all[k].1)
  {
    hide Taken;
    var at, all := before + Placed(|specs| - 1, own), occ + WithOwner(names, owner);
    forall k | 0 <= k < |at| ensures Taken(specs, nodes, at[k], all[k].0, all[k].1) {
      if k < |before| {
        assert Taken(specs[..|specs| - 1], nodes, before[k], occ[k].0, occ[k].1);
      } else {
        var m := k - |before|;
        assert at[k] == (|specs| - 1, own[m]) && all[k] == (names[m], owner);
      }
    }
  }

  lemma AllTaken(specs: seq<ResourceSpec>, nodes: seq<NodeInfo>, before: seq<(nat, nat)>, own: seq<nat>,
                 occ: seq<(string, NodeId)>)
    requires specs != [] && TakenAt(specs[..|specs| - 1], nodes, before, occ)
    requires forall e: (nat, nat), tool, id :: Taken(specs, nodes, e, tool, id) && e.0 == |specs| - 1 ==> e.1 in own
    requires forall e: (nat, nat), tool, id :: Taken(specs, nodes, e, tool, id) ==>
               e.0 == |specs| - 1 || Taken(specs[..|specs| - 1], nodes, e, tool, id)
    ensures forall e, tool, id :: Taken(specs, nodes, e, tool, id) ==> e in before + Placed(|specs| - 1, own)
  {
    hide Taken;
    var n := |specs| - 1;
    forall e: (nat, nat), tool, id | Taken(specs, nodes, e, tool, id) ensures e in before + Placed(n, own) {
      if e.0 == n {
        var k :| 0 <= k < |own| && own[k] == e.1;
        assert Placed(n, own)[k] == e;
      } else {
        assert e in before;
      }
    }
  }

  /** Names are unambiguous iff none is taken twice. */
  lemma UnambiguousIff(specs: seq<ResourceSpec>, nodes: seq<NodeInfo>)
    requires AllBound(specs, nodes)
    ensures Unambiguous(Occurrences(specs, nodes)) <==> NoneTwice(specs, nodes)
  {
    hide Taken, Occurrences, Bound;
    var occ := Occurrences(specs, nodes);
    var at := OccurrencesTaken(specs, nodes);
    if NoneTwice(specs, nodes) {
      forall a, b | 0 <= a < b < |occ| ensures occ[a].0 != occ[b].0 {
        assert Taken(specs, nodes, at[a], occ[a].0, occ[a].1) && Taken(specs, nodes, at[b], occ[b].0, occ[b].1);
      }
    }
    if Unambiguous(occ) {
      forall e, f, tool, id, other | Taken(specs, nodes, e, tool, id) && Taken(specs, nodes, f, tool, other)
        ensures e == f
      {
        TakenName(specs, nodes, at, occ, e, tool, id);
        TakenName(specs, nodes, at, occ, f, tool, other);
      }
    }
  }

  lemma TakenName(specs: seq<ResourceSpec>, nodes: seq<NodeInfo>, at: seq<(nat, nat)>, occ: seq<(string, NodeId)>,
                  e: (nat, nat), tool: string, id: NodeId)
    requires TakenAt(specs, nodes, at, occ) && Taken(specs, nodes, e, tool, id)
    ensures exists k :: 0 <= k < |occ| && at[k] == e && occ[k] == (tool, id)
  {
    var k :| 0 <= k < |at| && at[k] == e;
    TakenTells(specs, nodes, e, tool, id, occ[k].0, occ[k].1);
  }

  lemma TakenTells(specs: seq<ResourceSpec>, nodes: seq<NodeInfo>, e: (nat, nat), tool: string, id: NodeId,
                   name: string, other: NodeId)
    requires Taken(specs, nodes, e, tool, id) && Taken(specs, nodes, e, name, other)
    ensures tool == name && id == other
  {
    hide Suits, Admits;
    var j: nat :| Chosen(specs[e.0], nodes, j) && nodes[j].nodeId == id && ToolAt(nodes[j], e.1, tool);
    var k: nat :| Chosen(specs[e.0], nodes, k) && nodes[k].nodeId == other && ToolAt(nodes[k], e.1, name);
    ChosenOnce(specs[e.0], nodes, j, k);
  }

  lemma AllBoundIff(specs: seq<ResourceSpec>, nodes: seq<NodeInfo>)
    ensures AllBound(specs, nodes) <==> AllSuited(specs, nodes)
  {
    hide Suits, Bound;
    forall s | s in specs ensures Bound(s, nodes).Some? <==> exists n <- nodes :: Suits(s, n) {
      BoundIff(s, nodes);
    }
  }

  lemma BoundIff(spec: ResourceSpec, nodes: seq<NodeInfo>)
    ensures Bound(spec, nodes).Some? <==> exists n <- nodes :: Suits(spec, n)
  {
    hide Suits, Fits;
    forall n ensures Fits(spec, n) <==> Suits(spec, n) {
      FitsIff(spec, n);
    }
  }

  // ── Building ────────────────────────────────────────────────────────

  ghost predicate Built(reg: ResourceRegistry, specs: seq<ResourceSpec>, nodes: seq<NodeInfo>) {
    && AllBound(specs, nodes) && Unambiguous(Occurrences(specs, nodes))
    && Indexes(reg.toolIndex, Occurrences(specs, nodes))
    && reg.mcp == Bindings(specs, nodes, true) && reg.custom == Bindings(specs, nodes, false)
  }

  /** The spec at `at` is the first that finds no node, or whose tools clash. */
  ghost predicate FailsAt(specs: seq<ResourceSpec>, nodes: seq<NodeInfo>, at: nat, e: BuildError) {
    && at < |specs| && AllBound(specs[..at], nodes) && Unambiguous(Occurrences(specs[..at], nodes))
    && match e
       case MissingModel(_) => false
       case MissingNode(name, nodeType) =>
         name == specs[at].resourceName && nodeType == specs[at].nodeType && Bound(specs[at], nodes).None?
       case AmbiguousTool(_, _, name) =>
         && name == specs[at].resourceName && AllBound(specs[..at + 1], nodes)
         && !Unambiguous(Occurrences(specs[..at + 1], nodes))
  }

  lemma BoundSnoc(specs: seq<ResourceSpec>, nodes: seq<NodeInfo>, i: nat)
    requires i < |specs| && AllBound(specs[..i], nodes) && Bound(specs[i], nodes).Some?
    ensures AllBound(specs[..i + 1], nodes)
    ensures var node := Bound(specs[i], nodes).value;
            Occurrences(specs[..i + 1], nodes) == Occurrences(specs[..i], nodes)
                + WithOwner(Offers(specs[i], node), node.nodeId)
    ensures forall mcp :: Bindings(specs[..i + 1], nodes, mcp) ==
              if IsMcp(specs[i]) != mcp then Bindings(specs[..i], nodes, mcp)
              else var id := Bound(specs[i], nodes).value.nodeId;
                   Bindings(specs[..i], nodes, mcp)[id := Binding(specs[i].resourceName, id,
                       Declared(specs[i].capabilities))]
  {
    assert specs[..i + 1][..i] == specs[..i];
  }

  lemma {:induction false} OccurrencesGrow(specs: seq<ResourceSpec>, nodes: seq<NodeInfo>, n: nat)
    requires n <= |specs| && AllBound(specs, nodes)
    ensures AllBound(specs[..n], nodes) && Occurrences(specs[..n], nodes) <= Occurrences(specs, nodes)
    decreases |specs| - n
  {
    if n == |specs| {
      assert specs[..n] == specs;
    } else {
      OccurrencesGrow(specs, nodes, n + 1);
      assert specs[..n] == specs[..n + 1][..n];
      BoundSnoc(specs, nodes, n);
    }
  }

  /** A failing prefix fails the whole. */
  lemma FailureIsFinal(specs: seq<ResourceSpec>, nodes: seq<NodeInfo>, at: nat, e: BuildError)
    requires FailsAt(specs, nodes, at, e)
    ensures !(AllBound(specs, nodes) && Unambiguous(Occurrences(specs, nodes)))
  {
    if AllBound(specs, nodes) && e.AmbiguousTool? {
      OccurrencesGrow(specs, nodes, at + 1);
      if Unambiguous(Occurrences(specs, nodes)) {
        AmbiguityStays(Occurrences(specs[..at + 1], nodes), Occurrences(specs, nodes));
      }
    }
  }

  lemma NothingBuilt(model: NodeId, nodes: seq<NodeInfo>)
    ensures Built(ResourceRegistry(model, map[], map[], map[]), [], nodes)
  {
  }

  /** The work done for one declared resource. */
  method AddResource(spec: ResourceSpec, nodes: seq<NodeInfo>, reg: ResourceRegistry, ghost specs: seq<ResourceSpec>,
                     ghost i: nat)
    returns (r: Result<ResourceRegistry, BuildError>)
    requires i < |specs| && specs[i] == spec && Built(reg, specs[..i], nodes)
    ensures r.Ok? ==> Built(r.value, specs[..i + 1], nodes) && r.value.model == reg.model
    ensures r.Err? ==> FailsAt(specs, nodes, i, r.error)
  {
    var filter := ParseDeclaredFilter(spec.capabilities);
    var node := Bound(spec, nodes);
    if node.None? {
      return Err(MissingNode(spec.resourceName, spec.nodeType));
    }
    BoundSnoc(specs, nodes, i);
    var id := node.value.nodeId;
    var binding := Binding(spec.resourceName, id, filter);
    if IsMcp(spec) {
      var index := IndexTools(spec, node.value, filter, reg.toolIndex, Occurrences(specs[..i], nodes));
      if index.Err? {
        return Err(index.error);
      }
      r := Ok(reg.(toolIndex := index.value, mcp := reg.mcp[id := binding]));
    } else {
      assert Occurrences(specs[..i + 1], nodes) == Occurrences(specs[..i], nodes);
      r := Ok(reg.(custom := reg.custom[id := binding]));
    }
  }

  /** Resource `i` gets the node `id`, as one that offers tools or as another. */
  ghost predicate Gets(specs: seq<ResourceSpec>, nodes: seq<NodeInfo>, mcp: bool, i: nat, id: NodeId) {
    && i < |specs| && (OffersTools(specs[i]) <==> mcp)
    && exists j: nat :: Chosen(specs[i], nodes, j) && nodes[j].nodeId == id
  }

  /** Every node that a resource gets is bound under the name and filter of the last resource that gets it. */
  ghost predicate BindsLast(bindings: map<NodeId, Binding>, specs: seq<ResourceSpec>, nodes: seq<NodeInfo>, mcp: bool) {
    && (forall id :: id in bindings <==> exists i :: Gets(specs, nodes, mcp, i, id))
    && forall id <- bindings :: exists i :: IsLast(bindings[id], specs, nodes, mcp, i, id)
  }

  ghost predicate IsLast(b: Binding, specs: seq<ResourceSpec>, nodes: seq<NodeInfo>, mcp: bool, i: nat, id: NodeId) {
    && Gets(specs, nodes, mcp, i, id) && (forall k: nat :: k > i ==> !Gets(specs, nodes, mcp, k, id))
    && b.resourceName == specs[i].resourceName && b.nodeId == id && Filters(specs[i].capabilities, b.filter)
  }

  lemma GetsIff(specs: seq<ResourceSpec>, nodes: seq<NodeInfo>, mcp: bool, i: nat, id: NodeId)
    requires AllBound(specs, nodes)
    ensures Gets(specs, nodes, mcp, i, id) <==>
            i < |specs| && IsMcp(specs[i]) == mcp && Bound(specs[i], nodes).value.nodeId == id
  {
    hide Suits, Bound, IsMcp, OffersTools;
    if i < |specs| {
      McpIff(specs[i]);
      var j := BoundIsChosen(specs[i], nodes);
      if k: nat :| Chosen(specs[i], nodes, k) && nodes[k].nodeId == id {
        ChosenOnce(specs[i], nodes, j, k);
      }
    }
  }

  lemma GetsSnoc(specs: seq<ResourceSpec>, nodes: seq<NodeInfo>, mcp: bool, i: nat, id: NodeId)
    requires specs != [] && i != |specs| - 1
    ensures Gets(specs, nodes, mcp, i, id) <==> Gets(specs[..|specs| - 1], nodes, mcp, i, id)
  {
    hide Chosen, OffersTools;
  }

  lemma {:induction false} BindingsBindLast(specs: seq<ResourceSpec>, nodes: seq<NodeInfo>, mcp: bool)
    requires AllBound(specs, nodes)
    ensures BindsLast(Bindings(specs, nodes, mcp), specs, nodes, mcp)
    decreases |specs|
  {
    hide Bound, IsMcp, Gets, Filters, Declared;
    if specs == [] {
      forall i: nat, id ensures !Gets(specs, nodes, mcp, i, id) {
        GetsIff(specs, nodes, mcp, i, id);
      }
    } else {
      var n := |specs| - 1;
      BindingsBindLast(specs[..n], nodes, mcp);
      DeclaredFilters(specs[n].capabilities);
      forall i: nat, id ensures i != n ==> (Gets(specs, nodes, mcp, i, id) <==> Gets(specs[..n], nodes, mcp, i, id))
        ensures i >= n ==> !Gets(specs[..n], nodes, mcp, i, id)
        ensures i == n ==> (Gets(specs, nodes, mcp, i, id) <==>
                              IsMcp(specs[n]) == mcp && Bound(specs[n], nodes).value.nodeId == id)
        ensures i > n ==> !Gets(specs, nodes, mcp, i, id)
      {
        GetsIff(specs, nodes, mcp, i, id);
        GetsIff(specs[..n], nodes, mcp, i, id);
        if i != n {
          GetsSnoc(specs, nodes, mcp, i, id);
        }
      }
      BindsSnoc(Bindings(specs[..n], nodes, mcp), specs, nodes, mcp, Bound(specs[n], nodes).value.nodeId,
                Declared(specs[n].capabilities));
    }
  }

  /** One resource more, which gets `own` if it is of this kind. */
  lemma BindsSnoc(before: map<NodeId, Binding>, specs: seq<ResourceSpec>, nodes: seq<NodeInfo>, mcp: bool, own: NodeId,
                  filter: DeclaredFilter)
    requires specs != [] && BindsLast(before, specs[..|specs| - 1], nodes, mcp)
    requires Filters(specs[|specs| - 1].capabilities, filter)
    requires var n := |specs| - 1;
             forall i: nat, id ::
               && (i < n ==> (Gets(specs, nodes, mcp, i, id) <==> Gets(specs[..n], nodes, mcp, i, id)))
               && (i >= n ==> !Gets(specs[..n], nodes, mcp, i, id))
               && (i == n ==> (Gets(specs, nodes, mcp, i, id) <==> IsMcp(specs[n]) == mcp && own == id))
               && (i > n ==> !Gets(specs, nodes, mcp, i, id))
    ensures var last := specs[|specs| - 1];
            BindsLast(if IsMcp(last) == mcp then before[own := Binding(last.resourceName, own, filter)] else before,
                specs, nodes, mcp)
  {
    hide IsMcp, Gets, Filters;
    var n := |specs| - 1;
    var after := if IsMcp(specs[n]) == mcp then before[own := Binding(specs[n].resourceName, own, filter)] else before;
    forall id ensures id in after <==> exists i :: Gets(specs, nodes, mcp, i, id) {
      if i: nat :| Gets(specs[..n], nodes, mcp, i, id) {
        assert Gets(specs, nodes, mcp, i, id);
      }
      if i: nat :| Gets(specs, nodes, mcp, i, id) {
        assert i == n || Gets(specs[..n], nodes, mcp, i, id);
      }
      assert IsMcp(specs[n]) == mcp && own == id ==> Gets(specs, nodes, mcp, n, id);
    }
    forall id | id in after ensures exists i :: IsLast(after[id], specs, nodes, mcp, i, id) {
      if IsMcp(specs[n]) == mcp && own == id {
        assert IsLast(after[id], specs, nodes, mcp, n, id);
      } else {
        var i: nat :| IsLast(before[id], specs[..n], nodes, mcp, i, id);
        assert IsLast(after[id], specs, nodes, mcp, i, id);
      }
    }
  }

  ghost predicate IsTaken(specs: seq<ResourceSpec>, nodes: seq<NodeInfo>, tool: string, id: NodeId) {
    exists e :: Taken(specs, nodes, e, tool, id)
  }

  /** A tool's owner is the node some resource takes it from, and nobody else. */
  ghost predicate OwnsTaken(index: map<string, NodeId>, specs: seq<ResourceSpec>, nodes: seq<NodeInfo>) {
    forall tool, id :: IsTaken(specs, nodes, tool, id) <==> tool in index && index[tool] == id
  }

  /** The owner of a tool is the node some accepting mcp resource gets and that lists it, and nobody else. */
  lemma OwnerIff(index: map<string, NodeId>, specs: seq<ResourceSpec>, nodes: seq<NodeInfo>, tool: string, id: NodeId)
    requires AllBound(specs, nodes) && Indexes(index, Occurrences(specs, nodes))
    ensures (tool in index && index[tool] == id) <==> IsTaken(specs, nodes, tool, id)
  {
    hide Taken, Occurrences;
    var occ := Occurrences(specs, nodes);
    var at := OccurrencesTaken(specs, nodes);
    if e: (nat, nat) :| Taken(specs, nodes, e, tool, id) {
      TakenName(specs, nodes, at, occ, e, tool, id);
    }
    if tool in index && index[tool] == id {
      var k :| 0 <= k < |occ| && occ[k].0 == tool;
      assert Taken(specs, nodes, at[k], tool, id);
    }
  }

  lemma IndexOwnsTaken(index: map<string, NodeId>, specs: seq<ResourceSpec>, nodes: seq<NodeInfo>)
    requires AllBound(specs, nodes) && Indexes(index, Occurrences(specs, nodes))
    ensures OwnsTaken(index, specs, nodes)
  {
    hide IsTaken, Occurrences, Indexes, AllBound;
    forall tool, id ensures IsTaken(specs, nodes, tool, id) <==> tool in index && index[tool] == id {
      OwnerIff(index, specs, nodes, tool, id);
    }
  }

  lemma BuiltMeans(reg: ResourceRegistry, specs: seq<ResourceSpec>, nodes: seq<NodeInfo>)
    requires Built(reg, specs, nodes)
    ensures BindsLast(reg.mcp, specs, nodes, true) && BindsLast(reg.custom, specs, nodes, false)
    ensures OwnsTaken(reg.toolIndex, specs, nodes)
  {
    hide BindsLast, OwnsTaken, Bindings, Occurrences, Bound;
    BindingsBindLast(specs, nodes, true);
    BindingsBindLast(specs, nodes, false);
    IndexOwnsTaken(reg.toolIndex, specs, nodes);
  }

  /** The resource at `at` finds no node, or takes a name that is taken; those before it do neither. */
  ghost predicate Blames(specs: seq<ResourceSpec>, nodes: seq<NodeInfo>, at: nat, e: BuildError) {
    && at < |specs| && AllSuited(specs[..at], nodes) && NoneTwice(specs[..at], nodes)
    && match e
       case MissingModel(_) => false
       case MissingNode(name, nodeType) =>
         && name == specs[at].resourceName && nodeType == specs[at].nodeType
         && forall n <- nodes :: !Suits(specs[at], n)
       case AmbiguousTool(_, _, name) =>
         && name == specs[at].resourceName && AllSuited(specs[..at + 1], nodes)
         && !NoneTwice(specs[..at + 1], nodes)
  }

  lemma FailureBlames(specs: seq<ResourceSpec>, nodes: seq<NodeInfo>, at: nat, e: BuildError)
    requires FailsAt(specs, nodes, at, e)
    ensures Blames(specs, nodes, at, e)
  {
    hide AllBound, AllSuited, NoneTwice, Unambiguous, Suits, Bound;
    AllBoundIff(specs[..at], nodes);
    UnambiguousIff(specs[..at], nodes);
    BoundIff(specs[at], nodes);
    if e.AmbiguousTool? {
      AllBoundIff(specs[..at + 1], nodes);
      UnambiguousIff(specs[..at + 1], nodes);
    }
  }

  /**
   * Succeeds iff some node serves the model, every resource finds a node, and no accepted tool name occurs
   * twice; a failure names the first resource that is to blame.
   */
  method Build(decl: ModelDecl, specs: seq<ResourceSpec>, nodes: seq<NodeInfo>)
    returns (r: Result<ResourceRegistry, BuildError>, ghost at: nat)
    ensures r.Ok? <==> && (exists n <- nodes :: Serves(n, decl))
                       && AllSuited(specs, nodes) && NoneTwice(specs, nodes)
    ensures r.Ok? ==> Built(r.value, specs, nodes) && OwnsTaken(r.value.toolIndex, specs, nodes)
    ensures r.Ok? ==> BindsLast(r.value.mcp, specs, nodes, true) && BindsLast(r.value.custom, specs, nodes, false)
    ensures r.Ok? ==> exists n <- nodes :: Serves(n, decl) && r.value.model == n.nodeId
    ensures r.Err? ==>
              || (r.error.MissingModel? && !exists n <- nodes :: Serves(n, decl))
              || Blames(specs, nodes, at, r.error)
  {
    hide Serves, AllSuited, NoneTwice, Unambiguous, AllBound, OwnsTaken, BindsLast, Blames;
    at := 0;
    var model, m := ResolveModel(decl, nodes);
    if model.Err? {
      return Err(model.error), at;
    }
    AllBoundIff(specs, nodes);
    if AllBound(specs, nodes) {
      UnambiguousIff(specs, nodes);
    }
    r, at := BuildAll(model.value, specs, nodes);
    if r.Ok? {
      BuiltMeans(r.value, specs, nodes);
    } else {
      FailureBlames(specs, nodes, at, r.error);
    }
  }

  /** Resource after resource. */
  method BuildAll(model: NodeId, specs: seq<ResourceSpec>, nodes: seq<NodeInfo>)
    returns (r: Result<ResourceRegistry, BuildError>, ghost at: nat)
    ensures r.Ok? <==> AllBound(specs, nodes) && Unambiguous(Occurrences(specs, nodes))
    ensures r.Ok? ==> Built(r.value, specs, nodes) && r.value.model == model
    ensures r.Err? ==> FailsAt(specs, nodes, at, r.error)
  {
    hide Bindings;
    at := 0;
    assert Built(ResourceRegistry(model, map[], map[], map[]), [], nodes) by {
      NothingBuilt(model, nodes);
    }
    hide Unambiguous, Indexes, FailsAt;
    var reg := ResourceRegistry(model, map[], map[], map[]);
    assert specs[..0] == [];
    for i := 0 to |specs|
      invariant Built(reg, specs[..i], nodes) && reg.model == model
    {
      var next := AddResource(specs[i], nodes, reg, specs, i);
      at := i;
      if next.Err? {
        FailureIsFinal(specs, nodes, i, next.error);
        return Err(next.error), at;
      }
      reg := next.value;
    }
    assert specs[..|specs|] == specs;
    r := Ok(reg);
  }

  // ── Who owns a tool ─────────────────────────────────────────────────

  /** Some mcp spec bound to `id` accepts `tool`, and that node lists it. */
  ghost predicate Provides(specs: seq<ResourceSpec>, nodes: seq<NodeInfo>, i: nat, tool: string, id: NodeId)
    requires AllBound(specs, nodes)
  {
    && i < |specs| && IsMcp(specs[i])
    && var node := Bound(specs[i], nodes).value;
       node.nodeId == id && tool in ToolNames(node) && Declared(specs[i].capabilities).Accepts(tool)
  }

  lemma {:induction false} AcceptedMeans(names: seq<string>, filter: DeclaredFilter, t: string)
    ensures t in Accepted(names, filter) <==> t in names && filter.Accepts(t)
    decreases |names|
  {
    if names != [] {
      var front := names[..|names| - 1];
      AcceptedMeans(front, filter, t);
      assert names == front + [names[|names| - 1]];
    }
  }

  lemma OffersMeans(specs: seq<ResourceSpec>, nodes: seq<NodeInfo>, i: nat, tool: string, id: NodeId)
    requires AllBound(specs, nodes) && i < |specs|
    ensures var node := Bound(specs[i], nodes).value;
            Provides(specs, nodes, i, tool, id) <==> (tool, id) in WithOwner(Offers(specs[i], node), node.nodeId)
  {
    var node := Bound(specs[i], nodes).value;
    var names := Offers(specs[i], node);
    AcceptedMeans(ToolNames(node), Declared(specs[i].capabilities), tool);
    if Provides(specs, nodes, i, tool, id) {
      var k :| 0 <= k < |names| && names[k] == tool;
      assert WithOwner(names, node.nodeId)[k] == (tool, id);
    }
  }

  lemma {:induction false} OccurrenceMeans(specs: seq<ResourceSpec>, nodes: seq<NodeInfo>, tool: string, id: NodeId)
    requires AllBound(specs, nodes)
    ensures (tool, id) in Occurrences(specs, nodes) <==> exists i :: Provides(specs, nodes, i, tool, id)
    decreases |specs|
  {
    if specs != [] {
      var front, n := specs[..|specs| - 1], |specs| - 1;
      OccurrenceMeans(front, nodes, tool, id);
      OffersMeans(specs, nodes, n, tool, id);
      if i: nat :| Provides(front, nodes, i, tool, id) {
        assert Provides(specs, nodes, i, tool, id);
      }
      if i: nat :| Provides(specs, nodes, i, tool, id) {
        assert i == n || Provides(front, nodes, i, tool, id);
      }
    }
  }

  lemma IndexedIff(reg: ResourceRegistry, specs: seq<ResourceSpec>, nodes: seq<NodeInfo>, tool: string, id: NodeId)
    requires Built(reg, specs, nodes)
    ensures (tool in reg.toolIndex && reg.toolIndex[tool] == id) <==> exists i :: Provides(specs, nodes, i, tool, id)
  {
    var occ := Occurrences(specs, nodes);
    OccurrenceMeans(specs, nodes, tool, id);
    if (tool, id) in occ {
      var k :| 0 <= k < |occ| && occ[k] == (tool, id);
    }
    if tool in reg.toolIndex && reg.toolIndex[tool] == id {
      var k :| 0 <= k < |occ| && occ[k].0 == tool;
      assert occ[k] == (tool, id);
    }
  }

  // ── What the model is offered ───────────────────────────────────────

  function FindNode(nodes: seq<NodeInfo>, id: NodeId): (r: Option<NodeInfo>)
    ensures r.Some? ==> r.value in nodes && r.value.nodeId == id
    ensures r.None? ==> forall n <- nodes :: n.nodeId != id
  {
    if nodes == [] then None
    else if nodes[0].nodeId == id then Some(nodes[0])
    else FindNode(nodes[1..], id)
  }

  ghost function NodeTools(binding: Binding, nodes: seq<NodeInfo>, id: NodeId): seq<ToolSpec> {
    match FindNode(nodes, id)
    case None => []
    case Some(node) => Advertised(Items(node.capabilities, "tools"), binding.filter)
  }

  ghost function Gathered(mcp: map<NodeId, Binding>, nodes: seq<NodeInfo>, order: seq<NodeId>): seq<ToolSpec>
    requires forall id <- order :: id in mcp
  {
    if order == [] then []
    else
      var last := order[|order| - 1];
      Gathered(mcp, nodes, order[..|order| - 1]) + NodeTools(mcp[last], nodes, last)
  }

  /** One mcp node's contribution. */
  method CollectNodeTools(binding: Binding, nodes: seq<NodeInfo>, id: NodeId, specs: seq<ToolSpec>)
    returns (out: seq<ToolSpec>)
    ensures out == specs + NodeTools(binding, nodes, id)
  {
    out := specs;
    match FindNode(nodes, id) {
      case None =>
      case Some(node) =>
        var items := Items(node.capabilities, "tools");
        for i := 0 to |items|
          invariant out == specs + Advertised(items[..i], binding.filter)
        {
          assert items[..i + 1][..i] == items[..i];
          if NameOf(items[i]) != "" && binding.filter.Accepts(NameOf(items[i])) {
            out := out + [AsToolSpec(items[i])];
          }
        }
        assert items[..|items|] == items;
    }
  }

  /** `specs` goes through all the mcp bindings, once each, in this order. */
  ghost predicate GathersAll(reg: ResourceRegistry, nodes: seq<NodeInfo>, order: seq<NodeId>, specs: seq<ToolSpec>) {
    NoDup(order) && Elems(order) == reg.mcp.Keys && (forall id <- order :: id in reg.mcp)
       && specs == Gathered(reg.mcp, nodes, order)
  }

  /** Visits the mcp bindings in some order. */
  method ToolsForModel(reg: ResourceRegistry, nodes: seq<NodeInfo>) returns (specs: seq<ToolSpec>)
    ensures exists order :: GathersAll(reg, nodes, order, specs)
  {
    specs := [];
    ghost var order: seq<NodeId> := [];
    var todo := reg.mcp.Keys;
    while todo != {}
      invariant NoDup(order) && todo !! Elems(order) && todo + Elems(order) == reg.mcp.Keys
      invariant forall id <- order :: id in reg.mcp
      invariant specs == Gathered(reg.mcp, nodes, order)
    {
      var id :| id in todo;
      todo := todo - {id};
      specs := CollectNodeTools(reg.mcp[id], nodes, id, specs);
      assert (order + [id])[..|order|] == order;
      assert Elems(order + [id]) == Elems(order) + {id};
      order := order + [id];
    }
    assert GathersAll(reg, nodes, order, specs);
  }

  // ── Advertised tools and their owners ───────────────────────────────

  /** A bus graph holds each node once. */
  ghost predicate DistinctNodes(nodes: seq<NodeInfo>) {
    forall i, j :: 0 <= i < j < |nodes| ==> nodes[i].nodeId != nodes[j].nodeId
  }

  /** A binding is that of some mcp resource bound to its node. */
  lemma {:induction false} BindingHasSource(specs: seq<ResourceSpec>, nodes: seq<NodeInfo>, id: NodeId) returns (i: nat)
    requires AllBound(specs, nodes) && id in Bindings(specs, nodes, true)
    ensures i < |specs| && IsMcp(specs[i]) && Bound(specs[i], nodes).value.nodeId == id
    ensures Bindings(specs, nodes, true)[id].filter == Declared(specs[i].capabilities)
    decreases |specs|
  {
    var front, last := specs[..|specs| - 1], specs[|specs| - 1];
    if IsMcp(last) && Bound(last, nodes).value.nodeId == id {
      i := |specs| - 1;
    } else {
      i := BindingHasSource(front, nodes, id);
    }
  }

  lemma {:induction false} McpIsBound(specs: seq<ResourceSpec>, nodes: seq<NodeInfo>, i: nat)
    requires AllBound(specs, nodes) && i < |specs| && IsMcp(specs[i])
    ensures Bound(specs[i], nodes).value.nodeId in Bindings(specs, nodes, true)
    decreases |specs|
  {
    if i < |specs| - 1 {
      McpIsBound(specs[..|specs| - 1], nodes, i);
    }
  }

  /** On the graph it was built from, what a node contributes are the offers of a resource bound to it. */
  lemma ContributionIsOffer(reg: ResourceRegistry, specs: seq<ResourceSpec>, nodes: seq<NodeInfo>, id: NodeId)
    returns (i: nat)
    requires Built(reg, specs, nodes) && DistinctNodes(nodes) && id in reg.mcp
    ensures i < |specs| && IsMcp(specs[i]) && Bound(specs[i], nodes).value.nodeId == id
    ensures SpecNames(NodeTools(reg.mcp[id], nodes, id)) == Offers(specs[i], Bound(specs[i], nodes).value)
    ensures reg.mcp[id].filter == Declared(specs[i].capabilities)
  {
    i := BindingHasSource(specs, nodes, id);
    var node := Bound(specs[i], nodes).value;
    assert FindNode(nodes, id) == Some(node);
    AdvertisedNames(Items(node.capabilities, "tools"), reg.mcp[id].filter);
  }

  /** A tool the model is offered, contributed by node `id`, is owned by `id`, which lists it. */
  lemma AdvertisedIsOwned(reg: ResourceRegistry, specs: seq<ResourceSpec>, nodes: seq<NodeInfo>, id: NodeId, k: nat)
    requires Built(reg, specs, nodes) && DistinctNodes(nodes) && id in reg.mcp
    requires k < |NodeTools(reg.mcp[id], nodes, id)|
    ensures var tool := NodeTools(reg.mcp[id], nodes, id)[k].name;
            && tool in reg.toolIndex && reg.toolIndex[tool] == id
            && exists n, m :: n in nodes && n.nodeId == id && ToolAt(n, m, tool)
  {
    var i := ContributionIsOffer(reg, specs, nodes, id);
    var node := Bound(specs[i], nodes).value;
    var tool := NodeTools(reg.mcp[id], nodes, id)[k].name;
    assert SpecNames(NodeTools(reg.mcp[id], nodes, id))[k] == tool;
    AcceptedMeans(ToolNames(node), Declared(specs[i].capabilities), tool);
    assert Provides(specs, nodes, i, tool, id);
    IndexedIff(reg, specs, nodes, tool, id);
    ToolNamesMean(node, tool);
  }

  lemma {:induction false} OffersDistinct(specs: seq<ResourceSpec>, nodes: seq<NodeInfo>, i: nat)
    requires AllBound(specs, nodes) && Unambiguous(Occurrences(specs, nodes)) && i < |specs|
    ensures NoDup(Offers(specs[i], Bound(specs[i], nodes).value))
    decreases |specs|
  {
    var front := specs[..|specs| - 1];
    if i < |front| {
      AmbiguityStays(Occurrences(front, nodes), Occurrences(specs, nodes));
      OffersDistinct(front, nodes, i);
    } else {
      var node := Bound(specs[i], nodes).value;
      var names, before := Offers(specs[i], node), Occurrences(front, nodes);
      forall a, b | 0 <= a < b < |names| ensures names[a] != names[b] {
        assert Occurrences(specs, nodes)[|before| + a].0 == names[a]
           && Occurrences(specs, nodes)[|before| + b].0 == names[b];
      }
    }
  }

  /** Across all nodes, the model is offered every tool name at most once, and only owned ones from `order`. */
  lemma {:induction false} OfferedOnce(reg: ResourceRegistry, specs: seq<ResourceSpec>, nodes: seq<NodeInfo>,
                                       order: seq<NodeId>)
    requires Built(reg, specs, nodes) && DistinctNodes(nodes) && NoDup(order) && forall id <- order :: id in reg.mcp
    ensures var offered := Gathered(reg.mcp, nodes, order);
            && NoDup(SpecNames(offered))
            && forall k :: 0 <= k < |offered| ==>
                 offered[k].name in reg.toolIndex && reg.toolIndex[offered[k].name] in order
    decreases |order|
  {
    if order != [] {
      var front, id := order[..|order| - 1], order[|order| - 1];
      OfferedOnce(reg, specs, nodes, front);
      var mine, others := NodeTools(reg.mcp[id], nodes, id), Gathered(reg.mcp, nodes, front);
      var i := ContributionIsOffer(reg, specs, nodes, id);
      OffersDistinct(specs, nodes, i);
      forall k | 0 <= k < |mine| ensures mine[k].name in reg.toolIndex && reg.toolIndex[mine[k].name] == id {
        AdvertisedIsOwned(reg, specs, nodes, id, k);
      }
      Disjointly(others, mine, reg.toolIndex, front, id);
    }
  }

  lemma Disjointly(others: seq<ToolSpec>, mine: seq<ToolSpec>, owner: map<string, NodeId>, front: seq<NodeId>,
                   id: NodeId)
    requires NoDup(SpecNames(others)) && NoDup(SpecNames(mine)) && id !in front
    requires forall k :: 0 <= k < |others| ==> others[k].name in owner && owner[others[k].name] in front
    requires forall k :: 0 <= k < |mine| ==> mine[k].name in owner && owner[mine[k].name] == id
    ensures NoDup(SpecNames(others + mine))
  {
    var all := others + mine;
    forall a, b | 0 <= a < b < |all| ensures all[a].name != all[b].name {
      if b < |others| {
        assert SpecNames(others)[a] != SpecNames(others)[b];
      } else if |others| <= a {
        assert SpecNames(mine)[a - |others|] != SpecNames(mine)[b - |others|];
      }
    }
  }

  /** The tools of one resource all pass the filter that ended up bound to its node. */
  ghost predicate KeepsItsTools(reg: ResourceRegistry, specs: seq<ResourceSpec>, nodes: seq<NodeInfo>, i: nat)
    requires AllBound(specs, nodes) && i < |specs|
  {
    var node := Bound(specs[i], nodes).value;
    IsMcp(specs[i]) ==> node.nodeId in reg.mcp && forall t <- Offers(specs[i], node) ::
        reg.mcp[node.nodeId].filter.Accepts(t)
  }

  ghost predicate IsOffered(reg: ResourceRegistry, nodes: seq<NodeInfo>, tool: string) {
    exists id <- reg.mcp :: tool in SpecNames(NodeTools(reg.mcp[id], nodes, id))
  }

  ghost function Target(spec: ResourceSpec, nodes: seq<NodeInfo>): NodeId
    requires Bound(spec, nodes).Some?
  {
    Bound(spec, nodes).value.nodeId
  }

  /** No mcp resource that offers something is followed by another mcp resource on the same node. */
  ghost predicate NoneReplaced(specs: seq<ResourceSpec>, nodes: seq<NodeInfo>)
    requires AllBound(specs, nodes)
  {
    forall i, j :: 0 <= i < j < |specs| && IsMcp(specs[i]) && IsMcp(specs[j]) ==>
      Target(specs[i], nodes) == Target(specs[j], nodes) ==> Offers(specs[i], Bound(specs[i], nodes).value) == []
  }

  /**
   * A later resource bound to the same node replaces the filter, and since names are unambiguous it rejects all
   * that the earlier one offered. So every owned tool is offered to the model exactly when nothing is replaced.
   */
  lemma OwnedIsOfferedIff(reg: ResourceRegistry, specs: seq<ResourceSpec>, nodes: seq<NodeInfo>)
    requires Built(reg, specs, nodes) && DistinctNodes(nodes)
    ensures (forall t <- reg.toolIndex :: IsOffered(reg, nodes, t)) <==> NoneReplaced(specs, nodes)
  {
    KeptIffNoneReplaced(reg, specs, nodes);
    if forall t <- reg.toolIndex :: IsOffered(reg, nodes, t) {
      forall i | 0 <= i < |specs| && IsMcp(specs[i]) ensures Target(specs[i], nodes) in reg.mcp {
        McpIsBound(specs, nodes, i);
      }
      forall i, t | 0 <= i < |specs| && IsMcp(specs[i]) && t in Offers(specs[i], Bound(specs[i], nodes).value)
        ensures reg.mcp[Target(specs[i], nodes)].filter.Accepts(t)
      {
        OfferedMeansAccepted(reg, specs, nodes, i, t);
      }
    }
    if forall i :: 0 <= i < |specs| ==> KeepsItsTools(reg, specs, nodes, i) {
      forall t | t in reg.toolIndex ensures IsOffered(reg, nodes, t) {
        KeptMeansOffered(reg, specs, nodes, t);
      }
    }
  }

  lemma KeptIffNoneReplaced(reg: ResourceRegistry, specs: seq<ResourceSpec>, nodes: seq<NodeInfo>)
    requires Built(reg, specs, nodes) && DistinctNodes(nodes)
    ensures (forall i :: 0 <= i < |specs| ==> KeepsItsTools(reg, specs, nodes, i)) <==> NoneReplaced(specs, nodes)
  {
    if forall i :: 0 <= i < |specs| ==> KeepsItsTools(reg, specs, nodes, i) {
      forall i, j | 0 <= i < j < |specs| && IsMcp(specs[i]) && IsMcp(specs[j])
         && Target(specs[i], nodes) == Target(specs[j], nodes)
        ensures Offers(specs[i], Bound(specs[i], nodes).value) == []
      {
        KeptOffersNothing(reg, specs, nodes, i, j);
      }
    }
    if NoneReplaced(specs, nodes) {
      forall i | 0 <= i < |specs| ensures KeepsItsTools(reg, specs, nodes, i) {
        if IsMcp(specs[i]) {
          UnreplacedKeeps(reg, specs, nodes, i);
        }
      }
    }
  }

  /** The binding of a node comes from its last mcp resource. */
  lemma {:induction false} LastBinding(specs: seq<ResourceSpec>, nodes: seq<NodeInfo>, i: nat) returns (last: nat)
    requires AllBound(specs, nodes) && i < |specs| && IsMcp(specs[i])
    ensures i <= last < |specs| && IsMcp(specs[last]) && Target(specs[last], nodes) == Target(specs[i], nodes)
    ensures Target(specs[i], nodes) in Bindings(specs, nodes, true)
    ensures Bindings(specs, nodes, true)[Target(specs[i], nodes)].filter == Declared(specs[last].capabilities)
    ensures forall j :: last < j < |specs| && IsMcp(specs[j]) ==> Target(specs[j], nodes) != Target(specs[i], nodes)
    decreases |specs|
  {
    hide Bound, IsMcp, Declared;
    var n, id := |specs| - 1, Target(specs[i], nodes);
    var front := specs[..n];
    if IsMcp(specs[n]) && Target(specs[n], nodes) == id {
      last := n;
    } else {
      last := LastBinding(front, nodes, i);
      forall j | last < j < |specs| && IsMcp(specs[j]) ensures Target(specs[j], nodes) != id {
        if j < n {
          assert specs[j] == front[j];
        }
      }
    }
  }

  lemma UnreplacedKeeps(reg: ResourceRegistry, specs: seq<ResourceSpec>, nodes: seq<NodeInfo>, i: nat)
    requires Built(reg, specs, nodes) && NoneReplaced(specs, nodes) && i < |specs| && IsMcp(specs[i])
    ensures KeepsItsTools(reg, specs, nodes, i)
  {
    var last := LastBinding(specs, nodes, i);
    var node := Bound(specs[i], nodes).value;
    forall t | t in Offers(specs[i], node) ensures reg.mcp[node.nodeId].filter.Accepts(t) {
      assert last == i;
      AcceptedMeans(ToolNames(node), Declared(specs[i].capabilities), t);
    }
  }

  lemma KeptOffersNothing(reg: ResourceRegistry, specs: seq<ResourceSpec>, nodes: seq<NodeInfo>, i: nat, j: nat)
    requires Built(reg, specs, nodes) && DistinctNodes(nodes) && i < j < |specs| && IsMcp(specs[i]) && IsMcp(specs[j])
    requires Target(specs[i], nodes) == Target(specs[j], nodes) && KeepsItsTools(reg, specs, nodes, i)
    ensures Offers(specs[i], Bound(specs[i], nodes).value) == []
  {
    var node, offered := Bound(specs[i], nodes).value, Offers(specs[i], Bound(specs[i], nodes).value);
    if offered != [] {
      var last := LastBinding(specs, nodes, i);
      var t := offered[0];
      assert t in offered && last >= j;
      SameNode(nodes, node, Bound(specs[last], nodes).value);
      AcceptedMeans(ToolNames(node), Declared(specs[i].capabilities), t);
      AcceptedMeans(ToolNames(node), Declared(specs[last].capabilities), t);
      TwiceIsAmbiguous(specs, nodes, i, last, t);
    }
  }

  lemma TwiceIsAmbiguous(specs: seq<ResourceSpec>, nodes: seq<NodeInfo>, i: nat, j: nat, t: string)
    requires AllBound(specs, nodes) && i < j < |specs|
    requires t in Offers(specs[i], Bound(specs[i], nodes).value) && t in Offers(specs[j], Bound(specs[j], nodes).value)
    ensures !Unambiguous(Occurrences(specs, nodes))
  {
    hide Taken, Offers, Bound, Occurrences, Unambiguous;
    UnambiguousIff(specs, nodes);
    var first := TakenByOne(specs, nodes, i);
    var second := TakenByOne(specs, nodes, j);
    var a :| 0 <= a < |first| && Offers(specs[i], Bound(specs[i], nodes).value)[a] == t;
    var b :| 0 <= b < |second| && Offers(specs[j], Bound(specs[j], nodes).value)[b] == t;
    assert (i, first[a]) != (j, second[b]);
  }

  lemma OfferedMeansAccepted(reg: ResourceRegistry, specs: seq<ResourceSpec>, nodes: seq<NodeInfo>, i: nat, t: string)
    requires Built(reg, specs, nodes) && DistinctNodes(nodes) && i < |specs| && IsMcp(specs[i])
    requires t in Offers(specs[i], Bound(specs[i], nodes).value) && (t in reg.toolIndex ==> IsOffered(reg, nodes, t))
    ensures Bound(specs[i], nodes).value.nodeId in reg.mcp
    ensures reg.mcp[Bound(specs[i], nodes).value.nodeId].filter.Accepts(t)
  {
    var node := Bound(specs[i], nodes).value;
    AcceptedMeans(ToolNames(node), Declared(specs[i].capabilities), t);
    assert Provides(specs, nodes, i, t, node.nodeId);
    IndexedIff(reg, specs, nodes, t, node.nodeId);
    var id :| id in reg.mcp && t in SpecNames(NodeTools(reg.mcp[id], nodes, id));
    var k :| 0 <= k < |NodeTools(reg.mcp[id], nodes, id)| && NodeTools(reg.mcp[id], nodes, id)[k].name == t;
    AdvertisedIsOwned(reg, specs, nodes, id, k);
    var j := ContributionIsOffer(reg, specs, nodes, id);
    AcceptedMeans(ToolNames(Bound(specs[j], nodes).value), Declared(specs[j].capabilities), t);
  }

  lemma KeptMeansOffered(reg: ResourceRegistry, specs: seq<ResourceSpec>, nodes: seq<NodeInfo>, t: string)
    requires Built(reg, specs, nodes) && DistinctNodes(nodes) && t in reg.toolIndex
    requires forall i :: 0 <= i < |specs| ==> KeepsItsTools(reg, specs, nodes, i)
    ensures IsOffered(reg, nodes, t)
  {
    var id := reg.toolIndex[t];
    IndexedIff(reg, specs, nodes, t, id);
    var i: nat :| Provides(specs, nodes, i, t, id);
    var node := Bound(specs[i], nodes).value;
    AcceptedMeans(ToolNames(node), Declared(specs[i].capabilities), t);
    assert KeepsItsTools(reg, specs, nodes, i);
    var j := ContributionIsOffer(reg, specs, nodes, id);
    SameNode(nodes, Bound(specs[j], nodes).value, node);
    AcceptedMeans(ToolNames(node), Declared(specs[j].capabilities), t);
  }

  lemma SameNode(nodes: seq<NodeInfo>, a: NodeInfo, b: NodeInfo)
    requires DistinctNodes(nodes) && a in nodes && b in nodes && a.nodeId == b.nodeId
    ensures a == b
  {
    var i :| 0 <= i < |nodes| && nodes[i] == a;
    var j :| 0 <= j < |nodes| && nodes[j] == b;
  }
}
