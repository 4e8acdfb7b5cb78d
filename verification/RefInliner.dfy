/**
 * `$ref` inlining for the operations offered over MCP (apps/backend/src/mcp/mcp.catalog.ts).
 * Components may refer to themselves and to each other in cycles.
 */
module RefInliner {

  /** A JSON value; `Atom` stands for null, numbers and booleans, which inlining passes through. */
  datatype Json =
    | Atom(text: string)
    | Text(text: string)
    | Arr(items: seq<Json>)
    | Obj(fields: map<string, Json>)

  type Schema = j: Json | j.Obj? witness Obj(map[])

  type Components = map<string, Schema>

  const REF_PREFIX: string := "#/components/schemas/"
  const MAX_REF_DEPTH: int := 6

  predicate StartsWith(s: string, prefix: string) {
    |prefix| <= |s| && s[..|prefix|] == prefix
  }

  predicate IsRef(fields: map<string, Json>) {
    "$ref" in fields && fields["$ref"].Text? && StartsWith(fields["$ref"].text, REF_PREFIX)
  }

  function RefName(fields: map<string, Json>): string
    requires IsRef(fields)
  {
    fields["$ref"].text[|REF_PREFIX|..]
  }

  function Stub(name: string): map<string, Json> {
    map["description" := Text(name + " (nested, omitted)")]
  }

  /** Whether a reference is replaced by its component rather than by a stub. */
  predicate Expands(name: string, components: Components, seen: seq<string>) {
    name in components && name !in seen && |seen| < MAX_REF_DEPTH
  }

  function Inline(node: Json, components: Components, seen: seq<string>): (r: Json)
    ensures node.Obj? <==> r.Obj?
    ensures node.Text? || r.Text? ==> r == node
    decreases MAX_REF_DEPTH - |seen|, node
  {
    match node
    case Arr(items) => Arr(seq(|items|, i requires 0 <= i < |items| => Inline(items[i], components, seen)))
    case Obj(fields) =>
      if IsRef(fields) then
        var name := RefName(fields);
        if !Expands(name, components, seen) then Obj(Stub(name))
        else Obj(Inline(components[name], components, seen + [name]).fields + (fields - {"$ref"}))
      else Obj(map k | k in fields :: Inline(fields[k], components, seen))
    case _ => node
  }

  /** No component reference anywhere. */
  predicate RefFree(node: Json) {
    match node
    case Arr(items) => forall i :: 0 <= i < |items| ==> RefFree(items[i])
    case Obj(fields) => !IsRef(fields) && forall k :: k in fields ==> RefFree(fields[k])
    case _ => true
  }

  /**
   * The siblings of a reference that stay visible carry no reference: `hidden` are the names that
   * the siblings of the references in front of it overwrite.
   */
  predicate SiblingsClean(fields: map<string, Json>, hidden: set<string>) {
    forall k :: k in fields && k != "$ref" && k !in hidden ==> RefFree(fields[k])
  }

  /** Every reference in `node` has reference-free siblings. */
  predicate Tidy(node: Json) {
    match node
    case Arr(items) => forall i :: 0 <= i < |items| ==> Tidy(items[i])
    case Obj(fields) => if IsRef(fields) then SiblingsClean(fields, {}) else forall k :: k in fields ==> Tidy(fields[k])
    case _ => true
  }

  predicate AllTidy(components: Components) {
    forall name :: name in components ==> Tidy(components[name])
  }

  /** Every reference in `node` that will be expanded has reference-free siblings. */
  predicate TidyWhereExpanded(node: Json, components: Components, seen: seq<string>) {
    match node
    case Arr(items) => forall i :: 0 <= i < |items| ==> TidyWhereExpanded(items[i], components, seen)
    case Obj(fields) =>
      if IsRef(fields) then Expands(RefName(fields), components, seen) ==> SiblingsClean(fields, {})
      else forall k :: k in fields ==> TidyWhereExpanded(fields[k], components, seen)
    case _ => true
  }

  // ---------------------------------------------------------------- what inlining keeps and removes

  /** Nothing to inline, nothing changes. */
  lemma {:induction false} RefFreeUntouched(node: Json, components: Components, seen: seq<string>)
    requires RefFree(node)
    ensures Inline(node, components, seen) == node
  {
    match node
    case Arr(items) =>
      forall i | 0 <= i < |items| ensures Inline(items[i], components, seen) == items[i] {
        RefFreeUntouched(items[i], components, seen);
      }
      assert seq(|items|, i requires 0 <= i < |items| => Inline(items[i], components, seen)) == items;
    case Obj(fields) =>
      forall k | k in fields ensures Inline(fields[k], components, seen) == fields[k] {
        RefFreeUntouched(fields[k], components, seen);
      }
      assert (map k | k in fields :: Inline(fields[k], components, seen)) == fields;
    case _ =>
  }

  /** No component reference anywhere, leaving out the top-level fields in `hidden`. */
  predicate RefFreeBut(node: Json, hidden: set<string>) {
    match node
    case Obj(fields) => !IsRef(fields) && forall k :: k in fields && k !in hidden ==> RefFree(fields[k])
    case _ => RefFree(node)
  }

  /**
   * Following every reference that gets expanded, in `node` and then in the components, each one
   * has clean siblings. What a cut reference carries, or what an expansion overwrites, is free.
   */
  predicate Clean(node: Json, components: Components, seen: seq<string>, hidden: set<string>)
    decreases MAX_REF_DEPTH - |seen|, node
  {
    match node
    case Arr(items) => forall i :: 0 <= i < |items| ==> Clean(items[i], components, seen, {})
    case Obj(fields) =>
      if IsRef(fields) then
        var name := RefName(fields);
        Expands(name, components, seen) ==>
          && SiblingsClean(fields, hidden)
          && Clean(components[name], components, seen + [name], hidden + (fields.Keys - {"$ref"}))
      else forall k :: k in fields && k !in hidden ==> Clean(fields[k], components, seen, {})
    case _ => true
  }

  lemma MergedFreeIff(a: map<string, Json>, fields: map<string, Json>, hidden: set<string>)
    requires !IsRef(a)
    ensures RefFreeBut(Obj(a + (fields - {"$ref"})), hidden)
            <==> SiblingsClean(fields, hidden) && RefFreeBut(Obj(a), hidden + (fields.Keys - {"$ref"}))
  {
    hide RefFree;
    var merged, rest := a + (fields - {"$ref"}), fields - {"$ref"};
    assert forall k :: k in fields && k != "$ref" <==> k in rest;
    assert forall k :: k in rest ==> k in merged && merged[k] == fields[k];
    assert forall k :: k in a && k !in rest ==> k in merged && merged[k] == a[k];
    if "$ref" in merged {
      assert merged["$ref"] == a["$ref"];
    }
    assert !IsRef(merged);
  }

  lemma {:induction false} InlinedIsNoRef(node: Json, components: Components, seen: seq<string>)
    requires node.Obj?
    ensures !IsRef(Inline(node, components, seen).fields)
    decreases MAX_REF_DEPTH - |seen|, node
  {
    if IsRef(node.fields) {
      var name := RefName(node.fields);
      if Expands(name, components, seen) {
        InlinedIsNoRef(components[name], components, seen + [name]);
      }
    }
  }

  /**
   * Inlining leaves no reference behind exactly when every reference it expands, in the node or in
   * a component on the way, has clean siblings. Components may be anything, cyclic or not.
   */
  lemma {:induction false} SelfContainedIff(node: Json, components: Components, seen: seq<string>)
    ensures RefFree(Inline(node, components, seen)) <==> Clean(node, components, seen, {})
  {
    InlinedFreeBut(node, components, seen, {});
  }

  lemma {:induction false} InlinedFreeBut(node: Json, components: Components, seen: seq<string>, hidden: set<string>)
    ensures RefFreeBut(Inline(node, components, seen), hidden) <==> Clean(node, components, seen, hidden)
    decreases MAX_REF_DEPTH - |seen|, node
  {
    match node
    case Arr(items) =>
      forall i | 0 <= i < |items|
        ensures RefFree(Inline(items[i], components, seen)) <==> Clean(items[i], components, seen, {})
      {
        InlinedFreeBut(items[i], components, seen, {});
      }
      ItemsOfInlined(node, components, seen);
    case Obj(fields) =>
      InlinedIsNoRef(node, components, seen);
      if IsRef(fields) {
        var name := RefName(fields);
        if Expands(name, components, seen) {
          var target := components[name];
          InlinedIsNoRef(target, components, seen + [name]);
          InlinedFreeBut(target, components, seen + [name], hidden + (fields.Keys - {"$ref"}));
          MergedFreeIff(Inline(target, components, seen + [name]).fields, fields, hidden);
        }
      } else {
        forall k | k in fields
          ensures RefFree(Inline(fields[k], components, seen)) <==> Clean(fields[k], components, seen, {})
        {
          InlinedFreeBut(fields[k], components, seen, {});
        }
        var inlined := Inline(node, components, seen).fields;
        assert forall k :: k in fields ==> inlined[k] == Inline(fields[k], components, seen);
      }
    case _ =>
  }

  lemma {:induction false} TidyIsClean(node: Json, components: Components, seen: seq<string>, hidden: set<string>)
    requires Tidy(node) && AllTidy(components)
    ensures Clean(node, components, seen, hidden)
    decreases MAX_REF_DEPTH - |seen|, node
  {
    match node
    case Arr(items) =>
      forall i | 0 <= i < |items| ensures Clean(items[i], components, seen, {}) {
        TidyIsClean(items[i], components, seen, {});
      }
    case Obj(fields) =>
      if IsRef(fields) {
        var name := RefName(fields);
        if Expands(name, components, seen) {
          TidyIsClean(components[name], components, seen + [name], hidden + (fields.Keys - {"$ref"}));
        }
      } else {
        forall k | k in fields ensures Clean(fields[k], components, seen, {}) {
          TidyIsClean(fields[k], components, seen, {});
        }
      }
    case _ =>
  }

  /** With tidy components only the node itself has to be looked at. */
  lemma {:induction false} SelfContainedWithTidyComponents(node: Json, components: Components, seen: seq<string>)
    requires AllTidy(components)
    ensures RefFree(Inline(node, components, seen)) <==> TidyWhereExpanded(node, components, seen)
  {
    SelfContainedIff(node, components, seen);
    CleanIsTidyWhereExpanded(node, components, seen);
  }

  lemma {:induction false} CleanIsTidyWhereExpanded(node: Json, components: Components, seen: seq<string>)
    requires AllTidy(components)
    ensures Clean(node, components, seen, {}) <==> TidyWhereExpanded(node, components, seen)
  {
    match node
    case Arr(items) =>
      forall i | 0 <= i < |items|
        ensures Clean(items[i], components, seen, {}) <==> TidyWhereExpanded(items[i], components, seen)
      {
        CleanIsTidyWhereExpanded(items[i], components, seen);
      }
    case Obj(fields) =>
      if IsRef(fields) {
        var name := RefName(fields);
        if Expands(name, components, seen) {
          TidyIsClean(components[name], components, seen + [name], {} + (fields.Keys - {"$ref"}));
        }
      } else {
        forall k | k in fields
          ensures Clean(fields[k], components, seen, {}) <==> TidyWhereExpanded(fields[k], components, seen)
        {
          CleanIsTidyWhereExpanded(fields[k], components, seen);
        }
      }
    case _ =>
  }

  lemma {:induction false} ItemsOfInlined(node: Json, components: Components, seen: seq<string>)
    requires node.Arr?
    ensures var r := Inline(node, components, seen);
            && r.Arr? && |r.items| == |node.items|
            && forall i :: 0 <= i < |r.items| ==> r.items[i] == Inline(node.items[i], components, seen)
  {
  }

  /** The purpose of the function: each operation's schema stands on its own, and inlining is done. */
  lemma {:induction false} SelfContained(node: Json, components: Components)
    requires Tidy(node) && AllTidy(components)
    ensures RefFree(Inline(node, components, []))
    ensures Inline(Inline(node, components, []), components, []) == Inline(node, components, [])
  {
    TidyIsClean(node, components, [], {});
    SelfContainedIff(node, components, []);
    RefFreeUntouched(Inline(node, components, []), components, []);
  }

  // ---------------------------------------------------------------- one reference

  /** A reference is a `$ref` that is a text with the prefix of the components in front of a name. */
  lemma RefIff(fields: map<string, Json>, name: string)
    ensures IsRef(fields) && RefName(fields) == name
            <==> "$ref" in fields && fields["$ref"] == Text("#/components/schemas/" + name)
  {
    if IsRef(fields) {
      assert fields["$ref"].text == REF_PREFIX + RefName(fields);
    }
  }

  /**
   * A reference to a missing component, to one that is being expanded already, or below six
   * expanded ones, leaves a description. Any other is the inlined component with the fields
   * beside the reference put over it as they are.
   */
  lemma {:induction false} ReferenceIs(fields: map<string, Json>, name: string, components: Components,
                                       seen: seq<string>, k: string)
    requires "$ref" in fields && fields["$ref"] == Text("#/components/schemas/" + name)
    ensures var r := Inline(Obj(fields), components, seen);
            if name !in components || name in seen || |seen| >= 6 then
              r == Obj(map["description" := Text(name + " (nested, omitted)")])
            else
              && r.Obj? && Inline(components[name], components, seen + [name]).Obj?
              && var inlined := Inline(components[name], components, seen + [name]).fields;
                 && (k in r.fields <==> k in inlined || (k in fields && k != "$ref"))
                 && (k in r.fields ==> r.fields[k] == if k in fields && k != "$ref" then fields[k] else inlined[k])
  {
    RefIff(fields, name);
  }

  /** Everything else is gone through field by field and element by element. */
  lemma {:induction false} OthersAreWalked(node: Json, components: Components, seen: seq<string>)
    ensures var r := Inline(node, components, seen);
            && (node.Atom? || node.Text? ==> r == node)
            && (node.Arr? ==> && r.Arr? && |r.items| == |node.items|
                              && forall i :: 0 <= i < |r.items| ==>
                                   r.items[i] == Inline(node.items[i], components, seen))
            && (node.Obj? && !IsRef(node.fields) ==>
                  && r.Obj? && r.fields.Keys == node.fields.Keys
                  && forall k :: k in r.fields ==> r.fields[k] == Inline(node.fields[k], components, seen))
  {
  }

  // ---------------------------------------------------------------- no name inside itself

  /**
   * Whatever the components already being expanded say, they are not looked at again: no name is
   * expanded inside itself, at any depth.
   */
  lemma {:induction false} SeenComponentsIgnored(node: Json, c1: Components, c2: Components, seen: seq<string>)
    requires forall name :: name !in seen ==>
               (name in c1 <==> name in c2) && (name in c1 ==> c1[name] == c2[name])
    ensures Inline(node, c1, seen) == Inline(node, c2, seen)
    decreases MAX_REF_DEPTH - |seen|, node
  {
    match node
    case Arr(items) =>
      forall i | 0 <= i < |items| ensures Inline(items[i], c1, seen) == Inline(items[i], c2, seen) {
        SeenComponentsIgnored(items[i], c1, c2, seen);
      }
      ItemsOfInlined(node, c1, seen);
      ItemsOfInlined(node, c2, seen);
      assert Inline(node, c1, seen).items == Inline(node, c2, seen).items;
    case Obj(fields) =>
      if IsRef(fields) {
        var name := RefName(fields);
        if Expands(name, c1, seen) {
          SeenComponentsIgnored(c1[name], c1, c2, seen + [name]);
        }
      } else {
        forall k | k in fields ensures Inline(fields[k], c1, seen) == Inline(fields[k], c2, seen) {
          SeenComponentsIgnored(fields[k], c1, c2, seen);
        }
        assert Inline(node, c1, seen).fields == Inline(node, c2, seen).fields;
      }
    case _ =>
  }

  // ---------------------------------------------------------------- acyclic components are not cut

  type Ranks = map<string, nat>

  /** Every reference in `node` is to a component nested less than `bound` deep. */
  predicate RefsBelow(node: Json, components: Components, rank: Ranks, bound: nat) {
    match node
    case Arr(items) => forall i :: 0 <= i < |items| ==> RefsBelow(items[i], components, rank, bound)
    case Obj(fields) =>
      if IsRef(fields) then
        var name := RefName(fields); name in components && name in rank && rank[name] < bound
      else forall k :: k in fields ==> RefsBelow(fields[k], components, rank, bound)
    case _ => true
  }

  /** `rank` bounds the nesting: no component reaches itself. */
  predicate Ranked(components: Components, rank: Ranks) {
    forall name :: name in components && name in rank ==> RefsBelow(components[name], components, rank, rank[name])
  }

  /** The plain meaning of a schema: every reference is its component, refined by its siblings. */
  function Expanded(node: Json, components: Components, rank: Ranks, bound: nat): (r: Json)
    requires Ranked(components, rank) && RefsBelow(node, components, rank, bound)
    ensures node.Obj? <==> r.Obj?
    decreases bound, node
  {
    match node
    case Arr(items) =>
      Arr(seq(|items|, i requires 0 <= i < |items| => Expanded(items[i], components, rank, bound)))
    case Obj(fields) =>
      if IsRef(fields) then
        var name := RefName(fields);
        Obj(Expanded(components[name], components, rank, rank[name]).fields + (fields - {"$ref"}))
      else Obj(map k | k in fields :: Expanded(fields[k], components, rank, bound))
    case _ => node
  }

  /** Neither the depth limit nor the list of seen names cuts a schema nested at most six deep. */
  lemma {:induction false} ShallowExpandsFully(node: Json, components: Components, rank: Ranks, bound: nat,
                                               seen: seq<string>)
    requires Ranked(components, rank) && RefsBelow(node, components, rank, bound)
    requires |seen| + bound <= MAX_REF_DEPTH
    requires forall i :: 0 <= i < |seen| ==> seen[i] in rank && rank[seen[i]] >= bound
    ensures Inline(node, components, seen) == Expanded(node, components, rank, bound)
    decreases bound, node
  {
    match node
    case Arr(items) =>
      forall i | 0 <= i < |items|
        ensures Inline(items[i], components, seen) == Expanded(items[i], components, rank, bound)
      {
        ShallowExpandsFully(items[i], components, rank, bound, seen);
      }
      ItemsOfInlined(node, components, seen);
      assert Inline(node, components, seen).items == Expanded(node, components, rank, bound).items;
    case Obj(fields) =>
      if IsRef(fields) {
        var name := RefName(fields);
        ShallowExpandsFully(components[name], components, rank, rank[name], seen + [name]);
      } else {
        forall k | k in fields
          ensures Inline(fields[k], components, seen) == Expanded(fields[k], components, rank, bound)
        {
          ShallowExpandsFully(fields[k], components, rank, bound, seen);
        }
        assert Inline(node, components, seen).fields == Expanded(node, components, rank, bound).fields;
      }
    case _ =>
  }

  // ---------------------------------------------------------------- where the promise fails

  function RefTo(name: string): Json {
    Obj(map["$ref" := Text(REF_PREFIX + name)])
  }

  lemma RefToIsRef(name: string)
    ensures var fields := RefTo(name).fields;
            IsRef(fields) && RefName(fields) == name && SiblingsClean(fields, {}) && !RefFree(RefTo(name))
  {
  }

  /** A reference beside a reference survives: the siblings are copied as they are. */
  lemma SiblingRefSurvives()
    ensures var components: Components := map["A" := Obj(map[]), "B" := Obj(map[])];
            var node := Obj(map["$ref" := Text(REF_PREFIX + "A"), "items" := RefTo("B")]);
            AllTidy(components) && !RefFree(Inline(node, components, []))
  {
    var components: Components := map["A" := Obj(map[]), "B" := Obj(map[])];
    var fields := map["$ref" := Text(REF_PREFIX + "A"), "items" := RefTo("B")];
    assert IsRef(fields) && IsRef(RefTo("B").fields);
    assert RefName(fields) == "A";
    assert fields["items"] == RefTo("B") && !RefFree(RefTo("B"));
    assert !SiblingsClean(fields, {});
    SelfContainedIff(Obj(fields), components, []);
  }

  /** The same inside a component, although the node itself is tidy. */
  lemma ComponentRefSurvives()
    ensures var a := Obj(map["$ref" := Text(REF_PREFIX + "B"), "items" := RefTo("B")]);
            var components: Components := map["A" := a, "B" := Obj(map[])];
            Tidy(RefTo("A")) && !RefFree(Inline(RefTo("A"), components, []))
  {
    var fields := map["$ref" := Text(REF_PREFIX + "B"), "items" := RefTo("B")];
    var components: Components := map["A" := Obj(fields), "B" := Obj(map[])];
    RefToIsRef("A");
    RefToIsRef("B");
    assert IsRef(fields) && RefName(fields) == RefName(RefTo("B").fields);
    var hidden := {} + (RefTo("A").fields.Keys - {"$ref"});
    assert "items" !in hidden && fields["items"] == RefTo("B");
    hide RefFree, IsRef, RefName, RefTo;
    assert !SiblingsClean(fields, hidden);
    assert !Clean(components["A"], components, ["A"], hidden);
    assert [] + ["A"] == ["A"];
    SelfContainedIff(RefTo("A"), components, []);
  }
}
