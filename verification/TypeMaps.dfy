/** Translating class types, which may refer to each other in cycles, to pointers to structs: the
    map is extended before a class's fields are visited, and the body is set afterwards. */
module TypeMaps {
  import opened Common
  import opened Types

  type ClassId = nat
  type StructId = nat

  /** The type of a field.  `Other` stands for the types the map knows nothing of. */
  datatype FieldType = Scalar(p: Prim) | Class(id: ClassId) | Other(id: nat)

  datatype LlvmType = LlvmScalar(p: Prim) | PointerTo(s: StructId)

  // ----- a class and its fields -----

  datatype ClassField = ClassField(name: string, ty: FieldType, ordinal: nat)

  class ClassType {
    var orderedFields: seq<ClassField>
    var fields: map<string, ClassField>

    predicate Valid()
      reads this
    {
      && (forall i | 0 <= i < |orderedFields| :: orderedFields[i].ordinal == i && orderedFields[i].name in fields)
      && (forall n | n in fields ::
            && fields[n].ordinal < |orderedFields| && orderedFields[fields[n].ordinal] == fields[n] && fields[n].name == n
            && forall i | 0 <= i < fields[n].ordinal :: orderedFields[i].name != n)
    }

    constructor ()
      ensures Valid() && orderedFields == []
    {
      orderedFields, fields := [], map[];
    }

    /** A field's ordinal is its place among the fields so far; a second field of one name takes a
        place but is not found by name. */
    method AddField(name: string, ty: FieldType)
      requires Valid()
      modifies this
      ensures Valid() && orderedFields == old(orderedFields) + [ClassField(name, ty, |old(orderedFields)|)]
    {
      var field := ClassField(name, ty, |orderedFields|);
      orderedFields := orderedFields + [field];
      if name !in fields {
        fields := fields[name := field];
      }
    }

    /** The first field of that name. */
    method FindField(name: string) returns (f: Option<ClassField>)
      requires Valid()
      ensures f.None? ==> forall i | 0 <= i < |orderedFields| :: orderedFields[i].name != name
      ensures f.Some? ==>
        && f.value.ordinal < |orderedFields| && orderedFields[f.value.ordinal] == f.value && f.value.name == name
        && forall i | 0 <= i < f.value.ordinal :: orderedFields[i].name != name
    {
      f := if name in fields then Some(fields[name]) else None;
    }
  }

  // ----- class graphs -----

  /** The field types of every class there is. */
  type Graph = map<ClassId, seq<FieldType>>

  predicate Closed(g: Graph) {
    forall c, i | c in g && 0 <= i < |g[c]| && g[c][i].Class? :: g[c][i].id in g
  }

  /** A chain of classes, each with a field of the next one's type. */
  predicate IsPath(g: Graph, t: FieldType, p: seq<ClassId>) {
    && p != [] && t == Class(p[0])
    && (forall i | 0 <= i < |p| :: p[i] in g)
    && (forall i | 0 <= i < |p| - 1 :: Class(p[i + 1]) in g[p[i]])
  }

  ghost predicate Reaches(g: Graph, t: FieldType, c: ClassId) {
    exists p :: IsPath(g, t, p) && p[|p| - 1] == c
  }

  /** A type the map knows nothing of, or a class from which a field of such a type is reached. */
  ghost predicate Untranslatable(g: Graph, t: FieldType) {
    t.Other? || exists c, i :: Reaches(g, t, c) && c in g && 0 <= i < |g[c]| && g[c][i].Other?
  }

  lemma ReachesSelf(g: Graph, c: ClassId)
    requires c in g
    ensures Reaches(g, Class(c), c)
  {
    assert IsPath(g, Class(c), [c]);
  }

  lemma ReachesThrough(g: Graph, c: ClassId, i: nat, d: ClassId)
    requires c in g && i < |g[c]| && Reaches(g, g[c][i], d)
    ensures Reaches(g, Class(c), d)
  {
    var p :| IsPath(g, g[c][i], p) && p[|p| - 1] == d;
    var q := [c] + p;
    assert forall k | 0 <= k < |q| - 1 :: Class(q[k + 1]) in g[q[k]];
    assert IsPath(g, Class(c), q);
  }

  lemma UntranslatableThrough(g: Graph, c: ClassId, i: nat)
    requires c in g && i < |g[c]| && Untranslatable(g, g[c][i])
    ensures Untranslatable(g, Class(c))
  {
    if g[c][i].Other? {
      ReachesSelf(g, c);
    } else {
      var d, k :| Reaches(g, g[c][i], d) && d in g && 0 <= k < |g[d]| && g[d][k].Other?;
      ReachesThrough(g, c, i, d);
    }
  }

  // ----- the map -----

  /** Every class outside `pending` that is mapped has its struct laid out: slot i holds the
      translation of field i. */
  ghost predicate Laid(g: Graph, m: map<FieldType, LlvmType>, structs: seq<Option<seq<LlvmType>>>, pending: set<ClassId>) {
    forall c | Class(c) in m && c !in pending ::
      && m[Class(c)].PointerTo? && m[Class(c)].s < |structs| && structs[m[Class(c)].s].Some? && c in g
      && |structs[m[Class(c)].s].value| == |g[c]|
      && forall i | 0 <= i < |g[c]| :: g[c][i] in m && structs[m[Class(c)].s].value[i] == m[g[c][i]]
  }

  /** The class is mapped to a pointer to a struct that has one slot for each field, of the field's type. */
  ghost predicate HasLayout(g: Graph, m: map<FieldType, LlvmType>, structs: seq<Option<seq<LlvmType>>>, c: ClassId) {
    && c in g && Class(c) in m && m[Class(c)].PointerTo? && m[Class(c)].s < |structs| && structs[m[Class(c)].s].Some?
    && var slots := structs[m[Class(c)].s].value;
       |slots| == |g[c]| && forall i | 0 <= i < |slots| :: g[c][i] in m && slots[i] == m[g[c][i]]
  }

  /** Scalars are mapped from the start, and every mapped class has a struct of its own. */
  ghost predicate Distinct(m: map<FieldType, LlvmType>, structs: seq<Option<seq<LlvmType>>>) {
    && (forall p: Prim :: Scalar(p) in m && m[Scalar(p)] == LlvmScalar(p))
    && (forall t | t in m :: !t.Other? && (t.Class? ==> m[t].PointerTo? && m[t].s < |structs|))
    && (forall t, u | t in m && u in m && t.Class? && u.Class? && m[t] == m[u] :: t == u)
  }

  lemma AddClass(g: Graph, m: map<FieldType, LlvmType>, structs: seq<Option<seq<LlvmType>>>, pending: set<ClassId>,
      c: ClassId)
    requires Distinct(m, structs) && Laid(g, m, structs, pending) && Class(c) !in m
    ensures var m2, structs2 := m[Class(c) := PointerTo(|structs|)], structs + [None];
            Distinct(m2, structs2) && Laid(g, m2, structs2, pending + {c})
  {
  }

  lemma SetBody(g: Graph, m: map<FieldType, LlvmType>, structs: seq<Option<seq<LlvmType>>>, pending: set<ClassId>,
      c: ClassId, s: StructId, body: seq<LlvmType>)
    requires Distinct(m, structs) && Laid(g, m, structs, pending + {c}) && c in g && s < |structs|
    requires Class(c) in m && m[Class(c)] == PointerTo(s) && |body| == |g[c]|
    requires forall i | 0 <= i < |g[c]| :: g[c][i] in m && body[i] == m[g[c][i]]
    ensures Distinct(m, structs[s := Some(body)]) && Laid(g, m, structs[s := Some(body)], pending)
  {
    var structs2 := structs[s := Some(body)];
    forall d | Class(d) in m && d !in pending && d != c
      ensures m[Class(d)].PointerTo? && m[Class(d)].s != s && d !in pending + {c} {
    }
  }

  class TypeMap {
    const g: Graph
    var typeMap: map<FieldType, LlvmType>
    /** The structs created so far; `None` until the body is set. */
    var structs: seq<Option<seq<LlvmType>>>

    ghost predicate Valid(pending: set<ClassId>)
      reads this
    {
      Closed(g) && Distinct(typeMap, structs) && Laid(g, typeMap, structs, pending) && forall c | c in pending :: Class(c) in typeMap
    }

    ghost function Unmapped(): set<ClassId>
      reads this
    {
      set c | c in g && Class(c) !in typeMap
    }

    constructor (g: Graph)
      requires Closed(g)
      ensures Valid({}) && this.g == g && forall c :: Class(c) !in typeMap
    {
      this.g := g;
      typeMap := map p: Prim | true :: Scalar(p) := LlvmScalar(p);
      structs := [];
    }

    /** What was mapped stays as it was; what was not is a class reached from `t`. */
    twostate predicate Extended(t: FieldType)
      reads this
    {
      && (forall k | k in old(typeMap) :: k in typeMap && typeMap[k] == old(typeMap)[k])
      && |old(structs)| <= |structs| && (forall i | 0 <= i < |old(structs)| :: structs[i] == old(structs)[i])
      && (forall k | k in typeMap && k !in old(typeMap) :: k.Class? && Reaches(g, t, k.id))
    }

    method ToLlvmType(t: FieldType, ghost pending: set<ClassId>) returns (r: Option<LlvmType>)
      requires Valid(pending) && (t.Class? ==> t.id in g)
      modifies this
      ensures r.Some? ==> Valid(pending) && Extended(t) && t in typeMap && r.value == typeMap[t]
      ensures r.None? ==> Untranslatable(g, t)
      decreases Unmapped(), 1
    {
      if t in typeMap {
        return Some(typeMap[t]);
      }
      if !t.Class? {
        return None;
      }
      r := MapClass(t.id, pending);
    }

    /** The struct is created and mapped before the fields are visited, so that a field can refer
        to its own class. */
    method MapClass(c: ClassId, ghost pending: set<ClassId>) returns (r: Option<LlvmType>)
      requires Valid(pending) && c in g && Class(c) !in typeMap
      modifies this
      ensures r.Some? ==> Valid(pending) && Extended(Class(c)) && Class(c) in typeMap && r.value == typeMap[Class(c)]
      ensures r.None? ==> Untranslatable(g, Class(c))
      decreases Unmapped(), 0
    {
      hide Laid, Distinct, Reaches, Untranslatable;
      var t, s := Class(c), |structs|;
      ReachesSelf(g, c);
      AddClass(g, typeMap, structs, pending, c);
      structs := structs + [None];
      typeMap := typeMap[t := PointerTo(s)];
      assert c in old(Unmapped()) && c !in Unmapped();
      var fieldTypes: seq<LlvmType> := [];
      for i := 0 to |g[c]|
        invariant Valid(pending + {c}) && Extended(t) && Unmapped() < old(Unmapped())
        invariant t in typeMap && typeMap[t] == PointerTo(s) && s < |structs|
        invariant |fieldTypes| == i && forall j | 0 <= j < i :: g[c][j] in typeMap && fieldTypes[j] == typeMap[g[c][j]]
      {
        label visit:
        var f := ToLlvmType(g[c][i], pending + {c});
        if f.None? {
          UntranslatableThrough(g, c, i);
          return None;
        }
        forall k | k in typeMap && k !in old@visit(typeMap) ensures Reaches(g, t, k.id) {
          ReachesThrough(g, c, i, k.id);
        }
        fieldTypes := fieldTypes + [f.value];
      }
      SetBody(g, typeMap, structs, pending, c, s, fieldTypes);
      structs := structs[s := Some(fieldTypes)];
      r := Some(PointerTo(s));
    }

    /** Translation from outside, no class being half done: it fails exactly on types that reach a
        type the map knows nothing of; otherwise exactly the classes reached are added, and every
        class in the map has its struct laid out. */
    method Translate(t: FieldType) returns (r: Option<LlvmType>)
      requires Valid({}) && (t.Class? ==> t.id in g)
      modifies this
      ensures r.None? <==> Untranslatable(g, t)
      ensures r.Some? ==>
        && Valid({}) && t in typeMap && r.value == typeMap[t]
        && (forall k | k in old(typeMap) :: k in typeMap && typeMap[k] == old(typeMap)[k])
        && (forall c :: Class(c) in typeMap <==> Class(c) in old(typeMap) || Reaches(g, t, c))
        && (t.Scalar? ==> r.value == LlvmScalar(t.p))
        && (forall c | Class(c) in typeMap :: HasLayout(g, typeMap, structs, c))
        && (forall c, d | Class(c) in typeMap && Class(d) in typeMap && c != d :: typeMap[Class(c)] != typeMap[Class(d)])
    {
      hide Laid, Distinct, HasLayout, Reaches, Untranslatable;
      r := ToLlvmType(t, {});
      if r.Some? {
        LaidOut(g, typeMap, structs);
        MappedTranslates(g, typeMap, structs, t);
        forall c | Reaches(g, t, c) ensures Class(c) in typeMap {
          MappedReaches(g, typeMap, structs, t, c);
        }
      }
    }
  }

  lemma LaidOut(g: Graph, m: map<FieldType, LlvmType>, structs: seq<Option<seq<LlvmType>>>)
    requires Laid(g, m, structs, {}) && Distinct(m, structs)
    ensures forall p: Prim :: Scalar(p) in m && m[Scalar(p)] == LlvmScalar(p)
    ensures forall c | Class(c) in m :: HasLayout(g, m, structs, c)
    ensures forall c, d | Class(c) in m && Class(d) in m && c != d :: m[Class(c)] != m[Class(d)]
  {
  }

  /** Whatever a mapped type reaches is mapped. */
  lemma MappedReaches(g: Graph, m: map<FieldType, LlvmType>, structs: seq<Option<seq<LlvmType>>>, t: FieldType, c: ClassId)
    requires Laid(g, m, structs, {}) && t in m && Reaches(g, t, c)
    ensures Class(c) in m
  {
    var p :| IsPath(g, t, p) && p[|p| - 1] == c;
    PathMapped(g, m, structs, t, p);
  }

  lemma {:induction false} PathMapped(g: Graph, m: map<FieldType, LlvmType>, structs: seq<Option<seq<LlvmType>>>,
      t: FieldType, p: seq<ClassId>)
    requires Laid(g, m, structs, {}) && t in m && IsPath(g, t, p)
    ensures Class(p[|p| - 1]) in m
    decreases |p|
  {
    if |p| > 1 {
      assert Class(p[1]) in g[p[0]];
      assert IsPath(g, Class(p[1]), p[1..]);
      PathMapped(g, m, structs, Class(p[1]), p[1..]);
    }
  }

  lemma MappedTranslates(g: Graph, m: map<FieldType, LlvmType>, structs: seq<Option<seq<LlvmType>>>, t: FieldType)
    requires Laid(g, m, structs, {}) && Distinct(m, structs) && t in m
    ensures !Untranslatable(g, t)
  {
    forall c, i | Reaches(g, t, c) && c in g && 0 <= i < |g[c]| ensures !g[c][i].Other? {
      MappedReaches(g, m, structs, t, c);
    }
  }

  function FieldTypes(fields: seq<ClassField>): (ts: seq<FieldType>)
    ensures |ts| == |fields| && forall i | 0 <= i < |fields| :: ts[i] == fields[i].ty
  {
    seq(|fields|, i requires 0 <= i < |fields| => fields[i].ty)
  }

  /** The index an access to a field is emitted with selects the slot of that field's type, in
      structs of classes that refer to themselves as in any other. */
  method FieldSlot(types: TypeMap, c: ClassId, class_: ClassType, name: string) returns (ordinal: nat)
    requires types.Valid({}) && Class(c) in types.typeMap && class_.Valid() && c in types.g
    requires types.g[c] == FieldTypes(class_.orderedFields)
    requires exists i :: 0 <= i < |class_.orderedFields| && class_.orderedFields[i].name == name
    ensures ordinal < |class_.orderedFields| && class_.orderedFields[ordinal].name == name
    ensures var t, struct := class_.orderedFields[ordinal].ty, types.typeMap[Class(c)];
            && struct.PointerTo? && struct.s < |types.structs| && types.structs[struct.s].Some?
            && ordinal < |types.structs[struct.s].value|
            && t in types.typeMap && types.structs[struct.s].value[ordinal] == types.typeMap[t]
  {
    var field := class_.FindField(name);
    ordinal := field.value.ordinal;
    assert types.g[c][ordinal] == class_.orderedFields[ordinal].ty;
  }
}
