/** The classes made from a generic class, kept per generic in a list that is searched for the
    type arguments: references that agree share one class, references that differ do not. */
module Generics {
  import opened Common
  import opened Types

  /** A type argument: a scalar, a plain class, or a name that was resolved to one of these. */
  datatype TypeArg = ScalarArg(p: Prim) | ClassArg(id: nat) | Deferred(to: TypeArg)

  function Actual(t: TypeArg): (a: TypeArg)
    ensures !a.Deferred?
  {
    if t.Deferred? then Actual(t.to) else t
  }

  predicate SameType(a: TypeArg, b: TypeArg) {
    Actual(a) == Actual(b)
  }

  predicate SameArgs(a: seq<TypeArg>, b: seq<TypeArg>) {
    |a| == |b| && forall i | 0 <= i < |a| :: SameType(a[i], b[i])
  }

  // ----- what a type argument stands for -----

  datatype Meaning = TheScalar(p: Prim) | TheClass(id: nat)

  function MeaningOf(t: TypeArg): Meaning {
    match t
    case ScalarArg(p) => TheScalar(p)
    case ClassArg(id) => TheClass(id)
    case Deferred(to) => MeaningOf(to)
  }

  function Meanings(args: seq<TypeArg>): (ms: seq<Meaning>)
    ensures |ms| == |args| && forall i | 0 <= i < |args| :: ms[i] == MeaningOf(args[i])
  {
    seq(|args|, i requires 0 <= i < |args| => MeaningOf(args[i]))
  }

  lemma {:induction false} ActualMeans(t: TypeArg)
    ensures Actual(t) == if MeaningOf(t).TheScalar? then ScalarArg(MeaningOf(t).p) else ClassArg(MeaningOf(t).id)
  {
    if t.Deferred? { ActualMeans(t.to); }
  }

  /** Two arguments are the same type exactly when they stand for the same scalar or the same class; a name that
      was resolved stands for what it was resolved to. */
  lemma SameTypeExactly(a: TypeArg, b: TypeArg)
    ensures SameType(a, b) <==> MeaningOf(a) == MeaningOf(b)
    ensures SameType(Deferred(a), b) == SameType(a, b) && SameType(a, Deferred(b)) == SameType(a, b)
  {
    ActualMeans(a);
    ActualMeans(b);
    ActualMeans(Deferred(a));
    ActualMeans(Deferred(b));
  }

  lemma SameArgsExactly(a: seq<TypeArg>, b: seq<TypeArg>)
    ensures SameArgs(a, b) <==> Meanings(a) == Meanings(b)
  {
    hide SameType;
    forall i | 0 <= i < |a| && i < |b| ensures SameType(a[i], b[i]) <==> Meanings(a)[i] == Meanings(b)[i] {
      SameTypeExactly(a[i], b[i]);
    }
    if Meanings(a) == Meanings(b) {
      assert |Meanings(a)| == |Meanings(b)|;
    }
  }

  datatype Entry = Entry(args: seq<TypeArg>, classId: nat)

  /** A reference to a generic class with type arguments. */
  datatype Ref = Ref(generic: nat, args: seq<TypeArg>)

  /** One entry per tuple of arguments, of the right length, and a class of its own for each. */
  predicate OnePerTuple(arity: nat, es: seq<Entry>) {
    && (forall i | 0 <= i < |es| :: |es[i].args| == arity)
    && (forall i, j | 0 <= i < j < |es| :: !SameArgs(es[i].args, es[j].args))
  }

  /** The position of the entry for these arguments. */
  function Position(es: seq<Entry>, args: seq<TypeArg>): (k: Option<nat>)
    ensures k.Some? ==> k.value < |es|
  {
    if es == [] then None
    else if SameArgs(es[0].args, args) then Some(0)
    else
      match Position(es[1..], args)
      case None => None
      case Some(k) => Some(k + 1)
  }

  lemma {:induction false} PositionFinds(es: seq<Entry>, args: seq<TypeArg>)
    ensures match Position(es, args)
            case Some(k) => k < |es| && SameArgs(es[k].args, args)
            case None => forall i | 0 <= i < |es| :: !SameArgs(es[i].args, args)
  {
    if es != [] && !SameArgs(es[0].args, args) {
      PositionFinds(es[1..], args);
    }
  }

  /** No class belongs to two entries, of one generic or of two. */
  predicate OwnClasses(m: map<nat, seq<Entry>>, next: nat) {
    && (forall g: nat, i: int | g in m && 0 <= i < |m[g]| :: m[g][i].classId < next)
    && (forall g: nat, h: nat, i: int, j: int | g in m && h in m && 0 <= i < |m[g]| && 0 <= j < |m[h]| ::
          m[g][i].classId == m[h][j].classId ==> g == h && i == j)
  }

  lemma OwnOneMore(m: map<nat, seq<Entry>>, next: nat, g: nat, args: seq<TypeArg>)
    requires OwnClasses(m, next) && g in m
    ensures OwnClasses(m[g := m[g] + [Entry(args, next)]], next + 1)
  {
    var m2: map<nat, seq<Entry>> := m[g := m[g] + [Entry(args, next)]];
    forall h: nat, i: int | h in m2 && 0 <= i < |m2[h]|
      ensures if h == g && i == |m[g]| then m2[h][i].classId == next else i < |m[h]| && m2[h][i] == m[h][i] {
    }
  }

  /** One class more, for the reference `r`. */
  function WithClass(m: map<nat, seq<Entry>>, r: Ref, classId: nat): map<nat, seq<Entry>> {
    if r.generic in m then m[r.generic := m[r.generic] + [Entry(r.args, classId)]] else m
  }

  /** Entries were only added behind those that were there, and only for references among `refs`. */
  predicate OnlyAdded(m: map<nat, seq<Entry>>, m2: map<nat, seq<Entry>>, refs: seq<Ref>) {
    && m.Keys == m2.Keys
    && (forall g | g in m :: m[g] <= m2[g])
    && (forall g, i | g in m && |m[g]| <= i < |m2[g]| :: Ref(g, m2[g][i].args) in refs)
  }

  lemma NothingAdded(m: map<nat, seq<Entry>>, refs: seq<Ref>)
    ensures OnlyAdded(m, m, refs)
  {
  }

  lemma OneAdded(m: map<nat, seq<Entry>>, m1: map<nat, seq<Entry>>, m2: map<nat, seq<Entry>>, refs: seq<Ref>, r: Ref, classId: nat)
    requires OnlyAdded(m, m1, refs) && r in refs && (m2 == m1 || m2 == WithClass(m1, r, classId))
    ensures OnlyAdded(m, m2, refs)
  {
  }

  class Cache {
    /** The number of type parameters of every generic class. */
    const arity: map<nat, nat>
    var entries: map<nat, seq<Entry>>
    var nextClass: nat
    var errors: nat

    ghost predicate Valid()
      reads this
    {
      && entries.Keys == arity.Keys
      && (forall g | g in arity :: OnePerTuple(arity[g], entries[g]))
      && OwnClasses(entries, nextClass)
    }

    constructor (arity: map<nat, nat>)
      ensures Valid() && this.arity == arity && errors == 0 && forall g | g in arity :: entries[g] == []
    {
      this.arity := arity;
      entries := map g | g in arity :: [];
      nextClass, errors := 0, 0;
    }

    predicate WellFormed(r: Ref) {
      r.generic in arity && |r.args| == arity[r.generic]
    }

    ghost predicate Has(r: Ref)
      reads this
    {
      r.generic in entries && Position(entries[r.generic], r.args).Some?
    }

    ghost function ClassOf(r: Ref): nat
      reads this
      requires Has(r)
    {
      entries[r.generic][Position(entries[r.generic], r.args).value].classId
    }

    /** The class of the first entry whose arguments match. */
    method FindExpandedClass(g: nat, args: seq<TypeArg>) returns (c: Option<nat>)
      requires Valid() && g in arity
      ensures c.Some? <==> Position(entries[g], args).Some?
      ensures c.Some? ==> c.value == entries[g][Position(entries[g], args).value].classId
    {
      var es := entries[g];
      assert es[0..] == es;
      for i := 0 to |es|
        invariant forall j | 0 <= j < i :: !SameArgs(es[j].args, args)
        invariant Position(es, args).Some? <==> Position(es[i..], args).Some?
        invariant Position(es, args).Some? ==> Position(es, args).value == i + Position(es[i..], args).value
      {
        assert es[i..][1..] == es[i + 1..];
        if SameArgs(es[i].args, args) {
          return Some(es[i].classId);
        }
      }
      assert es[|es|..] == [];
      c := None;
    }

    /** A reference, in the pass that makes the classes: a class is made when there is none yet. */
    method Expand(r: Ref)
      requires Valid()
      modifies this
      ensures Valid() && errors == old(errors) + (if WellFormed(r) then 0 else 1)
      ensures WellFormed(r) ==> Has(r)
      ensures entries == if WellFormed(r) && !old(Has(r)) then WithClass(old(entries), r, old(nextClass)) else old(entries)
      ensures forall s: Ref | old(Has(s)) :: Has(s)
    {
      hide Position;
      if !WellFormed(r) {
        errors := errors + 1;
        return;
      }
      var found := FindExpandedClass(r.generic, r.args);
      if found.None? {
        AddExpandedClass(r.generic, r.args);
      }
    }

    method AddExpandedClass(g: nat, args: seq<TypeArg>)
      requires Valid() && g in arity && |args| == arity[g] && Position(entries[g], args).None?
      modifies this`entries, this`nextClass
      ensures Valid() && entries == WithClass(old(entries), Ref(g, args), old(nextClass))
      ensures Has(Ref(g, args)) && forall s: Ref | old(Has(s)) :: Has(s)
    {
      hide SameArgs, Position, OnePerTuple, OwnClasses;
      OwnOneMore(entries, nextClass, g, args);
      var es, e := entries[g], Entry(args, nextClass);
      PositionFinds(es, args);
      OneMore(arity[g], es, e);
      SameArgsSelf(args);
      PositionStays(es, e, args);
      entries := entries[g := es + [e]];
      nextClass := nextClass + 1;
      forall s: Ref | old(Has(s)) ensures Has(s) {
        if s.generic == g { PositionStays(es, e, s.args); }
      }
    }

    method ExpandAll(refs: seq<Ref>)
      requires Valid()
      modifies this
      ensures Valid() && old(errors) <= errors && (errors == old(errors) <==> forall r | r in refs :: WellFormed(r))
      ensures errors == old(errors) ==> forall r | r in refs :: Has(r)
      ensures OnlyAdded(old(entries), entries, refs)
    {
      hide Position, OnlyAdded, WithClass, OnePerTuple, OwnClasses;
      NothingAdded(entries, refs);
      for k := 0 to |refs|
        invariant OnlyAdded(old(entries), entries, refs)
        invariant Valid() && old(errors) <= errors
        invariant errors == old(errors) <==> forall i | 0 <= i < k :: WellFormed(refs[i])
        invariant forall i | 0 <= i < k && WellFormed(refs[i]) :: Has(refs[i])
      {
        ghost var before, next := entries, nextClass;
        Expand(refs[k]);
        OneAdded(old(entries), before, entries, refs, refs[k], next);
      }
    }

    /** Two references have one class exactly when they agree. */
    lemma SameClass(r: Ref, s: Ref)
      requires Valid() && Has(r) && Has(s)
      ensures ClassOf(r) == ClassOf(s) <==> r.generic == s.generic && SameArgs(r.args, s.args)
    {
      hide SameArgs, OnePerTuple;
      if r.generic == s.generic { SamePosition(entries[r.generic], r.args, s.args); }
    }

    /** Both passes: the classes are made, then every reference is turned into its class.  Two
        references get the same class exactly when they name the same generic with the same
        arguments. */
    method Complete(refs: seq<Ref>) returns (classes: seq<nat>)
      requires Valid() && errors == 0
      modifies this
      ensures Valid() && (errors == 0 <==> forall r | r in refs :: WellFormed(r))
      ensures OnlyAdded(old(entries), entries, refs)
      ensures errors == 0 ==> |classes| == |refs| && forall i | 0 <= i < |refs| :: Has(refs[i]) && classes[i] == ClassOf(refs[i])
      ensures errors == 0 ==>
        forall i, j | 0 <= i < |refs| && 0 <= j < |refs| ::
             && (classes[i] == classes[j] <==> refs[i].generic == refs[j].generic && SameArgs(refs[i].args, refs[j].args))
             && (classes[i] == classes[j] <==> refs[i].generic == refs[j].generic && Meanings(refs[i].args) == Meanings(refs[j].args))
    {
      hide Meanings, SameArgs, Position, OnePerTuple, OwnClasses, OnlyAdded;
      classes := [];
      ExpandAll(refs);
      if errors > 0 {
        return;
      }
      for k := 0 to |refs|
        invariant Valid() && errors == 0 && OnlyAdded(old(entries), entries, refs)
        invariant |classes| == k && (forall r | r in refs :: Has(r)) && forall i | 0 <= i < k :: classes[i] == ClassOf(refs[i])
      {
        assert refs[k] in refs && Has(refs[k]);
        var c := FindExpandedClass(refs[k].generic, refs[k].args);
        classes := classes + [c.value];
      }
      forall i, j | 0 <= i < |refs| && 0 <= j < |refs|
        ensures classes[i] == classes[j] <==> refs[i].generic == refs[j].generic && SameArgs(refs[i].args, refs[j].args)
        ensures classes[i] == classes[j] <==> refs[i].generic == refs[j].generic && Meanings(refs[i].args) == Meanings(refs[j].args)
      {
        SameClass(refs[i], refs[j]);
        SameArgsExactly(refs[i].args, refs[j].args);
      }
    }
  }

  lemma {:induction false} PositionStays(es: seq<Entry>, e: Entry, args: seq<TypeArg>)
    requires Position(es, args).Some? || SameArgs(e.args, args)
    ensures Position(es + [e], args).Some?
  {
    if es != [] {
      assert (es + [e])[1..] == es[1..] + [e];
      if !SameArgs(es[0].args, args) { PositionStays(es[1..], e, args); }
    } else {
      assert [] + [e] == [e];
    }
  }

  lemma SameArgsSelf(args: seq<TypeArg>)
    ensures SameArgs(args, args)
  {
  }

  lemma OneMore(arity: nat, es: seq<Entry>, e: Entry)
    requires OnePerTuple(arity, es) && |e.args| == arity && forall i | 0 <= i < |es| :: !SameArgs(es[i].args, e.args)
    ensures OnePerTuple(arity, es + [e])
  {
    hide SameArgs;
  }

  /** Two tuples of arguments are found in the same place exactly when they agree. */
  lemma {:induction false} SamePosition(es: seq<Entry>, a: seq<TypeArg>, b: seq<TypeArg>)
    requires Position(es, a).Some?
    ensures SameArgs(a, b) <==> Position(es, a) == Position(es, b)
  {
    if es != [] && !SameArgs(es[0].args, a) {
      SamePosition(es[1..], a, b);
    }
  }
}
