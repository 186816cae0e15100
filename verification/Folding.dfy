/**
  Values with nested binders, two-part de Bruijn indices and folding: shifting in and
  out of binders, substitution, and fusing two levels of binders into one.
 */
module Folding {
  import opened Prelude

  // ----- Values -----

  /** A bound variable: how many binders out, and which variable of that binder. */
  datatype BoundVar = BoundVar(debruijn: nat, index: nat)

  /** The types of constants, which never mention variables. */
  type ConstType(==, !new)

  datatype VariableKind = TyVar | LifetimeVar | ConstVar(ty: ConstType)

  /** Type constructors, goals, clauses: everything whose children are folded one by one. */
  type Symbol(==, !new)

  /** Anything that can be folded: types, lifetimes, constants, and the structures made of them. */
  datatype Value =
    | Var(kind: VariableKind, bound: BoundVar)
    | Node(symbol: Symbol, children: seq<Value>)
    | Binders(kinds: seq<VariableKind>, body: Value)

  function ShiftedInFrom(x: BoundVar, outerBinder: nat): BoundVar {
    x.(debruijn := x.debruijn + outerBinder)
  }

  function ShiftedOutTo(x: BoundVar, outerBinder: nat): Option<BoundVar> {
    if x.debruijn < outerBinder then None else Some(x.(debruijn := x.debruijn - outerBinder))
  }

  // ----- Folding -----

  datatype ArgKind = TyArg | LifetimeArg | ConstArg

  datatype GenericArg = GenericArg(kind: ArgKind, value: Value)

  function ArgKindOf(kind: VariableKind): ArgKind {
    match kind
    case TyVar => TyArg
    case LifetimeVar => LifetimeArg
    case ConstVar(_) => ConstArg
  }

  /** A value moved in through `n` binders; variables of the `k` binders traversed so far stay. */
  function Shifted(v: Value, n: nat, k: nat): Value
    decreases v
  {
    match v
    case Var(kind, x) => if x.debruijn < k then v else Var(kind, x.(debruijn := x.debruijn + n))
    case Node(symbol, children) =>
      Node(symbol, seq(|children|, i requires 0 <= i < |children| => Shifted(children[i], n, k)))
    case Binders(kinds, body) => Binders(kinds, Shifted(body, n, k + 1))
  }

  datatype Folder =
    | Keep                                       // the default: leave free variables as they are
    | Shifter(n: nat)                            // move a value in through `n` binders
    | DownShifter(n: nat)                        // move a value out of `n` binders, unless it mentions their variables
    | Subst(parameters: seq<GenericArg>)         // replace the variables of the innermost binder, which disappears
    | SubstFolder(parameters: seq<GenericArg>)   // replace the variables of a canonical value, which has no others

  /** What a folder does with a free variable below `outerBinder` binders; `None` is an error. */
  function FoldFreeVar(f: Folder, kind: VariableKind, x: BoundVar, outerBinder: nat): Option<Value>
  {
    match f
    case Keep => Some(Var(kind, ShiftedInFrom(x, outerBinder)))
    case Shifter(n) => Some(Var(kind, ShiftedInFrom(ShiftedInFrom(x, n), outerBinder)))
    case DownShifter(n) =>
      (match ShiftedOutTo(x, n)
       case Some(y) => Some(Var(kind, ShiftedInFrom(y, outerBinder)))
       case None => None)
    case Subst(parameters) =>
      if x.debruijn == 0 then Argument(parameters, kind, x.index, outerBinder)
      else Some(Var(kind, ShiftedInFrom(x.(debruijn := x.debruijn - 1), outerBinder)))
    case SubstFolder(parameters) =>
      if x.debruijn == 0 then Argument(parameters, kind, x.index, outerBinder) else None
  }

  /** The argument for a variable, moved in through `k` binders; an error if there is none or it has the wrong kind. */
  function Argument(parameters: seq<GenericArg>, kind: VariableKind, index: nat, k: nat): Option<Value> {
    if index < |parameters| && parameters[index].kind == ArgKindOf(kind)
      then Some(Shifted(parameters[index].value, k, 0)) else None
  }

  function Fold(f: Folder, v: Value, outerBinder: nat): Option<Value>
    decreases v
  {
    match v
    case Var(kind, x) =>
      (match ShiftedOutTo(x, outerBinder)
       case Some(free) => FoldFreeVar(f, kind, free, outerBinder)
       case None => Some(v))
    case Node(symbol, children) =>
      var folded := seq(|children|, i requires 0 <= i < |children| => Fold(f, children[i], outerBinder));
      if forall i :: 0 <= i < |folded| ==> folded[i].Some? then
        Some(Node(symbol, seq(|folded|, i requires 0 <= i < |folded| && folded[i].Some? => folded[i].value)))
      else None
    case Binders(kinds, body) =>
      (match Fold(f, body, outerBinder + 1)
       case Some(b) => Some(Binders(kinds, b))
       case None => None)
  }

  /** Folds the result of an earlier fold, if there is one. */
  function FoldNext(f: Folder, o: Option<Value>, outerBinder: nat): Option<Value> {
    if o.Some? then Fold(f, o.value, outerBinder) else None
  }

  lemma NodeFolds(f: Folder, symbol: Symbol, children: seq<Value>, k: nat, results: seq<Value>)
    requires |results| == |children| && forall i :: 0 <= i < |children| ==> Fold(f, children[i], k) == Some(results[i])
    ensures Fold(f, Node(symbol, children), k) == Some(Node(symbol, results))
  {
    var folded := seq(|children|, i requires 0 <= i < |children| => Fold(f, children[i], k));
    assert results == seq(|folded|, i requires 0 <= i < |folded| && folded[i].Some? => folded[i].value);
  }

  lemma NodeFails(f: Folder, symbol: Symbol, children: seq<Value>, k: nat, i: nat)
    requires i < |children| && Fold(f, children[i], k).None?
    ensures Fold(f, Node(symbol, children), k).None?
  {
    var folded := seq(|children|, i requires 0 <= i < |children| => Fold(f, children[i], k));
    assert folded[i].None?;
  }

  lemma {:induction false} KeepKeeps(v: Value, k: nat)
    ensures Fold(Keep, v, k) == Some(v)
    decreases v
  {
    match v
    case Var(_, _) =>
    case Node(symbol, children) =>
      forall i | 0 <= i < |children|
        ensures Fold(Keep, children[i], k) == Some(children[i])
      {
        KeepKeeps(children[i], k);
      }
      NodeFolds(Keep, symbol, children, k, children);
    case Binders(_, body) =>
      KeepKeeps(body, k + 1);
  }

  // ----- Folding twice -----

  /** One fold after another, each starting some binders further in. */
  ghost function Twice(f: Folder, a: nat, g: Folder, b: nat, v: Value, k: nat): Option<Value> {
    FoldNext(g, Fold(f, v, k + a), k + b)
  }

  /** Folding a node twice folds each child twice; it fails if any child fails. */
  lemma TwiceNode(f: Folder, a: nat, g: Folder, b: nat, symbol: Symbol, children: seq<Value>, k: nat,
                  results: seq<Option<Value>>)
    requires |results| == |children| && forall i :: 0 <= i < |children| ==>
               Twice(f, a, g, b, children[i], k) == results[i]
    ensures Twice(f, a, g, b, Node(symbol, children), k) ==
            if forall i :: 0 <= i < |results| ==> results[i].Some?
            then Some(Node(symbol,
              seq(|results|, i requires 0 <= i < |results| && results[i].Some? => results[i].value)))
            else None
  {
    hide Fold;
    if i :| 0 <= i < |children| && Fold(f, children[i], k + a).None? {
      NodeFails(f, symbol, children, k + a, i);
      assert results[i].None?;
    } else {
      var first := seq(|children|, i requires 0 <= i < |children|
        && Fold(f, children[i], k + a).Some? => Fold(f, children[i], k + a).value);
      NodeFolds(f, symbol, children, k + a, first);
      if i :| 0 <= i < |children| && results[i].None? {
        NodeFails(g, symbol, first, k + b, i);
      } else {
        NodeFolds(g, symbol, first, k + b,
          seq(|results|, i requires 0 <= i < |results| && results[i].Some? => results[i].value));
      }
    }
  }

  lemma TwiceBinders(f: Folder, a: nat, g: Folder, b: nat, kinds: seq<VariableKind>, body: Value, k: nat)
    ensures Twice(f, a, g, b, Binders(kinds, body), k) ==
            if Twice(f, a, g, b, body, k + 1).Some? then Some(Binders(kinds, Twice(f, a, g, b, body, k + 1).value))
              else None
  {
    assert k + a + 1 == k + 1 + a && k + b + 1 == k + 1 + b;
  }

  /** Which free variables a value may have. */
  datatype Scope =
    | Anything
    | Outside(n: nat)                                                          // none of the `n` innermost binders
    | Declared(kinds: seq<VariableKind>)                                       // those of one binder, with its kinds
    | DeclaredTwice(outer: seq<VariableKind>, inner: seq<VariableKind>)        // those of two binders, with their kinds
    | Supplied(args: seq<GenericArg>)                                          // of one binder, those with an argument
    | OnlySupplied(args: seq<GenericArg>)                                      // no others than these

  ghost predicate Allows(scope: Scope, kind: VariableKind, x: BoundVar) {
    match scope
    case Anything => true
    case Outside(n) => x.debruijn >= n
    case Declared(kinds) => x.debruijn == 0 && x.index < |kinds| && kinds[x.index] == kind
    case DeclaredTwice(outer, inner) =>
      && (x.debruijn == 0 ==> x.index < |inner| && inner[x.index] == kind)
      && (x.debruijn == 1 ==> x.index < |outer| && outer[x.index] == kind)
    case Supplied(args) => x.debruijn == 0 ==> Suits(args, kind, x.index)
    case OnlySupplied(args) => x.debruijn == 0 && Suits(args, kind, x.index)
  }

  /** There is an argument for the variable, and it is of the variable's sort. */
  ghost predicate Suits(args: seq<GenericArg>, kind: VariableKind, index: nat) {
    && index < |args|
    && (args[index].kind.TyArg? <==> kind.TyVar?)
    && (args[index].kind.LifetimeArg? <==> kind.LifetimeVar?)
  }

  /** The scope allows a variable met below `k` binders. */
  ghost predicate VariableInScope(scope: Scope, kind: VariableKind, x: BoundVar, k: nat) {
    x.debruijn >= k ==> Allows(scope, kind, x.(debruijn := x.debruijn - k))
  }

  ghost predicate InScope(scope: Scope, v: Value, k: nat)
    decreases v
  {
    match v
    case Var(kind, x) => VariableInScope(scope, kind, x, k)
    case Node(_, children) => forall i :: 0 <= i < |children| ==> InScope(scope, children[i], k)
    case Binders(_, body) => InScope(scope, body, k + 1)
  }

  lemma {:induction false} AllInScope(v: Value, k: nat)
    ensures InScope(Anything, v, k)
    decreases v
  {
    match v
    case Var(_, _) =>
    case Node(_, children) =>
      forall i | 0 <= i < |children|
        ensures InScope(Anything, children[i], k)
      {
        AllInScope(children[i], k);
      }
    case Binders(_, body) =>
      AllInScope(body, k + 1);
  }

  /** The variable `x`, met below `k` binders, is handled alike by both pairs of folds. */
  ghost predicate AgreeOn(f: Folder, a: nat, g: Folder, b: nat, f': Folder, a': nat, g': Folder, b': nat,
                          kind: VariableKind, x: BoundVar, k: nat) {
    Twice(f, a, g, b, Var(kind, x), k) == Twice(f', a', g', b', Var(kind, x), k)
  }

  /** Two pairs of folds that agree on variables agree on all values. */
  lemma {:induction false} Agree(scope: Scope, f: Folder, a: nat, g: Folder, b: nat, f': Folder, a': nat, g': Folder,
                                 b': nat, v: Value, k: nat)
    requires forall kind, x, j :: VariableInScope(scope, kind, x, j) ==> AgreeOn(f, a, g, b, f', a', g', b', kind, x, j)
    requires InScope(scope, v, k)
    ensures Twice(f, a, g, b, v, k) == Twice(f', a', g', b', v, k)
    decreases v
  {
    hide Twice;
    match v
    case Var(kind, x) =>
      assert AgreeOn(f, a, g, b, f', a', g', b', kind, x, k);
    case Node(symbol, children) =>
      forall i | 0 <= i < |children|
        ensures Twice(f, a, g, b, children[i], k) == Twice(f', a', g', b', children[i], k)
      {
        Agree(scope, f, a, g, b, f', a', g', b', children[i], k);
      }
      var results := seq(|children|, i requires 0 <= i < |children| => Twice(f, a, g, b, children[i], k));
      TwiceNode(f, a, g, b, symbol, children, k, results);
      TwiceNode(f', a', g', b', symbol, children, k, results);
    case Binders(kinds, body) =>
      Agree(scope, f, a, g, b, f', a', g', b', body, k + 1);
      TwiceBinders(f, a, g, b, kinds, body, k);
      TwiceBinders(f', a', g', b', kinds, body, k);
  }

  lemma OnceIsTwice(f: Folder, v: Value, k: nat)
    ensures Twice(f, 0, Keep, 0, v, k) == Fold(f, v, k)
  {
    if Fold(f, v, k).Some? {
      KeepKeeps(Fold(f, v, k).value, k);
    }
  }

  // ----- Shifting -----

  function ShiftIn(v: Value, n: nat): Option<Value> {
    Fold(Shifter(n), v, 0)
  }

  function ShiftOut(v: Value, n: nat): Option<Value> {
    Fold(DownShifter(n), v, 0)
  }

  /** Shifting in by folding never fails. */
  lemma {:induction false} ShifterShifts(v: Value, n: nat, k: nat)
    ensures Fold(Shifter(n), v, k) == Some(Shifted(v, n, k))
    decreases v
  {
    match v
    case Var(_, _) =>
    case Node(symbol, children) =>
      forall i | 0 <= i < |children|
        ensures Fold(Shifter(n), children[i], k) == Some(Shifted(children[i], n, k))
      {
        ShifterShifts(children[i], n, k);
      }
      NodeFolds(Shifter(n), symbol, children, k, Shifted(v, n, k).children);
    case Binders(_, body) =>
      ShifterShifts(body, n, k + 1);
  }

  lemma ShiftInOut(v: Value, n: nat, k: nat)
    ensures Twice(Shifter(n), 0, DownShifter(n), 0, v, k) == Some(v)
  {
    AllInScope(v, k);
    Agree(Anything, Shifter(n), 0, DownShifter(n), 0, Keep, 0, Keep, 0, v, k);
    OnceIsTwice(Keep, v, k);
    KeepKeeps(v, k);
  }

  /** Shifting in twice is shifting in once by the sum. */
  lemma ShiftCompose(v: Value, m: nat, n: nat, k: nat)
    ensures Shifted(Shifted(v, m, k), n, k + m) == Shifted(v, m + n, k)
  {
    AllInScope(v, k);
    Agree(Anything, Shifter(m), 0, Shifter(n), m, Shifter(m + n), 0, Keep, 0, v, k);
    OnceIsTwice(Shifter(m + n), v, k);
    ShifterShifts(v, m, k);
    ShifterShifts(Shifted(v, m, k), n, k + m);
    ShifterShifts(v, m + n, k);
  }

  lemma ShiftByNothing(v: Value)
    ensures Shifted(v, 0, 0) == v
  {
    ShiftInOut(v, 0, 0);
    ShifterShifts(v, 0, 0);
    AllInScope(Shifted(v, 0, 0), 0);
    Agree(Anything, DownShifter(0), 0, Keep, 0, Keep, 0, Keep, 0, Shifted(v, 0, 0), 0);
    OnceIsTwice(DownShifter(0), Shifted(v, 0, 0), 0);
    OnceIsTwice(Keep, Shifted(v, 0, 0), 0);
    KeepKeeps(Shifted(v, 0, 0), 0);
  }

  /** A fold that fails exactly on variables out of scope fails exactly on values that mention one. */
  lemma {:induction false} FoldDefined(f: Folder, scope: Scope, v: Value, k: nat)
    requires forall kind, x, j :: VariableInScope(scope, kind, x, j) <==> Fold(f, Var(kind, x), j).Some?
    ensures Fold(f, v, k).Some? <==> InScope(scope, v, k)
    decreases v
  {
    match v
    case Var(kind, x) =>
      assert VariableInScope(scope, kind, x, k) <==> Fold(f, Var(kind, x), k).Some?;
    case Node(symbol, children) =>
      forall i | 0 <= i < |children|
        ensures Fold(f, children[i], k).Some? <==> InScope(scope, children[i], k)
      {
        FoldDefined(f, scope, children[i], k);
      }
      if i :| 0 <= i < |children| && Fold(f, children[i], k).None? {
        NodeFails(f, symbol, children, k, i);
      } else {
        NodeFolds(f, symbol, children, k,
                  seq(|children|, i requires 0 <= i < |children|
                    && Fold(f, children[i], k).Some? => Fold(f, children[i], k).value));
      }
    case Binders(_, body) =>
      FoldDefined(f, scope, body, k + 1);
  }

  /**
    Shifting out is exactly the inverse of shifting in, and succeeds exactly on values that do not mention the inner
    binders.
   */
  lemma ShiftRoundTrip(v: Value, w: Value, n: nat)
    ensures ShiftOut(v, n) == Some(w) <==> ShiftIn(w, n) == Some(v)
    ensures ShiftOut(v, n).Some? <==> InScope(Outside(n), v, 0)
  {
    FoldDefined(DownShifter(n), Outside(n), v, 0);
    if ShiftOut(v, n) == Some(w) {
      Agree(Outside(n), DownShifter(n), 0, Shifter(n), 0, Keep, 0, Keep, 0, v, 0);
      OnceIsTwice(Keep, v, 0);
      KeepKeeps(v, 0);
    }
    ShiftInOut(w, n, 0);
  }

  // ----- Substitution -----

  /** Substitutes for the variables of the outermost binders of a value. */
  function Substitute(v: Value, parameters: seq<GenericArg>): Option<Value> {
    if v.Binders? && |v.kinds| == |parameters| then Fold(Subst(parameters), v.body, 0) else None
  }

  function Apply(subst: seq<GenericArg>, v: Value): Option<Value> {
    Fold(SubstFolder(subst), v, 0)
  }

  /** Substituting fails exactly if an argument is missing or of the wrong sort, or their number is wrong. */
  lemma SubstituteDefined(v: Value, parameters: seq<GenericArg>)
    ensures Substitute(v, parameters).Some? <==>
            v.Binders? && |v.kinds| == |parameters| && InScope(Supplied(parameters), v.body, 0)
  {
    if v.Binders? {
      FoldDefined(Subst(parameters), Supplied(parameters), v.body, 0);
    }
  }

  /** Applying a substitution fails in the same cases, and also if other variables occur. */
  lemma ApplyDefined(subst: seq<GenericArg>, v: Value)
    ensures Apply(subst, v).Some? <==> InScope(OnlySupplied(subst), v, 0)
  {
    FoldDefined(SubstFolder(subst), OnlySupplied(subst), v, 0);
  }

  /** Applying a substitution commutes with shifting in. */
  lemma ApplyShift(subst: seq<GenericArg>, v: Value, n: nat, k: nat)
    ensures Fold(SubstFolder(subst), Shifted(v, n, k), k + n) == FoldNext(Shifter(n), Fold(SubstFolder(subst), v, k), k)
  {
    var f := SubstFolder(subst);
    forall kind, x, j
      ensures AgreeOn(Shifter(n), 0, f, n, f, 0, Shifter(n), 0, kind, x, j)
    {
      if x.debruijn == j && x.index < |subst| {
        ShiftCompose(subst[x.index].value, j, n, 0);
        ShifterShifts(Shifted(subst[x.index].value, j, 0), n, j);
      }
    }
    AllInScope(v, k);
    Agree(Anything, Shifter(n), 0, f, n, f, 0, Shifter(n), 0, v, k);
    ShifterShifts(v, n, k);
  }

  /** `composed` is `first` with `second` applied to each of its values. */
  ghost predicate Composition(first: seq<GenericArg>, second: seq<GenericArg>, composed: seq<GenericArg>) {
    && |composed| == |first|
    && forall i :: 0 <= i < |first| ==>
                     composed[i].kind == first[i].kind && Apply(second, first[i].value) == Some(composed[i].value)
  }

  /** Applying two substitutions is applying their composition, errors included. */
  lemma ApplyCompose(first: seq<GenericArg>, second: seq<GenericArg>, composed: seq<GenericArg>, v: Value)
    requires Composition(first, second, composed)
    ensures FoldNext(SubstFolder(second), Apply(first, v), 0) == Apply(composed, v)
  {
    var f, g, h := SubstFolder(first), SubstFolder(second), SubstFolder(composed);
    forall kind, x, j
      ensures AgreeOn(f, 0, g, 0, h, 0, Keep, 0, kind, x, j)
    {
      OnceIsTwice(h, Var(kind, x), j);
      if x.debruijn == j && x.index < |first| {
        ApplyShift(second, first[x.index].value, j, 0);
        ShifterShifts(composed[x.index].value, j, 0);
      }
    }
    AllInScope(v, 0);
    Agree(Anything, f, 0, g, 0, h, 0, Keep, 0, v, 0);
    OnceIsTwice(h, v, 0);
  }

  // ----- The identity -----

  function ToGenericArg(kind: VariableKind, index: nat): GenericArg {
    GenericArg(ArgKindOf(kind), Var(kind, BoundVar(0, index)))
  }

  function TrivialSubstitution(kinds: seq<VariableKind>): seq<GenericArg> {
    seq(|kinds|, i requires 0 <= i < |kinds| => ToGenericArg(kinds[i], i))
  }

  /** Each value is the variable of its own position. */
  predicate IsIdentitySubst(subst: seq<GenericArg>) {
    forall i :: 0 <= i < |subst| ==> subst[i].value.Var? && subst[i].value.bound == BoundVar(0, i)
  }

  /** The arguments may stand for variables of the given kinds. */
  ghost predicate Fits(subst: seq<GenericArg>, kinds: seq<VariableKind>) {
    && |subst| == |kinds|
    && forall i :: 0 <= i < |subst| ==>
                     && subst[i].kind == ArgKindOf(kinds[i])
                     && (subst[i].value.Var? ==> subst[i].value.kind == kinds[i])
  }

  lemma VariableShifts(kind: VariableKind, index: nat, k: nat)
    ensures Shifted(Var(kind, BoundVar(0, index)), k, 0) == Var(kind, BoundVar(k, index))
  {
  }

  /** An identity substitution changes no canonical value. */
  lemma IdentityApplies(subst: seq<GenericArg>, kinds: seq<VariableKind>, v: Value)
    requires Fits(subst, kinds) && IsIdentitySubst(subst) && InScope(Declared(kinds), v, 0)
    ensures Apply(subst, v) == Some(v)
  {
    var f := SubstFolder(subst);
    forall kind, x, j | VariableInScope(Declared(kinds), kind, x, j)
      ensures AgreeOn(f, 0, Keep, 0, Keep, 0, Keep, 0, kind, x, j)
    {
      OnceIsTwice(f, Var(kind, x), j);
      OnceIsTwice(Keep, Var(kind, x), j);
      if x.debruijn >= j {
        assert subst[x.index].value == Var(kind, BoundVar(0, x.index));
        VariableShifts(kind, x.index, j);
      }
    }
    Agree(Declared(kinds), f, 0, Keep, 0, Keep, 0, Keep, 0, v, 0);
    OnceIsTwice(f, v, 0);
    OnceIsTwice(Keep, v, 0);
    KeepKeeps(v, 0);
  }

  /**
    The trivial substitution is an identity, and a substitution is one exactly if it leaves the tuple of all variables
    alone.
   */
  lemma IdentityExactly(subst: seq<GenericArg>, kinds: seq<VariableKind>, symbol: Symbol)
    requires Fits(subst, kinds)
    ensures Fits(TrivialSubstitution(kinds), kinds) && IsIdentitySubst(TrivialSubstitution(kinds))
    ensures var all := Node(symbol, seq(|kinds|, i requires 0 <= i < |kinds| => Var(kinds[i], BoundVar(0, i))));
            IsIdentitySubst(subst) <==> Apply(subst, all) == Some(all)
  {
    var vars := seq(|kinds|, i requires 0 <= i < |kinds| => Var(kinds[i], BoundVar(0, i)));
    if IsIdentitySubst(subst) {
      IdentityApplies(subst, kinds, Node(symbol, vars));
    } else {
      var values := seq(|subst|, i requires 0 <= i < |subst| => subst[i].value);
      forall i | 0 <= i < |vars|
        ensures Fold(SubstFolder(subst), vars[i], 0) == Some(values[i])
      {
        ShiftByNothing(subst[i].value);
      }
      NodeFolds(SubstFolder(subst), symbol, vars, 0, values);
      var i :| 0 <= i < |subst| && !(subst[i].value.Var? && subst[i].value.bound == BoundVar(0, i));
      assert values[i] != vars[i];
    }
  }

  // ----- Fusing binders -----

  /** Turns two levels of binders into one. */
  function FuseBinders(v: Value): Option<Value> {
    if v.Binders? && v.body.Binders? then
      var inner := v.body.kinds;
      var subst := seq(|inner|, i requires 0 <= i < |inner| => ToGenericArg(inner[i], i + |v.kinds|));
      match Substitute(v.body, subst)
      case Some(value) => Some(Binders(v.kinds + inner, value))
      case None => None
    else None
  }

  /**
    Substituting into something that was moved in through the disappearing binder leaves the value one level further
    out.
   */
  lemma SubstAfterShift(parameters: seq<GenericArg>, v: Value, n: nat)
    ensures Fold(Subst(parameters), Shifted(v, n + 1, 0), n) == Some(Shifted(v, n, 0))
  {
    AllInScope(v, 0);
    Agree(Anything, Shifter(n + 1), 0, Subst(parameters), n, Shifter(n), 0, Keep, 0, v, 0);
    OnceIsTwice(Shifter(n), v, 0);
    ShifterShifts(v, n, 0);
    ShifterShifts(v, n + 1, 0);
  }

  lemma SubstVariable(parameters: seq<GenericArg>, kind: VariableKind, x: BoundVar, k: nat)
    ensures Fold(Subst(parameters), Var(kind, x), k) ==
            if x.debruijn < k then Some(Var(kind, x))
            else if x.debruijn == k then Argument(parameters, kind, x.index, k)
            else Some(Var(kind, BoundVar(x.debruijn - 1, x.index)))
  {
  }

  lemma FuseVariable(outer: seq<VariableKind>, inner: seq<VariableKind>, first: seq<GenericArg>,
                     second: seq<GenericArg>,
                     renaming: seq<GenericArg>, kind: VariableKind, x: BoundVar, k: nat)
    requires |first| == |outer| && |second| == |inner| == |renaming|
    requires forall i :: 0 <= i < |inner| ==> renaming[i] == ToGenericArg(inner[i], i + |outer|)
    requires VariableInScope(DeclaredTwice(outer, inner), kind, x, k)
    ensures AgreeOn(Subst(first), 1, Subst(second), 0, Subst(renaming), 0, Subst(first + second), 0, kind, x, k)
  {
    hide Fold;
    SubstVariable(first, kind, x, k + 1);
    SubstVariable(renaming, kind, x, k);
    if x.debruijn < k {
      SubstVariable(second, kind, x, k);
      SubstVariable(first + second, kind, x, k);
    } else if x.debruijn == k {
      SubstVariable(second, kind, x, k);
      VariableShifts(kind, x.index + |outer|, k);
      SubstVariable(first + second, kind, BoundVar(k, x.index + |outer|), k);
    } else if x.debruijn == k + 1 {
      SubstAfterShift(second, first[x.index].value, k);
      SubstVariable(first + second, kind, BoundVar(k, x.index), k);
    } else {
      SubstVariable(second, kind, BoundVar(x.debruijn - 1, x.index), k);
      SubstVariable(first + second, kind, BoundVar(x.debruijn - 1, x.index), k);
    }
  }

  /** Substituting level by level is substituting everything at once into the fused binders, errors included. */
  lemma FuseThenSubstitute(outer: seq<VariableKind>, inner: seq<VariableKind>, body: Value, first: seq<GenericArg>,
                           second: seq<GenericArg>)
    requires InScope(DeclaredTwice(outer, inner), body, 0) && |first| == |outer| && |second| == |inner|
    ensures var v := Binders(outer, Binders(inner, body));
            SubstituteNext(Substitute(v, first), second) == SubstituteNext(FuseBinders(v), first + second)
  {
    var renaming := seq(|inner|, i requires 0 <= i < |inner| => ToGenericArg(inner[i], i + |outer|));
    forall kind, x, j | VariableInScope(DeclaredTwice(outer, inner), kind, x, j)
      ensures AgreeOn(Subst(first), 1, Subst(second), 0, Subst(renaming), 0, Subst(first + second), 0, kind, x, j)
    {
      FuseVariable(outer, inner, first, second, renaming, kind, x, j);
    }
    Agree(DeclaredTwice(outer, inner), Subst(first), 1, Subst(second), 0, Subst(renaming), 0, Subst(first + second), 0,
      body, 0);
  }

  /** Substitutes into the result of an earlier step, if there is one. */
  function SubstituteNext(o: Option<Value>, parameters: seq<GenericArg>): Option<Value> {
    if o.Some? then Substitute(o.value, parameters) else None
  }
}
