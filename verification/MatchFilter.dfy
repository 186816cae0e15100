/**
  The fast filter that tells which clauses are worth trying for a goal: it never
  rejects a clause whose head has an instance in common with the goal, even when
  aliases inside may stand for any type.
 */
module MatchFilter {
  type Symbol(==, !new)

  datatype Kind = Ty | Region | Const

  /** Terms, goals and lists of arguments. */
  datatype Term =
    | Var(kind: Kind, index: nat)                           // a bound or inference variable
    | Placeholder(name: Symbol)
    | Alias(name: Symbol, args: Term)                       // a projection or opaque type, which may stand for any type
    | Binder(name: Symbol, args: Term)                      // a fn-pointer or dyn type
    | Type(former: Symbol, name: Symbol, args: Term)        // any other type, by its form and its name
    | Lifetime(name: Symbol)
    | Constant(name: Symbol)
    | Goal(relation: Symbol, args: Term)
    | Nil
    | Cons(head: Term, tail: Term)

  predicate IsType(t: Term) {
    t.Placeholder? || t.Alias? || t.Binder? || t.Type? || (t.Var? && t.kind.Ty?)
  }

  predicate IsLifetime(t: Term) {
    t.Lifetime? || (t.Var? && t.kind.Region?)
  }

  predicate IsConstant(t: Term) {
    t.Constant? || (t.Var? && t.kind.Const?)
  }

  predicate HasKind(t: Term, kind: Kind) {
    match kind
    case Ty => IsType(t)
    case Region => IsLifetime(t)
    case Const => IsConstant(t)
  }

  /** Only types of the same form with different names, and goals of different relations, are told apart. */
  predicate CouldMatch(a: Term, b: Term) {
    match (a, b)
    case (Type(f, n, args), Type(f', n', args')) => f != f' || (n == n' && CouldMatch(args, args'))
    case (Goal(r, args), Goal(r', args')) => r == r' && CouldMatch(args, args')
    case (Nil, Nil) => true
    case (Cons(h, t), Cons(h', t')) => CouldMatch(h, h') && CouldMatch(t, t')
    case _ => (IsType(a) && IsType(b)) || (IsLifetime(a) && IsLifetime(b)) || (IsConstant(a) && IsConstant(b))
  }

  // ----- Instances -----

  /** Replaces variables by terms of their kind. */
  function Instantiate(t: Term, theta: map<nat, Term>): Term {
    match t
    case Var(kind, index) => if index in theta && HasKind(theta[index], kind) then theta[index] else t
    case Alias(name, args) => Alias(name, Instantiate(args, theta))
    case Binder(name, args) => Binder(name, Instantiate(args, theta))
    case Type(former, name, args) => Type(former, name, Instantiate(args, theta))
    case Goal(relation, args) => Goal(relation, Instantiate(args, theta))
    case Cons(head, tail) => Cons(Instantiate(head, theta), Instantiate(tail, theta))
    case _ => t
  }

  /** `u` is `t` with aliases, anywhere, normalized to whatever types, and with lifetimes still to be related. */
  ghost predicate Normalizes(t: Term, u: Term) {
    match t
    case Alias(_, _) => IsType(u)
    case Binder(name, args) => u.Binder? && u.name == name && Normalizes(args, u.args)
    case Type(former, name, args) => u.Type? && u.former == former && u.name == name && Normalizes(args, u.args)
    case Lifetime(_) => IsLifetime(u)
    case Goal(relation, args) => u.Goal? && u.relation == relation && Normalizes(args, u.args)
    case Cons(head, tail) => u.Cons? && Normalizes(head, u.head) && Normalizes(tail, u.tail)
    case Var(kind, _) => u == t || (kind.Region? && IsLifetime(u))
    case _ => u == t
  }

  /** Some instances of the two terms have a normal form in common. */
  ghost predicate CommonInstance(a: Term, b: Term) {
    exists theta, theta', u :: Normalizes(Instantiate(a, theta), u) && Normalizes(Instantiate(b, theta'), u)
  }

  /**
    Instantiation and normalization never change what sort of term it is, nor the name of a type that is not an alias.
   */
  lemma KindStays(t: Term, theta: map<nat, Term>, u: Term)
    requires Normalizes(Instantiate(t, theta), u)
    ensures (IsType(t) ==> IsType(u)) && (IsLifetime(t) ==> IsLifetime(u)) && (IsConstant(t) ==> IsConstant(u))
  {
    if t.Var? && t.index in theta && HasKind(theta[t.index], t.kind) {
      assert Instantiate(t, theta) == theta[t.index];
    }
  }

  /** Terms with a common instance pass the filter. */
  lemma {:induction false} CommonInstanceMatches(a: Term, theta: map<nat, Term>, b: Term, theta': map<nat, Term>,
                                                 u: Term)
    requires Normalizes(Instantiate(a, theta), u) && Normalizes(Instantiate(b, theta'), u)
    ensures CouldMatch(a, b)
  {
    KindStays(a, theta, u);
    KindStays(b, theta', u);
    match (a, b)
    case (Type(_, _, args), Type(_, _, args')) => CommonInstanceMatches(args, theta, args', theta', u.args);
    case (Goal(_, args), Goal(_, args')) => CommonInstanceMatches(args, theta, args', theta', u.args);
    case (Cons(h, t), Cons(h', t')) =>
      CommonInstanceMatches(h, theta, h', theta', u.head);
      CommonInstanceMatches(t, theta, t', theta', u.tail);
    case _ =>
  }

  // ----- What the filter rejects -----

  /** No aliases, no binders and no placeholders. */
  predicate Plain(t: Term) {
    match t
    case Type(_, _, args) => Plain(args)
    case Goal(_, args) => Plain(args)
    case Cons(head, tail) => Plain(head) && Plain(tail)
    case _ => t.Var? || t.Lifetime? || t.Constant? || t.Nil?
  }

  function Vars(t: Term): set<nat> {
    match t
    case Var(_, index) => {index}
    case Alias(_, args) => Vars(args)
    case Binder(_, args) => Vars(args)
    case Type(_, _, args) => Vars(args)
    case Goal(_, args) => Vars(args)
    case Cons(head, tail) => Vars(head) + Vars(tail)
    case _ => {}
  }

  /** No variable occurs twice. */
  predicate Linear(t: Term) {
    match t
    case Alias(_, args) => Linear(args)
    case Binder(_, args) => Linear(args)
    case Type(_, _, args) => Linear(args)
    case Goal(_, args) => Linear(args)
    case Cons(head, tail) => Linear(head) && Linear(tail) && Vars(head) !! Vars(tail)
    case _ => true
  }

  /** Types in the same position have the same form, and constants in the same position are the same. */
  predicate SameForms(a: Term, b: Term) {
    match (a, b)
    case (Type(f, _, args), Type(f', _, args')) => f == f' && SameForms(args, args')
    case (Goal(_, args), Goal(_, args')) => SameForms(args, args')
    case (Cons(h, t), Cons(h', t')) => SameForms(h, h') && SameForms(t, t')
    case (Constant(c), Constant(c')) => c == c'
    case _ => true
  }

  /** What the variables of `a` have to stand for. */
  ghost function Left(a: Term, b: Term): map<nat, Term> {
    match (a, b)
    case (Var(_, i), _) => map[i := b]
    case (Type(_, _, args), Type(_, _, args')) => Left(args, args')
    case (Goal(_, args), Goal(_, args')) => Left(args, args')
    case (Cons(h, t), Cons(h', t')) => Left(h, h') + Left(t, t')
    case _ => map[]
  }

  /** What the variables of `b` have to stand for, where `a` has none. */
  ghost function Right(a: Term, b: Term): map<nat, Term> {
    match (a, b)
    case (Var(_, _), _) => map[]
    case (_, Var(_, i)) => map[i := a]
    case (Type(_, _, args), Type(_, _, args')) => Right(args, args')
    case (Goal(_, args), Goal(_, args')) => Right(args, args')
    case (Cons(h, t), Cons(h', t')) => Right(h, h') + Right(t, t')
    case _ => map[]
  }

  ghost function Meet(a: Term, b: Term): Term {
    match (a, b)
    case (Var(_, _), _) => b
    case (Type(f, n, args), Type(_, _, args')) => Type(f, n, Meet(args, args'))
    case (Goal(r, args), Goal(_, args')) => Goal(r, Meet(args, args'))
    case (Cons(h, t), Cons(h', t')) => Cons(Meet(h, h'), Meet(t, t'))
    case _ => a
  }

  /** The two maps do the same to the given variables. */
  ghost predicate AgreeOn(vars: set<nat>, theta: map<nat, Term>, theta': map<nat, Term>) {
    forall i :: i in vars ==> (i in theta <==> i in theta') && (i in theta && i in theta' ==> theta[i] == theta'[i])
  }

  lemma {:induction false} AgreeInstantiate(t: Term, theta: map<nat, Term>, theta': map<nat, Term>)
    requires AgreeOn(Vars(t), theta, theta')
    ensures Instantiate(t, theta) == Instantiate(t, theta')
  {
    match t
    case Alias(_, args) => AgreeInstantiate(args, theta, theta');
    case Binder(_, args) => AgreeInstantiate(args, theta, theta');
    case Type(_, _, args) => AgreeInstantiate(args, theta, theta');
    case Goal(_, args) => AgreeInstantiate(args, theta, theta');
    case Cons(head, tail) =>
      AgreeInstantiate(head, theta, theta');
      AgreeInstantiate(tail, theta, theta');
    case _ =>
  }

  lemma {:induction false} InstantiateNothing(t: Term)
    ensures Instantiate(t, map[]) == t
  {
    match t
    case Alias(_, args) => InstantiateNothing(args);
    case Binder(_, args) => InstantiateNothing(args);
    case Type(_, _, args) => InstantiateNothing(args);
    case Goal(_, args) => InstantiateNothing(args);
    case Cons(head, tail) =>
      InstantiateNothing(head);
      InstantiateNothing(tail);
    case _ =>
  }

  lemma {:induction false} PlainIsNormal(t: Term)
    requires Plain(t)
    ensures Normalizes(t, t)
  {
    match t
    case Type(_, _, args) => PlainIsNormal(args);
    case Goal(_, args) => PlainIsNormal(args);
    case Cons(head, tail) =>
      PlainIsNormal(head);
      PlainIsNormal(tail);
    case _ =>
  }

  lemma {:induction false} OnlyOwnVars(a: Term, b: Term)
    ensures Left(a, b).Keys <= Vars(a) && Right(a, b).Keys <= Vars(b)
  {
    match (a, b)
    case (Type(_, _, args), Type(_, _, args')) => OnlyOwnVars(args, args');
    case (Goal(_, args), Goal(_, args')) => OnlyOwnVars(args, args');
    case (Cons(h, t), Cons(h', t')) =>
      OnlyOwnVars(h, h');
      OnlyOwnVars(t, t');
    case _ =>
  }

  /** What passes the filter does have an instance in common, made of the parts of the other term. */
  lemma {:induction false} MatchesMeet(a: Term, b: Term)
    requires Plain(a) && Plain(b) && Linear(a) && Linear(b) && SameForms(a, b) && CouldMatch(a, b)
    ensures Normalizes(Instantiate(a, Left(a, b)), Meet(a, b))
    ensures Normalizes(Instantiate(b, Right(a, b)), Meet(a, b))
  {
    match (a, b)
    case (Var(_, _), _) =>
      InstantiateNothing(b);
      PlainIsNormal(b);
    case (Type(_, _, args), Type(_, _, args')) => MatchesMeet(args, args');
    case (Goal(_, args), Goal(_, args')) => MatchesMeet(args, args');
    case (Cons(h, t), Cons(h', t')) =>
      MatchesMeet(h, h');
      MatchesMeet(t, t');
      OnlyOwnVars(h, h');
      OnlyOwnVars(t, t');
      AgreeInstantiate(h, Left(h, h'), Left(a, b));
      AgreeInstantiate(t, Left(t, t'), Left(a, b));
      AgreeInstantiate(h', Right(h, h'), Right(a, b));
      AgreeInstantiate(t', Right(t, t'), Right(a, b));
    case _ =>
      InstantiateNothing(a);
      PlainIsNormal(a);
  }

  /** The filter does not compare types of different forms nor constants; terms with a common instance agree there. */
  lemma {:induction false} CommonInstanceForms(a: Term, theta: map<nat, Term>, b: Term, theta': map<nat, Term>, u: Term)
    requires Normalizes(Instantiate(a, theta), u) && Normalizes(Instantiate(b, theta'), u)
    ensures SameForms(a, b)
  {
    match (a, b)
    case (Type(_, _, args), Type(_, _, args')) => CommonInstanceForms(args, theta, args', theta', u.args);
    case (Goal(_, args), Goal(_, args')) => CommonInstanceForms(args, theta, args', theta', u.args);
    case (Cons(h, t), Cons(h', t')) =>
      CommonInstanceForms(h, theta, h', theta', u.head);
      CommonInstanceForms(t, theta, t', theta', u.tail);
    case _ =>
  }

  /**
    For linear terms without aliases, binders and placeholders, the filter lets through exactly what has a common
    instance, but for types of different forms and different constants.
   */
  lemma FilterExactly(a: Term, b: Term)
    requires Plain(a) && Plain(b) && Linear(a) && Linear(b)
    ensures CommonInstance(a, b) <==> CouldMatch(a, b) && SameForms(a, b)
  {
    InstancesCouldMatch(a, b);
    if theta, theta', u :| Normalizes(Instantiate(a, theta), u) && Normalizes(Instantiate(b, theta'), u) {
      CommonInstanceForms(a, theta, b, theta', u);
    }
    if CouldMatch(a, b) && SameForms(a, b) {
      MatchesMeet(a, b);
    }
  }

  predicate Comparable(a: Term, b: Term) {
    Plain(a) && Plain(b) && Linear(a) && Linear(b) && SameForms(a, b)
  }

  /** Keeps the clauses whose heads could match. */
  method FilterClauses(heads: seq<Term>, goal: Term) returns (kept: seq<nat>)
    ensures forall k :: 0 <= k < |kept| ==> kept[k] < |heads| && (k > 0 ==> kept[k - 1] < kept[k])
    // no clause that applies is lost
    ensures forall i :: 0 <= i < |heads| && CommonInstance(heads[i], goal) ==> i in kept
    ensures forall i :: i in kept ==> CouldMatch(heads[i], goal)
    // and what is kept applies, as far as the filter compares terms at all
    ensures forall i :: i in kept && Comparable(heads[i], goal) ==> CommonInstance(heads[i], goal)
  {
    kept := [];
    for i := 0 to |heads|
      invariant forall k :: 0 <= k < |kept| ==> kept[k] < i && (k > 0 ==> kept[k - 1] < kept[k])
      invariant forall j :: 0 <= j < i && CommonInstance(heads[j], goal) ==> j in kept
      invariant forall j :: j in kept ==> CouldMatch(heads[j], goal)
      invariant forall j :: j in kept && Comparable(heads[j], goal) ==> CommonInstance(heads[j], goal)
    {
      InstancesCouldMatch(heads[i], goal);
      if Comparable(heads[i], goal) {
        FilterExactly(heads[i], goal);
      }
      if CouldMatch(heads[i], goal) {
        kept := kept + [i];
      }
    }
  }

  lemma InstancesCouldMatch(a: Term, b: Term)
    ensures CommonInstance(a, b) ==> CouldMatch(a, b)
  {
    if theta, theta', u :| Normalizes(Instantiate(a, theta), u) && Normalizes(Instantiate(b, theta'), u) {
      CommonInstanceMatches(a, theta, b, theta', u);
    }
  }
}
