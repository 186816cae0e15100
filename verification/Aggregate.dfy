/**
  Answer aggregation: guidance is the anti-unification of the answers seen so far, and
  a cheap test says whether an answer still to come could make it more general.
 */
module Aggregate {
  /** The types of constants, which never mention variables. */
  type ConstType(==, !new)

  datatype Kind = Ty | Lifetime | Const(ty: ConstType)

  /** Lifetimes and constants that are not variables, and the names of type constructors. */
  type Leaf(==, !new)

  /** A type constructor together with the kinds of its arguments. */
  datatype Name = Name(id: Leaf, params: seq<Kind>)

  /** Terms and lists of terms.  A substitution is a list. */
  datatype Term =
    | Hole(kind: Kind, index: nat)        // a variable of the canonical binder
    | Rigid(kind: Kind, leaf: Leaf)       // a lifetime or constant
    | Binder(name: Name, args: Term)      // a fn-pointer or dyn type
    | Node(name: Name, args: Term)        // any other type
    | Nil
    | Cons(head: Term, tail: Term)

  datatype Sort = Single(kind: Kind) | List(kinds: seq<Kind>)

  /** Kinds and arities are respected. */
  ghost predicate Fits(t: Term, sort: Sort) {
    match t
    case Hole(kind, _) => sort == Single(kind)
    case Rigid(kind, _) => sort == Single(kind) && !kind.Ty?
    case Binder(name, args) => sort == Single(Ty) && Fits(args, List(name.params))
    case Node(name, args) => sort == Single(Ty) && Fits(args, List(name.params))
    case Nil => sort == List([])
    case Cons(head, tail) =>
      sort.List? && sort.kinds != [] && Fits(head, Single(sort.kinds[0])) && Fits(tail, List(sort.kinds[1..]))
  }

  function KindOf(t: Term): Kind {
    match t
    case Hole(kind, _) => kind
    case Rigid(kind, _) => kind
    case _ => Ty
  }

  // ----- Instances -----

  function Instantiate(t: Term, theta: map<nat, Term>): Term {
    match t
    case Hole(_, index) => if index in theta then theta[index] else t
    case Rigid(_, _) => t
    case Binder(name, args) => Binder(name, Instantiate(args, theta))
    case Node(name, args) => Node(name, Instantiate(args, theta))
    case Nil => t
    case Cons(head, tail) => Cons(Instantiate(head, theta), Instantiate(tail, theta))
  }

  ghost predicate Instance(t: Term, g: Term) {
    exists theta :: Instantiate(g, theta) == t
  }

  ghost function Holes(t: Term): set<nat> {
    match t
    case Hole(_, index) => {index}
    case Binder(_, args) => Holes(args)
    case Node(_, args) => Holes(args)
    case Cons(head, tail) => Holes(head) + Holes(tail)
    case _ => {}
  }

  /** No variable occurs twice. */
  ghost predicate Linear(t: Term) {
    match t
    case Binder(_, args) => Linear(args)
    case Node(_, args) => Linear(args)
    case Cons(head, tail) => Linear(head) && Linear(tail) && Holes(head) !! Holes(tail)
    case _ => true
  }

  /** `t` has the structure of `g` wherever `g` is not a variable. */
  ghost predicate Matches(t: Term, g: Term) {
    match g
    case Hole(_, _) => true
    case Rigid(_, _) => t == g
    case Binder(name, args) => t.Binder? && t.name == name && Matches(t.args, args)
    case Node(name, args) => t.Node? && t.name == name && Matches(t.args, args)
    case Nil => t == g
    case Cons(head, tail) => t.Cons? && Matches(t.head, head) && Matches(t.tail, tail)
  }

  ghost function Bindings(t: Term, g: Term): map<nat, Term>
    requires Matches(t, g)
  {
    match g
    case Hole(_, index) => map[index := t]
    case Binder(_, args) => Bindings(t.args, args)
    case Node(_, args) => Bindings(t.args, args)
    case Cons(head, tail) => Bindings(t.head, head) + Bindings(t.tail, tail)
    case _ => map[]
  }

  lemma {:induction false} InstanceMatches(g: Term, theta: map<nat, Term>)
    ensures Matches(Instantiate(g, theta), g)
  {
    match g
    case Binder(_, args) => InstanceMatches(args, theta);
    case Node(_, args) => InstanceMatches(args, theta);
    case Cons(head, tail) => InstanceMatches(head, theta); InstanceMatches(tail, theta);
    case _ =>
  }

  lemma {:induction false} InstantiateAlike(g: Term, theta: map<nat, Term>, theta': map<nat, Term>)
    requires forall i :: i in Holes(g) ==> i in theta && i in theta' && theta[i] == theta'[i]
    ensures Instantiate(g, theta) == Instantiate(g, theta')
  {
    match g
    case Binder(_, args) => InstantiateAlike(args, theta, theta');
    case Node(_, args) => InstantiateAlike(args, theta, theta');
    case Cons(head, tail) => InstantiateAlike(head, theta, theta'); InstantiateAlike(tail, theta, theta');
    case _ =>
  }

  lemma {:induction false} LinearMatches(t: Term, g: Term)
    requires Linear(g) && Matches(t, g)
    ensures Bindings(t, g).Keys == Holes(g) && Instantiate(g, Bindings(t, g)) == t
  {
    match g
    case Binder(_, args) => LinearMatches(t.args, args);
    case Node(_, args) => LinearMatches(t.args, args);
    case Cons(head, tail) =>
      LinearMatches(t.head, head);
      LinearMatches(t.tail, tail);
      InstantiateAlike(head, Bindings(t.head, head), Bindings(t, g));
      InstantiateAlike(tail, Bindings(t.tail, tail), Bindings(t, g));
    case _ =>
  }

  /** For linear terms, being an instance is a matter of structure. */
  lemma InstanceIffMatches(t: Term, g: Term)
    ensures Instance(t, g) ==> Matches(t, g)
    ensures Linear(g) ==> (Instance(t, g) <==> Matches(t, g))
  {
    if theta :| Instantiate(g, theta) == t {
      InstanceMatches(g, theta);
    }
    if Linear(g) && Matches(t, g) {
      LinearMatches(t, g);
    }
  }

  lemma {:induction false} MatchesTransitive(t: Term, g: Term, h: Term)
    requires Matches(t, g) && Matches(g, h)
    ensures Matches(t, h)
  {
    match h
    case Binder(_, args) => MatchesTransitive(t.args, g.args, args);
    case Node(_, args) => MatchesTransitive(t.args, g.args, args);
    case Cons(head, tail) => MatchesTransitive(t.head, g.head, head); MatchesTransitive(t.tail, g.tail, tail);
    case _ =>
  }

  // ----- Canonical numbering -----

  function Count(t: Term): nat {
    match t
    case Hole(_, _) => 1
    case Binder(_, args) => Count(args)
    case Node(_, args) => Count(args)
    case Cons(head, tail) => Count(head) + Count(tail)
    case _ => 0
  }

  /** The variables are `n`, `n + 1`, ... from left to right. */
  ghost predicate Numbered(t: Term, n: nat) {
    match t
    case Hole(_, index) => index == n
    case Binder(_, args) => Numbered(args, n)
    case Node(_, args) => Numbered(args, n)
    case Cons(head, tail) => Numbered(head, n) && Numbered(tail, n + Count(head))
    case _ => true
  }

  lemma {:induction false} NumberedIsLinear(t: Term, n: nat)
    requires Numbered(t, n)
    ensures Linear(t) && forall i :: i in Holes(t) ==> n <= i < n + Count(t)
  {
    match t
    case Binder(_, args) => NumberedIsLinear(args, n);
    case Node(_, args) => NumberedIsLinear(args, n);
    case Cons(head, tail) => NumberedIsLinear(head, n); NumberedIsLinear(tail, n + Count(head));
    case _ =>
  }

  /** Canonical terms that are instances of each other are equal. */
  lemma {:induction false} NumberedUnique(t: Term, u: Term, sort: Sort, n: nat)
    requires Fits(t, sort) && Fits(u, sort) && Numbered(t, n) && Numbered(u, n) && Matches(t, u) && Matches(u, t)
    ensures t == u
  {
    match t
    case Binder(name, args) => NumberedUnique(args, u.args, List(name.params), n);
    case Node(name, args) => NumberedUnique(args, u.args, List(name.params), n);
    case Cons(head, tail) =>
      NumberedUnique(head, u.head, Single(sort.kinds[0]), n);
      NumberedUnique(tail, u.tail, List(sort.kinds[1..]), n + Count(head));
    case _ =>
  }

  // ----- Anti-unification -----

  /** Nothing that aggregation gives up on: no fn-pointer and no dyn types. */
  ghost predicate NoBinders(t: Term) {
    match t
    case Binder(_, _) => false
    case Node(_, args) => NoBinders(args)
    case Cons(head, tail) => NoBinders(head) && NoBinders(tail)
    case _ => true
  }

  /** The generalization of two terms; `n` is the next fresh variable. */
  function AntiUnify(t: Term, u: Term, n: nat): Term {
    match (t, u)
    case (Rigid(_, _), Rigid(_, _)) => if t == u then t else Hole(KindOf(t), n)
    case (Node(name, args), Node(name', args')) => if name == name' then Node(name, AntiUnify(args, args', n))
      else Hole(Ty, n)
    case (Nil, Nil) => Nil
    case (Cons(head, tail), Cons(head', tail')) =>
      var h := AntiUnify(head, head', n);
      Cons(h, AntiUnify(tail, tail', n + Count(h)))
    case _ => Hole(KindOf(t), n)
  }

  lemma {:induction false} AntiUnifyGeneralizes(t: Term, u: Term, sort: Sort, n: nat)
    requires Fits(t, sort) && Fits(u, sort)
    ensures var r := AntiUnify(t, u, n);
            Fits(r, sort) && Numbered(r, n) && NoBinders(r) && Matches(t, r) && Matches(u, r)
  {
    match (t, u)
    case (Node(name, args), Node(name', args')) =>
      if name == name' {
        AntiUnifyGeneralizes(args, args', List(name.params), n);
      }
    case (Cons(head, tail), Cons(head', tail')) =>
      AntiUnifyGeneralizes(head, head', Single(sort.kinds[0]), n);
      AntiUnifyGeneralizes(tail, tail', List(sort.kinds[1..]), n + Count(AntiUnify(head, head', n)));
    case _ =>
  }

  // ----- What aggregation does not look at -----

  /** The term with variables, from `n` on, in place of its fn-pointer and dyn types. */
  function Blurred(t: Term, n: nat): Term {
    match t
    case Binder(_, _) => Hole(Ty, n)
    case Node(name, args) => Node(name, Blurred(args, n))
    case Cons(head, tail) => Cons(Blurred(head, n), Blurred(tail, n + Binders(head)))
    case _ => t
  }

  function Binders(t: Term): nat {
    match t
    case Binder(_, _) => 1
    case Node(_, args) => Binders(args)
    case Cons(head, tail) => Binders(head) + Binders(tail)
    case _ => 0
  }

  /** The list with variables, from `n` on, in place of its lifetimes and of the binder types in it. */
  function BlurredList(t: Term, n: nat): Term {
    match t
    case Cons(head, tail) =>
      if KindOf(head).Lifetime? then Cons(Hole(Lifetime, n), BlurredList(tail, n + 1))
      else Cons(Blurred(head, n), BlurredList(tail, n + Binders(head)))
    case _ => t
  }

  lemma {:induction false} BlurredPlain(t: Term, n: nat)
    requires NoBinders(t)
    ensures Blurred(t, n) == t
  {
    match t
    case Node(_, args) => BlurredPlain(args, n);
    case Cons(head, tail) => BlurredPlain(head, n); BlurredPlain(tail, n + Binders(head));
    case _ =>
  }

  lemma {:induction false} BlurredListPlain(t: Term, kinds: seq<Kind>, n: nat)
    requires Fits(t, List(kinds)) && NoBinders(t) && Lifetime !in kinds
    ensures BlurredList(t, n) == t
  {
    if t.Cons? {
      KindFits(t.head, kinds[0]);
      BlurredPlain(t.head, n);
      BlurredListPlain(t.tail, kinds[1..], n + Binders(t.head));
    }
  }

  /** Whatever generalizes all that is looked at of both terms generalizes their anti-unification. */
  lemma {:induction false} AntiUnifyMostSpecific(t: Term, u: Term, h: Term, n: nat, m: nat, m': nat)
    requires Matches(Blurred(t, m), h) && Matches(Blurred(u, m'), h)
    ensures Matches(AntiUnify(t, u, n), h)
  {
    match h
    case Node(_, args) => AntiUnifyMostSpecific(t.args, u.args, args, n, m, m');
    case Cons(head, tail) =>
      AntiUnifyMostSpecific(t.head, u.head, head, n, m, m');
      AntiUnifyMostSpecific(t.tail, u.tail, tail, n + Count(AntiUnify(t.head, u.head, n)),
                            m + Binders(t.head), m' + Binders(u.head));
    case _ =>
  }

  lemma {:induction false} BlurredMatches(t: Term, r: Term, n: nat)
    requires Matches(t, r) && NoBinders(r)
    ensures Matches(Blurred(t, n), r)
  {
    match r
    case Node(_, args) => BlurredMatches(t.args, args, n);
    case Cons(head, tail) => BlurredMatches(t.head, head, n); BlurredMatches(t.tail, tail, n + Binders(t.head));
    case _ =>
  }

  // ----- Merging an answer into the guidance -----

  /** Merges position by position; lifetimes are not looked at. */
  function MergeFrom(guidance: Term, answer: Term, n: nat): Term {
    match (guidance, answer)
    case (Cons(head, tail), Cons(head', tail')) =>
      var h := if KindOf(head).Lifetime? then Hole(Lifetime, n) else AntiUnify(head, head', n);
      Cons(h, MergeFrom(tail, tail', n + Count(h)))
    case _ => Nil
  }

  function Merge(guidance: Term, answer: Term): Term {
    MergeFrom(guidance, answer, 0)
  }

  lemma {:induction false} MergeFromGeneralizes(g: Term, a: Term, kinds: seq<Kind>, n: nat)
    requires Fits(g, List(kinds)) && Fits(a, List(kinds))
    ensures var r := MergeFrom(g, a, n);
            Fits(r, List(kinds)) && Numbered(r, n) && NoBinders(r) && Matches(g, r) && Matches(a, r)
  {
    if g.Cons? {
      if !KindOf(g.head).Lifetime? {
        AntiUnifyGeneralizes(g.head, a.head, Single(kinds[0]), n);
      }
      MergeFromGeneralizes(g.tail, a.tail, kinds[1..], n + Count(MergeFrom(g, a, n).head));
    }
  }

  lemma {:induction false} MergeFromMostSpecific(g: Term, a: Term, h: Term, kinds: seq<Kind>, n: nat, m: nat, m': nat)
    requires Fits(g, List(kinds)) && Fits(a, List(kinds))
    requires Matches(BlurredList(g, m), h) && Matches(BlurredList(a, m'), h)
    ensures Matches(MergeFrom(g, a, n), h)
  {
    if h.Cons? {
      KindFits(g.head, kinds[0]);
      KindFits(a.head, kinds[0]);
      var k, k' := if kinds[0].Lifetime? then 1 else Binders(g.head), if kinds[0].Lifetime? then 1 else Binders(a.head);
      if !kinds[0].Lifetime? {
        AntiUnifyMostSpecific(g.head, a.head, h.head, n, m, m');
      }
      MergeFromMostSpecific(g.tail, a.tail, h.tail, kinds[1..], n + Count(MergeFrom(g, a, n).head), m + k, m' + k');
    }
  }

  /** The result of a merge leaves open all that aggregation does not look at. */
  lemma {:induction false} MergeFromBlurs(g: Term, a: Term, t: Term, kinds: seq<Kind>, n: nat, m: nat)
    requires Fits(g, List(kinds)) && Fits(a, List(kinds)) && Fits(t, List(kinds)) && Matches(t, MergeFrom(g, a, n))
    ensures Matches(BlurredList(t, m), MergeFrom(g, a, n))
  {
    if g.Cons? {
      KindFits(g.head, kinds[0]);
      KindFits(t.head, kinds[0]);
      var k := if kinds[0].Lifetime? then 1 else Binders(t.head);
      if !kinds[0].Lifetime? {
        AntiUnifyGeneralizes(g.head, a.head, Single(kinds[0]), n);
        BlurredMatches(t.head, AntiUnify(g.head, a.head, n), m);
      }
      MergeFromBlurs(g.tail, a.tail, t.tail, kinds[1..], n + Count(MergeFrom(g, a, n).head), m + k);
    }
  }

  lemma KindFits(t: Term, kind: Kind)
    requires Fits(t, Single(kind))
    ensures KindOf(t) == kind
  {
  }

  /** Merging yields a canonical, linear substitution that both inputs are instances of. */
  lemma MergeGeneralizes(g: Term, a: Term, kinds: seq<Kind>)
    requires Fits(g, List(kinds)) && Fits(a, List(kinds))
    ensures var r := Merge(g, a);
            Fits(r, List(kinds)) && Numbered(r, 0) && Linear(r) && NoBinders(r) && Instance(g, r) && Instance(a, r)
  {
    MergeFromGeneralizes(g, a, kinds, 0);
    NumberedIsLinear(Merge(g, a), 0);
    InstanceIffMatches(g, Merge(g, a));
    InstanceIffMatches(a, Merge(g, a));
  }

  /**
    Merging generalizes exactly what it has to: with variables for the lifetimes and binder types of both inputs, a
    linear substitution generalizes both if and only if it generalizes the result.
   */
  lemma MergeExactly(g: Term, a: Term, h: Term, kinds: seq<Kind>, m: nat, m': nat)
    requires Fits(g, List(kinds)) && Fits(a, List(kinds)) && Linear(h)
    ensures Instance(BlurredList(g, m), h) && Instance(BlurredList(a, m'), h) <==> Instance(Merge(g, a), h)
  {
    InstanceIffMatches(BlurredList(g, m), h);
    InstanceIffMatches(BlurredList(a, m'), h);
    InstanceIffMatches(Merge(g, a), h);
    if Matches(BlurredList(g, m), h) && Matches(BlurredList(a, m'), h) {
      MergeFromMostSpecific(g, a, h, kinds, 0, m, m');
    }
    if Matches(Merge(g, a), h) {
      MergeFromGeneralizes(g, a, kinds, 0);
      MergeFromBlurs(g, a, g, kinds, 0, m);
      MergeFromBlurs(g, a, a, kinds, 0, m');
      MatchesTransitive(BlurredList(g, m), Merge(g, a), h);
      MatchesTransitive(BlurredList(a, m'), Merge(g, a), h);
    }
  }

  /** Without lifetimes and binder types, that is every linear substitution that both inputs are instances of. */
  lemma MergeMostSpecific(g: Term, a: Term, h: Term, kinds: seq<Kind>)
    requires Fits(g, List(kinds)) && Fits(a, List(kinds)) && Lifetime !in kinds && NoBinders(g) && NoBinders(a)
    requires Linear(h) && Instance(g, h) && Instance(a, h)
    ensures Instance(Merge(g, a), h)
  {
    BlurredListPlain(g, kinds, 0);
    BlurredListPlain(a, kinds, 0);
    MergeExactly(g, a, h, kinds, 0, 0);
  }

  // ----- Merging in any order -----

  /** The guidance after merging a list of answers, one after the other. */
  function MergeAll(guidance: Term, answers: seq<Term>): Term {
    if answers == [] then guidance else Merge(MergeAll(guidance, answers[..|answers| - 1]), answers[|answers| - 1])
  }

  ghost predicate AllFit(answers: seq<Term>, kinds: seq<Kind>) {
    forall k :: 0 <= k < |answers| ==> Fits(answers[k], List(kinds))
  }

  ghost predicate AllMatch(answers: seq<Term>, h: Term) {
    forall k :: 0 <= k < |answers| ==> Matches(answers[k], h)
  }

  /** Having merged a list, the guidance is canonical and generalizes all of it. */
  lemma {:induction false} MergeAllGeneralizes(g: Term, answers: seq<Term>, kinds: seq<Kind>)
    requires Fits(g, List(kinds)) && AllFit(answers, kinds)
    ensures var r := MergeAll(g, answers);
            && Fits(r, List(kinds)) && Matches(g, r) && AllMatch(answers, r)
            && (answers != [] ==> Numbered(r, 0) && NoBinders(r))
  {
    if answers == [] {
      MatchesReflexive(g);
    } else {
      var rest, last := answers[..|answers| - 1], answers[|answers| - 1];
      var r := MergeAll(g, rest);
      MergeAllGeneralizes(g, rest, kinds);
      MergeFromGeneralizes(r, last, kinds, 0);
      MatchesTransitive(g, r, Merge(r, last));
      forall k | 0 <= k < |answers|
        ensures Matches(answers[k], Merge(r, last))
      {
        if k < |rest| {
          assert answers[k] == rest[k];
          MatchesTransitive(rest[k], r, Merge(r, last));
        }
      }
    }
  }

  lemma {:induction false} MatchesReflexive(t: Term)
    ensures Matches(t, t)
  {
    match t
    case Binder(_, args) => MatchesReflexive(args);
    case Node(_, args) => MatchesReflexive(args);
    case Cons(head, tail) => MatchesReflexive(head); MatchesReflexive(tail);
    case _ =>
  }

  ghost predicate AllBlurredMatch(answers: seq<Term>, h: Term) {
    forall k :: 0 <= k < |answers| ==> Matches(BlurredList(answers[k], 0), h)
  }

  lemma {:induction false} MergeAllMostSpecific(g: Term, answers: seq<Term>, h: Term, kinds: seq<Kind>)
    requires Fits(g, List(kinds)) && AllFit(answers, kinds) && answers != []
    requires Matches(BlurredList(g, 0), h) && AllBlurredMatch(answers, h)
    ensures Matches(MergeAll(g, answers), h)
  {
    var rest, last := answers[..|answers| - 1], answers[|answers| - 1];
    var r := MergeAll(g, rest);
    MergeAllGeneralizes(g, rest, kinds);
    if rest != [] {
      MergeAllMostSpecific(g, rest, h, kinds);
      MergeAllBlurs(g, rest, r, kinds);
      MatchesTransitive(BlurredList(r, 0), r, h);
    }
    MergeFromMostSpecific(r, last, h, kinds, 0, 0, 0);
  }

  lemma MergeAllBlurs(g: Term, answers: seq<Term>, t: Term, kinds: seq<Kind>)
    requires Fits(g, List(kinds)) && AllFit(answers, kinds) && answers != []
    requires Fits(t, List(kinds)) && (t == MergeAll(g, answers) || Matches(t, MergeAll(g, answers)))
    ensures Matches(BlurredList(t, 0), MergeAll(g, answers))
  {
    var rest, last := answers[..|answers| - 1], answers[|answers| - 1];
    MergeAllGeneralizes(g, rest, kinds);
    MatchesReflexive(MergeAll(g, answers));
    MergeFromBlurs(MergeAll(g, rest), last, t, kinds, 0, 0);
  }

  /** The same answers, two or more of them, lead to the same guidance in whatever order they come. */
  lemma MergeAllAnyOrder(g: Term, answers: seq<Term>, g': Term, answers': seq<Term>, kinds: seq<Kind>)
    requires Fits(g, List(kinds)) && AllFit(answers, kinds) && answers != [] && answers' != []
    requires (set a | a in [g] + answers) == (set a | a in [g'] + answers')
    ensures MergeAll(g, answers) == MergeAll(g', answers')
  {
    SameAnswers(g, answers, g', answers', kinds);
    SameAnswers(g', answers', g, answers, kinds);
    var r, r' := MergeAll(g, answers), MergeAll(g', answers');
    MergeAllGeneralizes(g, answers, kinds);
    MergeAllGeneralizes(g', answers', kinds);
    MergeAllMostSpecific(g, answers, r', kinds);
    MergeAllMostSpecific(g', answers', r, kinds);
    NumberedUnique(r, r', List(kinds), 0);
  }

  lemma SameAnswers(g: Term, answers: seq<Term>, g': Term, answers': seq<Term>, kinds: seq<Kind>)
    requires Fits(g, List(kinds)) && AllFit(answers, kinds)
    requires answers != [] && (set a | a in [g] + answers) == (set a | a in [g'] + answers')
    ensures Fits(g', List(kinds)) && AllFit(answers', kinds)
    ensures Matches(BlurredList(g', 0), MergeAll(g, answers)) && AllBlurredMatch(answers', MergeAll(g, answers))
  {
    var all := set a | a in [g] + answers;
    MergeAllGeneralizes(g, answers, kinds);
    forall a | a in all
      ensures Fits(a, List(kinds)) && Matches(BlurredList(a, 0), MergeAll(g, answers))
    {
      MergeAllBlurs(g, answers, a, kinds);
    }
    assert g' in [g'] + answers' && g' in all;
    forall k | 0 <= k < |answers'|
      ensures answers'[k] in all
    {
      assert answers'[k] in [g'] + answers';
    }
  }

  // ----- Can a future answer change the guidance? -----

  function MayInvalidate(candidate: Term, current: Term): bool {
    match (candidate, current)
    case (_, Hole(kind, _)) => kind.Lifetime?
    case (Rigid(kind, leaf), Rigid(_, leaf')) => kind.Lifetime? || leaf != leaf'
    case (Node(name, args), Node(name', args')) => name != name' || MayInvalidate(args, args')
    case (Nil, Nil) => false
    case (Cons(head, tail), Cons(head', tail')) => MayInvalidate(head, head') || MayInvalidate(tail, tail')
    case _ => true
  }

  /** The test stays negative for every instance, and then the guidance has the structure of the answer. */
  lemma {:induction false} StaysValid(candidate: Term, g: Term, sort: Sort, theta: map<nat, Term>)
    requires Fits(candidate, sort) && Fits(g, sort) && !MayInvalidate(candidate, g)
    ensures !MayInvalidate(Instantiate(candidate, theta), g) && Matches(Instantiate(candidate, theta), g)
  {
    match (candidate, g)
    case (Node(name, args), Node(_, args')) => StaysValid(args, args', List(name.params), theta);
    case (Cons(head, tail), Cons(head', tail')) =>
      StaysValid(head, head', Single(sort.kinds[0]), theta);
      StaysValid(tail, tail', List(sort.kinds[1..]), theta);
    case _ =>
  }

  /** Anti-unifying with something that cannot invalidate changes nothing. */
  lemma {:induction false} ValidUnchanged(g: Term, a: Term, sort: Sort, n: nat)
    requires Fits(g, sort) && Fits(a, sort) && Numbered(g, n) && !MayInvalidate(a, g)
    ensures AntiUnify(g, a, n) == g
  {
    match (g, a)
    case (Node(name, args), Node(_, args')) => ValidUnchanged(args, args', List(name.params), n);
    case (Cons(head, tail), Cons(head', tail')) =>
      ValidUnchanged(head, head', Single(sort.kinds[0]), n);
      ValidUnchanged(tail, tail', List(sort.kinds[1..]), n + Count(head));
    case _ =>
  }

  lemma {:induction false} ValidMergeUnchanged(g: Term, a: Term, kinds: seq<Kind>, n: nat)
    requires Fits(g, List(kinds)) && Fits(a, List(kinds)) && Numbered(g, n) && !MayInvalidate(a, g)
    ensures MergeFrom(g, a, n) == g
  {
    if g.Cons? {
      LifetimesInvalidate(g.head, a.head, kinds[0]);
      KindFits(g.head, kinds[0]);
      ValidUnchanged(g.head, a.head, Single(kinds[0]), n);
      ValidMergeUnchanged(g.tail, a.tail, kinds[1..], n + Count(g.head));
    }
  }

  lemma LifetimesInvalidate(g: Term, a: Term, kind: Kind)
    requires Fits(g, Single(kind)) && Fits(a, Single(kind)) && !MayInvalidate(a, g)
    ensures !kind.Lifetime?
  {
  }

  /** A negative test is conclusive for linear guidance: no instance of the candidate makes it more general. */
  lemma NegativeTestConclusive(candidate: Term, g: Term, kinds: seq<Kind>, theta: map<nat, Term>)
    requires Fits(candidate, List(kinds)) && Fits(g, List(kinds)) && !MayInvalidate(candidate, g) && Linear(g)
    ensures !MayInvalidate(Instantiate(candidate, theta), g)
    ensures Instance(Instantiate(candidate, theta), g)
    ensures Numbered(g, 0) && Fits(Instantiate(candidate, theta), List(kinds)) ==>
              Merge(g, Instantiate(candidate, theta)) == g
  {
    StaysValid(candidate, g, List(kinds), theta);
    InstanceIffMatches(Instantiate(candidate, theta), g);
    if Numbered(g, 0) && Fits(Instantiate(candidate, theta), List(kinds)) {
      ValidMergeUnchanged(g, Instantiate(candidate, theta), kinds, 0);
    }
  }

  // ----- Exactly when a negative test is conclusive -----

  /** Guidance for which the test is always positive: it mentions a lifetime, a fn-pointer or a dyn type. */
  predicate AlwaysInvalidated(g: Term) {
    match g
    case Hole(kind, _) => kind.Lifetime?
    case Rigid(kind, _) => kind.Lifetime?
    case Binder(_, _) => true
    case Node(_, args) => AlwaysInvalidated(args)
    case Nil => false
    case Cons(head, tail) => AlwaysInvalidated(head) || AlwaysInvalidated(tail)
  }

  /** The term with every occurrence of a variable made a variable of its own. */
  ghost function Renumbered(t: Term, n: nat): Term {
    match t
    case Hole(kind, _) => Hole(kind, n)
    case Binder(name, args) => Binder(name, Renumbered(args, n))
    case Node(name, args) => Node(name, Renumbered(args, n))
    case Cons(head, tail) => Cons(Renumbered(head, n), Renumbered(tail, n + Count(head)))
    case _ => t
  }

  lemma {:induction false} AlwaysPositive(candidate: Term, g: Term, sort: Sort)
    requires Fits(candidate, sort) && Fits(g, sort) && AlwaysInvalidated(g)
    ensures MayInvalidate(candidate, g)
  {
    match (candidate, g)
    case (Node(name, args), Node(name', args')) =>
      if name == name' {
        AlwaysPositive(args, args', List(name.params));
      }
    case (Cons(head, tail), Cons(head', tail')) =>
      if AlwaysInvalidated(head') {
        AlwaysPositive(head, head', Single(sort.kinds[0]));
      } else {
        AlwaysPositive(tail, tail', List(sort.kinds[1..]));
      }
    case _ =>
  }

  lemma {:induction false} RenumberedNegative(g: Term, sort: Sort, n: nat)
    requires Fits(g, sort) && !AlwaysInvalidated(g)
    ensures Fits(Renumbered(g, n), sort) && !MayInvalidate(Renumbered(g, n), g)
  {
    match g
    case Node(name, args) => RenumberedNegative(args, List(name.params), n);
    case Cons(head, tail) =>
      RenumberedNegative(head, Single(sort.kinds[0]), n);
      RenumberedNegative(tail, List(sort.kinds[1..]), n + Count(head));
    case _ =>
  }

  ghost function Image(theta: map<nat, Term>, i: nat): nat {
    if i in theta && theta[i].Hole? then theta[i].index else i
  }

  lemma {:induction false} ImageInRange(g: Term, theta: map<nat, Term>, n: nat)
    requires Instantiate(g, theta) == Renumbered(g, n)
    ensures forall i :: i in Holes(g) ==> n <= Image(theta, i) < n + Count(g)
  {
    match g
    case Binder(_, args) => ImageInRange(args, theta, n);
    case Node(_, args) => ImageInRange(args, theta, n);
    case Cons(head, tail) => ImageInRange(head, theta, n); ImageInRange(tail, theta, n + Count(head));
    case _ =>
  }

  /** Only a linear term has all its variables made distinct by an instantiation. */
  lemma {:induction false} RenumberedInstance(g: Term, theta: map<nat, Term>, n: nat)
    requires Instantiate(g, theta) == Renumbered(g, n)
    ensures Linear(g)
  {
    match g
    case Binder(_, args) => RenumberedInstance(args, theta, n);
    case Node(_, args) => RenumberedInstance(args, theta, n);
    case Cons(head, tail) =>
      RenumberedInstance(head, theta, n);
      RenumberedInstance(tail, theta, n + Count(head));
      ImageInRange(head, theta, n);
      ImageInRange(tail, theta, n + Count(head));
    case _ =>
  }

  /** A negative test is conclusive exactly for linear guidance, apart from guidance that never tests negative. */
  lemma ConclusiveExactly(g: Term, kinds: seq<Kind>)
    requires Fits(g, List(kinds))
    ensures (forall candidate :: Fits(candidate, List(kinds)) && !MayInvalidate(candidate, g) ==>
              Instance(candidate, g)) <==>
            Linear(g) || AlwaysInvalidated(g)
  {
    if Linear(g) || AlwaysInvalidated(g) {
      forall candidate | Fits(candidate, List(kinds)) && !MayInvalidate(candidate, g)
        ensures Instance(candidate, g)
      {
        if AlwaysInvalidated(g) {
          AlwaysPositive(candidate, g, List(kinds));
        } else {
          NothingBound(candidate);
          NegativeTestConclusive(candidate, g, kinds, map[]);
        }
      }
    } else {
      RenumberedNegative(g, List(kinds), 0);
      if theta :| Instantiate(g, theta) == Renumbered(g, 0) {
        RenumberedInstance(g, theta, 0);
      }
    }
  }

  lemma {:induction false} NothingBound(t: Term)
    ensures Instantiate(t, map[]) == t
  {
    match t
    case Binder(_, args) => NothingBound(args);
    case Node(_, args) => NothingBound(args);
    case Cons(head, tail) => NothingBound(head); NothingBound(tail);
    case _ =>
  }

  /** With a repeated variable the test misses an answer that does not fit: guidance `(X, X)` and answer `(a, b)`. */
  lemma RepeatedVariable(a: Leaf, b: Leaf)
    requires a != b
    ensures var g := Cons(Hole(Ty, 0), Cons(Hole(Ty, 0), Nil));
            var answer := Cons(Node(Name(a, []), Nil), Cons(Node(Name(b, []), Nil), Nil));
            !MayInvalidate(answer, g) && !Instance(answer, g) && Merge(g, answer) != g
  {
    var x, y := Node(Name(a, []), Nil), Node(Name(b, []), Nil);
    var last := Cons(Hole(Ty, 0), Nil);
    var g, answer := Cons(Hole(Ty, 0), last), Cons(x, Cons(y, Nil));
    assert !MayInvalidate(Cons(y, Nil), last);
    assert MergeFrom(last, Cons(y, Nil), 1) == Cons(Hole(Ty, 1), Nil);
    forall theta
      ensures Instantiate(g, theta) != answer
    {
      assert Instantiate(last, theta) == Cons(Instantiate(Hole(Ty, 0), theta), Nil);
    }
  }

  // ----- The aggregation loop -----

  datatype Guidance = Definite(subst: Term) | Suggested(subst: Term) | Unknown

  /** Every position is a variable of its own, and none is a lifetime. */
  predicate IsTrivialFrom(subst: Term, index: nat) {
    match subst
    case Cons(head, tail) => head.Hole? && !head.kind.Lifetime? && head.index == index && IsTrivialFrom(tail, index + 1)
    case _ => true
  }

  predicate IsTrivial(subst: Term) {
    IsTrivialFrom(subst, 0)
  }

  lemma {:induction false} TrivialNeverInvalidated(g: Term, a: Term, kinds: seq<Kind>, index: nat)
    requires Fits(g, List(kinds)) && Fits(a, List(kinds)) && IsTrivialFrom(g, index)
    ensures !MayInvalidate(a, g)
  {
    if g.Cons? {
      TrivialNeverInvalidated(g.tail, a.tail, kinds[1..], index + 1);
    }
  }

  lemma {:induction false} TrivialIsNumbered(g: Term, kinds: seq<Kind>, index: nat)
    requires Fits(g, List(kinds)) && IsTrivialFrom(g, index)
    ensures Numbered(g, index)
  {
    if g.Cons? {
      TrivialIsNumbered(g.tail, kinds[1..], index + 1);
    }
  }

  /** Trivial guidance stays as it is, whatever answers come. */
  lemma TrivialIsFinal(g: Term, answer: Term, kinds: seq<Kind>)
    requires Fits(g, List(kinds)) && Fits(answer, List(kinds)) && IsTrivial(g)
    ensures Merge(g, answer) == g
  {
    TrivialNeverInvalidated(g, answer, kinds, 0);
    TrivialIsNumbered(g, kinds, 0);
    ValidMergeUnchanged(g, answer, kinds, 0);
  }

  /** The substitution that maps every variable to itself, with the variables numbered from `n` on. */
  function IdentityFrom(kinds: seq<Kind>, n: nat): Term {
    if kinds == [] then Nil else Cons(Hole(kinds[0], n), IdentityFrom(kinds[1..], n + 1))
  }

  function Identity(kinds: seq<Kind>): Term {
    IdentityFrom(kinds, 0)
  }

  lemma {:induction false} IdentityFits(kinds: seq<Kind>, n: nat)
    ensures Fits(IdentityFrom(kinds, n), List(kinds)) && Numbered(IdentityFrom(kinds, n), n)
  {
    if kinds != [] {
      IdentityFits(kinds[1..], n + 1);
    }
  }

  /** Merging the identity, as is done for a floundered goal, forgets everything known so far. */
  lemma {:induction false} IdentityForgets(g: Term, kinds: seq<Kind>, n: nat, m: nat)
    requires Fits(g, List(kinds))
    ensures MergeFrom(g, IdentityFrom(kinds, m), n) == IdentityFrom(kinds, n)
  {
    if g.Cons? {
      KindFits(g.head, kinds[0]);
      IdentityForgets(g.tail, kinds[1..], n + 1, m + 1);
    }
  }

  // ----- Instances of instances -----

  ghost function Composed(first: map<nat, Term>, second: map<nat, Term>): map<nat, Term> {
    map i | i in first.Keys + second.Keys :: if i in first then Instantiate(first[i], second) else second[i]
  }

  lemma {:induction false} InstantiateTwice(t: Term, first: map<nat, Term>, second: map<nat, Term>)
    ensures Instantiate(Instantiate(t, first), second) == Instantiate(t, Composed(first, second))
  {
    match t
    case Binder(_, args) => InstantiateTwice(args, first, second);
    case Node(_, args) => InstantiateTwice(args, first, second);
    case Cons(head, tail) => InstantiateTwice(head, first, second); InstantiateTwice(tail, first, second);
    case _ =>
  }

  lemma InstanceTransitive(a: Term, b: Term, c: Term)
    requires Instance(a, b) && Instance(b, c)
    ensures Instance(a, c)
  {
    var second :| Instantiate(b, second) == a;
    var first :| Instantiate(c, first) == b;
    InstantiateTwice(c, first, second);
  }

  lemma InstanceReflexive(t: Term)
    ensures Instance(t, t)
  {
    NothingBound(t);
  }

  /** No instance of a candidate that tests negative changes linear guidance. */
  lemma InstanceUnchanged(g: Term, candidate: Term, answer: Term, kinds: seq<Kind>)
    requires Fits(g, List(kinds)) && Fits(candidate, List(kinds)) && Fits(answer, List(kinds))
    requires Numbered(g, 0) && !MayInvalidate(candidate, g) && Instance(answer, candidate)
    ensures Merge(g, answer) == g
  {
    var theta :| Instantiate(candidate, theta) == answer;
    StaysValid(candidate, g, List(kinds), theta);
    ValidMergeUnchanged(g, answer, kinds, 0);
  }
}
