/**
 * packages/core/src/db/tenant.ts: AND the tenant condition onto an optional extra predicate, as text.
 *
 * A predicate is the sequence of tokens it is rendered to; comparisons are atoms. The database reads
 * it with NOT binding tighter than AND and AND tighter than OR, over SQL's three truth values.
 */
module TenantScope {
  import opened Prelude

  datatype Token = Cond(id: nat) | NOT | AND | OR | Open | Close

  // ---------------------------------------------------------------------------------------------
  // How the database reads a predicate
  // ---------------------------------------------------------------------------------------------

  datatype Factor = Atom(id: nat) | Not(f: Factor) | Group(e: Expr)
  datatype Term = Only(f: Factor) | And(f: Factor, rest: Term)
  datatype Expr = Just(t: Term) | Or(t: Term, rest: Expr)

  type Parsed<T> = Option<(T, seq<Token>)>

  function ParseFactor(ts: seq<Token>): (r: Parsed<Factor>)
    ensures r.Some? ==> |r.value.1| < |ts|
    decreases |ts|, 0
  {
    if ts == [] then None
    else
      match ts[0]
      case Cond(id) => Some((Atom(id), ts[1..]))
      case NOT =>
        (match ParseFactor(ts[1..])
         case None => None
         case Some((f, rest)) => Some((Not(f), rest)))
      case Open =>
        (match ParseExpr(ts[1..])
         case None => None
         case Some((e, rest)) => if rest != [] && rest[0] == Close then Some((Group(e), rest[1..])) else None)
      case _ => None
  }

  function ParseTerm(ts: seq<Token>): (r: Parsed<Term>)
    ensures r.Some? ==> |r.value.1| < |ts|
    decreases |ts|, 1
  {
    match ParseFactor(ts)
    case None => None
    case Some((f, rest)) =>
      if rest == [] || rest[0] != AND then Some((Only(f), rest))
      else
        match ParseTerm(rest[1..])
        case None => None
        case Some((t, more)) => Some((And(f, t), more))
  }

  function ParseExpr(ts: seq<Token>): (r: Parsed<Expr>)
    ensures r.Some? ==> |r.value.1| < |ts|
    decreases |ts|, 2
  {
    match ParseTerm(ts)
    case None => None
    case Some((t, rest)) =>
      if rest == [] || rest[0] != OR then Some((Just(t), rest))
      else
        match ParseExpr(rest[1..])
        case None => None
        case Some((e, more)) => Some((Or(t, e), more))
  }

  /** The whole text is one predicate. */
  function Read(ts: seq<Token>): Option<Expr> {
    match ParseExpr(ts)
    case None => None
    case Some((e, rest)) => if rest == [] then Some(e) else None
  }

  datatype Truth = True | False | Unknown

  function Not3(a: Truth): Truth {
    match a
    case True => False
    case False => True
    case Unknown => Unknown
  }

  function And3(a: Truth, b: Truth): Truth {
    if a == False || b == False then False else if a == True && b == True then True else Unknown
  }

  function Or3(a: Truth, b: Truth): Truth { Not3(And3(Not3(a), Not3(b))) }

  /** The value of each condition on one row. */
  type Row = nat -> Truth

  function EvalFactor(v: Row, f: Factor): Truth {
    match f
    case Atom(id) => v(id)
    case Not(g) => Not3(EvalFactor(v, g))
    case Group(e) => Eval(v, e)
  }

  function EvalTerm(v: Row, t: Term): Truth {
    match t
    case Only(f) => EvalFactor(v, f)
    case And(f, rest) => And3(EvalFactor(v, f), EvalTerm(v, rest))
  }

  function Eval(v: Row, e: Expr): Truth {
    match e
    case Just(t) => EvalTerm(v, t)
    case Or(t, rest) => Or3(EvalTerm(v, t), Eval(v, rest))
  }

  /** A WHERE clause keeps the rows on which it is true, not those on which it is unknown. */
  predicate Selects(v: Row, e: Expr) { Eval(v, e) == True }

  // ---------------------------------------------------------------------------------------------
  // Reading is the exact inverse of printing
  // ---------------------------------------------------------------------------------------------

  function PrintFactor(f: Factor): seq<Token> {
    match f
    case Atom(id) => [Cond(id)]
    case Not(g) => [NOT] + PrintFactor(g)
    case Group(e) => [Open] + Print(e) + [Close]
  }

  function PrintTerm(t: Term): seq<Token> {
    match t
    case Only(f) => PrintFactor(f)
    case And(f, rest) => PrintFactor(f) + [AND] + PrintTerm(rest)
  }

  function Print(e: Expr): seq<Token> {
    match e
    case Just(t) => PrintTerm(t)
    case Or(t, rest) => PrintTerm(t) + [OR] + Print(rest)
  }

  lemma {:induction false} FactorReadsBack(f: Factor, rest: seq<Token>)
    ensures ParseFactor(PrintFactor(f) + rest) == Some((f, rest))
    decreases f
  {
    var ts := PrintFactor(f) + rest;
    match f
    case Atom(id) => assert ts[1..] == rest;
    case Not(g) =>
      assert ts[1..] == PrintFactor(g) + rest;
      FactorReadsBack(g, rest);
    case Group(e) =>
      assert ts[1..] == Print(e) + ([Close] + rest);
      ExprReadsBack(e, [Close] + rest);
      assert ([Close] + rest)[1..] == rest;
  }

  lemma {:induction false} TermReadsBack(t: Term, rest: seq<Token>)
    requires rest == [] || rest[0] != AND
    ensures ParseTerm(PrintTerm(t) + rest) == Some((t, rest))
    decreases t
  {
    match t
    case Only(f) => FactorReadsBack(f, rest);
    case And(f, more) =>
      var next := [AND] + (PrintTerm(more) + rest);
      assert PrintTerm(t) + rest == PrintFactor(f) + next;
      FactorReadsBack(f, next);
      assert next[1..] == PrintTerm(more) + rest;
      TermReadsBack(more, rest);
  }

  lemma {:induction false} ExprReadsBack(e: Expr, rest: seq<Token>)
    requires rest == [] || (rest[0] != AND && rest[0] != OR)
    ensures ParseExpr(Print(e) + rest) == Some((e, rest))
    decreases e
  {
    match e
    case Just(t) => TermReadsBack(t, rest);
    case Or(t, more) =>
      var next := [OR] + (Print(more) + rest);
      assert Print(e) + rest == PrintTerm(t) + next;
      TermReadsBack(t, next);
      assert next[1..] == Print(more) + rest;
      ExprReadsBack(more, rest);
  }

  lemma {:induction false} FactorPrintsBack(ts: seq<Token>)
    requires ParseFactor(ts).Some?
    ensures var (f, rest) := ParseFactor(ts).value; ts == PrintFactor(f) + rest
    decreases |ts|, 0
  {
    assert ts == [ts[0]] + ts[1..];
    if ts[0] == NOT {
      FactorPrintsBack(ts[1..]);
    } else if ts[0] == Open {
      ExprPrintsBack(ts[1..]);
      var (e, rest) := ParseExpr(ts[1..]).value;
      assert ts == [Open] + (Print(e) + ([Close] + rest[1..]));
    }
  }

  lemma {:induction false} TermPrintsBack(ts: seq<Token>)
    requires ParseTerm(ts).Some?
    ensures var (t, rest) := ParseTerm(ts).value; ts == PrintTerm(t) + rest
    decreases |ts|, 1
  {
    FactorPrintsBack(ts);
    var (f, rest) := ParseFactor(ts).value;
    if rest != [] && rest[0] == AND {
      TermPrintsBack(rest[1..]);
      var (t, more) := ParseTerm(rest[1..]).value;
      JoinedBy(ts, PrintFactor(f), AND, PrintTerm(t), rest, more);
    }
  }

  /** Two prints joined by an operator, in front of the rest of the text. */
  lemma JoinedBy(ts: seq<Token>, a: seq<Token>, operator: Token, b: seq<Token>, rest: seq<Token>, more: seq<Token>)
    requires rest != [] && rest[0] == operator && ts == a + rest && rest[1..] == b + more
    ensures ts == a + [operator] + b + more
  {
    assert rest == [operator] + (b + more);
  }

  lemma {:induction false} ExprPrintsBack(ts: seq<Token>)
    requires ParseExpr(ts).Some?
    ensures var (e, rest) := ParseExpr(ts).value; ts == Print(e) + rest
    decreases |ts|, 2
  {
    TermPrintsBack(ts);
    var (t, rest) := ParseTerm(ts).value;
    if rest != [] && rest[0] == OR {
      ExprPrintsBack(rest[1..]);
      var (e, more) := ParseExpr(rest[1..]).value;
      JoinedBy(ts, PrintTerm(t), OR, Print(e), rest, more);
    }
  }

  /** A text is a predicate exactly when it is the print of one, and of one only. */
  lemma ReadInvertsPrint(ts: seq<Token>, e: Expr)
    ensures Read(ts) == Some(e) <==> ts == Print(e)
  {
    ExprReadsBack(e, []);
    assert Print(e) + [] == Print(e);
    if ParseExpr(ts).Some? { ExprPrintsBack(ts); }
  }

  // ---------------------------------------------------------------------------------------------
  // tenantScope
  // ---------------------------------------------------------------------------------------------

  /** drizzle's `and(a, b)`: parentheses around the whole, none around the operands. */
  function DrizzleAnd(a: seq<Token>, b: seq<Token>): seq<Token> { [Open] + a + [AND] + b + [Close] }

  /** `tenant` is the condition that the row's tenant id equals the given one. */
  function TenantScope(tenant: nat, extra: Option<seq<Token>>): seq<Token> {
    match extra
    case None => [Cond(tenant)]
    case Some(ts) => DrizzleAnd([Cond(tenant)], [Open] + ts + [Close])
  }

  /** What reading the scope has to yield: the tenant condition and one group, joined by AND. */
  function Scoped(tenant: nat, e: Expr): Expr {
    Grouped(Just(And(Atom(tenant), Only(Group(e)))))
  }

  /** A group in parentheses, read as a predicate. */
  function Grouped(e: Expr): Expr { Just(Only(Group(e))) }

  lemma GroupedPrints(e: Expr)
    ensures Print(Grouped(e)) == [Open] + Print(e) + [Close]
  {
    assert Print(Grouped(e)) == PrintTerm(Only(Group(e))) == PrintFactor(Group(e));
  }

  lemma GroupedMeans(v: Row, e: Expr)
    ensures Eval(v, Grouped(e)) == Eval(v, e)
  {
    assert Eval(v, Grouped(e)) == EvalTerm(v, Only(Group(e))) == EvalFactor(v, Group(e));
  }

  lemma TenantAnd(v: Row, tenant: nat, t: Term)
    ensures PrintTerm(And(Atom(tenant), t)) == [Cond(tenant)] + [AND] + PrintTerm(t)
    ensures EvalTerm(v, And(Atom(tenant), t)) == And3(v(tenant), EvalTerm(v, t))
  {
    assert PrintFactor(Atom(tenant)) == [Cond(tenant)] && EvalFactor(v, Atom(tenant)) == v(tenant);
  }

  /** A condition by itself. */
  lemma Alone(v: Row, id: nat)
    ensures Print(Just(Only(Atom(id)))) == PrintTerm(Only(Atom(id))) == [Cond(id)]
    ensures Eval(v, Just(Only(Atom(id)))) == EvalTerm(v, Only(Atom(id))) == v(id)
  {
    assert PrintFactor(Atom(id)) == [Cond(id)] && EvalFactor(v, Atom(id)) == v(id);
  }

  lemma ScopedPrints(tenant: nat, e: Expr)
    ensures Print(Scoped(tenant, e)) == TenantScope(tenant, Some(Print(e)))
  {
    TenantAnd(_ => Unknown, tenant, Only(Group(e)));
    GroupedPrints(e);
    GroupedPrints(Just(And(Atom(tenant), Only(Group(e)))));
  }

  lemma ScopedMeans(v: Row, tenant: nat, e: Expr)
    ensures Selects(v, Scoped(tenant, e)) <==> v(tenant) == True && Selects(v, e)
  {
    TenantAnd(v, tenant, Only(Group(e)));
    GroupedMeans(v, e);
    GroupedMeans(v, Just(And(Atom(tenant), Only(Group(e)))));
  }

  /**
   * Scoping preserves meaning: for every extra predicate, the database reads the rendered text as one
   * predicate that selects exactly the tenant's rows that satisfy the extra one; without an extra
   * predicate, exactly the tenant's rows.
   */
  lemma ScopeSelectsTenantRows(tenant: nat, extra: Option<seq<Token>>, v: Row)
    requires extra.Some? ==> Read(extra.value).Some?
    ensures Read(TenantScope(tenant, extra)).Some?
    ensures Selects(v, Read(TenantScope(tenant, extra)).value) <==>
      v(tenant) == True && (extra.Some? ==> Selects(v, Read(extra.value).value))
  {
    if extra.None? {
      Alone(v, tenant);
      ReadInvertsPrint([Cond(tenant)], Just(Only(Atom(tenant))));
    } else {
      var e := Read(extra.value).value;
      ReadInvertsPrint(extra.value, e);
      ScopedPrints(tenant, e);
      ReadInvertsPrint(TenantScope(tenant, extra), Scoped(tenant, e));
      ScopedMeans(v, tenant, e);
    }
  }

  /**
   * Exactly when the text is read as the tenant condition ANDed with one group: when `extra` is a
   * predicate by itself. These never escape; of the other texts some do (`EscapesExactly`).
   */
  lemma ScopeIsAtomicExactlyOnPredicates(tenant: nat, extra: seq<Token>)
    ensures Read(extra).Some? <==> exists e :: Read(TenantScope(tenant, Some(extra))) == Some(Scoped(tenant, e))
  {
    if Read(extra).Some? {
      var e := Read(extra).value;
      ReadInvertsPrint(extra, e);
      ScopedPrints(tenant, e);
      ReadInvertsPrint(TenantScope(tenant, Some(extra)), Scoped(tenant, e));
    }
    if e :| Read(TenantScope(tenant, Some(extra))) == Some(Scoped(tenant, e)) {
      ReadInvertsPrint(TenantScope(tenant, Some(extra)), Scoped(tenant, e));
      ScopedPrints(tenant, e);
      var a, b := TenantScope(tenant, Some(extra)), TenantScope(tenant, Some(Print(e)));
      assert a[4..|a| - 2] == extra && b[4..|b| - 2] == Print(e);
      ReadInvertsPrint(extra, e);
    }
  }

  // ---------------------------------------------------------------------------------------------
  // Which texts escape the parentheses
  // ---------------------------------------------------------------------------------------------

  /** The text reads, and as a predicate that keeps a row on which the tenant condition is not true. */
  predicate Escapes(tenant: nat, extra: seq<Token>, v: Row) {
    var read := Read(TenantScope(tenant, Some(extra)));
    read.Some? && v(tenant) != True && Selects(v, read.value)
  }

  /** A predicate read from a text starts with what its first factor is read from. */
  lemma ReadFirst(ts: seq<Token>)
    requires ParseExpr(ts).Some?
    ensures ParseTerm(ts).Some? && ParseTerm(ts).value.0 == ParseExpr(ts).value.0.t
    ensures ParseFactor(ts).Some? && ParseFactor(ts).value.0 == ParseExpr(ts).value.0.t.f
  {
  }

  lemma ReadGroup(ts: seq<Token>)
    requires ts != [] && ts[0] == Open && ParseFactor(ts).Some?
    ensures ParseExpr(ts[1..]).Some? && ParseFactor(ts).value.0 == Group(ParseExpr(ts[1..]).value.0)
  {
  }

  /** What follows a condition and an AND is read as a term of its own. */
  lemma ReadBehindAnd(id: nat, ts: seq<Token>, behind: seq<Token>)
    requires ts == [Cond(id), AND] + behind && ParseTerm(ts).Some?
    ensures ParseTerm(behind).Some? && ParseFactor(behind).Some?
    ensures ParseTerm(ts).value.0 == And(Atom(id), ParseTerm(behind).value.0)
    ensures ParseFactor(behind).value.0 == ParseTerm(behind).value.0.f
  {
    assert ParseFactor(ts) == Some((Atom(id), ts[1..]));
    assert ts[1..][0] == AND && ts[1..][1..] == behind;
  }

  /** However the text is read, it starts with a group, and in it the tenant condition binds to the first term. */
  lemma ScopeShape(tenant: nat, extra: seq<Token>)
    requires Read(TenantScope(tenant, Some(extra))).Some?
    ensures var e := Read(TenantScope(tenant, Some(extra))).value;
            e.t.f.Group? && e.t.f.e.t.And? && e.t.f.e.t.f == Atom(tenant)
    ensures ParseFactor([Open] + extra + [Close, Close]).Some?
  {
    var ts, behind := TenantScope(tenant, Some(extra)), [Open] + extra + [Close, Close];
    ReadFirst(ts);
    ReadGroup(ts);
    ReadFirst(ts[1..]);
    assert ts[1..] == [Cond(tenant), AND] + behind;
    ReadBehindAnd(tenant, ts[1..], behind);
  }

  /**
   * The further disjuncts of such a reading, those the tenant condition is not ANDed onto: the other
   * terms of the first group, with whatever is ANDed onto that group, and the other terms outside it.
   * A reading that starts with no group, which no scope has, would be one as a whole.
   */
  function Further(e: Expr): seq<Expr> {
    if !e.t.f.Group? then [e]
    else
      var inner := e.t.f.e;
      (if inner.Just? then [] else [Just(Refirst(Group(inner.rest), e.t))]) + (if e.Just? then [] else [e.rest])
  }

  /** The term with another first factor. */
  function Refirst(f: Factor, t: Term): Term {
    match t
    case Only(_) => Only(f)
    case And(_, more) => And(f, more)
  }

  lemma RefirstMeans(v: Row, f: Factor, t: Term)
    ensures EvalTerm(v, Refirst(f, t)) == True <==>
      EvalFactor(v, f) == True && (t.And? ==> EvalTerm(v, t.rest) == True)
    ensures Refirst(t.f, t) == t
  {
  }

  lemma FirstGroup(v: Row, inner: Expr, tenant: nat)
    requires inner.t.And? && inner.t.f == Atom(tenant) && v(tenant) != True
    ensures EvalFactor(v, Group(inner)) == True <==> inner.Or? && EvalFactor(v, Group(inner.rest)) == True
  {
    TenantAnd(v, tenant, inner.t.rest);
    assert inner.t == And(Atom(tenant), inner.t.rest);
  }

  /** Where the tenant condition is not true, the whole is true exactly when a further disjunct is. */
  lemma FurtherDecide(v: Row, e: Expr, tenant: nat)
    requires e.t.f.Group? && e.t.f.e.t.And? && e.t.f.e.t.f == Atom(tenant) && v(tenant) != True
    ensures Selects(v, e) <==> exists d :: d in Further(e) && Selects(v, d)
  {
    var inner := e.t.f.e;
    FirstGroup(v, inner, tenant);
    RefirstMeans(v, e.t.f, e.t);
    if inner.Or? {
      var d := Just(Refirst(Group(inner.rest), e.t));
      RefirstMeans(v, Group(inner.rest), e.t);
      assert d in Further(e) && (Selects(v, d) <==> EvalTerm(v, e.t) == True);
    }
    if e.Or? { assert e.rest in Further(e); }
    assert Selects(v, e) <==> EvalTerm(v, e.t) == True || (e.Or? && Selects(v, e.rest));
  }

  /** The conditions that occur in a predicate. */
  function AtomsOfFactor(f: Factor): set<nat> {
    match f
    case Atom(id) => {id}
    case Not(g) => AtomsOfFactor(g)
    case Group(e) => Atoms(e)
  }

  function AtomsOfTerm(t: Term): set<nat> {
    match t
    case Only(f) => AtomsOfFactor(f)
    case And(f, rest) => AtomsOfFactor(f) + AtomsOfTerm(rest)
  }

  function Atoms(e: Expr): set<nat> {
    match e
    case Just(t) => AtomsOfTerm(t)
    case Or(t, rest) => AtomsOfTerm(t) + Atoms(rest)
  }

  /** On these conditions `w` says what `v` says, and decides more. */
  ghost predicate Decides(v: Row, w: Row, atoms: set<nat>) {
    forall id :: id in atoms && v(id) != Unknown ==> w(id) == v(id)
  }

  lemma {:induction false} FactorDecided(v: Row, w: Row, f: Factor)
    requires Decides(v, w, AtomsOfFactor(f))
    ensures EvalFactor(v, f) != Unknown ==> EvalFactor(w, f) == EvalFactor(v, f)
    decreases f
  {
    match f
    case Atom(_) =>
    case Not(g) => FactorDecided(v, w, g);
    case Group(e) => ExprDecided(v, w, e);
  }

  lemma {:induction false} TermDecided(v: Row, w: Row, t: Term)
    requires Decides(v, w, AtomsOfTerm(t))
    ensures EvalTerm(v, t) != Unknown ==> EvalTerm(w, t) == EvalTerm(v, t)
    decreases t
  {
    FactorDecided(v, w, t.f);
    if t.And? { TermDecided(v, w, t.rest); }
  }

  /** Deciding an unknown condition never changes a value that is known. */
  lemma {:induction false} ExprDecided(v: Row, w: Row, e: Expr)
    requires Decides(v, w, Atoms(e))
    ensures Eval(v, e) != Unknown ==> Eval(w, e) == Eval(v, e)
    decreases e
  {
    TermDecided(v, w, e.t);
    if e.Or? { ExprDecided(v, w, e.rest); }
  }

  /** The row on which exactly these conditions are true and all others false. */
  function RowWith(chosen: set<nat>): Row { id => if id in chosen then True else False }

  /** Some choice among its own conditions, the tenant's left out, makes the predicate true. */
  ghost predicate HoldsElsewhere(tenant: nat, d: Expr) {
    exists chosen: set<nat> :: chosen <= Atoms(d) - {tenant} && Selects(RowWith(chosen), d)
  }

  /** Of all rows those of the finitely many choices suffice. */
  lemma HoldsElsewhereMeans(tenant: nat, d: Expr)
    ensures HoldsElsewhere(tenant, d) <==> exists v: Row :: v(tenant) != True && Selects(v, d)
  {
    if v: Row :| v(tenant) != True && Selects(v, d) {
      var chosen := set id | id in Atoms(d) && v(id) == True;
      ExprDecided(v, RowWith(chosen), d);
      assert chosen <= Atoms(d) - {tenant};
    }
    if chosen: set<nat> :| chosen <= Atoms(d) - {tenant} && Selects(RowWith(chosen), d) {
      assert RowWith(chosen)(tenant) != True;
    }
  }

  /**
   * Exactly when a text escapes, that is, when its scope keeps some row on which the tenant condition
   * is not true: when the whole text reads, and one of its further disjuncts is true for some choice
   * of its conditions other than the tenant's. For each row: exactly where a further disjunct is true.
   */
  lemma EscapesExactly(tenant: nat, extra: seq<Token>)
    ensures (exists v: Row :: Escapes(tenant, extra, v)) <==>
      && Read(TenantScope(tenant, Some(extra))).Some?
      && exists d :: d in Further(Read(TenantScope(tenant, Some(extra))).value) && HoldsElsewhere(tenant, d)
  {
    var read := Read(TenantScope(tenant, Some(extra)));
    if read.Some? {
      ScopeShape(tenant, extra);
      if v: Row :| Escapes(tenant, extra, v) {
        FurtherDecide(v, read.value, tenant);
        var d :| d in Further(read.value) && Selects(v, d);
        HoldsElsewhereMeans(tenant, d);
      }
      if d :| d in Further(read.value) && HoldsElsewhere(tenant, d) {
        HoldsElsewhereMeans(tenant, d);
        var v: Row :| v(tenant) != True && Selects(v, d);
        FurtherDecide(v, read.value, tenant);
        assert Escapes(tenant, extra, v);
      }
    }
  }

  /** A fragment that is not a predicate by itself, `a) or (b`, escapes wherever `b` is true. */
  lemma UnbalancedFragmentEscapes(tenant: nat, a: nat, b: nat, v: Row)
    requires v(b) == True && v(tenant) != True
    ensures Read([Cond(a), Close, OR, Open, Cond(b)]).None? && Escapes(tenant, [Cond(a), Close, OR, Open, Cond(b)], v)
  {
    var extra := [Cond(a), Close, OR, Open, Cond(b)];
    NoPredicate(a, extra);
    var first := And(Atom(tenant), Only(Group(Just(Only(Atom(a))))));
    var last := Grouped(Just(Only(Atom(b))));
    var e := Grouped(Or(first, last));
    FragmentReads(tenant, a, b, v);
    assert Further(e)[0] == Grouped(last) && Grouped(last) in Further(e);
    GroupedMeans(v, Just(Only(Atom(b))));
    GroupedMeans(v, last);
    Alone(v, b);
    ScopeShape(tenant, extra);
    FurtherDecide(v, e, tenant);
  }

  lemma FragmentReads(tenant: nat, a: nat, b: nat, v: Row)
    ensures Read(TenantScope(tenant, Some([Cond(a), Close, OR, Open, Cond(b)]))) ==
            Some(Grouped(Or(And(Atom(tenant), Only(Group(Just(Only(Atom(a)))))), Grouped(Just(Only(Atom(b)))))))
  {
    var first := And(Atom(tenant), Only(Group(Just(Only(Atom(a))))));
    var last := Grouped(Just(Only(Atom(b))));
    Alone(v, a);
    Alone(v, b);
    TenantAnd(v, tenant, Only(Group(Just(Only(Atom(a))))));
    GroupedPrints(Just(Only(Atom(a))));
    GroupedPrints(Just(Only(Atom(b))));
    GroupedPrints(Or(first, last));
    assert Print(Or(first, last)) == PrintTerm(first) + [OR] + Print(last);
    var text := TenantScope(tenant, Some([Cond(a), Close, OR, Open, Cond(b)]));
    assert text == Print(Grouped(Or(first, last)));
    ReadInvertsPrint(text, Grouped(Or(first, last)));
  }

  /** A text whose first condition is followed by a closing parenthesis is no predicate. */
  lemma NoPredicate(a: nat, ts: seq<Token>)
    requires |ts| > 1 && ts[0] == Cond(a) && ts[1] == Close
    ensures Read(ts).None?
  {
    assert ts[1..][0] == Close;
    assert ParseFactor(ts) == Some((Atom(a), ts[1..]));
    assert ParseTerm(ts) == Some((Only(Atom(a)), ts[1..]));
  }

  /** Nor is `a) and (b`, yet it reads and never escapes: it has no further disjunct. */
  lemma UnbalancedFragmentStays(tenant: nat, a: nat, b: nat, v: Row)
    ensures Read([Cond(a), Close, AND, Open, Cond(b)]).None?
    ensures Read(TenantScope(tenant, Some([Cond(a), Close, AND, Open, Cond(b)]))).Some?
    ensures !Escapes(tenant, [Cond(a), Close, AND, Open, Cond(b)], v)
  {
    var extra := [Cond(a), Close, AND, Open, Cond(b)];
    NoPredicate(a, extra);
    var more := And(Group(Just(Only(Atom(a)))), Only(Group(Just(Only(Atom(b))))));
    var e := Grouped(Just(And(Atom(tenant), more)));
    Alone(v, a);
    Alone(v, b);
    GroupedPrints(Just(Only(Atom(a))));
    GroupedPrints(Just(Only(Atom(b))));
    TenantAnd(v, tenant, more);
    GroupedPrints(Just(And(Atom(tenant), more)));
    assert PrintTerm(more) == [Open] + [Cond(a)] + [Close] + [AND] + ([Open] + [Cond(b)] + [Close]);
    var text := TenantScope(tenant, Some(extra));
    assert text == Print(e);
    ReadInvertsPrint(text, e);
    assert Further(e) == [];
    if v(tenant) != True { FurtherDecide(v, e, tenant); }
  }

  // A check on the text alone: only one that closes a parenthesis it did not open can escape.

  /** Parentheses opened and not closed. */
  function Depth(ts: seq<Token>): int {
    if ts == [] then 0
    else (match ts[0] case Open => 1 case Close => -1 case _ => 0) + Depth(ts[1..])
  }

  predicate NeverBelow(ts: seq<Token>) { forall i :: 0 <= i <= |ts| ==> Depth(ts[..i]) >= 0 }

  lemma {:induction false} DepthAppend(a: seq<Token>, b: seq<Token>)
    ensures Depth(a + b) == Depth(a) + Depth(b)
  {
    if a == [] {
      assert a + b == b;
    } else {
      assert (a + b)[1..] == a[1..] + b;
      DepthAppend(a[1..], b);
    }
  }

  predicate Balanced(ts: seq<Token>) { Depth(ts) == 0 && NeverBelow(ts) }

  lemma BalancedJoin(a: seq<Token>, b: seq<Token>)
    requires Balanced(a) && Balanced(b)
    ensures Balanced(a + b)
  {
    DepthAppend(a, b);
    forall i | 0 <= i <= |a + b| ensures Depth((a + b)[..i]) >= 0 {
      if i <= |a| {
        assert (a + b)[..i] == a[..i];
      } else {
        assert (a + b)[..i] == a + b[..i - |a|];
        DepthAppend(a, b[..i - |a|]);
      }
    }
  }

  lemma OneToken(t: Token)
    ensures Depth([t]) == match t case Open => 1 case Close => -1 case _ => 0
    ensures t != Open && t != Close ==> Balanced([t])
  {
    assert [t][1..] == [];
    assert [t][..0] == [] && [t][..1] == [t];
  }

  lemma BalancedWrap(a: seq<Token>)
    requires Balanced(a)
    ensures Balanced([Open] + a + [Close])
  {
    var ts := [Open] + a + [Close];
    OneToken(Open);
    OneToken(Close);
    DepthAppend([Open] + a, [Close]);
    DepthAppend([Open], a);
    forall i | 0 <= i <= |ts| ensures Depth(ts[..i]) >= 0 {
      if 0 < i < |ts| {
        assert ts[..i] == [Open] + a[..i - 1];
        DepthAppend([Open], a[..i - 1]);
      } else if i == |ts| {
        assert ts[..i] == ts;
      } else {
        assert ts[..i] == [];
      }
    }
  }

  lemma {:induction false} FactorBalanced(f: Factor)
    ensures Balanced(PrintFactor(f))
    decreases f
  {
    match f
    case Atom(id) => OneToken(Cond(id));
    case Not(g) => OneToken(NOT); FactorBalanced(g); BalancedJoin([NOT], PrintFactor(g));
    case Group(e) => ExprBalanced(e); BalancedWrap(Print(e));
  }

  lemma {:induction false} TermBalanced(t: Term)
    ensures Balanced(PrintTerm(t))
    decreases t
  {
    FactorBalanced(t.f);
    if t.And? {
      OneToken(AND);
      TermBalanced(t.rest);
      BalancedJoin(PrintFactor(t.f), [AND]);
      BalancedJoin(PrintFactor(t.f) + [AND], PrintTerm(t.rest));
    }
  }

  lemma {:induction false} ExprBalanced(e: Expr)
    ensures Balanced(Print(e))
    decreases e
  {
    TermBalanced(e.t);
    if e.Or? {
      OneToken(OR);
      ExprBalanced(e.rest);
      BalancedJoin(PrintTerm(e.t), [OR]);
      BalancedJoin(PrintTerm(e.t) + [OR], Print(e.rest));
    }
  }

  /** What stands behind the AND is read as a group; what is left of the text after it is `rest`. */
  lemma SecondGroup(tenant: nat, extra: seq<Token>) returns (e: Expr, rest: seq<Token>)
    requires Read(TenantScope(tenant, Some(extra))).Some?
    ensures extra + [Close, Close] == Print(e) + [Close] + rest
  {
    ScopeShape(tenant, extra);
    var behind := [Open] + extra + [Close, Close];
    ReadGroup(behind);
    FactorPrintsBack(behind);
    var (f, left) := ParseFactor(behind).value;
    e, rest := f.e, left;
    assert behind[1..] == extra + [Close, Close];
    assert (PrintFactor(f) + rest)[1..] == Print(e) + [Close] + rest;
  }

  /** A text that never closes a parenthesis it did not open cannot escape. */
  lemma EscapingTextsDip(tenant: nat, extra: seq<Token>, v: Row)
    requires Escapes(tenant, extra, v)
    ensures !NeverBelow(extra)
  {
    if NeverBelow(extra) {
      DepthOfExtra(tenant, extra);
      var e, rest := SecondGroup(tenant, extra);
      var p := Print(e);
      ExprBalanced(e);
      if |p| < |extra| {
        assert (extra + [Close, Close])[..|p| + 1] == extra[..|p| + 1];
        assert (p + [Close] + rest)[..|p| + 1] == p + [Close];
        DepthAppend(p, [Close]);
        OneToken(Close);
      } else if |p| == |extra| {
        assert (extra + [Close, Close])[..|p|] == extra;
        assert (p + [Close] + rest)[..|p|] == p;
        ReadInvertsPrint(extra, e);
        ScopeSelectsTenantRows(tenant, Some(extra), v);
      } else {
        assert (extra + [Close, Close])[..|extra| + 1] == extra + [Close];
        assert (p + [Close] + rest)[..|extra| + 1] == p;
        DepthAppend(extra, [Close]);
        OneToken(Close);
      }
    }
  }

  /** In a text that reads, the extra part closes as many parentheses as it opens. */
  lemma DepthOfExtra(tenant: nat, extra: seq<Token>)
    requires Read(TenantScope(tenant, Some(extra))).Some?
    ensures Depth(extra) == 0
  {
    var ts := TenantScope(tenant, Some(extra));
    var e := Read(ts).value;
    ReadInvertsPrint(ts, e);
    ExprBalanced(e);
    var before := [Open] + [Cond(tenant)] + [AND] + [Open];
    assert ts == before + extra + [Close] + [Close];
    OneToken(Open);
    OneToken(Close);
    OneToken(AND);
    OneToken(Cond(tenant));
    DepthAppend([Open], [Cond(tenant)]);
    DepthAppend([Open] + [Cond(tenant)], [AND]);
    DepthAppend([Open] + [Cond(tenant)] + [AND], [Open]);
    DepthAppend(before, extra);
    DepthAppend(before + extra, [Close]);
    DepthAppend(before + extra + [Close], [Close]);
  }

  // ---------------------------------------------------------------------------------------------
  // Without the inner parentheses
  // ---------------------------------------------------------------------------------------------

  function Unparenthesized(tenant: nat, extra: seq<Token>): seq<Token> { DrizzleAnd([Cond(tenant)], extra) }

  /** Some term after the first is true. */
  predicate RestTrue(v: Row, e: Expr) { e.Or? && Selects(v, e.rest) }

  /**
   * Without them the tenant condition binds to the first term only: a row is selected in addition,
   * across the tenant boundary, exactly when the remaining terms are true and the tenant condition is
   * not; and no row is lost.
   */
  lemma WithoutParenthesesItLeaks(tenant: nat, extra: seq<Token>, v: Row)
    requires Read(extra).Some?
    ensures Read(Unparenthesized(tenant, extra)).Some?
    ensures var e, leaky := Read(extra).value, Read(Unparenthesized(tenant, extra)).value;
            && (Selects(v, leaky) && !(v(tenant) == True && Selects(v, e)) <==> v(tenant) != True && RestTrue(v, e))
            && (v(tenant) == True && Selects(v, e) ==> Selects(v, leaky))
  {
    var e := Read(extra).value;
    ReadInvertsPrint(extra, e);
    var first := And(Atom(tenant), e.t);
    var inner := if e.Just? then Just(first) else Or(first, e.rest);
    TenantAnd(v, tenant, e.t);
    GroupedPrints(inner);
    assert Print(inner) == [Cond(tenant)] + [AND] + Print(e);
    assert Print(Grouped(inner)) == Unparenthesized(tenant, extra);
    ReadInvertsPrint(Unparenthesized(tenant, extra), Grouped(inner));
    GroupedMeans(v, inner);
  }

  /** The example beside the code: `id = x or tenant_id != t` would return every other tenant's rows. */
  lemma LeakExample(tenant: nat, id: nat, other: nat, v: Row)
    requires v(tenant) == False && v(other) == True
    ensures var extra := [Cond(id), OR, Cond(other)];
            Read(Unparenthesized(tenant, extra)).Some? && Selects(v, Read(Unparenthesized(tenant, extra)).value)
  {
    var extra := [Cond(id), OR, Cond(other)];
    Alone(v, id);
    Alone(v, other);
    assert Print(Or(Only(Atom(id)), Just(Only(Atom(other))))) == extra;
    ReadInvertsPrint(extra, Or(Only(Atom(id)), Just(Only(Atom(other)))));
    WithoutParenthesesItLeaks(tenant, extra, v);
  }
}
