/** Search domains: the backend's predicate language. A domain is a list of
    terms, each a `(field, operator, value)` condition or a prefix boolean
    operator (`"&"`, `"|"` binary, `"!"` unary) in Polish notation; the
    expressions left at top level are combined by an implicit AND. */
module Domains {
  import opened Wrappers

  /** The JSON-like values that travel in domains and payloads. */
  datatype Value =
    | VInt(i: int)
    | VReal(r: real)
    | VStr(s: string)
    | VList(items: seq<Value>)
    | VDict(entries: map<string, Value>)

  /** `DomainCondition`: the operator is any string; the backend decides
      what it means. */
  datatype DomainCondition = DomainCondition(field: string, operator: string, value: Value)

  /** `SearchDomain`, whose `conditions` default to the empty list. */
  datatype SearchDomain = SearchDomain(conditions: seq<DomainCondition> := [])

  /** Reads a `[field, operator, value]` list back as a condition. */
  function FromTuple(t: seq<Value>): Option<DomainCondition> {
    if |t| == 3 && t[0].VStr? && t[1].VStr? then Some(DomainCondition(t[0].s, t[1].s, t[2]))
    else None
  }

  /** `DomainCondition.to_tuple`. */
  function ToTuple(c: DomainCondition): (t: seq<Value>)
    ensures |t| == 3
    ensures FromTuple(t) == Some(c)
  {
    [VStr(c.field), VStr(c.operator), c.value]
  }

  /** Lists of three that read back as a condition are exactly the tuples
      of conditions. */
  lemma TupleRoundTrip(t: seq<Value>, c: DomainCondition)
    ensures FromTuple(t) == Some(c) <==> t == ToTuple(c)
  {
  }

  /** `SearchDomain.to_domain_list`. */
  function ToDomainList(d: SearchDomain): (r: seq<seq<Value>>)
    ensures |r| == |d.conditions|
    ensures forall i :: 0 <= i < |r| ==> FromTuple(r[i]) == Some(d.conditions[i])
  {
    seq(|d.conditions|, i requires 0 <= i < |d.conditions| => ToTuple(d.conditions[i]))
  }

  /** A domain term: a prefix operator or a condition. */
  datatype Term = Operator(op: string) | Leaf(cond: DomainCondition)

  type Domain = seq<Term>

  function Cond(field: string, operator: string, value: Value): Term {
    Leaf(DomainCondition(field, operator, value))
  }

  /** The domain a list of conditions stands for, with no operators. */
  function Leaves(cs: seq<DomainCondition>): (d: Domain)
    ensures |d| == |cs|
    ensures forall i :: 0 <= i < |d| ==> d[i] == Leaf(cs[i])
  {
    seq(|cs|, i requires 0 <= i < |cs| => Leaf(cs[i]))
  }

  /** A domain's top-level expressions, as trees. */
  datatype Expr =
    | Atom(c: DomainCondition)
    | Both(left: Expr, right: Expr)
    | Either(left: Expr, right: Expr)
    | Negated(e: Expr)

  /** Reads one expression off the front of `d`; `None` when `d` is empty,
      an operator lacks operands, or an operator is unknown. */
  function ParseExpr(d: Domain): (r: Option<(Expr, Domain)>)
    ensures r.Some? ==> |r.value.1| < |d|
    decreases |d|
  {
    if |d| == 0 then None
    else match d[0]
      case Leaf(c) => Some((Atom(c), d[1..]))
      case Operator(op) =>
        if op == "!" then
          match ParseExpr(d[1..])
          case None => None
          case Some((e, rest)) => Some((Negated(e), rest))
        else if op == "&" || op == "|" then
          match ParseExpr(d[1..])
          case None => None
          case Some((a, rest)) =>
            match ParseExpr(rest)
            case None => None
            case Some((b, rest')) =>
              Some((if op == "&" then Both(a, b) else Either(a, b), rest'))
        else None
  }

  /** All top-level expressions of `d`, or `None` when `d` is malformed. */
  function ParseDomain(d: Domain): Option<seq<Expr>>
    decreases |d|
  {
    if |d| == 0 then Some([])
    else match ParseExpr(d)
      case None => None
      case Some((e, rest)) =>
        match ParseDomain(rest)
        case None => None
        case Some(es) => Some([e] + es)
  }

  function Eval(e: Expr, holds: DomainCondition -> bool): bool {
    match e
    case Atom(c) => holds(c)
    case Both(a, b) => Eval(a, holds) && Eval(b, holds)
    case Either(a, b) => Eval(a, holds) || Eval(b, holds)
    case Negated(a) => !Eval(a, holds)
  }

  function EvalAll(es: seq<Expr>, holds: DomainCondition -> bool): bool {
    if |es| == 0 then true else Eval(es[0], holds) && EvalAll(es[1..], holds)
  }

  /** Whether a record on which exactly the conditions `holds` accepts are
      true is selected by `d`; `None` when `d` is malformed. */
  function Selects(d: Domain, holds: DomainCondition -> bool): Option<bool> {
    match ParseDomain(d)
    case None => None
    case Some(es) => Some(EvalAll(es, holds))
  }

  predicate AllHold(cs: seq<DomainCondition>, holds: DomainCondition -> bool) {
    forall i :: 0 <= i < |cs| ==> holds(cs[i])
  }

  function Atoms(cs: seq<DomainCondition>): seq<Expr> {
    if |cs| == 0 then [] else [Atom(cs[0])] + Atoms(cs[1..])
  }

  /** A domain of bare conditions selects the records satisfying all of them:
      the conditions are implicitly ANDed. */
  lemma {:induction false} LeavesAreConjunction(cs: seq<DomainCondition>, holds: DomainCondition -> bool)
    ensures ParseDomain(Leaves(cs)) == Some(Atoms(cs))
    ensures Selects(Leaves(cs), holds) == Some(AllHold(cs, holds))
    decreases |cs|
  {
    if |cs| > 0 {
      LeavesAreConjunction(cs[1..], holds);
      assert Leaves(cs)[1..] == Leaves(cs[1..]);
      assert AllHold(cs, holds) == (holds(cs[0]) && AllHold(cs[1..], holds)) by {
        if holds(cs[0]) && AllHold(cs[1..], holds) {
          forall i | 0 <= i < |cs| ensures holds(cs[i]) {
            if i > 0 {
              assert cs[i] == cs[1..][i - 1];
            }
          }
        }
      }
    } else {
      assert Leaves(cs) == [];
    }
  }

  /** `["&", a, b] + rest` selects what `a`, `b` and every condition of
      `rest` select together. */
  lemma AndPairThenConjunction(a: DomainCondition, b: DomainCondition, rest: seq<DomainCondition>, holds: DomainCondition -> bool)
    ensures Selects([Operator("&"), Leaf(a), Leaf(b)] + Leaves(rest), holds)
            == Some(holds(a) && holds(b) && AllHold(rest, holds))
  {
    var d := [Operator("&"), Leaf(a), Leaf(b)] + Leaves(rest);
    assert d[1..][1..] == [Leaf(b)] + Leaves(rest);
    assert d[1..][1..][1..] == Leaves(rest);
    assert ParseExpr(d) == Some((Both(Atom(a), Atom(b)), Leaves(rest)));
    LeavesAreConjunction(rest, holds);
    var es := [Both(Atom(a), Atom(b))] + Atoms(rest);
    assert ParseDomain(d) == Some(es);
    assert es[1..] == Atoms(rest);
    assert Eval(Atom(a), holds) == holds(a);
    assert Eval(Atom(b), holds) == holds(b);
    assert Eval(es[0], holds) == (holds(a) && holds(b));
    assert EvalAll(es, holds) == (holds(a) && holds(b) && EvalAll(Atoms(rest), holds));
  }

  /** The default `SearchDomain` produces the empty domain, which selects
      every record. */
  lemma DefaultSearchDomainSelectsAll(holds: DomainCondition -> bool)
    ensures ToDomainList(SearchDomain()) == []
    ensures Selects(Leaves(SearchDomain().conditions), holds) == Some(true)
  {
    var cs := SearchDomain().conditions;
    assert cs == [];
    LeavesAreConjunction(cs, holds);
    assert AllHold(cs, holds);
  }
}
