/** Function bodies as the summary builder sees them: a tree of statements and expressions. */
module Syntax {

  import opened Options

  datatype Type = Arithmetic | Pointer(pointee: Type) | Array(element: Type) | Record

  /** The four library functions that are known by name. */
  datatype Name = Free | Malloc | Calloc | Realloc | Other(n: nat)

  /** Casts include the implicit ones: array decay, null-to-pointer, integer conversions. `Sum` is a
      `+` or `-`; `Operation` is any expression of no other form, `Branching` any of `if`, `switch`,
      `while`, `for` and `do`. A call without a direct callee has no name. */
  datatype Stmt =
    | Zero
    | Parameter(index: nat)
    | Variable(v: nat, ty: Type)
    | Cast(operand: Stmt, ty: Type)
    | Conditional(test: Stmt, yes: Stmt, no: Stmt)
    | Comma(left: Stmt, right: Stmt)
    | Sum(left: Stmt, right: Stmt, ty: Type)
    | Member(base: Stmt, arrow: bool, ty: Type)
    | Subscript(base: Stmt, index_: Stmt, ty: Type)
    | AddressOf(operand: Stmt)
    | Dereference(operand: Stmt, ty: Type)
    | Call(callee: Option<Name>, arguments: seq<Stmt>, ty: Type)
    | Assignment(left: Stmt, right: Stmt)
    | Operation(operands: seq<Stmt>, ty: Type)
    | Return(returned: Option<Stmt>)
    | Declaration(variables: seq<Declarator>)
    | Branching(parts: seq<Stmt>)
    | Compound(parts: seq<Stmt>)

  datatype Declarator = Declarator(v: nat, ty: Type, init: Option<Stmt>)

  datatype Local = Local(isStatic: bool, qualified: bool, init: Option<Stmt>)

  /** `locals` holds what a reference to a local variable can look up about its declaration;
      `qualified` means volatile or atomic. */
  datatype Function = Function(params: seq<Type>, locals: map<nat, Local>, body: Stmt)

  function Initializers(ds: seq<Declarator>): seq<Stmt> {
    if ds == [] then []
    else (if ds[0].init.Some? then [ds[0].init.value] else []) + Initializers(ds[1..])
  }

  lemma {:induction false} InitializersAreSmaller(ds: seq<Declarator>, c: Stmt)
    requires c in Initializers(ds)
    ensures exists k :: 0 <= k < |ds| && ds[k].init == Some(c)
  {
    if !(ds[0].init == Some(c)) {
      InitializersAreSmaller(ds[1..], c);
      var k :| 0 <= k < |ds| - 1 && ds[1..][k].init == Some(c);
      assert ds[k + 1].init == Some(c);
    }
  }

  function Children(s: Stmt): (r: seq<Stmt>)
    ensures forall c :: c in r ==> c < s
  {
    match s
    case Zero => []
    case Parameter(_) => []
    case Variable(_, _) => []
    case Cast(e, _) => [e]
    case Conditional(c, y, n) => [c, y, n]
    case Comma(l, r) => [l, r]
    case Sum(l, r, _) => [l, r]
    case Member(b, _, _) => [b]
    case Subscript(b, i, _) => [b, i]
    case AddressOf(e) => [e]
    case Dereference(e, _) => [e]
    case Call(_, args, _) => args
    case Assignment(l, r) => [l, r]
    case Operation(es, _) => es
    case Return(v) => if v.Some? then [v.value] else []
    case Declaration(ds) =>
      assert forall c :: c in Initializers(ds) ==> c < s by {
        forall c | c in Initializers(ds) ensures c < s { InitializersAreSmaller(ds, c); }
      }
      Initializers(ds)
    case Branching(ps) => ps
    case Compound(ps) => ps
  }

  /** Parentheses do not appear; casts of every kind are looked through. */
  function Strip(e: Stmt): (r: Stmt)
    ensures !r.Cast? && (r == e || r < e)
  {
    if e.Cast? then Strip(e.operand) else e
  }

  function TypeOf(f: Function, e: Stmt): Type {
    match e
    case Zero => Arithmetic
    case Parameter(i) => if i < |f.params| then f.params[i] else Arithmetic
    case Variable(_, t) => t
    case Cast(_, t) => t
    case Conditional(_, y, _) => TypeOf(f, y)
    case Comma(_, r) => TypeOf(f, r)
    case Sum(_, _, t) => t
    case Member(_, _, t) => t
    case Subscript(_, _, t) => t
    case AddressOf(x) => Pointer(TypeOf(f, x))
    case Dereference(_, t) => t
    case Call(_, _, t) => t
    case Assignment(l, _) => TypeOf(f, l)
    case Operation(_, t) => t
    case _ => Arithmetic
  }

  /** The parameter that the expression is a plain reference to. */
  function ParameterIndex(f: Function, e: Stmt): Option<nat> {
    var r := Strip(e);
    if r.Parameter? && r.index < |f.params| then Some(r.index) else None
  }

  /** Some subexpression is a reference to parameter `i`. */
  predicate ContainsParameter(f: Function, e: Stmt, i: nat) {
    ParameterIndex(f, e) == Some(i) || exists c :: c in Children(e) && ContainsParameter(f, c, i)
  }

  predicate AssignsParameter(f: Function, s: Stmt, i: nat) {
    || (s.Assignment? && Strip(s.left) == Parameter(i))
    || exists c :: c in Children(s) && AssignsParameter(f, c, i)
  }

  predicate AssignsVariable(s: Stmt, v: nat) {
    || (s.Assignment? && Strip(s.left).Variable? && Strip(s.left).v == v)
    || exists c :: c in Children(s) && AssignsVariable(c, v)
  }

  predicate TakesAddress(s: Stmt, v: nat) {
    || (s.AddressOf? && Strip(s.operand).Variable? && Strip(s.operand).v == v)
    || exists c :: c in Children(s) && TakesAddress(c, v)
  }

  predicate TakesParameter(s: Stmt, i: nat) {
    || (s.AddressOf? && Strip(s.operand) == Parameter(i))
    || exists c :: c in Children(s) && TakesParameter(c, i)
  }

  /** The storage that `e` designates is found through a pointer. */
  predicate ThroughPointer(e: Stmt) {
    match e
    case Dereference(_, _) => true
    case Subscript(_, _, _) => true
    case Member(base, arrow, _) => arrow || ThroughPointer(base)
    case Cast(x, _) => ThroughPointer(x)
    case _ => false
  }

  /** A store through a pointer, or a call, which may do one. */
  predicate StoresToMemory(node: Stmt) {
    (node.Assignment? && ThroughPointer(node.left)) || node.Call?
  }

  predicate StoresSomewhere(s: Stmt) {
    StoresToMemory(s) || exists c :: c in Children(s) && StoresSomewhere(c)
  }

  /** `node` is `s` or somewhere inside it. */
  ghost predicate Occurs(node: Stmt, s: Stmt)
    decreases s
  {
    node == s || exists c :: c in Children(s) && Occurs(node, c)
  }
}
