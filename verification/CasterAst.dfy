/** The statement and expression fragment of Caster whose heap values are strings,
    as the tree looks after analysis: every name carries the C variable it was
    resolved to and the type the analyzer gave it. */
module CasterAst {
  import opened Wrappers

  datatype Ty = STR | INT | BOL | NUL

  /** A C-level variable: a user local or parameter, the counter of a numbered loop,
      or the character copied out by a numbered text loop. */
  datatype Var = User(name: string) | LoopIndex(id: nat) | LoopChar(id: nat)

  /** A name as written. Analysis leaves it alone, or points it at the counter or the
      character of an enclosing loop, whatever the name's text is. */
  datatype NameRef = Plain(text: string) | Counter(text: string, id: nat) | Character(text: string, id: nat) {
    function Target(): Var {
      match this case Plain(x) => User(x) case Counter(_, n) => LoopIndex(n) case Character(_, n) => LoopChar(n)
    }
  }

  /** Binary operators by operand type: Join and Eq are `+` and `==` on STR. */
  datatype BinOp = Join | Eq | Plus | Minus | Less | Equal

  datatype Expr =
    | StrLit(s: string)
    | IntLit(n: int)
    | BolLit(b: bool)
    | Ref(name: NameRef, ty: Ty)
    | Binary(op: BinOp, left: Expr, right: Expr)
    | CharAt(text: Expr, index: Expr)
    | Len(text: Expr)
    | Not(e: Expr)
    | And(left: Expr, right: Expr)
    | Or(left: Expr, right: Expr)
    | Cond(ty: Ty, test: Expr, yes: Expr, no: Expr)
    | Call(fn: string, args: Args)

  datatype Args = NoArgs | Arg(head: Expr, tail: Args)

  datatype LoopKind = Count(n: Expr) | Range(from: Expr, to: Expr, step: Expr) | While(test: Expr) | Text(text: Expr)

  datatype Stmt =
    | Declare(ty: Ty, name: string, init: Expr)
    | Assign(target: NameRef, ty: Ty, value: Expr)
    | AddAssign(target: NameRef, ty: Ty, value: Expr)
    | Free(target: NameRef)
    | Ret(result: Option<Expr>)
    | Discard(e: Expr)
    | If(branches: Branches)
    | Loop(id: nat, kind: LoopKind, body: Block)
    | Pass

  datatype Block = End | Then(head: Stmt, tail: Block)

  /** `if` and its `elx` arms in order, then the optional `else`. */
  datatype Branches = NoElse | Else(otherwise: Block) | Arm(test: Expr, body: Block, rest: Branches)

  datatype Param = Param(name: string, ty: Ty)

  datatype Fn = Fn(params: seq<Param>, ret: Ty, body: Block)

  type Program = map<string, Fn>

  /** Nested C scopes, innermost first. */
  datatype Env<V> = Root(vars: map<Var, V>) | Inner(vars: map<Var, V>, outer: Env<V>)

  function Lookup<V>(env: Env<V>, x: Var): Option<V> {
    if x in env.vars then Some(env.vars[x])
    else if env.Inner? then Lookup(env.outer, x)
    else None
  }

  /** Declares x in the innermost scope. */
  function Put<V>(env: Env<V>, x: Var, v: V): Env<V> {
    if env.Root? then Root(env.vars[x := v]) else Inner(env.vars[x := v], env.outer)
  }

  /** Overwrites the innermost binding of x. */
  function Store<V>(env: Env<V>, x: Var, v: V): Env<V>
    requires Lookup(env, x).Some?
  {
    if x in env.vars then Put(env, x, v)
    else env.(outer := Store(env.outer, x, v))
  }

  function Bind<V>(params: seq<Param>, vals: seq<V>): map<Var, V>
    requires |params| == |vals|
  {
    if params == [] then map[]
    else Bind(params[1..], vals[1..])[User(params[0].name) := vals[0]]
  }

  /** How a run ends: with a value, by the program's own exit(1), by running out of the
      step budget, by passing the end of a function that should have returned a value, by an
      operation no checked program performs, or by touching a dead block. */
  datatype Out<+T> = Done(value: T) | Abort | OutOfFuel | FellOff | Wrong | Fault {
    predicate IsFailure() { !Done? }
    function PropagateFailure<U>(): Out<U>
      requires IsFailure()
    {
      match this case Abort => Abort case OutOfFuel => OutOfFuel case FellOff => FellOff case Wrong => Wrong case Fault => Fault
    }
    function Extract(): T
      requires !IsFailure()
    {
      value
    }
  }
}
