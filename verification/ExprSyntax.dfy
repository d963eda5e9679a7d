/** Precedence climbing over the expression tokens, and the printers it inverts. */
module ExprSyntax {
  import opened Wrappers

  datatype BinOp = OrOr | AndAnd | EqEq | Neq | Lt | Lte | Gt | Gte | Pipe | Plus | Minus | Star | Slash | Percent

  datatype UnOp = Negate | Bang

  /** Words that are values by themselves. */
  datatype Word = True | False | Nil | Init

  /** A fraction or an exponent keeps a number as its text. */
  datatype Expr =
    | Int(n: nat)
    | Flt(digits: string)
    | Constant(word: Word)
    | Str(s: string)
    | Name(s: string)
    | Unary(uop: UnOp, e: Expr)
    | Binary(op: BinOp, left: Expr, right: Expr)
    | Else(left: Expr, right: Expr)
    | Call(callee: Expr, args: seq<Expr>)
    | Dot(base: Expr, field: string)
    | Index(base: Expr, index: Expr)

  datatype Token =
    | IntLit(n: nat) | FltLit(digits: string) | WordLit(word: Word) | StrLit(s: string) | Ident(s: string)
    | Op(op: BinOp) | BangTok | ElseTok | IsTok | Arrow
    | LParen | RParen | LBracket | RBracket | Comma | DotTok
    | Newline | Eof

  function Precedence(op: BinOp): nat
    ensures 1 <= Precedence(op) <= 6
  {
    match op
    case OrOr => 1
    case AndAnd => 2
    case EqEq => 3 case Neq => 3
    case Lt => 4 case Lte => 4 case Gt => 4 case Gte => 4
    case Pipe => 5 case Plus => 5 case Minus => 5
    case Star => 6 case Slash => 6 case Percent => 6
  }

  /** 0 for a token that is no binary operator. */
  function TokenPrecedence(t: Token): nat { if t.Op? then Precedence(t.op) else 0 }

  /** The value a token is by itself, with nothing read after it. */
  function AtomOf(t: Token): Option<Expr> {
    match t
    case IntLit(n) => Some(Int(n))
    case FltLit(digits) => Some(Flt(digits))
    case WordLit(word) => Some(Constant(word))
    case _ => None
  }

  predicate IsCheckOp(t: Token) { t.Op? && t.op in {Lt, Lte, Gt, Gte, EqEq, Neq} }

  datatype Parsed<+T> = Fail | Got(value: T, rest: seq<Token>)

  /** One turn of a loop that extends an expression. */
  datatype Turn = Stop | Error | Go(value: Expr, rest: seq<Token>)

  function AsTurn(p: Parsed<Expr>): Turn { if p.Fail? then Error else Go(p.value, p.rest) }
}
