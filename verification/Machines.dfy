/** What the three program representations (syntax tree, block graph, sea of nodes) leave open:
    the arithmetic of machine words, which words count as true, and what an uninitialised
    variable holds. Every theorem is about every such machine. */
module Machines {
  datatype BinOp = Add | Sub | Mul | Div

  datatype Machine = Machine(
    apply: (BinOp, int, int) -> int,
    truthy: int -> bool,
    init: nat -> int)
}
