# Lousy: a verified model

Lousy is a small compiler. A pushdown parser turns tokens into an array of nodes in postfix order, a
checker with an explicit work stack turns that array into basic blocks, an analysis drops the blocks that are
never entered, a lowering turns the rest into a graph of nodes joined by control, memory and data edges, and an
optimizer rewrites that graph in place until nothing applies any more. This project models each stage in the
form the program gives it (classes whose methods update their fields, loops with their stacks) and proves that
the stages, put together, preserve the meaning of the program.

`Pipeline.Compile` is the whole chain, from the tokens to the optimized graph. Its contract says that there is no
result exactly if no program that respects the scopes and has no dead code begins the input, and that otherwise,
on every machine,

- the graph takes the branches the program takes, for every prefix of the program's run, finished or not;
- if the program ends, the graph ends with the same result, and the memory it shows holds the same variables;
- a run of the graph that follows its branch predicates shows nothing else, and ends in at most one way;
- nothing is left to simplify: phis and regions have inputs to choose from, loads do not read back what has just been stored, and no store is dead.

The layers below it:

- **Tokens to tree.** `Grammar` says which trees are programs and prints them. `ParseMachine` is the pushdown
  machine as a function, `Parser` the class that runs it over the node array.
- **Tree to blocks.** `TreeSemantics` gives trees their meaning, `Cfgs` gives blocks theirs. `CheckSpec` is the
  recursion the checker's work stack stands for, `Checker` the class with the stack.
- **Blocks to graph.** `Roles` names every node of the lowered graph after what it does in the block graph,
  `Lowering` is the class that builds it, and the `Lowered` modules are about the result.
- **Graph to graph.** `Graphs` defines runs of a graph: walks along control edges, with the values of phis set by
  the edge through which their region is entered. `Rewrites` holds the general theorem about replacing a node,
  and `Removal`, `Worklists`, `Walks`, `DeadStorePass` and `Optimizer` are the code that does it on linked nodes.

What machine words are is left open: every theorem is about every choice of arithmetic, of which words count as
true, and of what uninitialized variables hold.

## Model

| member | source | states |
|---|---|---|
| Pipeline.Compile | src/main.c:10-48 | No result exactly if no compilable program begins the input (one that respects the scopes and has nothing but the jumps of `if` and `while` in blocks never entered). Otherwise, on every machine: the graph shows the branches of every prefix of the program's run; when the program ends the graph shows the same result and a memory with the same variables; every run of the graph that follows its predicates shows a prefix of this or all of it; all its ended runs show the same. In the graph every phi and every region without phis has two different inputs (or only itself), no load reads back what the store before it wrote, and every store may be read. |
| ParseSound.ParseIff | src/front/parse.c:210-499 | The machine answers tree `t`, having read `j` tokens, if and only if `t` is a program and its text of `j` tokens begins the input. Which expressions a program holds is said by node kinds and written characters alone: `*` and `/` have no operator on the right and only `*` or `/` on the left, `+` and `-` only `*` or `/` on the right and no `=` on the left, `=` no `=` on the left. |
| ParseComplete.PrecedenceIff | src/front/parse.c:210-225 | For every tree: it obeys these rules of kinds if and only if its operands do and their roots bind as tightly as the precedence table, with its lowered level for `=`, asks for. |
| ParseSound.ParseFailsIff | src/front/parse.c:468-499 | Parsing fails if and only if the text of no program begins the input. |
| ParseSound.ProgramUnique | src/front/parse.c:210-225 | Two programs whose texts begin the same input are the same tree: the grammar with this precedence table is unambiguous. |
| ParseMachine.StepProgress | src/front/parse.c:327-377 | Every step of the machine takes tokens, or comes closer to a step that must, although some states push themselves again without reading: the parser terminates. |
| ParseMachine.RunFits | src/front/parse.c:468-499 | A run whose stack never asks for more trees than there are ends with an empty stack and exactly one tree. |
| Parser.Parser.HandleState | src/front/parse.c:263-466 | One step of the parser object does to its stack, node array and position what the machine's step does, and the array stays the postfix form of a forest. |
| Parser.ParseTokens | src/front/parse.c:468-499 | The array answered is the postfix form of the one tree the machine finds, and there is none when it finds none. |
| Syntax.ChildDecodes | src/front/parse.c:59-73 | From the root of a tree in the array, stepping back by subtree sizes reaches the root of each child, last child first. |
| Syntax.PostInjective | src/front/parse.c:75-94 | The postfix array determines the forest: two forests with the same array are equal. |
| CheckMeaning.ObeysAssignsOnTop | src/front/parse.c:210-225 | In every expression the parser produces, no assignment stands below an arithmetic operator. |
| CheckMeaning.ExprSim | src/front/check.c:202-279 | Running the code of an expression leaves its value in the place on top of the stack and the variables as the tree says, although variables are read late; if nothing is assigned no place in use changes. |
| CheckMeaning.WrittenMeans | src/front/check.c:224-238 | For every expression the parser produces: written with `+`, `-`, `*` or `/`, its value is that machine operation on the values of its operands, evaluated left to right, and no other character occurs but `=`. |
| CheckMeaning.WrittenEmits | src/front/check.c:202-238 | For every such expression that is accepted: the last instruction appended is the addition, subtraction, multiplication or division that is written, on the places its operands left on top, into the next place, which is then on top. |
| CheckMeaning.LiteralIs | src/front/check.c:189-200 | The value accumulated digit by digit is the sum of the digits times their powers of ten, modulo 2^64. |
| CheckMeaning.LateRead | src/front/check.c:344-355 | Without the precedences this fails: for every `x op (x = e)` the code computes `v op v` where the tree means `x op v`, with `v` the value of `e`. |
| Scoping.AcceptedIff | src/front/check.c:58-84 | The checker accepts a program if and only if names are used where visible, only names are assigned, no visible name is redeclared and no declaration has an initializer; names are compared as the whole text of their tokens. |
| CheckShape.StmtShape | src/front/check.c:281-489 | Every statement keeps the invariant of the checker: blocks made by it end in one jump to listed blocks, the block it leaves open has no jump, places and scopes grow and shrink as they should, and the place stack is as before. |
| CheckCfg.ProgramChecked | src/front/check.c:357-532 | Every accepted program gives blocks that end in exactly one jump (the last one: none), jump to listed blocks only, hold well-formed instructions, and from which there is a way to an exit. |
| CheckRuns.EndsHalts | src/front/check.c:369-489 | If the program ends, the run of its blocks ends with the same result and variables, having tested the same values in the same order. |
| CheckRuns.HaltsEnds | src/front/check.c:369-489 | If the run of the blocks ends after `n` steps, the program ends within fuel `n`, with the same result, variables and tests. |
| CheckRuns.TraceTests | src/front/check.c:369-489 | What the blocks test in any `n` steps, finished or not, is a prefix of what the program tests within fuel `n`. |
| TreeSemantics.RunningTests | src/front/check.c:421-461 | A program that runs out of fuel has tested more values than it had fuel, so its prefixes grow without bound. |
| Checker.CheckTree | src/front/check.c:491-532 | The work stack over the postfix array makes the blocks that the recursion over the tree makes, or fails when it fails. |
| Analysis.FindReachable | src/front/sem.c:96-118 | The set found is exactly the least set that holds the entry and is closed under successors, though blocks may be on the stack more than once. |
| Analysis.AnalyzeFunc | src/front/sem.c:96-143 | The list kept is the blocks the entry leads to, in their old order. The analysis succeeds if and only if no dropped block is flagged; where flags are right, if and only if every instruction of every dropped block is a goto or a branch. |
| Pipeline.DeadCode | src/front/check.c:137-163 | For every accepted program the flags are right: a block is flagged if and only if it holds an instruction other than goto and branch. So the analysis succeeds if and only if the blocks never entered hold gotos and branches only. |
| Analysis.PrunedGood | src/front/sem.c:120-143 | What is kept is a block graph that can be lowered: entered at the same block, closed under successors, every block reached, every block with a way out. |
| Lowering.LowerFunc | src/front/lower.c:95-191 | On every block graph that can be lowered, the nodes built are the graph of its roles cut down to what END depends on: inputs and uses mirror each other, END depends on every node, and every load and store hangs on the region of its block. |
| LoweredBlocks.LoweredInBlocks | src/front/lower.c:26-26 | On every lowered graph, said over the graph alone: for each load and store, following memory inputs back from it leads over stores to a phi, and its control input is the region of that phi. |
| LoweredStrict.LoweredWellFormed | src/front/lower.c:95-191 | The lowered graph is well formed: kinds, slots and memory edges fit, value edges are ranked apart from phis, every control node is reached and reaches END, and no value is used before the region of the phis it depends on is entered. |
| LoweredTheorem.LoweredMeans | src/front/lower.c:26-191 | Event by event: the runs of the lowered graph that follow their predicates show exactly the values the block graph tests, and at its end its result and the list of all writes it made. |
| LoweredTheorem.EndAgrees | src/front/lower.c:164-167 | The memory shown at the end holds, at the address of each place, what the block graph's store holds for it. |
| LoweredAnchored.LoweredIsAnchored | src/front/lower.c:171-185 | On every lowered graph memory leads to END through an escape, each memory node lies on the way, addresses are allocas, and the only data phi is the returned value. |
| Core.NewNode | src/spindle/core.c:227-249 | A new node has the next id, empty slots and no uses, and the graph built so far is extended by it. |
| Core.SetInput | src/spindle/core.c:251-265 | Filling a slot records the use, so that input slots and use lists stay exact mirrors. |
| Core.FinishFunc | src/spindle/core.c:95-119 | What is left mirrors inputs and uses exactly and is the part of the graph END depends on; START is always in it, so the failure for functions that never terminate cannot arise. |
| Walks.PostOrderWalk | src/spindle/core.c:54-93 | On every graph, cyclic ones included, the walk with the explicit stack lists the same nodes in the same order as the recursive depth-first walk, each node once, and exactly those of the least input-closed set with END. |
| PostOrder.InputsFirstIff | src/spindle/core.c:54-93 | In that list every node stands after all its inputs if and only if the nodes END depends on have a ranking along inputs, that is, no cycle. |
| Worklists.Worklist.Add | src/spindle/opt.c:12-21 | The packed and sparse arrays stay inverse, and the set they hold gains the node. |
| Worklists.Worklist.Remove | src/spindle/opt.c:23-38 | The last node takes the place of the one removed, the arrays stay inverse, and the set loses the node. |
| Worklists.Worklist.Pop | src/spindle/opt.c:40-44 | The last node is taken; the rest stays in order and the arrays stay inverse. |
| Removal.RemoveUse | src/spindle/opt.c:50-64 | Exactly one use goes, the others stay; with the use present the failing end of the loop is never reached. |
| Removal.RemoveNode | src/spindle/opt.c:66-88 | The cascade keeps the mirror, leaves a use for every live node but END, takes removed nodes off the worklist, and removes no node of any set with END in which each node is used within the set. |
| Removal.ReplaceNode | src/spindle/opt.c:96-115 | Every use of the target goes to the source, the target and what only it kept alive are removed, all invariants of the function hold again, and the users are on the worklist. |
| Rewrites.ReplaceSound | src/spindle/opt.c:96-115 | Replacing a data node by one with the same value wherever it is observed keeps well-formedness and every event of every run, as long as the value edges stay ranked. |
| PhiRewrite.PhiSound | src/spindle/opt.c:123-147 | Replacing a phi by its one common input keeps well-formedness and every event of every run of any well-formed graph, loops included. |
| Peephole.PeepSound | src/spindle/opt.c:123-194 | The same for each of the phi, region and load rules. |
| Optimizer.IdealizePhi | src/spindle/opt.c:123-147 | The rule's answer is the node itself exactly if the phi has two different values to choose from or only itself; otherwise every value it chooses from is the answer. The region is put on the worklist before it is known whether anything changes. |
| Optimizer.Peeps | src/spindle/opt.c:196-214 | The worklist loop terminates with an empty worklist and the behaviour kept; nodes outside the worklist stay unrewritable throughout. |
| DeadStorePass.MarkReads | src/spindle/opt.c:233-260 | The nodes marked are the least set with all readers of memory that is closed under memory inputs and phi inputs. |
| DeadStores.DropUnread | src/spindle/opt.c:262-276 | Dropping a store that was not marked keeps well-formedness and every event of every run, and the marking stays closed. |
| DeadStorePass.DeadStoreElim | src/spindle/opt.c:221-280 | The pass keeps the behaviour of every well-formed graph. Afterwards every store END depends on is one that a load or an escape of the graph before might read, said by node kinds. It does nothing, or makes the graph smaller and leaves something on the worklist; on graphs as lowering makes them it does nothing. |
| Fixpoint.AllMarked | src/spindle/opt.c:233-260 | In a graph whose memory leads to END through an escape, every closed marking holds every memory node. |
| Fixpoint.StableStep | src/spindle/opt.c:90-115 | A rewrite cannot make a node rewritable unless the node used the one replaced or is the region of the phi replaced. |
| Fixpoint.SettledIff | src/spindle/opt.c:123-194 | In every well-shaped graph whose value edges are ranked, no rule applies to a node if and only if: as a phi or as a region without phis it has two different inputs or only itself; as a load it does not follow a store to its own address. |
| Optimizer.Opt | src/spindle/opt.c:282-310 | The optimizer terminates and keeps every event of every run of every well-formed graph, and every store END depends on in the result may be read in the result, although one pass of dead-store elimination can make stores dead that it has marked. On lowered graphs it ends with every phi and region varied and no load after a store to its address; and a graph that was like that is left as it was, so a second run changes nothing. |

## Left out

- Reading files, printing trees, blocks and graphs, error messages: only whether a stage fails is modelled.
- The lexer: the input is a token sequence whose only end-of-file token is the last.
- Token positions and lengths: a token is its kind and text.
- Machine arithmetic: operations are uninterpreted functions of two words.
- Overflow of 32-bit ids and counts, and allocation failure.
- Arenas, growable vectors and bit sets: sequences and sets stand for them, so their storage and aliasing are not modelled.
- The linked list of blocks and pointers to blocks: blocks are numbered in the order they are made and the list is a sequence of numbers.
- The links of a use list: it is a sequence, with new uses at its front.
- Input slots are a sequence field of a node, reassigned slot by slot, not a separate array.
- The graph constructors that only the lowering calls with fixed kinds are one method for all kinds.
- Node numbers in arithmetic: C leaves open which operand of `sb_node_add(func, IN(0), IN(1))` (src/front/lower.c:32-45) is loaded first; the lowering here loads the first operand first. The graph is the same up to ids.
- Type names are kept in the tree but, as in the checker, never looked at.
- Optimizer.Opt: the claim that nothing is left to simplify is for graphs whose memory leads to END through an escape and whose nodes END all depends on, as lowering makes them; for other well-formed graphs there are the claims about behaviour and dead stores only.
