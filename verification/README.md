# conch-parser AST builder, modelled in Dafny

This project models the tree-construction layer of conch-parser's POSIX shell
parser (`src/syntax/ast/builder.rs`). The parser reduces grammar productions
bottom-up. For each one it calls a builder method and passes in the child
nodes it got from earlier calls. The default `CommandBuilder` methods turn
those arguments into `Command` nodes, and the blanket `Builder` impl forwards
the general builder interface to them.

The default builder has no state: `DefaultBuilder` is a unit struct, and no
default method reads or writes `self`. So every method is modelled as a pure
function. Its normalisation rules:

- a command ended by `&` is wrapped in `Job`; every other separator leaves it unchanged;
- `&&` and `||` become the binary nodes `And` and `Or`;
- a pipeline becomes a `Pipe` only when it is negated or has more than one stage;
  otherwise the builder returns the single stage's own node;
- simple commands become `Simple` nodes, and compound commands become
  `Compound` nodes that carry the group-level redirects;
- all comment trivia is thrown away, and no method ever fails.

Modules:

- `Wrappers`: `Option` and `Result`.
- `Ast`: the node datatypes. It also defines `WellFormed`, the pipeline
  invariant: no `Pipe` has zero stages, or one un-negated stage.
  Words, redirects and newline/comment trivia are the type parameters `W`,
  `R` and `N`. The `ast` module that defines them is not part of this model.
- `BuilderKinds`: `SeparatorKind`, `AndOrKind`, `LoopKind` and `DummyError`.
- `Shapes`: `ShapeOf` reads a node back into the production that made it,
  with that production's trivia-free inputs. The builder's contracts are
  stated against this inverse.
- `CommandBuilder`: the default methods.
- `Builder`: the forwarding impl.
- `BuilderProperties`: facts that relate several calls. Comments never matter.
  Building from a valid shape gives a canonical node, reading it back gives
  the shape again, and every canonical node is built from the shape it
  records: building is a bijection between valid shapes and canonical nodes.
  A production can still return a node another call built (a single
  un-negated stage, or a command ended by `;`, is returned as it is).
- `Reductions`: a whole parse as a tree of builder calls, evaluated bottom-up.
  Two facts hold for every such tree: it satisfies the pipeline invariant,
  and removing every comment from the parse does not change the result.

Modelling choices:

- In the tree, `if` branches are `GuardBodyPair`, `case` arms are
  `PatternBodyPair`, and the `else` part is `ElsePart`. These are named
  datatypes, not tuples or `Option`, because Dafny's termination check cannot
  see through generic containers. The builder still takes the source's tuple
  and `Option` arguments, and `Ast.ToGuardBodyPairs` / `Ast.FromGuardBodyPairs`
  convert between the two forms, proved to be inverses.
- `pipeline` requires at least one stage. This is the source's
  `debug_assert` at line 297: with no stage and no `!`, `pop().unwrap()`
  would panic.
- The doc comment of `pipeline` (lines 290-291) says it returns "a
  `Command::Simple` node" for a single un-negated stage. The code returns the
  stage's own node, whatever kind it is. The model follows the code.

## Model

| member | source | states |
|---|---|---|
| CommandBuilder.CompleteCommand | src/syntax/ast/builder.rs:259-274 | never fails; with `&` the node reads back as a job around exactly `cmd`; with `;`, a newline or `Other` the result is `cmd` itself; keeps the pipeline invariant |
| CommandBuilder.AndOr | src/syntax/ast/builder.rs:276-288 | never fails; the node reads back as the given operands, in order, joined by the given operator; keeps the pipeline invariant |
| CommandBuilder.StageCommands | src/syntax/ast/builder.rs:298 | the stage commands without their trivia: same count, same order, element `i` is stage `i`'s command |
| CommandBuilder.Pipeline | src/syntax/ast/builder.rs:290-309 | never fails; when negated or multi-stage the node reads back as a pipeline of exactly the stage commands with the given `bang`; otherwise the result is the sole stage's command; keeps the pipeline invariant |
| CommandBuilder.SimpleCommand | src/syntax/ast/builder.rs:311-329 | never fails; the node reads back as a simple command with exactly the given name (absent included), assignments, arguments and redirects |
| CommandBuilder.BraceGroup | src/syntax/ast/builder.rs:331-340 | never fails; reads back as a brace group of exactly `cmds` with the redirects on the group |
| CommandBuilder.Subshell | src/syntax/ast/builder.rs:342-351 | never fails; reads back as a subshell of exactly `cmds` with the redirects on the group |
| CommandBuilder.LoopCommand | src/syntax/ast/builder.rs:353-371 | never fails; reads back as a loop of the given kind (`while` or `until`) with the guard, body and redirects unchanged |
| CommandBuilder.IfCommand | src/syntax/ast/builder.rs:373-389 | never fails; reads back as exactly the given branches (count, order, guards, bodies), the given else part and the redirects |
| CommandBuilder.ForCommand | src/syntax/ast/builder.rs:391-405 | never fails; reads back as the variable, the word list (an absent list stays absent), the body and the redirects; the comments play no part |
| CommandBuilder.CaseArms | src/syntax/ast/builder.rs:416-420 | one arm per branch, in order, each keeping its pattern list and body and dropping the surrounding comments |
| CommandBuilder.CaseCommand | src/syntax/ast/builder.rs:407-424 | never fails; reads back as the scrutinee word, one arm per branch in order with its patterns and body, and the redirects |
| CommandBuilder.FunctionDeclaration | src/syntax/ast/builder.rs:426-433 | never fails; reads back as a function of the given name and body |
| CommandBuilder.Comments | src/syntax/ast/builder.rs:435-441 | succeeds for any comments |
| Builder.CompleteCommand | src/syntax/ast/builder.rs:448-456 | the blanket impl returns the default method's result for the same arguments |
| Builder.AndOr | src/syntax/ast/builder.rs:458-466 | forwards to the default `and_or` |
| Builder.Pipeline | src/syntax/ast/builder.rs:468-474 | forwards to the default `pipeline` |
| Builder.SimpleCommand | src/syntax/ast/builder.rs:476-484 | forwards to the default `simple_command` |
| Builder.BraceGroup | src/syntax/ast/builder.rs:486-492 | forwards to the default `brace_group` |
| Builder.Subshell | src/syntax/ast/builder.rs:494-500 | forwards to the default `subshell` |
| Builder.LoopCommand | src/syntax/ast/builder.rs:502-510 | forwards to the default `loop_command` |
| Builder.IfCommand | src/syntax/ast/builder.rs:512-519 | forwards to the default `if_command` |
| Builder.ForCommand | src/syntax/ast/builder.rs:521-531 | forwards to the default `for_command` |
| Builder.CaseCommand | src/syntax/ast/builder.rs:533-542 | forwards to the default `case_command` |
| Builder.FunctionDeclaration | src/syntax/ast/builder.rs:544-550 | forwards to the default `function_declaration` |
| Builder.Comments | src/syntax/ast/builder.rs:552-557 | forwards to the default `comments` |
| BuilderProperties.CompleteCommandJobExactly | src/syntax/ast/builder.rs:268-273 | the result is `Job(cmd)` if and only if the separator is `&` |
| BuilderProperties.CompleteCommandIgnoresComments | src/syntax/ast/builder.rs:261-273 | the comments before and after the command never change the result, and a newline separator (whatever it holds) acts like `;` |
| BuilderProperties.AndOrIgnoresComments | src/syntax/ast/builder.rs:277-287 | the comments after the AND or OR operator never change the result, and `And` and `Or` over the same operands give different nodes |
| BuilderProperties.PipelineWrapsExactly | src/syntax/ast/builder.rs:300-308 | the result is `Pipe(bang, stage commands)` if and only if the pipeline is negated or has more than one stage |
| BuilderProperties.PipelineNeverSingleUnnegated | src/syntax/ast/builder.rs:300-308 | from well-formed stages, any `Pipe` the builder returns has at least one stage, and a single stage only when negated |
| BuilderProperties.PipelineIgnoresComments | src/syntax/ast/builder.rs:292-298 | two pipelines with the same stage commands give the same node, whatever comments follow each pipe symbol |
| BuilderProperties.ForCommandIgnoresComments | src/syntax/ast/builder.rs:392-404 | the comments after the variable and after the word list never change the result |
| BuilderProperties.CaseCommandIgnoresComments | src/syntax/ast/builder.rs:408-423 | arms with the same patterns and bodies give the same node, whatever comments surround the patterns, follow the word or precede `esac` |
| BuilderProperties.CommentsIgnoresInput | src/syntax/ast/builder.rs:435-441 | `comments` gives the same result for any two inputs |
| BuilderProperties.ShapeOfRebuild | src/syntax/ast/builder.rs:259-433 | for every valid shape, the node the default methods build for it reads back as that same shape |
| BuilderProperties.RebuildCanonical | src/syntax/ast/builder.rs:259-433 | the node the default methods build for a valid shape is canonical |
| BuilderProperties.RebuildInjective | src/syntax/ast/builder.rs:259-433 | no two valid shapes give the same node |
| BuilderProperties.RebuildShapeOf | src/syntax/ast/builder.rs:259-433 | every canonical node is what the default methods build for the shape it records |
| Reductions.EvalWellFormed | src/syntax/ast/builder.rs:259-441 | any tree the parser gets by calling the default methods bottom-up keeps the pipeline invariant at every node |
| Reductions.EvalErase | src/syntax/ast/builder.rs:243-251 | removing every comment from a whole parse (and emptying every newline) leaves the returned tree unchanged |

## Left out

- `shrink_to_fit` calls: they only change `Vec` capacity, and Dafny sequences have no capacity.
- `DummyError`'s `Display` and `Error` impls, and the `Default` impl for `DefaultBuilder`: formatting and boilerplate with no behaviour to prove.
- The general `Builder` trait with an arbitrary `Output` and `Err`, and user implementations that override default methods or return errors: those live outside this file. Only the `Command`-producing default is modelled, so the error type is fixed to `DummyError`.
- `&mut self` receivers: the default builder has no state, so its methods are pure functions.
- The internals of `Word`, `Redirect` and `ast::Newline`, and lexing and expansion: these stay opaque type parameters.
- A release build calling `pipeline` with `!` and no stages would produce `Pipe(true, [])`, because the `debug_assert` is compiled out. The model requires at least one stage, as the debug build does.
