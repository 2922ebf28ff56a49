/** Reading a node back: which builder production a node's outermost
    constructor records, and the trivia-free inputs it records. This is the
    inverse against which the default builder's contracts are stated. */
module Shapes {
  import opened Wrappers
  import opened Ast
  import BuilderKinds

  /** The inputs of a builder production that leaves its own node in the
      tree, with every comment argument dropped. */
  datatype Shape<W, R> =
    | AsyncOf(job: Command<W, R>)
    | AndOrOf(first: Command<W, R>, kind: BuilderKinds.AndOrKind, second: Command<W, R>)
    | PipelineOf(bang: bool, stages: seq<Command<W, R>>)
    | SimpleOf(vars: seq<(string, Option<W>)>, cmd: Option<W>, args: seq<W>, io: seq<R>)
    | BraceOf(cmds: seq<Command<W, R>>, io: seq<R>)
    | SubshellOf(cmds: seq<Command<W, R>>, io: seq<R>)
    | LoopOf(loopKind: BuilderKinds.LoopKind, guard: seq<Command<W, R>>, body: seq<Command<W, R>>, io: seq<R>)
    | IfOf(branches: seq<(seq<Command<W, R>>, seq<Command<W, R>>)>, elsePart: Option<seq<Command<W, R>>>, io: seq<R>)
    | ForOf(name: string, words: Option<seq<W>>, body: seq<Command<W, R>>, io: seq<R>)
    | CaseOf(word: W, arms: seq<(seq<W>, seq<Command<W, R>>)>, io: seq<R>)
    | FunctionOf(name: string, definition: Command<W, R>)

  /** A shape the builder can produce a node for: a pipeline shape has at
      least one stage, and a single stage only when negated (an un-negated
      single stage leaves no node of its own). */
  predicate ValidShape<W, R>(s: Shape<W, R>) {
    s.PipelineOf? ==> FreshPipe(s.bang, |s.stages|)
  }

  /** The production that made `c`, read off its outermost constructor. */
  function ShapeOf<W, R>(c: Command<W, R>): (s: Shape<W, R>)
    ensures Canonical(c) ==> ValidShape(s)
  {
    match c
    case Job(inner) => AsyncOf(inner)
    case And(a, b) => AndOrOf(a, BuilderKinds.And, b)
    case Or(a, b) => AndOrOf(a, BuilderKinds.Or, b)
    case Pipe(bang, stages) => PipelineOf(bang, stages)
    case Simple(sc) => SimpleOf(sc.vars, sc.cmd, sc.args, sc.io)
    case Compound(cc, io) =>
      (match cc
      case Brace(cmds) => BraceOf(cmds, io)
      case Subshell(cmds) => SubshellOf(cmds, io)
      case While(guard, body) => LoopOf(BuilderKinds.While, guard, body, io)
      case Until(guard, body) => LoopOf(BuilderKinds.Until, guard, body, io)
      case If(branches, elsePart) => IfOf(FromGuardBodyPairs(branches), FromElsePart(elsePart), io)
      case For(name, words, body) => ForOf(name, words, body, io)
      case Case(word, arms) => CaseOf(word, FromPatternBodyPairs(arms), io))
    case Function(name, definition) => FunctionOf(name, definition)
  }
}
