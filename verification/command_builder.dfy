/** The default methods of the `CommandBuilder` trait: how the default
    builder turns each grammar production, given the child nodes it built
    earlier, into a `Command` node. The default builder holds no state, so
    each method is a pure function of its arguments; every comment argument
    (of the opaque trivia type `N`) is discarded, and no method fails. */
module CommandBuilder {
  import opened Wrappers
  import opened Ast
  import opened Shapes
  import opened BuilderKinds

  /** A command delimited by `;`, `&`, a newline or the end of input: a `Job`
      when it ends in `&`, the command itself otherwise. */
  function CompleteCommand<W, R, N>(preCmdComments: seq<N>, cmd: Command<W, R>,
                                    separator: SeparatorKind<N>, postCmdComments: seq<N>)
    : (r: Result<Command<W, R>, DummyError>)
    ensures r.Ok?
    ensures separator.Amp? ==> ShapeOf(r.value) == AsyncOf(cmd)
    ensures !separator.Amp? ==> r.value == cmd
    ensures WellFormed(cmd) ==> WellFormed(r.value)
  {
    match separator
    case Semi | Other | Newline(_) => Ok(cmd)
    case Amp => Ok(Job(cmd))
  }

  /** Two pipelines joined by `&&` or `||`. */
  function AndOr<W, R, N>(first: Command<W, R>, kind: AndOrKind,
                          postSeparatorComments: seq<N>, second: Command<W, R>)
    : (r: Result<Command<W, R>, DummyError>)
    ensures r.Ok?
    ensures ShapeOf(r.value) == AndOrOf(first, kind, second)
    ensures WellFormed(first) && WellFormed(second) ==> WellFormed(r.value)
  {
    match kind
    case And => Ok(Command.And(first, second))
    case Or => Ok(Command.Or(first, second))
  }

  /** The commands of a pipeline's stages, in order, without the comments
      read after each `|`. */
  function StageCommands<W, R, N>(cmds: seq<(seq<N>, Command<W, R>)>): (r: seq<Command<W, R>>)
    ensures |r| == |cmds|
    ensures forall i :: 0 <= i < |cmds| ==> r[i] == cmds[i].1
  {
    if |cmds| == 0 then [] else [cmds[0].1] + StageCommands(cmds[1..])
  }

  /** One or more commands joined by `|`, optionally led by `!`. A `Pipe`
      node is built only when it is needed: for inversion or for two or
      more stages. A single un-negated stage is the stage's own node. */
  function Pipeline<W, R, N>(bang: bool, cmds: seq<(seq<N>, Command<W, R>)>)
    : (r: Result<Command<W, R>, DummyError>)
    requires |cmds| > 0
    ensures r.Ok?
    ensures FreshPipe(bang, |cmds|) ==> ShapeOf(r.value) == PipelineOf(bang, StageCommands(cmds))
    ensures !FreshPipe(bang, |cmds|) ==> r.value == cmds[0].1
    ensures (forall i :: 0 <= i < |cmds| ==> WellFormed(cmds[i].1)) ==> WellFormed(r.value)
  {
    var stages := StageCommands(cmds);
    if bang || |stages| > 1 then Ok(Pipe(bang, stages))
    else Ok(stages[|stages| - 1])
  }

  /** A simple command, built even when the command name is absent. */
  function SimpleCommand<W, R>(envVars: seq<(string, Option<W>)>, cmd: Option<W>,
                               args: seq<W>, redirects: seq<R>)
    : (r: Result<Command<W, R>, DummyError>)
    ensures r.Ok?
    ensures ShapeOf(r.value) == SimpleOf(envVars, cmd, args, redirects)
    ensures WellFormed(r.value)
  {
    Ok(Simple(Ast.SimpleCommand(cmd, envVars, args, redirects)))
  }

  /** `{ cmds; }` with redirects applied to the whole group. */
  function BraceGroup<W, R>(cmds: seq<Command<W, R>>, redirects: seq<R>)
    : (r: Result<Command<W, R>, DummyError>)
    ensures r.Ok?
    ensures ShapeOf(r.value) == BraceOf(cmds, redirects)
    ensures AllWellFormed(cmds) ==> WellFormed(r.value)
  {
    Ok(Compound(Brace(cmds), redirects))
  }

  /** `( cmds )` with redirects applied to the whole group. */
  function Subshell<W, R>(cmds: seq<Command<W, R>>, redirects: seq<R>)
    : (r: Result<Command<W, R>, DummyError>)
    ensures r.Ok?
    ensures ShapeOf(r.value) == SubshellOf(cmds, redirects)
    ensures AllWellFormed(cmds) ==> WellFormed(r.value)
  {
    Ok(Compound(CompoundCommand.Subshell(cmds), redirects))
  }

  /** A `while` or `until` loop, with redirects applied to the whole loop. */
  function LoopCommand<W, R>(kind: LoopKind, guard: seq<Command<W, R>>,
                             body: seq<Command<W, R>>, redirects: seq<R>)
    : (r: Result<Command<W, R>, DummyError>)
    ensures r.Ok?
    ensures ShapeOf(r.value) == LoopOf(kind, guard, body, redirects)
    ensures AllWellFormed(guard) && AllWellFormed(body) ==> WellFormed(r.value)
  {
    var loopCmd := match kind
      case While => CompoundCommand.While(guard, body)
      case Until => CompoundCommand.Until(guard, body);
    Ok(Compound(loopCmd, redirects))
  }

  /** An `if` command, with redirects applied to the whole conditional. */
  function IfCommand<W, R>(branches: seq<(seq<Command<W, R>>, seq<Command<W, R>>)>,
                           elsePart: Option<seq<Command<W, R>>>, redirects: seq<R>)
    : (r: Result<Command<W, R>, DummyError>)
    ensures r.Ok?
    ensures ShapeOf(r.value) == IfOf(branches, elsePart, redirects)
    ensures (forall i :: 0 <= i < |branches| ==> AllWellFormed(branches[i].0) && AllWellFormed(branches[i].1))
            && (elsePart.Some? ==> AllWellFormed(elsePart.value))
            ==> WellFormed(r.value)
  {
    GuardBodyPairsRoundTrip(branches);
    IfBranchesWellFormed(branches);
    Ok(Compound(If(ToGuardBodyPairs(branches), ToElsePart(elsePart)), redirects))
  }

  lemma IfBranchesWellFormed<W, R>(branches: seq<(seq<Command<W, R>>, seq<Command<W, R>>)>)
    ensures (forall i :: 0 <= i < |branches| ==> AllWellFormed(branches[i].0) && AllWellFormed(branches[i].1))
            ==> forall i :: 0 <= i < |branches| ==> WellFormedPair(ToGuardBodyPairs(branches)[i])
  {
  }

  /** A `for` loop, with redirects applied to the whole loop. An absent word
      list stays absent: the loop then runs over the positional arguments. */
  function ForCommand<W, R, N>(name: string, postVarComments: seq<N>, inWords: Option<seq<W>>,
                               postWordComments: Option<seq<N>>, body: seq<Command<W, R>>,
                               redirects: seq<R>)
    : (r: Result<Command<W, R>, DummyError>)
    ensures r.Ok?
    ensures ShapeOf(r.value) == ForOf(name, inWords, body, redirects)
    ensures AllWellFormed(body) ==> WellFormed(r.value)
  {
    Ok(Compound(For(name, inWords, body), redirects))
  }

  /** The arms of a `case` command without the comments around each
      pattern list. */
  function CaseArms<W, R, N>(branches: seq<((seq<N>, seq<W>, seq<N>), seq<Command<W, R>>)>)
    : (r: seq<PatternBodyPair<W, R>>)
    ensures |r| == |branches|
    ensures forall i :: 0 <= i < |branches| ==>
              r[i].patterns == branches[i].0.1 && r[i].body == branches[i].1
  {
    if |branches| == 0 then []
    else [PatternBodyPair(branches[0].0.1, branches[0].1)] + CaseArms(branches[1..])
  }

  lemma CaseArmsWellFormed<W, R, N>(branches: seq<((seq<N>, seq<W>, seq<N>), seq<Command<W, R>>)>)
    ensures (forall i :: 0 <= i < |branches| ==> AllWellFormed(branches[i].1))
            ==> forall i :: 0 <= i < |branches| ==> WellFormedArm(CaseArms(branches)[i])
  {
  }

  /** A `case` command, with redirects applied to the whole block. */
  function CaseCommand<W, R, N>(word: W, postWordComments: seq<N>,
                                branches: seq<((seq<N>, seq<W>, seq<N>), seq<Command<W, R>>)>,
                                postBranchComments: seq<N>, redirects: seq<R>)
    : (r: Result<Command<W, R>, DummyError>)
    ensures r.Ok?
    ensures ShapeOf(r.value).CaseOf?
    ensures ShapeOf(r.value).word == word && ShapeOf(r.value).io == redirects
    ensures |ShapeOf(r.value).arms| == |branches|
    ensures forall i :: 0 <= i < |branches| ==>
              ShapeOf(r.value).arms[i] == (branches[i].0.1, branches[i].1)
    ensures (forall i :: 0 <= i < |branches| ==> AllWellFormed(branches[i].1)) ==> WellFormed(r.value)
  {
    CaseArmsWellFormed(branches);
    Ok(Compound(Case(word, CaseArms(branches)), redirects))
  }

  /** A function definition. */
  function FunctionDeclaration<W, R>(name: string, body: Command<W, R>)
    : (r: Result<Command<W, R>, DummyError>)
    ensures r.Ok?
    ensures ShapeOf(r.value) == FunctionOf(name, body)
    ensures WellFormed(body) ==> WellFormed(r.value)
  {
    Ok(Function(name, body))
  }

  /** Comments with no command after them: ignored. */
  function Comments<N>(comments: seq<N>): (r: Result<(), DummyError>)
    ensures r.Ok?
  {
    Ok(())
  }
}
