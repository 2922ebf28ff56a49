/** The blanket `Builder` implementation for every `CommandBuilder`: the
    general builder interface the grammar reader calls, with `Command` as its
    output. Each method hands its arguments, comments included, to the
    `CommandBuilder` method of the same name and returns that result. */
module Builder {
  import opened Wrappers
  import opened Ast
  import opened BuilderKinds
  import CommandBuilder

  function CompleteCommand<W, R, N>(preCmdComments: seq<N>, cmd: Command<W, R>,
                                    separator: SeparatorKind<N>, postCmdComments: seq<N>)
    : (r: Result<Command<W, R>, DummyError>)
    ensures r == CommandBuilder.CompleteCommand(preCmdComments, cmd, separator, postCmdComments)
  {
    CommandBuilder.CompleteCommand(preCmdComments, cmd, separator, postCmdComments)
  }

  function AndOr<W, R, N>(first: Command<W, R>, kind: AndOrKind,
                          postSeparatorComments: seq<N>, second: Command<W, R>)
    : (r: Result<Command<W, R>, DummyError>)
    ensures r == CommandBuilder.AndOr(first, kind, postSeparatorComments, second)
  {
    CommandBuilder.AndOr(first, kind, postSeparatorComments, second)
  }

  function Pipeline<W, R, N>(bang: bool, cmds: seq<(seq<N>, Command<W, R>)>)
    : (r: Result<Command<W, R>, DummyError>)
    requires |cmds| > 0
    ensures r == CommandBuilder.Pipeline(bang, cmds)
  {
    CommandBuilder.Pipeline(bang, cmds)
  }

  function SimpleCommand<W, R>(envVars: seq<(string, Option<W>)>, cmd: Option<W>,
                               args: seq<W>, redirects: seq<R>)
    : (r: Result<Command<W, R>, DummyError>)
    ensures r == CommandBuilder.SimpleCommand(envVars, cmd, args, redirects)
  {
    CommandBuilder.SimpleCommand(envVars, cmd, args, redirects)
  }

  function BraceGroup<W, R>(cmds: seq<Command<W, R>>, redirects: seq<R>)
    : (r: Result<Command<W, R>, DummyError>)
    ensures r == CommandBuilder.BraceGroup(cmds, redirects)
  {
    CommandBuilder.BraceGroup(cmds, redirects)
  }

  function Subshell<W, R>(cmds: seq<Command<W, R>>, redirects: seq<R>)
    : (r: Result<Command<W, R>, DummyError>)
    ensures r == CommandBuilder.Subshell(cmds, redirects)
  {
    CommandBuilder.Subshell(cmds, redirects)
  }

  function LoopCommand<W, R>(kind: LoopKind, guard: seq<Command<W, R>>,
                             body: seq<Command<W, R>>, redirects: seq<R>)
    : (r: Result<Command<W, R>, DummyError>)
    ensures r == CommandBuilder.LoopCommand(kind, guard, body, redirects)
  {
    CommandBuilder.LoopCommand(kind, guard, body, redirects)
  }

  function IfCommand<W, R>(branches: seq<(seq<Command<W, R>>, seq<Command<W, R>>)>,
                           elsePart: Option<seq<Command<W, R>>>, redirects: seq<R>)
    : (r: Result<Command<W, R>, DummyError>)
    ensures r == CommandBuilder.IfCommand(branches, elsePart, redirects)
  {
    CommandBuilder.IfCommand(branches, elsePart, redirects)
  }

  function ForCommand<W, R, N>(name: string, postVarComments: seq<N>, inWords: Option<seq<W>>,
                               postWordComments: Option<seq<N>>, body: seq<Command<W, R>>,
                               redirects: seq<R>)
    : (r: Result<Command<W, R>, DummyError>)
    ensures r == CommandBuilder.ForCommand(name, postVarComments, inWords, postWordComments, body, redirects)
  {
    CommandBuilder.ForCommand(name, postVarComments, inWords, postWordComments, body, redirects)
  }

  function CaseCommand<W, R, N>(word: W, postWordComments: seq<N>,
                                branches: seq<((seq<N>, seq<W>, seq<N>), seq<Command<W, R>>)>,
                                postBranchComments: seq<N>, redirects: seq<R>)
    : (r: Result<Command<W, R>, DummyError>)
    ensures r == CommandBuilder.CaseCommand(word, postWordComments, branches, postBranchComments, redirects)
  {
    CommandBuilder.CaseCommand(word, postWordComments, branches, postBranchComments, redirects)
  }

  function FunctionDeclaration<W, R>(name: string, body: Command<W, R>)
    : (r: Result<Command<W, R>, DummyError>)
    ensures r == CommandBuilder.FunctionDeclaration(name, body)
  {
    CommandBuilder.FunctionDeclaration(name, body)
  }

  function Comments<N>(comments: seq<N>): (r: Result<(), DummyError>)
    ensures r == CommandBuilder.Comments(comments)
  {
    CommandBuilder.Comments(comments)
  }
}
