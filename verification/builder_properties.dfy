/** Properties of the default builder that relate several calls: comments
    never change the tree, the nodes it builds are in one-to-one
    correspondence with the trivia-free inputs of the productions that made
    them, and every tree obtained by calling it bottom-up keeps the pipeline
    invariant. */
module BuilderProperties {
  import opened Wrappers
  import opened Ast
  import opened Shapes
  import opened BuilderKinds
  import opened CommandBuilder

  // ----- one production at a time -------------------------------------------

  /** `complete_command` wraps the command in a `Job` exactly when it ends in `&`. */
  lemma CompleteCommandJobExactly<W, R, N>(pre: seq<N>, cmd: Command<W, R>,
                                           separator: SeparatorKind<N>, post: seq<N>)
    ensures CompleteCommand(pre, cmd, separator, post).value == Job(cmd) <==> separator.Amp?
  {
    if !separator.Amp? {
      NotOwnJob(cmd);
    }
  }

  lemma NotOwnJob<W, R>(c: Command<W, R>)
    ensures c != Job(c)
  {
    if c.Job? {
      NotOwnJob(c.job);
    }
  }

  /** The comments before and after the command make no difference, and a
      newline separator, whatever it holds, acts like `;`. */
  lemma CompleteCommandIgnoresComments<W, R, N>(pre1: seq<N>, post1: seq<N>, pre2: seq<N>, post2: seq<N>,
                                                cmd: Command<W, R>, separator: SeparatorKind<N>, newline: N)
    ensures CompleteCommand(pre1, cmd, separator, post1) == CompleteCommand(pre2, cmd, separator, post2)
    ensures CompleteCommand(pre1, cmd, Newline(newline), post1) == CompleteCommand(pre2, cmd, Semi, post2)
  {
  }

  /** `&&` and `||` give different nodes over the same operands, and the
      comments after the operator make no difference. */
  lemma AndOrIgnoresComments<W, R, N>(first: Command<W, R>, kind: AndOrKind,
                                      comments1: seq<N>, comments2: seq<N>, second: Command<W, R>)
    ensures AndOr(first, kind, comments1, second) == AndOr(first, kind, comments2, second)
    ensures AndOr(first, BuilderKinds.And, comments1, second) != AndOr(first, BuilderKinds.Or, comments1, second)
  {
  }

  /** A `Pipe` node holding exactly the stage commands is built exactly when
      the pipeline is negated or has more than one stage. */
  lemma PipelineWrapsExactly<W, R, N>(bang: bool, cmds: seq<(seq<N>, Command<W, R>)>)
    requires |cmds| > 0
    ensures Pipeline(bang, cmds).value == Pipe(bang, StageCommands(cmds)) <==> FreshPipe(bang, |cmds|)
  {
    if !FreshPipe(bang, |cmds|) {
      var c := cmds[0].1;
      assert StageCommands(cmds) == [c];
      assert c in Pipe(bang, [c]).stages;
    }
  }

  /** Given stages built by the builder, `pipeline` never produces a `Pipe`
      with no stage or with a single un-negated stage. */
  lemma PipelineNeverSingleUnnegated<W, R, N>(bang: bool, cmds: seq<(seq<N>, Command<W, R>)>)
    requires |cmds| > 0
    requires forall i :: 0 <= i < |cmds| ==> WellFormed(cmds[i].1)
    ensures Pipeline(bang, cmds).value.Pipe? ==> FreshPipe(Pipeline(bang, cmds).value.bang, |Pipeline(bang, cmds).value.stages|)
  {
  }

  /** Only the stage commands matter to `pipeline`, not the comments after each `|`. */
  lemma PipelineIgnoresComments<W, R, N>(bang: bool, cmds1: seq<(seq<N>, Command<W, R>)>,
                                         cmds2: seq<(seq<N>, Command<W, R>)>)
    requires |cmds1| == |cmds2| > 0
    requires forall i :: 0 <= i < |cmds1| ==> cmds1[i].1 == cmds2[i].1
    ensures Pipeline(bang, cmds1) == Pipeline(bang, cmds2)
  {
    assert StageCommands(cmds1) == StageCommands(cmds2);
  }

  lemma ForCommandIgnoresComments<W, R, N>(name: string, postVar1: seq<N>, postVar2: seq<N>,
                                           inWords: Option<seq<W>>,
                                           postWord1: Option<seq<N>>, postWord2: Option<seq<N>>,
                                           body: seq<Command<W, R>>, redirects: seq<R>)
    ensures ForCommand(name, postVar1, inWords, postWord1, body, redirects)
         == ForCommand(name, postVar2, inWords, postWord2, body, redirects)
  {
  }

  /** Only the patterns and bodies of the arms matter to `case_command`, not
      the comments around them, after the word or before `esac`. */
  lemma CaseCommandIgnoresComments<W, R, N>(word: W, postWord1: seq<N>, postWord2: seq<N>,
                                            branches1: seq<((seq<N>, seq<W>, seq<N>), seq<Command<W, R>>)>,
                                            branches2: seq<((seq<N>, seq<W>, seq<N>), seq<Command<W, R>>)>,
                                            postBranch1: seq<N>, postBranch2: seq<N>, redirects: seq<R>)
    requires |branches1| == |branches2|
    requires forall i :: 0 <= i < |branches1| ==>
               branches1[i].0.1 == branches2[i].0.1 && branches1[i].1 == branches2[i].1
    ensures CaseCommand(word, postWord1, branches1, postBranch1, redirects)
         == CaseCommand(word, postWord2, branches2, postBranch2, redirects)
  {
    assert CaseArms(branches1) == CaseArms(branches2);
  }

  lemma CommentsIgnoresInput<N>(comments1: seq<N>, comments2: seq<N>)
    ensures Comments(comments1) == Comments(comments2)
  {
  }

  // ----- nodes and productions correspond one to one -------------------------

  /** Stages paired with no comments. */
  function WithoutTrivia<W, R>(cmds: seq<Command<W, R>>): (r: seq<(seq<()>, Command<W, R>)>)
    ensures |r| == |cmds|
    ensures forall i :: 0 <= i < |cmds| ==> r[i] == ([], cmds[i])
  {
    seq(|cmds|, i requires 0 <= i < |cmds| => ([], cmds[i]))
  }

  /** `case` arms with no comments around their patterns. */
  function WithoutArmTrivia<W, R>(arms: seq<(seq<W>, seq<Command<W, R>>)>)
    : (r: seq<((seq<()>, seq<W>, seq<()>), seq<Command<W, R>>)>)
    ensures |r| == |arms|
    ensures forall i :: 0 <= i < |arms| ==> r[i] == (([], arms[i].0, []), arms[i].1)
  {
    seq(|arms|, i requires 0 <= i < |arms| => (([], arms[i].0, []), arms[i].1))
  }

  /** The node the default builder makes for a shape, every comment argument empty. */
  function Rebuild<W, R>(s: Shape<W, R>): Command<W, R>
    requires s.PipelineOf? ==> |s.stages| > 0
  {
    match s
    case AsyncOf(cmd) => CompleteCommand<W, R, ()>([], cmd, Amp, []).value
    case AndOrOf(first, kind, second) => AndOr<W, R, ()>(first, kind, [], second).value
    case PipelineOf(bang, stages) => Pipeline(bang, WithoutTrivia(stages)).value
    case SimpleOf(vars, cmd, args, io) => CommandBuilder.SimpleCommand(vars, cmd, args, io).value
    case BraceOf(cmds, io) => BraceGroup(cmds, io).value
    case SubshellOf(cmds, io) => CommandBuilder.Subshell(cmds, io).value
    case LoopOf(kind, guard, body, io) => LoopCommand(kind, guard, body, io).value
    case IfOf(branches, elsePart, io) => IfCommand(branches, elsePart, io).value
    case ForOf(name, words, body, io) => ForCommand<W, R, ()>(name, [], words, None, body, io).value
    case CaseOf(word, arms, io) => CaseCommand<W, R, ()>(word, [], WithoutArmTrivia(arms), [], io).value
    case FunctionOf(name, definition) => FunctionDeclaration(name, definition).value
  }

  /** Reading back the node built for a shape gives the shape again. */
  lemma ShapeOfRebuild<W, R>(s: Shape<W, R>)
    requires ValidShape(s)
    ensures ShapeOf(Rebuild(s)) == s
  {
    match s
    case PipelineOf(bang, stages) =>
      assert StageCommands(WithoutTrivia(stages)) == stages;
    case CaseOf(word, arms, io) =>
      assert ShapeOf(Rebuild(s)).arms == arms;
    case _ =>
  }

  /** The node built for a valid shape is canonical. */
  lemma RebuildCanonical<W, R>(s: Shape<W, R>)
    requires ValidShape(s)
    ensures Canonical(Rebuild(s))
  {
    ShapeOfRebuild(s);
  }

  /** No two valid shapes give the same node. */
  lemma RebuildInjective<W, R>(s1: Shape<W, R>, s2: Shape<W, R>)
    requires ValidShape(s1) && ValidShape(s2)
    requires Rebuild(s1) == Rebuild(s2)
    ensures s1 == s2
  {
    ShapeOfRebuild(s1);
    ShapeOfRebuild(s2);
  }

  /** Every canonical node is what the builder makes for the shape it records. */
  lemma RebuildShapeOf<W, R>(c: Command<W, R>)
    requires Canonical(c)
    ensures Rebuild(ShapeOf(c)) == c
  {
    match c
    case Pipe(bang, stages) =>
      assert StageCommands(WithoutTrivia(stages)) == stages;
    case Compound(If(branches, elsePart), io) =>
      GuardBodyPairsRoundTripBack(branches);
    case Compound(Case(word, arms), io) =>
      assert CaseArms(WithoutArmTrivia(FromPatternBodyPairs(arms))) == arms;
    case _ =>
  }
}
