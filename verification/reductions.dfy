/** A parse as the grammar reader drives it: a tree of builder calls, each
    one's arguments being the trivia it read and the calls that built its
    children. Evaluating the tree bottom-up with the default builder gives
    the command tree the reader receives. Two properties hold of every such
    tree: the result keeps the pipeline invariant, and no comment anywhere
    in the parse changes it. */
module Reductions {
  import opened Wrappers
  import opened Ast
  import opened BuilderKinds
  import opened CommandBuilder

  /** One grammar reduction and, recursively, the reductions of its children. */
  datatype Reduction<W, R, N> =
    | CompleteCommandCall(pre: seq<N>, inner: Reduction<W, R, N>, separator: SeparatorKind<N>, post: seq<N>)
    | AndOrCall(first: Reduction<W, R, N>, kind: AndOrKind, comments: seq<N>, second: Reduction<W, R, N>)
    | PipelineCall(bang: bool, stages: seq<StageCall<W, R, N>>)
    | SimpleCommandCall(vars: seq<(string, Option<W>)>, cmd: Option<W>, args: seq<W>, io: seq<R>)
    | BraceGroupCall(cmds: seq<Reduction<W, R, N>>, io: seq<R>)
    | SubshellCall(cmds: seq<Reduction<W, R, N>>, io: seq<R>)
    | LoopCommandCall(loopKind: LoopKind, guard: seq<Reduction<W, R, N>>, body: seq<Reduction<W, R, N>>, io: seq<R>)
    | IfCommandCall(branches: seq<BranchCall<W, R, N>>, elseCall: ElseCall<W, R, N>, io: seq<R>)
    | ForCommandCall(name: string, postVar: seq<N>, words: Option<seq<W>>, postWords: Option<seq<N>>,
                     body: seq<Reduction<W, R, N>>, io: seq<R>)
    | CaseCommandCall(word: W, postWord: seq<N>, arms: seq<ArmCall<W, R, N>>, postArms: seq<N>, io: seq<R>)
    | FunctionDeclarationCall(name: string, definition: Reduction<W, R, N>)

  /** A pipeline stage: the comments after its `|` and the stage's reduction. */
  datatype StageCall<W, R, N> = StageCall(comments: seq<N>, stage: Reduction<W, R, N>)

  datatype BranchCall<W, R, N> = BranchCall(guard: seq<Reduction<W, R, N>>, body: seq<Reduction<W, R, N>>)

  datatype ElseCall<W, R, N> = NoElseCall | ElseCall(cmds: seq<Reduction<W, R, N>>)

  /** A `case` arm: comments before and after the pattern list, the
      patterns, and the reductions of its body. */
  datatype ArmCall<W, R, N> = ArmCall(pre: seq<N>, patterns: seq<W>, post: seq<N>, body: seq<Reduction<W, R, N>>)

  /** The reader's side of the contract: every pipeline has a stage. */
  predicate Valid<W, R, N>(d: Reduction<W, R, N>) {
    match d
    case CompleteCommandCall(_, inner, _, _) => Valid(inner)
    case AndOrCall(first, _, _, second) => Valid(first) && Valid(second)
    case PipelineCall(_, stages) => |stages| > 0 && forall i :: 0 <= i < |stages| ==> Valid(stages[i].stage)
    case SimpleCommandCall(_, _, _, _) => true
    case BraceGroupCall(cmds, _) => AllValid(cmds)
    case SubshellCall(cmds, _) => AllValid(cmds)
    case LoopCommandCall(_, guard, body, _) => AllValid(guard) && AllValid(body)
    case IfCommandCall(branches, elseCall, _) =>
      (forall i :: 0 <= i < |branches| ==> AllValid(branches[i].guard) && AllValid(branches[i].body)) &&
      (elseCall.ElseCall? ==> AllValid(elseCall.cmds))
    case ForCommandCall(_, _, _, _, body, _) => AllValid(body)
    case CaseCommandCall(_, _, arms, _, _) => forall i :: 0 <= i < |arms| ==> AllValid(arms[i].body)
    case FunctionDeclarationCall(_, definition) => Valid(definition)
  }

  predicate AllValid<W, R, N>(ds: seq<Reduction<W, R, N>>) {
    forall i :: 0 <= i < |ds| ==> Valid(ds[i])
  }

  /** The command tree the default builder returns for a parse. */
  function Eval<W, R, N>(d: Reduction<W, R, N>): Command<W, R>
    requires Valid(d)
  {
    match d
    case CompleteCommandCall(pre, inner, separator, post) =>
      CompleteCommand(pre, Eval(inner), separator, post).value
    case AndOrCall(first, kind, comments, second) =>
      AndOr(Eval(first), kind, comments, Eval(second)).value
    case PipelineCall(bang, stages) =>
      Pipeline(bang, EvalStages(stages)).value
    case SimpleCommandCall(vars, cmd, args, io) =>
      CommandBuilder.SimpleCommand(vars, cmd, args, io).value
    case BraceGroupCall(cmds, io) =>
      BraceGroup(EvalAll(cmds), io).value
    case SubshellCall(cmds, io) =>
      CommandBuilder.Subshell(EvalAll(cmds), io).value
    case LoopCommandCall(kind, guard, body, io) =>
      LoopCommand(kind, EvalAll(guard), EvalAll(body), io).value
    case IfCommandCall(branches, elseCall, io) =>
      IfCommand(EvalBranches(branches), EvalElse(elseCall), io).value
    case ForCommandCall(name, postVar, words, postWords, body, io) =>
      ForCommand(name, postVar, words, postWords, EvalAll(body), io).value
    case CaseCommandCall(word, postWord, arms, postArms, io) =>
      CaseCommand(word, postWord, EvalArms(arms), postArms, io).value
    case FunctionDeclarationCall(name, definition) =>
      FunctionDeclaration(name, Eval(definition)).value
  }

  function EvalAll<W, R, N>(ds: seq<Reduction<W, R, N>>): seq<Command<W, R>>
    requires AllValid(ds)
  {
    seq(|ds|, i requires 0 <= i < |ds| && Valid(ds[i]) => Eval(ds[i]))
  }

  function EvalStages<W, R, N>(stages: seq<StageCall<W, R, N>>): seq<(seq<N>, Command<W, R>)>
    requires forall i :: 0 <= i < |stages| ==> Valid(stages[i].stage)
  {
    seq(|stages|, i requires 0 <= i < |stages| && Valid(stages[i].stage) => (stages[i].comments, Eval(stages[i].stage)))
  }

  function EvalBranches<W, R, N>(branches: seq<BranchCall<W, R, N>>): seq<(seq<Command<W, R>>, seq<Command<W, R>>)>
    requires forall i :: 0 <= i < |branches| ==> AllValid(branches[i].guard) && AllValid(branches[i].body)
  {
    seq(|branches|, i requires 0 <= i < |branches| && AllValid(branches[i].guard) && AllValid(branches[i].body) =>
                    (EvalAll(branches[i].guard), EvalAll(branches[i].body)))
  }

  function EvalElse<W, R, N>(e: ElseCall<W, R, N>): Option<seq<Command<W, R>>>
    requires e.ElseCall? ==> AllValid(e.cmds)
  {
    match e
    case NoElseCall => None
    case ElseCall(cmds) => Some(EvalAll(cmds))
  }

  function EvalArms<W, R, N>(arms: seq<ArmCall<W, R, N>>): seq<((seq<N>, seq<W>, seq<N>), seq<Command<W, R>>)>
    requires forall i :: 0 <= i < |arms| ==> AllValid(arms[i].body)
  {
    seq(|arms|, i requires 0 <= i < |arms| && AllValid(arms[i].body) =>
                ((arms[i].pre, arms[i].patterns, arms[i].post), EvalAll(arms[i].body)))
  }

  // ----- the pipeline invariant holds of every parse ------------------------

  /** Whatever the reader parses, the tree it receives contains no `Pipe`
      with zero stages or with a single un-negated stage. */
  lemma {:induction false} EvalWellFormed<W, R, N>(d: Reduction<W, R, N>)
    requires Valid(d)
    ensures WellFormed(Eval(d))
  {
    match d
    case CompleteCommandCall(_, inner, _, _) =>
      EvalWellFormed(inner);
    case AndOrCall(first, _, _, second) =>
      EvalWellFormed(first);
      EvalWellFormed(second);
    case PipelineCall(_, stages) =>
      forall i | 0 <= i < |stages| ensures WellFormed(Eval(stages[i].stage)) {
        EvalWellFormed(stages[i].stage);
      }
    case SimpleCommandCall(_, _, _, _) =>
    case BraceGroupCall(cmds, _) =>
      EvalAllWellFormed(cmds);
    case SubshellCall(cmds, _) =>
      EvalAllWellFormed(cmds);
    case LoopCommandCall(_, guard, body, _) =>
      EvalAllWellFormed(guard);
      EvalAllWellFormed(body);
    case IfCommandCall(branches, elseCall, _) =>
      forall i | 0 <= i < |branches|
        ensures AllWellFormed(EvalAll(branches[i].guard)) && AllWellFormed(EvalAll(branches[i].body))
      {
        EvalAllWellFormed(branches[i].guard);
        EvalAllWellFormed(branches[i].body);
      }
      if elseCall.ElseCall? {
        EvalAllWellFormed(elseCall.cmds);
      }
    case ForCommandCall(_, _, _, _, body, _) =>
      EvalAllWellFormed(body);
    case CaseCommandCall(_, _, arms, _, _) =>
      forall i | 0 <= i < |arms| ensures AllWellFormed(EvalAll(arms[i].body)) {
        EvalAllWellFormed(arms[i].body);
      }
    case FunctionDeclarationCall(_, definition) =>
      EvalWellFormed(definition);
  }

  lemma {:induction false} EvalAllWellFormed<W, R, N>(ds: seq<Reduction<W, R, N>>)
    requires AllValid(ds)
    ensures AllWellFormed(EvalAll(ds))
  {
    forall i | 0 <= i < |ds| ensures WellFormed(Eval(ds[i])) {
      EvalWellFormed(ds[i]);
    }
  }

  // ----- comments never change the tree -------------------------------------

  function EraseSeparator<N>(separator: SeparatorKind<N>): SeparatorKind<()> {
    match separator
    case Semi => Semi
    case Amp => Amp
    case Newline(_) => Newline(())
    case Other => Other
  }

  /** The same parse with every comment removed and every newline emptied. */
  function Erase<W, R, N>(d: Reduction<W, R, N>): Reduction<W, R, ()> {
    match d
    case CompleteCommandCall(_, inner, separator, _) =>
      CompleteCommandCall([], Erase(inner), EraseSeparator(separator), [])
    case AndOrCall(first, kind, _, second) =>
      AndOrCall(Erase(first), kind, [], Erase(second))
    case PipelineCall(bang, stages) =>
      PipelineCall(bang, seq(|stages|, i requires 0 <= i < |stages| => StageCall([], Erase(stages[i].stage))))
    case SimpleCommandCall(vars, cmd, args, io) =>
      SimpleCommandCall(vars, cmd, args, io)
    case BraceGroupCall(cmds, io) =>
      BraceGroupCall(EraseAll(cmds), io)
    case SubshellCall(cmds, io) =>
      SubshellCall(EraseAll(cmds), io)
    case LoopCommandCall(kind, guard, body, io) =>
      LoopCommandCall(kind, EraseAll(guard), EraseAll(body), io)
    case IfCommandCall(branches, elseCall, io) =>
      IfCommandCall(seq(|branches|, i requires 0 <= i < |branches| =>
                                    BranchCall(EraseAll(branches[i].guard), EraseAll(branches[i].body))),
                    if elseCall.ElseCall? then ElseCall(EraseAll(elseCall.cmds)) else NoElseCall,
                    io)
    case ForCommandCall(name, _, words, postWords, body, io) =>
      ForCommandCall(name, [], words, if postWords.Some? then Some([]) else None, EraseAll(body), io)
    case CaseCommandCall(word, _, arms, _, io) =>
      CaseCommandCall(word, [], seq(|arms|, i requires 0 <= i < |arms| =>
                                            ArmCall([], arms[i].patterns, [], EraseAll(arms[i].body))), [], io)
    case FunctionDeclarationCall(name, definition) =>
      FunctionDeclarationCall(name, Erase(definition))
  }

  function EraseAll<W, R, N>(ds: seq<Reduction<W, R, N>>): seq<Reduction<W, R, ()>> {
    seq(|ds|, i requires 0 <= i < |ds| => Erase(ds[i]))
  }

  /** Removing every comment from a parse leaves the tree the builder
      returns unchanged. */
  lemma {:induction false} EvalErase<W, R, N>(d: Reduction<W, R, N>)
    requires Valid(d)
    ensures Valid(Erase(d))
    ensures Eval(Erase(d)) == Eval(d)
    decreases d, 1
  {
    match d
    case CompleteCommandCall(_, inner, _, _) =>
      EvalErase(inner);
    case AndOrCall(first, _, _, second) =>
      EvalErase(first);
      EvalErase(second);
    case PipelineCall(_, _) =>
      EvalErasePipeline(d);
    case SimpleCommandCall(_, _, _, _) =>
    case BraceGroupCall(cmds, _) =>
      EvalAllErase(cmds);
    case SubshellCall(cmds, _) =>
      EvalAllErase(cmds);
    case LoopCommandCall(_, guard, body, _) =>
      EvalAllErase(guard);
      EvalAllErase(body);
    case IfCommandCall(_, _, _) =>
      EvalEraseIf(d);
    case ForCommandCall(_, _, _, _, body, _) =>
      EvalAllErase(body);
    case CaseCommandCall(_, _, _, _, _) =>
      EvalEraseCase(d);
    case FunctionDeclarationCall(_, definition) =>
      EvalErase(definition);
  }

  lemma {:induction false} EvalAllErase<W, R, N>(ds: seq<Reduction<W, R, N>>)
    requires AllValid(ds)
    ensures AllValid(EraseAll(ds))
    ensures EvalAll(EraseAll(ds)) == EvalAll(ds)
    decreases ds, 1
  {
    forall i | 0 <= i < |ds| ensures Valid(Erase(ds[i])) && Eval(Erase(ds[i])) == Eval(ds[i]) {
      EvalErase(ds[i]);
    }
  }

  lemma {:induction false} EvalErasePipeline<W, R, N>(d: Reduction<W, R, N>)
    requires d.PipelineCall? && Valid(d)
    ensures Valid(Erase(d))
    ensures Eval(Erase(d)) == Eval(d)
    decreases d, 0
  {
    var stages := d.stages;
    var e := Erase(d).stages;
    forall i | 0 <= i < |stages|
      ensures Valid(e[i].stage) && Eval(e[i].stage) == Eval(stages[i].stage)
    {
      EvalErase(stages[i].stage);
    }
    assert StageCommands(EvalStages(e)) == StageCommands(EvalStages(stages));
  }

  lemma {:induction false} EvalEraseIf<W, R, N>(d: Reduction<W, R, N>)
    requires d.IfCommandCall? && Valid(d)
    ensures Valid(Erase(d))
    ensures Eval(Erase(d)) == Eval(d)
    decreases d, 0
  {
    var branches := d.branches;
    var e := Erase(d).branches;
    forall i | 0 <= i < |branches|
      ensures AllValid(e[i].guard) && AllValid(e[i].body)
      ensures EvalAll(e[i].guard) == EvalAll(branches[i].guard) && EvalAll(e[i].body) == EvalAll(branches[i].body)
    {
      EvalAllErase(branches[i].guard);
      EvalAllErase(branches[i].body);
    }
    if d.elseCall.ElseCall? {
      EvalAllErase(d.elseCall.cmds);
    }
    assert EvalBranches(e) == EvalBranches(branches);
  }

  lemma {:induction false} EvalEraseCase<W, R, N>(d: Reduction<W, R, N>)
    requires d.CaseCommandCall? && Valid(d)
    ensures Valid(Erase(d))
    ensures Eval(Erase(d)) == Eval(d)
    decreases d, 0
  {
    var arms := d.arms;
    var e := Erase(d).arms;
    forall i | 0 <= i < |arms|
      ensures AllValid(e[i].body) && EvalAll(e[i].body) == EvalAll(arms[i].body)
    {
      EvalAllErase(arms[i].body);
    }
    assert CaseArms(EvalArms(e)) == CaseArms(EvalArms(arms));
  }
}
