/** The tree shapes the default builder emits: shell commands, compound
    commands and the payload of a simple command. Words and redirects belong
    to collaborators of the builder and stay opaque: they are the type
    parameters `W` and `R` and are only ever stored and relayed. */
module Ast {
  import opened Wrappers

  /** An invocation of a program: an optional command name (absent when the
      command consists only of assignments and/or redirects), the
      `name=value` assignments scoped to it, its arguments and its redirects. */
  datatype SimpleCommand<W, R> = SimpleCommand(
    cmd: Option<W>,
    vars: seq<(string, Option<W>)>,
    args: seq<W>,
    io: seq<R>)

  /** A shell command. */
  datatype Command<W, R> =
    /** A command run asynchronously (terminated by `&`). */
    | Job(job: Command<W, R>)
    /** `first && second`: `second` runs if `first` succeeds. */
    | And(first: Command<W, R>, second: Command<W, R>)
    /** `first || second`: `second` runs if `first` fails. */
    | Or(first: Command<W, R>, second: Command<W, R>)
    /** A pipeline, possibly with its exit status inverted by `!`. */
    | Pipe(bang: bool, stages: seq<Command<W, R>>)
    | Simple(simple: SimpleCommand<W, R>)
    /** A compound command with redirects applied to the construct as a whole. */
    | Compound(compound: CompoundCommand<W, R>, io: seq<R>)
    | Function(name: string, definition: Command<W, R>)

  /** A command whose body is itself a sequence of commands. */
  datatype CompoundCommand<W, R> =
    /** `{ cmds; }`: runs in the current environment. */
    | Brace(cmds: seq<Command<W, R>>)
    /** `( cmds )`: runs in an environment of its own. */
    | Subshell(cmds: seq<Command<W, R>>)
    | While(guard: seq<Command<W, R>>, body: seq<Command<W, R>>)
    | Until(guard: seq<Command<W, R>>, body: seq<Command<W, R>>)
    /** Guard/body pairs tried in order, then the optional `else` part. */
    | If(branches: seq<GuardBodyPair<W, R>>, elsePart: ElsePart<W, R>)
    /** `for name [in words]; do body; done`; without words the loop runs
        over the positional arguments, which is why `None` differs from
        `Some([])`. */
    | For(name: string, words: Option<seq<W>>, body: seq<Command<W, R>>)
    /** `case word in arms esac`, each arm a list of alternative patterns
        and the commands it selects. */
    | Case(word: W, arms: seq<PatternBodyPair<W, R>>)

  /** One `if`/`elif` branch: the body runs when the guard succeeds. The
      tree names the pair (rather than using a tuple) so that recursion over
      the tree is seen to terminate. */
  datatype GuardBodyPair<W, R> = GuardBodyPair(guard: seq<Command<W, R>>, body: seq<Command<W, R>>)

  /** The optional `else` part of an `if`: the tree's counterpart of an
      optional command list, named for the same reason as the pairs. */
  datatype ElsePart<W, R> = NoElse | Else(cmds: seq<Command<W, R>>)

  /** One `case` arm: alternative patterns and the commands they select. */
  datatype PatternBodyPair<W, R> = PatternBodyPair(patterns: seq<W>, body: seq<Command<W, R>>)

  /** The tree's form of the `if` branches the grammar reader supplies as pairs. */
  function ToGuardBodyPairs<W, R>(branches: seq<(seq<Command<W, R>>, seq<Command<W, R>>)>): (r: seq<GuardBodyPair<W, R>>)
    ensures |r| == |branches|
    ensures forall i :: 0 <= i < |branches| ==> r[i].guard == branches[i].0 && r[i].body == branches[i].1
  {
    if |branches| == 0 then []
    else [GuardBodyPair(branches[0].0, branches[0].1)] + ToGuardBodyPairs(branches[1..])
  }

  /** The `if` branches of a tree node, as the pairs the grammar reader supplies. */
  function FromGuardBodyPairs<W, R>(pairs: seq<GuardBodyPair<W, R>>): (r: seq<(seq<Command<W, R>>, seq<Command<W, R>>)>)
    ensures |r| == |pairs|
    ensures forall i :: 0 <= i < |pairs| ==> r[i] == (pairs[i].guard, pairs[i].body)
  {
    if |pairs| == 0 then []
    else [(pairs[0].guard, pairs[0].body)] + FromGuardBodyPairs(pairs[1..])
  }

  lemma GuardBodyPairsRoundTrip<W, R>(branches: seq<(seq<Command<W, R>>, seq<Command<W, R>>)>)
    ensures FromGuardBodyPairs(ToGuardBodyPairs(branches)) == branches
  {
  }

  lemma GuardBodyPairsRoundTripBack<W, R>(pairs: seq<GuardBodyPair<W, R>>)
    ensures ToGuardBodyPairs(FromGuardBodyPairs(pairs)) == pairs
  {
  }

  /** The tree's form of an optional `else` command list. */
  function ToElsePart<W, R>(elsePart: Option<seq<Command<W, R>>>): (r: ElsePart<W, R>)
    ensures r.Else? <==> elsePart.Some?
    ensures r.Else? ==> r.cmds == elsePart.value
  {
    match elsePart
    case None => NoElse
    case Some(cmds) => Else(cmds)
  }

  /** The `else` part of a tree node, as an optional command list. */
  function FromElsePart<W, R>(elsePart: ElsePart<W, R>): (r: Option<seq<Command<W, R>>>)
    ensures ToElsePart(r) == elsePart
  {
    match elsePart
    case NoElse => None
    case Else(cmds) => Some(cmds)
  }

  /** The `case` arms of a tree node, as (patterns, body) pairs. */
  function FromPatternBodyPairs<W, R>(arms: seq<PatternBodyPair<W, R>>): (r: seq<(seq<W>, seq<Command<W, R>>)>)
    ensures |r| == |arms|
    ensures forall i :: 0 <= i < |arms| ==> r[i] == (arms[i].patterns, arms[i].body)
  {
    if |arms| == 0 then []
    else [(arms[0].patterns, arms[0].body)] + FromPatternBodyPairs(arms[1..])
  }

  /** A pipe node the builder creates itself: at least one stage, and a single
      stage only when its status is inverted, since `Pipe` is the only node
      that can carry the inversion. */
  predicate FreshPipe(bang: bool, stageCount: nat) {
    stageCount >= 1 && (bang || stageCount > 1)
  }

  /** The outermost node is one a builder production creates: no `Pipe`
      with zero stages or with one un-negated stage. */
  predicate Canonical<W, R>(c: Command<W, R>) {
    c.Pipe? ==> FreshPipe(c.bang, |c.stages|)
  }

  /** Every node of the tree is canonical. */
  predicate WellFormed<W, R>(c: Command<W, R>) {
    match c
    case Job(inner) => WellFormed(inner)
    case And(a, b) => WellFormed(a) && WellFormed(b)
    case Or(a, b) => WellFormed(a) && WellFormed(b)
    case Pipe(bang, stages) =>
      FreshPipe(bang, |stages|) && forall i :: 0 <= i < |stages| ==> WellFormed(stages[i])
    case Simple(_) => true
    case Compound(cc, _) => WellFormedCompound(cc)
    case Function(_, definition) => WellFormed(definition)
  }

  predicate WellFormedCompound<W, R>(cc: CompoundCommand<W, R>) {
    match cc
    case Brace(cmds) => forall i :: 0 <= i < |cmds| ==> WellFormed(cmds[i])
    case Subshell(cmds) => forall i :: 0 <= i < |cmds| ==> WellFormed(cmds[i])
    case While(guard, body) =>
      (forall i :: 0 <= i < |guard| ==> WellFormed(guard[i])) &&
      (forall i :: 0 <= i < |body| ==> WellFormed(body[i]))
    case Until(guard, body) =>
      (forall i :: 0 <= i < |guard| ==> WellFormed(guard[i])) &&
      (forall i :: 0 <= i < |body| ==> WellFormed(body[i]))
    case If(branches, elsePart) =>
      (forall i :: 0 <= i < |branches| ==> WellFormedPair(branches[i])) &&
      (elsePart.Else? ==> forall j :: 0 <= j < |elsePart.cmds| ==> WellFormed(elsePart.cmds[j]))
    case For(_, _, body) => forall i :: 0 <= i < |body| ==> WellFormed(body[i])
    case Case(_, arms) =>
      forall i :: 0 <= i < |arms| ==> WellFormedArm(arms[i])
  }

  /** Both command lists of an `if` branch are well formed. */
  predicate WellFormedPair<W, R>(branch: GuardBodyPair<W, R>) {
    && (forall j :: 0 <= j < |branch.guard| ==> WellFormed(branch.guard[j]))
    && (forall j :: 0 <= j < |branch.body| ==> WellFormed(branch.body[j]))
  }

  /** The body of a `case` arm is well formed. */
  predicate WellFormedArm<W, R>(arm: PatternBodyPair<W, R>) {
    forall j :: 0 <= j < |arm.body| ==> WellFormed(arm.body[j])
  }

  /** Every command of a list is well formed. */
  predicate AllWellFormed<W, R>(cmds: seq<Command<W, R>>) {
    forall i :: 0 <= i < |cmds| ==> WellFormed(cmds[i])
  }
}
