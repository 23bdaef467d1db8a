/**
  From expression to process: the compiled commands, and the optimised ones, do what the
  expression means, in the safe and in the unsafe mode.
*/
module Compile {
  import opened Machine
  import opened Simulation
  import opened Optimizer
  import opened Streams
  import opened Peephole
  import opened Blocks
  import opened Emission
  import opened Lowering
  import opened LoweringTyped
  import opened LoweringMeans

  /** How a process ends that started on `s`. */
  function Ending(s: seq<Value>, a: Answer): Outcome {
    match a
    case Gives(vs, e) => Done(s + vs, e)
    case Raises(err) => Failed(err)
    case NoAnswer => OffModel
  }

  /** A script compiled on a frame that holds `m`, with `sl` the slots of its open scopes. */
  ghost predicate Compiles(w: World, x: Expr, m: seq<Ty>, sl: seq<nat>, tys: seq<Ty>) {
    var n := Lower(x, m, sl, tys);
    Check(w, x, tys) && ScopesOk(m, sl, tys) && Room(w, n, m) && Size(n) <= INT32_MAX
  }

  lemma StreamPlaced(n: Node, m: seq<Ty>)
    ensures Placed(OriginalCode(StreamOf(n), FlagsOf(StreamOf(n)), ModelOf(n, m)), 0, n, m, [])
  {
    var cmds, model := Flatten(n, 0, []), ModelOf(n, m);
    assert cmds[0..Size(n)] == cmds && model[0..Size(n)] == model;
  }

  /**
    The watched run of a compiled script ends as its meaning says. It is watched: at every
    command the stack was the compile-time one, or the run would have ended off the model.
  */
  lemma CompiledOnModel(w: World, x: Expr, m: seq<Ty>, sl: seq<nat>, tys: seq<Ty>, sc: seq<Value>, s: seq<Value>, e: Env)
    requires Compiles(w, x, m, sl, tys) && Ready(w, m, sl, tys, s, sc) && Meaning(w, x, sc, e) != NoAnswer
    ensures var n := Lower(x, m, sl, tys); RunModel(w, StreamOf(n), ModelOf(n, m), s, e) == Ending(s, Meaning(w, x, sc, e))
  {
    hide Run, Exec, Meaning, Lower, Ready, Placed, Check;
    var n := Lower(x, m, sl, tys);
    var c := OriginalCode(StreamOf(n), FlagsOf(StreamOf(n)), ModelOf(n, m));
    ReadyIs(w, m, sl, tys, s, sc);
    LowerTyped(w, x, m, sl, tys);
    LeadsHere(w, n, m, m + ResultOf(x, tys), []);
    LowerMeans(w, x, m, sl, tys, sc, s, e);
    StreamPlaced(n, m);
    FlattenRuns(w, c, 0, Size(n), n, m, [], [], s, e);
    var a := Meaning(w, x, sc, e);
    if a.Gives? { RunEnds(w, c, Size(n), Size(n), s + a.values, a.env); }
  }

  /** Compiled code is a stream the peephole accepts. */
  lemma CompiledStream(w: World, x: Expr, m: seq<Ty>, sl: seq<nat>, tys: seq<Ty>)
    requires Compiles(w, x, m, sl, tys)
    ensures var n := Lower(x, m, sl, tys); WellFormed(StreamOf(n), ModelOf(n, m))
  {
    hide Lower, Check, WellFormed;
    var n := Lower(x, m, sl, tys);
    LowerTyped(w, x, m, sl, tys);
    LeadsHere(w, n, m, m + ResultOf(x, tys), []);
    CompiledWellFormed(w, n, m);
  }

  /**
    Compiling preserves meaning: processing the emitted commands, and processing what the
    peephole makes of them once or twice, all end as the expression's meaning says.
  */
  lemma CompiledProcess(w: World, x: Expr, m: seq<Ty>, sl: seq<nat>, tys: seq<Ty>, sc: seq<Value>, s: seq<Value>, e: Env)
    requires Compiles(w, x, m, sl, tys) && Ready(w, m, sl, tys, s, sc)
    ensures var code, end := StreamOf(Lower(x, m, sl, tys)), Ending(s, Meaning(w, x, sc, e));
      && Refines(end, Process(w, code.cmds, s, e))
      && Refines(end, Process(w, Optimize(code).cmds, s, e))
      && Refines(end, Process(w, Optimize(Optimize(code)).cmds, s, e))
  {
    hide Run, Exec, Meaning, Lower, Ready, Check, Compiles, Optimize, WellFormed;
    if Meaning(w, x, sc, e) != NoAnswer {
      var n := Lower(x, m, sl, tys);
      CompiledOnModel(w, x, m, sl, tys, sc, s, e);
      CompiledStream(w, x, m, sl, tys);
      OptimizedProcess(w, StreamOf(n), ModelOf(n, m), s, e);
      OptimizedTwice(w, StreamOf(n), ModelOf(n, m), s, e);
    }
  }

  /** The checks of the safe opcodes never fire in compiled code: both modes compute the same run. */
  lemma SafeEqualsUnsafe(w: World, x: Expr, m: seq<Ty>, sl: seq<nat>, tys: seq<Ty>, sc: seq<Value>, s: seq<Value>, e: Env)
    requires Compiles(w, x, m, sl, tys) && Ready(w, m, sl, tys, s, sc) && Meaning(w, x, sc, e) != NoAnswer
    ensures var n := Lower(x, m, sl, tys);
      RunModel(w, StreamOf(n), ModelOf(n, m), s, e) == RunModel(w.(safe := !w.safe), StreamOf(n), ModelOf(n, m), s, e)
  {
    hide Run, Exec, Meaning, Lower, Ready, Placed, Check, Typed;
    var n, u := Lower(x, m, sl, tys), w.(safe := !w.safe);
    var c := OriginalCode(StreamOf(n), FlagsOf(StreamOf(n)), ModelOf(n, m));
    ReadyIs(w, m, sl, tys, s, sc);
    LowerTyped(w, x, m, sl, tys);
    LeadsHere(w, n, m, m + ResultOf(x, tys), []);
    LowerMeans(w, x, m, sl, tys, sc, s, e);
    ExecKeeps(w, n, m, [], s, e);
    TypedEither(w, n, m, []);
    StreamPlaced(n, m);
    CompiledOnModel(w, x, m, sl, tys, sc, s, e);
    FlattenRuns(u, c, 0, Size(n), n, m, [], [], s, e);
    var a := Meaning(w, x, sc, e);
    if a.Gives? { RunEnds(u, c, Size(n), Size(n), s + a.values, a.env); }
  }

  lemma {:induction false} TypedEither(w: World, n: Node, m: seq<Ty>, labels: seq<seq<Ty>>)
    requires Typed(w, n, m, labels)
    ensures Typed(w.(safe := !w.safe), n, m, labels)
    decreases n
  {
    match n
    case Seq(a, b) =>
      TypedEither(w, a, m, labels);
      TypedEither(w, b, OutOf(a, m), labels);
    case Block(a, out) => TypedEither(w, a, m, [out] + labels);
    case _ =>
  }
}
