/**
 * The layout DSL: `box_props!`, `box_start!`, `box_start_with_component!`,
 * `box_start_with_runnable!` and `surface_start_with_runnable!`, each
 * modelled as the function its expansion computes. The surface's own
 * arithmetic, style lookup and component rendering belong to the layout
 * engine and are supplied as a `SurfaceApi`; an expansion is the ordered
 * record of the calls it makes on the surface together with its outcome.
 * Every call in an expansion is followed by `?`, so the first failing call
 * ends the expansion with that call's error.
 */
module LayoutMacros {
  import opened TuiCore
  import opened SurfaceTrace
  import opened FlexBoxIds

  // ---------------------------------------------------------------------------
  // box_props!
  // ---------------------------------------------------------------------------

  /** The tokens written after `maybe_styles:` in a `box_props!` invocation. */
  datatype StylesArg =
    | StylesExpr(value: Option<seq<Style>>)  // an expression such as `get_styles! { .. }`
    | StylesList(items: seq<Style>)          // a bracketed list `[style!{..}, style!{..}]`
    | NoStyles                               // no `maybe_styles:` at all

  /**
   * The result of expanding `box_props!`: a props value, or code the compiler
   * rejects. `TypeMismatch` is an arm whose body does not have the field's
   * type; `NoRuleMatches` is the "no rules expected this token" error of a
   * rule list none of whose patterns accepts the tokens. Neither order of
   * the three arms below leaves any tokens unaccepted, so it arises only for
   * other rule lists.
   */
  datatype Expansion = Expanded(props: FlexBoxProps) | TypeMismatch | NoRuleMatches

  /** The struct literal every arm writes: the id is stored in its string form. */
  function MakeProps(id: FlexBoxId, dir: Direction, pct: RequestedSizePercent, maybeStyles: Option<seq<Style>>): (p: FlexBoxProps)
    ensures ParseId(p.id) == Some(id)
    ensures p.dir == dir && p.requestedSizePercent == pct && p.maybeStyles == maybeStyles
  {
    ParseIdToString(id);
    FlexBoxProps(IdToString(id), dir, pct, maybeStyles)
  }

  /** The three arms of `box_props!`, in the order they are written. */
  datatype Arm = ExprArm | ListArm | NoStylesArm

  const WrittenArmOrder: seq<Arm> := [ExprArm, ListArm, NoStylesArm]

  /** The order under which every arm is reachable: the list arm before the catch-all expression arm. */
  const IntendedArmOrder: seq<Arm> := [ListArm, ExprArm, NoStylesArm]

  /**
   * Whether an arm's pattern accepts the tokens. A bracketed list is itself
   * an expression (an array literal), so the expression arm accepts it too.
   */
  predicate Accepts(arm: Arm, styles: StylesArg)
  {
    match arm
    case ExprArm => styles.StylesExpr? || styles.StylesList?
    case ListArm => styles.StylesList?
    case NoStylesArm => styles.NoStyles?
  }

  /** Macro rules are tried in order; the first whose pattern accepts the tokens is used. */
  function FirstAccepting(arms: seq<Arm>, styles: StylesArg): (r: Option<Arm>)
    ensures r.Some? ==> r.value in arms && Accepts(r.value, styles)
    ensures r.Some? ==> forall i :: 0 <= i < |arms| && arms[i] != r.value && Accepts(arms[i], styles) ==>
                          exists j :: 0 <= j < i && arms[j] == r.value
    ensures r.None? ==> forall i :: 0 <= i < |arms| ==> !Accepts(arms[i], styles)
  {
    if |arms| == 0 then None
    else if Accepts(arms[0], styles) then Some(arms[0])
    else FirstAccepting(arms[1..], styles)
  }

  /**
   * What the chosen arm's body produces. The expression arm puts the
   * expression in `maybe_styles` as it is: an `Option` is stored verbatim,
   * an array literal does not have the field's type.
   */
  function ExpandArm(arm: Arm, id: FlexBoxId, dir: Direction, pct: RequestedSizePercent, styles: StylesArg): Expansion
  {
    match arm
    case ExprArm => if styles.StylesExpr? then Expanded(MakeProps(id, dir, pct, styles.value)) else TypeMismatch
    case ListArm => if styles.StylesList? then Expanded(MakeProps(id, dir, pct, Some(styles.items))) else TypeMismatch
    case NoStylesArm => Expanded(MakeProps(id, dir, pct, None))
  }

  function ExpandWith(arms: seq<Arm>, id: FlexBoxId, dir: Direction, pct: RequestedSizePercent, styles: StylesArg): Expansion
  {
    match FirstAccepting(arms, styles)
    case None => NoRuleMatches
    case Some(arm) => ExpandArm(arm, id, dir, pct, styles)
  }

  /**
   * `box_props!` with its arms as evidently intended: an expression is
   * copied verbatim, a bracketed list becomes `Some(list)`, and no styles
   * give `None`; the id is stored in its string form.
   */
  function BoxProps(id: FlexBoxId, dir: Direction, pct: RequestedSizePercent, styles: StylesArg): (x: Expansion)
    ensures x.Expanded?
    ensures ParseId(x.props.id) == Some(id)
    ensures x.props.dir == dir && x.props.requestedSizePercent == pct
    ensures styles.StylesExpr? ==> x.props.maybeStyles == styles.value
    ensures styles.StylesList? ==> x.props.maybeStyles == Some(styles.items)
    ensures styles.NoStyles? ==> x.props.maybeStyles.None?
  {
    IntendedArmChosen(styles);
    ExpandWith(IntendedArmOrder, id, dir, pct, styles)
  }

  /** `box_props!` with its arms in the order they are written. */
  function BoxPropsAsWritten(id: FlexBoxId, dir: Direction, pct: RequestedSizePercent, styles: StylesArg): (x: Expansion)
    ensures !styles.StylesList? ==> x == BoxProps(id, dir, pct, styles)
  {
    WrittenArmChosen(styles);
    IntendedArmChosen(styles);
    ExpandWith(WrittenArmOrder, id, dir, pct, styles)
  }

  /** Under the intended order each kind of tokens selects its own arm. */
  lemma IntendedArmChosen(styles: StylesArg)
    ensures FirstAccepting(IntendedArmOrder, styles)
         == Some(match styles case StylesList(_) => ListArm case StylesExpr(_) => ExprArm case NoStyles => NoStylesArm)
  {
    assert IntendedArmOrder[1..] == [ExprArm, NoStylesArm];
    assert IntendedArmOrder[1..][1..] == [NoStylesArm];
  }

  /** Under the written order a bracketed list selects the expression arm. */
  lemma WrittenArmChosen(styles: StylesArg)
    ensures FirstAccepting(WrittenArmOrder, styles)
         == Some(if styles.NoStyles? then NoStylesArm else ExprArm)
  {
    assert WrittenArmOrder[1..] == [ListArm, NoStylesArm];
    assert WrittenArmOrder[1..][1..] == [NoStylesArm];
  }

  /**
   * In the written order the list arm is never chosen, whatever the tokens,
   * and a bracketed list expands to ill-typed code.
   */
  lemma BoxPropsListArmShadowed(id: FlexBoxId, dir: Direction, pct: RequestedSizePercent, items: seq<Style>, styles: StylesArg)
    ensures FirstAccepting(WrittenArmOrder, styles) != Some(ListArm)
    ensures FirstAccepting(IntendedArmOrder, StylesList(items)) == Some(ListArm)
    ensures BoxPropsAsWritten(id, dir, pct, StylesList(items)) == TypeMismatch
    ensures BoxProps(id, dir, pct, StylesList(items)) == Expanded(MakeProps(id, dir, pct, Some(items)))
  {
    WrittenArmChosen(styles);
    WrittenArmChosen(StylesList(items));
    IntendedArmChosen(StylesList(items));
  }

  /** The written arms and the intended ones agree exactly on the inputs that are not a bracketed list. */
  lemma BoxPropsAsWrittenAgreesOffList(id: FlexBoxId, dir: Direction, pct: RequestedSizePercent, styles: StylesArg)
    ensures BoxPropsAsWritten(id, dir, pct, styles) == BoxProps(id, dir, pct, styles) <==> !styles.StylesList?
  {
    if styles.StylesList? {
      BoxPropsListArmShadowed(id, dir, pct, styles.items, styles);
    }
  }

  // ---------------------------------------------------------------------------
  // Surfaces and their calls
  // ---------------------------------------------------------------------------

  /** A surface: its stylesheet and the layout engine's own state, left abstract. */
  datatype Surface<S> = Surface(stylesheet: Stylesheet, state: S)

  /** The layout engine's operations, which the macros call but do not define. */
  datatype SurfaceApi<!S> = SurfaceApi(
    defaultState: S,
    surfaceStart: (S, SurfaceProps) -> Result<S>,
    boxStart: (S, FlexBoxProps) -> Result<S>,
    renderComponent: (S, FlexBoxId) -> Result<S>,
    boxEnd: S -> Result<S>,
    surfaceEnd: S -> Result<S>,
    getStyles: (Stylesheet, seq<string>) -> Option<seq<Style>>)

  /** The calls made on a surface, in order, and the surface they leave (or the error that stopped them). */
  datatype Exec<S> = Exec(trace: seq<SurfaceOp>, result: Result<Surface<S>>)

  /** Code that lays out further boxes on a surface (`run_on_surface`). */
  type Runnable<!S> = Surface<S> -> Exec<S>

  /** The engine operation behind one recorded call. */
  function Dispatch<S>(api: SurfaceApi<S>, state: S, op: SurfaceOp): Result<S>
  {
    match op
    case SurfaceStartOp(sp) => api.surfaceStart(state, sp)
    case BoxStartOp(p) => api.boxStart(state, p)
    case RenderOp(cid) => api.renderComponent(state, cid)
    case BoxEndOp => api.boxEnd(state)
    case SurfaceEndOp => api.surfaceEnd(state)
  }

  /** One call on a surface; the stylesheet is not the engine's to change. */
  function Call<S>(api: SurfaceApi<S>, s: Surface<S>, op: SurfaceOp): (e: Exec<S>)
    ensures e.trace == [op]
    ensures e.result.Ok? <==> Dispatch(api, s.state, op).Ok?
    ensures e.result.Ok? ==> e.result.value == Surface(s.stylesheet, Dispatch(api, s.state, op).value)
    ensures e.result.Err? ==> e.result.error == Dispatch(api, s.state, op).error
  {
    match Dispatch(api, s.state, op)
    case Ok(st) => Exec([op], Ok(Surface(s.stylesheet, st)))
    case Err(err) => Exec([op], Err(err))
  }

  /** `first?; then`: the second part runs only on the surface the first part left. */
  function AndThen<S>(first: Exec<S>, next: Runnable<S>): Exec<S>
  {
    match first.result
    case Err(_) => first
    case Ok(s) => var e := next(s); Exec(first.trace + e.trace, e.result)
  }

  /**
   * Reference semantics for a straight-line block of calls, each followed
   * by `?`: make the calls in order and stop at the first failure.
   */
  function Replay<S>(api: SurfaceApi<S>, s: Surface<S>, ops: seq<SurfaceOp>): (e: Exec<S>)
    ensures |e.trace| <= |ops| && e.trace == ops[..|e.trace|]
    ensures e.result.Ok? ==> e.trace == ops && e.result.value.stylesheet == s.stylesheet
    ensures e.result.Err? ==> |e.trace| > 0
    decreases |ops|
  {
    if |ops| == 0 then Exec([], Ok(s))
    else
      var first := Call(api, s, ops[0]);
      match first.result
      case Err(_) => first
      case Ok(s1) =>
        var rest := Replay(api, s1, ops[1..]);
        Exec([ops[0]] + rest.trace, rest.result)
  }

  /** A replay that fails does so on its last recorded call, with that call's own error. */
  lemma {:induction false} ReplayStopsAtFailure<S>(api: SurfaceApi<S>, s: Surface<S>, ops: seq<SurfaceOp>)
    requires Replay(api, s, ops).result.Err?
    ensures var e := Replay(api, s, ops);
            var k := |e.trace| - 1;
            var before := Replay(api, s, ops[..k]);
            && before.result.Ok?
            && Call(api, before.result.value, ops[k]).result == e.result
    decreases |ops|
  {
    var first := Call(api, s, ops[0]);
    if first.result.Ok? {
      var rest := Replay(api, first.result.value, ops[1..]);
      ReplayStopsAtFailure(api, first.result.value, ops[1..]);
      var k := |rest.trace| - 1;
      assert ops[..k + 1][1..] == ops[1..][..k];
      assert ops[k + 1] == ops[1..][k];
    }
  }

  // ---------------------------------------------------------------------------
  // The macros
  // ---------------------------------------------------------------------------

  /**
   * The props `box_start!` builds with `box_props!` as written: styles are
   * looked up in the surface's own stylesheet and passed as an expression.
   */
  function BoxStartProps<S>(api: SurfaceApi<S>, s: Surface<S>, id: FlexBoxId, dir: Direction, pct: RequestedSizePercent, styleNames: seq<string>): (p: FlexBoxProps)
    ensures p.maybeStyles == api.getStyles(s.stylesheet, styleNames)
    ensures ParseId(p.id) == Some(id)
    ensures p.dir == dir && p.requestedSizePercent == pct
  {
    BoxPropsAsWritten(id, dir, pct, StylesExpr(api.getStyles(s.stylesheet, styleNames))).props
  }

  /**
   * The `requested_size_percent:` argument as evaluated inside the
   * expansion: a ready value, or the error of a failing conversion such as
   * `(50, 100).try_into()?`, whose `?` then returns before `box_start`.
   */
  type SizeArg = Result<RequestedSizePercent>

  /**
   * `box_start!`: build the props, then `box_start` on that same surface;
   * the surface it leaves, or the error `?` propagates, is `box_start`'s own.
   * A size argument that fails ends the expansion before any call.
   */
  function BoxStart<S>(api: SurfaceApi<S>, s: Surface<S>, id: FlexBoxId, dir: Direction, pct: SizeArg, styleNames: seq<string>): (e: Exec<S>)
    ensures pct.Err? ==> e == Exec([], Err(pct.error))
    ensures pct.Ok? ==>
            var p := BoxStartProps(api, s, id, dir, pct.value, styleNames);
            && e.trace == [BoxStartOp(p)]
            && (e.result.Ok? <==> api.boxStart(s.state, p).Ok?)
            && (e.result.Ok? ==> e.result.value == Surface(s.stylesheet, api.boxStart(s.state, p).value))
            && (e.result.Err? ==> e.result.error == api.boxStart(s.state, p).error)
            // it is the one-call `?` block of the reference semantics
            && e == Replay(api, s, [BoxStartOp(p)])
  {
    match pct
    case Err(err) => Exec([], Err(err))
    case Ok(size) =>
      var op := BoxStartOp(BoxStartProps(api, s, id, dir, size, styleNames));
      ReplayOne(api, s, op);
      Call(api, s, op)
  }

  /**
   * `box_start_with_component!`: open the box, render the component whose
   * id is the box's id, close the box.
   */
  function BoxStartWithComponent<S>(api: SurfaceApi<S>, s: Surface<S>, id: FlexBoxId, dir: Direction, pct: SizeArg, styleNames: seq<string>): (e: Exec<S>)
    ensures pct.Err? ==> e == Exec([], Err(pct.error))
    ensures pct.Ok? ==> e == Replay(api, s, [BoxStartOp(BoxStartProps(api, s, id, dir, pct.value, styleNames)), RenderOp(id), BoxEndOp])
    ensures e.result.Ok? ==> Balanced(e.trace)
    ensures 0 < |e.trace| && e.trace[|e.trace| - 1] != BoxEndOp ==> e.result.Err? && !Balanced(e.trace)
    // a surface call is made exactly when the size argument evaluates
    ensures |e.trace| == 0 <==> pct.Err?
  {
    var e := AndThen(AndThen(BoxStart(api, s, id, dir, pct, styleNames),
                             s1 => Call(api, s1, RenderOp(id))),
                     s2 => Call(api, s2, BoxEndOp));
    if pct.Ok? then
      var p := BoxStartProps(api, s, id, dir, pct.value, styleNames);
      ReplayThree(api, s, BoxStartOp(p), RenderOp(id), BoxEndOp);
      BalancedBoxRender(p, id);
      e
    else
      e
  }

  /** Replaying one call is making that call. */
  lemma ReplayOne<S>(api: SurfaceApi<S>, s: Surface<S>, c: SurfaceOp)
    ensures Replay(api, s, [c]) == Call(api, s, c)
  {
    assert [c][1..] == [];
    var first := Call(api, s, c);
    if first.result.Ok? {
      assert Replay(api, first.result.value, []) == Exec([], Ok(first.result.value));
      assert [c] + [] == [c];
    }
  }

  /** Replaying two calls is chaining them with `?`. */
  lemma ReplayTwo<S>(api: SurfaceApi<S>, s: Surface<S>, b: SurfaceOp, c: SurfaceOp)
    ensures Replay(api, s, [b, c]) == AndThen(Call(api, s, b), s2 => Call(api, s2, c))
  {
    assert [b, c][0] == b;
    assert [b, c][1..] == [c];
    var first := Call(api, s, b);
    if first.result.Ok? {
      ReplayOne(api, first.result.value, c);
      assert [b] + [c] == [b, c];
    }
  }

  /** Replaying three calls is chaining them with `?`. */
  lemma ReplayThree<S>(api: SurfaceApi<S>, s: Surface<S>, a: SurfaceOp, b: SurfaceOp, c: SurfaceOp)
    ensures Replay(api, s, [a, b, c])
         == AndThen(AndThen(Call(api, s, a), s1 => Call(api, s1, b)), s2 => Call(api, s2, c))
  {
    assert [a, b, c][0] == a;
    assert [a, b, c][1..] == [b, c];
    var first := Call(api, s, a);
    if first.result.Ok? {
      var s1 := first.result.value;
      ReplayTwo(api, s1, b, c);
      var second := Call(api, s1, b);
      if second.result.Ok? {
        var third := Call(api, second.result.value, c);
        assert [a] + ([b] + third.trace) == [a] + [b] + third.trace;
      }
    }
  }

  /** The three shapes a `box_start_with_component!` trace can take. */
  lemma BalancedBoxRender(p: FlexBoxProps, id: FlexBoxId)
    ensures Balanced([BoxStartOp(p), RenderOp(id), BoxEndOp])
    ensures !Balanced([BoxStartOp(p)]) && !Balanced([BoxStartOp(p), RenderOp(id)])
  {
    assert Balanced([RenderOp(id)]) by { assert [RenderOp(id)][1..] == []; }
    assert Balanced([]);
    BalancedWrapBox(p, [RenderOp(id)]);
    assert [BoxStartOp(p)] + [RenderOp(id)] + [BoxEndOp] == [BoxStartOp(p), RenderOp(id), BoxEndOp];
    UnclosedBoxIsUnbalanced(p, []);
    assert [BoxStartOp(p)] + [] == [BoxStartOp(p)];
    UnclosedBoxIsUnbalanced(p, [RenderOp(id)]);
    assert [BoxStartOp(p)] + [RenderOp(id)] == [BoxStartOp(p), RenderOp(id)];
  }

  lemma BalancedWrapBoxWhen(p: FlexBoxProps, inner: seq<SurfaceOp>)
    ensures Balanced(inner) ==> Balanced([BoxStartOp(p)] + inner + [BoxEndOp])
  {
    if Balanced(inner) {
      BalancedWrapBox(p, inner);
    }
  }

  lemma BalancedWrapSurfaceWhen(sp: SurfaceProps, inner: seq<SurfaceOp>)
    ensures Balanced(inner) ==> Balanced([SurfaceStartOp(sp)] + inner + [SurfaceEndOp])
  {
    if Balanced(inner) {
      BalancedWrapSurface(sp, inner);
    }
  }

  /** Every successful run of `run` leaves a balanced trace. */
  ghost predicate Nests<S(!new)>(run: Runnable<S>)
  {
    forall s :: run(s).result.Ok? ==> Balanced(run(s).trace)
  }

  /**
   * `box_start_with_runnable!`: open the box, let the runnable lay out its
   * contents on the surface `box_start` left, close the box.
   */
  function BoxStartWithRunnable<S(!new)>(api: SurfaceApi<S>, s: Surface<S>, run: Runnable<S>, id: FlexBoxId, dir: Direction, pct: SizeArg, styleNames: seq<string>): (e: Exec<S>)
    ensures pct.Err? ==> e == Exec([], Err(pct.error))
    ensures pct.Ok? ==> |e.trace| > 0 && e.trace[0] == BoxStartOp(BoxStartProps(api, s, id, dir, pct.value, styleNames))
    ensures var afterStart := BoxStart(api, s, id, dir, pct, styleNames);
            && (afterStart.result.Err? ==> e == afterStart)
            && (afterStart.result.Ok? && run(afterStart.result.value).result.Err? ==>
                  e == Exec(afterStart.trace + run(afterStart.result.value).trace, run(afterStart.result.value).result))
            && (afterStart.result.Ok? && run(afterStart.result.value).result.Ok? ==>
                  e.trace == afterStart.trace + run(afterStart.result.value).trace + [BoxEndOp]
                  && e.result == Call(api, run(afterStart.result.value).result.value, BoxEndOp).result)
    // per run: a successful expansion around a balanced inner record is balanced
    ensures var afterStart := BoxStart(api, s, id, dir, pct, styleNames);
            afterStart.result.Ok? && Balanced(run(afterStart.result.value).trace) && e.result.Ok? ==> Balanced(e.trace)
    ensures Nests(run) && e.result.Ok? ==> Balanced(e.trace)
  {
    var afterStart := BoxStart(api, s, id, dir, pct, styleNames);
    var e := AndThen(AndThen(afterStart, run), s2 => Call(api, s2, BoxEndOp));
    if afterStart.result.Ok? && run(afterStart.result.value).result.Ok? then
      var p := BoxStartProps(api, s, id, dir, pct.value, styleNames);
      var inner := run(afterStart.result.value).trace;
      assert e.trace == [BoxStartOp(p)] + inner + [BoxEndOp];
      BalancedWrapBoxWhen(p, inner);
      e
    else
      e
  }

  /**
   * `surface_start_with_runnable!`: a default surface carrying the given
   * stylesheet is started, handed to the runnable, ended, and returned.
   */
  function SurfaceStartWithRunnable<S(!new)>(api: SurfaceApi<S>, run: Runnable<S>, stylesheet: Stylesheet, pos: Position, size: Size): (e: Exec<S>)
    ensures var sp := SurfaceProps(pos, size);
            var started := Call(api, Surface(stylesheet, api.defaultState), SurfaceStartOp(sp));
            && |e.trace| > 0 && e.trace[0] == SurfaceStartOp(sp)
            && (started.result.Err? ==> e == started)
            && (started.result.Ok? ==> started.result.value.stylesheet == stylesheet)
            && (started.result.Ok? && run(started.result.value).result.Err? ==>
                  e == Exec([SurfaceStartOp(sp)] + run(started.result.value).trace, run(started.result.value).result))
            && (started.result.Ok? && run(started.result.value).result.Ok? ==>
                  e.trace == [SurfaceStartOp(sp)] + run(started.result.value).trace + [SurfaceEndOp]
                  && e.result == Call(api, run(started.result.value).result.value, SurfaceEndOp).result)
    // per run: a successful expansion around a balanced inner record is balanced
    ensures var started := Call(api, Surface(stylesheet, api.defaultState), SurfaceStartOp(SurfaceProps(pos, size)));
            started.result.Ok? && Balanced(run(started.result.value).trace) && e.result.Ok? ==> Balanced(e.trace)
    ensures Nests(run) && e.result.Ok? ==> Balanced(e.trace)
  {
    var sp := SurfaceProps(pos, size);
    var started := Call(api, Surface(stylesheet, api.defaultState), SurfaceStartOp(sp));
    var e := AndThen(AndThen(started, run), s2 => Call(api, s2, SurfaceEndOp));
    if started.result.Ok? && run(started.result.value).result.Ok? then
      var inner := run(started.result.value).trace;
      assert e.trace == [SurfaceStartOp(sp)] + inner + [SurfaceEndOp];
      BalancedWrapSurfaceWhen(sp, inner);
      e
    else
      e
  }

  // ---------------------------------------------------------------------------
  // Composition: layouts written with these macros stay balanced
  // ---------------------------------------------------------------------------

  /**
   * Two pieces of layout code one after the other, the second skipped if the
   * first fails: each macro expands to statements ending in `?;`, so two
   * expansions written in a runnable's body compose this way.
   */
  function Sequence<S>(first: Runnable<S>, second: Runnable<S>): Runnable<S>
  {
    s => AndThen(first(s), second)
  }

  lemma SequenceNests<S(!new)>(first: Runnable<S>, second: Runnable<S>)
    requires Nests(first) && Nests(second)
    ensures Nests(Sequence(first, second))
  {
    forall s | Sequence(first, second)(s).result.Ok?
      ensures Balanced(Sequence(first, second)(s).trace)
    {
      var r := first(s);
      assert r.result.Ok?;
      BalancedConcat(r.trace, second(r.result.value).trace);
    }
  }

  /** A `box_start_with_component!` is a runnable that nests. */
  lemma BoxStartWithComponentNests<S(!new)>(api: SurfaceApi<S>, id: FlexBoxId, dir: Direction, pct: SizeArg, styleNames: seq<string>)
    ensures Nests(s => BoxStartWithComponent(api, s, id, dir, pct, styleNames))
  {
  }

  /** Wrapping a nesting runnable in `box_start_with_runnable!` gives a runnable that nests. */
  lemma BoxStartWithRunnableNests<S(!new)>(api: SurfaceApi<S>, run: Runnable<S>, id: FlexBoxId, dir: Direction, pct: SizeArg, styleNames: seq<string>)
    requires Nests(run)
    ensures Nests(s => BoxStartWithRunnable(api, s, run, id, dir, pct, styleNames))
  {
  }
}
