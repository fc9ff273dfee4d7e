/**
 * The operations a layout performs on a `Surface`, recorded in call order,
 * and what it means for such a record to be balanced: every `box_start` /
 * `surface_start` is closed by the matching `box_end` / `surface_end`, in
 * last-opened-first-closed order.
 */
module SurfaceTrace {
  import opened TuiCore

  datatype Direction = Horizontal | Vertical

  type Percent = p: nat | p <= 100

  /** A width/height pair of percentages, each at most 100. */
  datatype RequestedSizePercent = RequestedSizePercent(width: Percent, height: Percent)

  datatype Style = Style(id: string)
  datatype Stylesheet = Stylesheet(styles: seq<Style>)

  /** What `box_start` receives: the id in its string form and the optional resolved styles. */
  datatype FlexBoxProps = FlexBoxProps(
    id: string,
    dir: Direction,
    requestedSizePercent: RequestedSizePercent,
    maybeStyles: Option<seq<Style>>)

  datatype SurfaceProps = SurfaceProps(pos: Position, size: Size)

  /** One call on a surface. `RenderOp` is the component render inside the current box. */
  datatype SurfaceOp =
    | SurfaceStartOp(surfaceProps: SurfaceProps)
    | BoxStartOp(props: FlexBoxProps)
    | RenderOp(componentId: FlexBoxId)
    | BoxEndOp
    | SurfaceEndOp

  /** A scope that is open at some point of a trace. */
  datatype Scope = BoxScope | SurfaceScope

  /**
   * Runs a trace against a stack of open scopes (top at the end); `None` as
   * soon as an end does not match the innermost open scope.
   */
  function Scan(t: seq<SurfaceOp>, open: seq<Scope>): Option<seq<Scope>>
    decreases |t|
  {
    if |t| == 0 then Some(open)
    else
      match t[0]
      case SurfaceStartOp(_) => Scan(t[1..], open + [SurfaceScope])
      case BoxStartOp(_) => Scan(t[1..], open + [BoxScope])
      case RenderOp(_) => Scan(t[1..], open)
      case BoxEndOp =>
        if |open| > 0 && open[|open| - 1] == BoxScope then Scan(t[1..], open[..|open| - 1]) else None
      case SurfaceEndOp =>
        if |open| > 0 && open[|open| - 1] == SurfaceScope then Scan(t[1..], open[..|open| - 1]) else None
  }

  /** Starts and ends pair up in LIFO order and nothing is left open. */
  predicate Balanced(t: seq<SurfaceOp>)
  {
    Scan(t, []) == Some([])
  }

  /** Scanning a concatenation is scanning the first part, then the second from where it left off. */
  lemma {:induction false} ScanAppend(a: seq<SurfaceOp>, b: seq<SurfaceOp>, open: seq<Scope>)
    ensures Scan(a + b, open) == (match Scan(a, open) case None => None case Some(o) => Scan(b, o))
    decreases |a|
  {
    if |a| == 0 {
      assert a + b == b;
    } else {
      assert (a + b)[1..] == a[1..] + b;
      match a[0]
      case SurfaceStartOp(_) => ScanAppend(a[1..], b, open + [SurfaceScope]);
      case BoxStartOp(_) => ScanAppend(a[1..], b, open + [BoxScope]);
      case RenderOp(_) => ScanAppend(a[1..], b, open);
      case BoxEndOp =>
        if |open| > 0 && open[|open| - 1] == BoxScope {
          ScanAppend(a[1..], b, open[..|open| - 1]);
        }
      case SurfaceEndOp =>
        if |open| > 0 && open[|open| - 1] == SurfaceScope {
          ScanAppend(a[1..], b, open[..|open| - 1]);
        }
    }
  }

  /** A trace that scans from `open` to `closed` does the same underneath any further open scopes. */
  lemma {:induction false} ScanUnder(t: seq<SurfaceOp>, base: seq<Scope>, open: seq<Scope>, closed: seq<Scope>)
    requires Scan(t, open) == Some(closed)
    ensures Scan(t, base + open) == Some(base + closed)
    decreases |t|
  {
    if |t| == 0 {
    } else {
      match t[0]
      case SurfaceStartOp(_) =>
        assert (base + open) + [SurfaceScope] == base + (open + [SurfaceScope]);
        ScanUnder(t[1..], base, open + [SurfaceScope], closed);
      case BoxStartOp(_) =>
        assert (base + open) + [BoxScope] == base + (open + [BoxScope]);
        ScanUnder(t[1..], base, open + [BoxScope], closed);
      case RenderOp(_) =>
        ScanUnder(t[1..], base, open, closed);
      case BoxEndOp =>
        assert (base + open)[..|base + open| - 1] == base + open[..|open| - 1];
        ScanUnder(t[1..], base, open[..|open| - 1], closed);
      case SurfaceEndOp =>
        assert (base + open)[..|base + open| - 1] == base + open[..|open| - 1];
        ScanUnder(t[1..], base, open[..|open| - 1], closed);
    }
  }

  /** Scanning a lone start pushes its scope. */
  lemma ScanOpen(op: SurfaceOp, open: seq<Scope>)
    requires op.BoxStartOp? || op.SurfaceStartOp?
    ensures Scan([op], open) == Some(open + [if op.BoxStartOp? then BoxScope else SurfaceScope])
  {
    assert [op][1..] == [];
  }

  /** Scanning a lone end pops the matching innermost scope. */
  lemma ScanClose(op: SurfaceOp, base: seq<Scope>)
    requires op.BoxEndOp? || op.SurfaceEndOp?
    ensures Scan([op], base + [if op.BoxEndOp? then BoxScope else SurfaceScope]) == Some(base)
  {
    assert [op][1..] == [];
    var k := if op.BoxEndOp? then BoxScope else SurfaceScope;
    assert (base + [k])[..|base + [k]| - 1] == base;
  }

  /** Two balanced traces in sequence are balanced. */
  lemma BalancedConcat(a: seq<SurfaceOp>, b: seq<SurfaceOp>)
    requires Balanced(a) && Balanced(b)
    ensures Balanced(a + b)
  {
    ScanAppend(a, b, []);
  }

  /** A balanced trace wrapped in a box start and a box end is balanced. */
  lemma BalancedWrapBox(p: FlexBoxProps, inner: seq<SurfaceOp>)
    requires Balanced(inner)
    ensures Balanced([BoxStartOp(p)] + inner + [BoxEndOp])
  {
    ScanAppend([BoxStartOp(p)], inner + [BoxEndOp], []);
    assert [BoxStartOp(p)] + inner + [BoxEndOp] == [BoxStartOp(p)] + (inner + [BoxEndOp]);
    ScanOpen(BoxStartOp(p), []);
    ScanUnder(inner, [BoxScope], [], []);
    assert [BoxScope] + [] == [BoxScope];
    ScanAppend(inner, [BoxEndOp], [BoxScope]);
    ScanClose(BoxEndOp, []);
    assert [] + [BoxScope] == [BoxScope];
  }

  /** A balanced trace wrapped in a surface start and a surface end is balanced. */
  lemma BalancedWrapSurface(sp: SurfaceProps, inner: seq<SurfaceOp>)
    requires Balanced(inner)
    ensures Balanced([SurfaceStartOp(sp)] + inner + [SurfaceEndOp])
  {
    ScanAppend([SurfaceStartOp(sp)], inner + [SurfaceEndOp], []);
    assert [SurfaceStartOp(sp)] + inner + [SurfaceEndOp] == [SurfaceStartOp(sp)] + (inner + [SurfaceEndOp]);
    ScanOpen(SurfaceStartOp(sp), []);
    ScanUnder(inner, [SurfaceScope], [], []);
    assert [SurfaceScope] + [] == [SurfaceScope];
    ScanAppend(inner, [SurfaceEndOp], [SurfaceScope]);
    ScanClose(SurfaceEndOp, []);
    assert [] + [SurfaceScope] == [SurfaceScope];
  }

  /** A box start followed by a balanced trace, with no end, leaves that box open. */
  lemma UnclosedBoxIsUnbalanced(p: FlexBoxProps, inner: seq<SurfaceOp>)
    requires Balanced(inner)
    ensures Scan([BoxStartOp(p)] + inner, []) == Some([BoxScope])
    ensures !Balanced([BoxStartOp(p)] + inner)
  {
    ScanAppend([BoxStartOp(p)], inner, []);
    ScanOpen(BoxStartOp(p), []);
    assert [] + [BoxScope] == [BoxScope];
    ScanUnder(inner, [BoxScope], [], []);
    assert [BoxScope] + [] == [BoxScope];
  }

  /** A surface start followed by a balanced trace, with no end, leaves the surface open. */
  lemma UnclosedSurfaceIsUnbalanced(sp: SurfaceProps, inner: seq<SurfaceOp>)
    requires Balanced(inner)
    ensures Scan([SurfaceStartOp(sp)] + inner, []) == Some([SurfaceScope])
    ensures !Balanced([SurfaceStartOp(sp)] + inner)
  {
    ScanAppend([SurfaceStartOp(sp)], inner, []);
    ScanOpen(SurfaceStartOp(sp), []);
    assert [] + [SurfaceScope] == [SurfaceScope];
    ScanUnder(inner, [SurfaceScope], [], []);
    assert [SurfaceScope] + [] == [SurfaceScope];
  }
}
