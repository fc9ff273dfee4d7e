# Component shims and layout macros of the r3bl terminal-UI framework, in Dafny

This project models three pieces of decision logic from the r3bl TUI
framework:

- **The dialog component shim** (`DialogComponent`). It fetches the dialog
  buffer for its own id from the application state, or uses an empty one. It
  hands the buffer to the dialog engine. It then maps the engine's four-way
  `DialogEngineApplyResponse` to an `EventPropagation`. On a user choice it
  clears the registry's modal focus before it calls the press handler. On
  `render` it records the surface bounds in the engine and ignores the current
  box.
- **The editor component shim** (`EditorComponent`). It follows the same
  pattern with the editor engine's two-way `ApplyResponse`. `Applied(buffer)`
  calls the buffer-change handler with `(store, own id, buffer)` and returns
  `Consumed`. `NotApplied` returns `Propagate`.
- **The layout macros** (`box_props!`, `box_start!`,
  `box_start_with_component!`, `box_start_with_runnable!`,
  `surface_start_with_runnable!`). Each is modelled as the function its
  expansion computes: the ordered record of calls it makes on a `Surface`,
  and the surface or error it ends with. Every call is followed by `?`, so the
  first failure ends the expansion. The closing `box_end` / `surface_end` is
  then never made.

The engines (`apply_event`, `render_engine`), the surface operations, style
lookup (`get_styles!`) and component rendering (`render!`) are not part of
this model. They are supplied as function-valued parameters (`DialogEngineApi`,
`EditorEngineApi`, `SurfaceApi`), so every property holds whatever they do.
User callbacks are recorded as effects in call order. A dialog handler's
effect also records the registry's focus at the moment the handler runs; the
handler itself receives only its arguments. Each outcome records the
arguments the shim handed to the engine.

Files:

- `core.dfy` (`TuiCore`): results, `EventPropagation`, geometry, the registry's
  focus pair `HasFocus`, the buffers and the state-access capability.
- `flex_box_id.dfy` (`FlexBoxIds`): the decimal string form of a box id and
  reading it back.
- `surface_trace.dfy` (`SurfaceTrace`): surface calls, and when a record of
  them is balanced (starts and ends pair up in last-in-first-out order).
- `layout_macros.dfy` (`LayoutMacros`): the macros.
- `dialog_component.dfy` (`DialogShim`) and `editor_component.dfy`
  (`EditorShim`): the two shims.

Two facts about the code that the model keeps:

- The editor shim returns `Consumed` for every `Applied`, whatever the edit
  was; it never returns `ConsumedRender`
  (tui/src/tui/editor/component/editor_component.rs:102-107).
- Every macro call ends in `?`, so a failure skips the `box_end` /
  `surface_end` that would have closed the open box or surface
  (src/tui/rsx/layout_macros.rs:43, 75, 101, 110-112).

## Model

| member | source | states |
|---|---|---|
| DialogShim.HandleEvent | tui/src/tui/dialog/dialog_component/dialog_component_struct.rs:113-188 | On a choice the modal reset is the first effect, before any handler call. The engine receives the component's id, its buffer or the empty default, and the unmodified state. An engine error is returned unchanged, with no effects. Responses map to propagation in both directions: `DialogChoice` or `SelectScrollResultsPanel` give `ConsumedRender`, `UpdateEditorBuffer` gives `Consumed`, anything else gives `Propagate`. The press handler runs exactly once with the choice when it is set and the response is a choice, and never otherwise. The editor-change handler runs exactly once with the new buffer on `UpdateEditorBuffer`, and never otherwise. Modal focus is reset on a choice and only then. On any other response the focus stays as the engine left it. The final focus is what the recorded effects make of the engine's focus. Every handler runs while the registry holds the focus left by the effects before it. The press handler therefore runs while modal focus is cleared and normal focus is as the engine left it. Id and handlers are unchanged. The registry focus, store, shared global data and window size all reach the engine as given. |
| DialogShim.DialogBufferFor | tui/src/tui/dialog/dialog_component/dialog_component_struct.rs:126-131 | The state's dialog buffer for the id when present, otherwise `DialogBuffer::new_empty()`. |
| DialogShim.EngineArgs | tui/src/tui/dialog/dialog_component/dialog_component_struct.rs:133-144 | The engine arguments carry `self_id == self.id`, the fetched-or-default buffer, the component's engine, and the state, registry focus, store, shared global data and window size as given. |
| DialogShim.Render | tui/src/tui/dialog/dialog_component/dialog_component_struct.rs:65-102 | The engine renders with `maybe_surface_bounds == Some(surface_bounds)` and the rest of its state unchanged. It gets the same id and buffer as `handle_event`, and the focus, store, shared global data and window size as given. The engine's result is returned unchanged. |
| DialogShim.RenderIgnoresCurrentBox | tui/src/tui/dialog/dialog_component/dialog_component_struct.rs:59-71 | Two renders that differ only in `current_box` have identical outcomes. |
| DialogShim.RenderAndHandleShareBuffer | tui/src/tui/dialog/dialog_component/dialog_component_struct.rs:81-99 | `render` and `handle_event` hand the engine identical arguments, except for the surface bounds that `render` records. |
| DialogShim.ChoiceRestoresNormalFocus | tui/src/tui/dialog/dialog_component/dialog_component_struct.rs:148-165 | After a `DialogChoice`, no modal id remains and routing goes to the normally focused id. This holds even if the dialog held modal focus. The result is `ConsumedRender`. |
| DialogShim.New | tui/src/tui/dialog/dialog_component/dialog_component_struct.rs:199-212 | `new` stores the id, sets both handlers to `Some`, and builds the engine from both option sets. |
| DialogShim.NewComponentCallsPressHandler | tui/src/tui/dialog/dialog_component/dialog_component_struct.rs:159-165 | For a component built by `new`, a choice produces exactly two effects: the modal reset, then one call of the given press handler. That call receives the choice and the store. It runs after the reset, while the registry's focus is the restored one. |
| EditorShim.HandleEvent | tui/src/tui/editor/component/editor_component.rs:68-114 | The engine receives the component's id, its buffer or the default, and the unmodified state. An engine error is returned unchanged, with no handler call. `Applied` gives `Consumed`, `NotApplied` gives `Propagate`, and `ConsumedRender` never occurs. The handler is called exactly once, with `(store, self.id, buffer)`, when the event applied and a handler is set. Otherwise nothing is called. Focus is left as the engine left it. The registry focus, store and shared global data reach the engine as given. |
| EditorShim.EditorBufferFor | tui/src/tui/editor/component/editor_component.rs:82-88 | The state's editor buffer for the id when present, otherwise `EditorBuffer::default()`. |
| EditorShim.EngineArgs | tui/src/tui/editor/component/editor_component.rs:91-99 | The engine arguments carry `self_id == self.id`, the fetched-or-default buffer, the component's engine, and the state, registry focus, store and shared global data as given. |
| EditorShim.Render | tui/src/tui/editor/component/editor_component.rs:124-156 | The engine renders into the current box with the same id and buffer rule, and the state, focus, store and shared global data as given. Its result is returned unchanged. |
| EditorShim.RenderAndHandleShareArgs | tui/src/tui/editor/component/editor_component.rs:137-153 | `render` and `handle_event` hand the engine identical arguments. |
| EditorShim.New | tui/src/tui/editor/component/editor_component.rs:171-181 | `new(id, cfg, f)` stores `id`, sets the handler to `Some(f)`, and its engine is `EditorEngine::new(cfg)`, which keeps `cfg` (see "Left out"). |
| EditorShim.NewComponentCallsHandler | tui/src/tui/editor/component/editor_component.rs:102-107 | For a component built by `new`, an applied event calls the given handler exactly once, with its own id and the engine's new buffer. The result is `Consumed`. |
| LayoutMacros.BoxProps | src/tui/rsx/layout_macros.rs:136-178 | Every arm stores the id's string form, which reads back as the id, and copies `dir` and `requested_size_percent`. The expression arm copies `maybe_styles` verbatim. The list arm gives `Some(list)`. The no-styles arm gives `None`. |
| LayoutMacros.MakeProps | src/tui/rsx/layout_macros.rs:146-151 | The props' id reads back as the original id, and the other fields are the arguments. |
| LayoutMacros.BoxPropsAsWritten | src/tui/rsx/layout_macros.rs:137-152 | With the rules in written order, every input that is not a bracketed list expands exactly as intended. |
| LayoutMacros.BoxPropsListArmShadowed | src/tui/rsx/layout_macros.rs:153-165 | In written order the list rule is never chosen, for any input, and a bracketed list expands to an ill-typed field. In the intended order the list rule is chosen and gives `Some(list)`. |
| LayoutMacros.BoxPropsAsWrittenAgreesOffList | src/tui/rsx/layout_macros.rs:136-178 | The written and intended expansions agree exactly when the styles are not a bracketed list. |
| LayoutMacros.BoxStartProps | src/tui/rsx/layout_macros.rs:127-132 | The props come from `box_props!` as written, with the styles as an expression. Styles are resolved from the stylesheet of the surface that `box_start` is then called on. The id, direction and size are carried over. |
| LayoutMacros.BoxStart | src/tui/rsx/layout_macros.rs:118-134 | A failing size argument ends the expansion with its error before any call. Otherwise exactly one call, `box_start` with those props. On success the surface holds `box_start`'s resulting state and the same stylesheet. On failure the error `?` propagates is `box_start`'s own. It equals the one-call block of `Replay`. |
| LayoutMacros.BoxStartWithComponent | src/tui/rsx/layout_macros.rs:19-45 | A failing size argument ends the expansion with its error, and no call is made exactly in that case. Otherwise the expansion is `box_start(props)`, `render(component_id = id)`, `box_end`, in that order, stopping at the first failure. `props.id` reads back as the same `id`. On success the record is balanced. A record that stops before `box_end` is a failure and leaves the box open. |
| LayoutMacros.Replay | src/tui/rsx/layout_macros.rs:29-43 | A straight-line block of `?`-guarded calls: the record is a prefix of the calls, it is the whole block exactly on success, the stylesheet is kept, and a failure records at least one call. |
| LayoutMacros.ReplayStopsAtFailure | src/tui/rsx/layout_macros.rs:37-43 | A failing block fails on its last recorded call, with that call's own error, after every earlier call succeeded. |
| LayoutMacros.BoxStartWithRunnable | src/tui/rsx/layout_macros.rs:50-77 | A failing size argument ends the expansion with its error before any call. Otherwise the record is `box_start`, then the runnable's calls on the surface `box_start` left, then `box_end`. A failing `box_start` stops everything. A failing runnable ends the expansion with its error and no `box_end`. A successful expansion is balanced whenever this run's inner record is balanced. It is therefore balanced for every run when the runnable only succeeds with balanced records. |
| LayoutMacros.SurfaceStartWithRunnable | src/tui/rsx/layout_macros.rs:82-116 | A default surface carrying the given stylesheet gets `surface_start(pos, size)`. The runnable then runs on it, then `surface_end`, and the surface is returned. Each failure stops the rest. A successful expansion is balanced whenever this run's inner record is balanced. It is therefore balanced for every run when the runnable only succeeds with balanced records. |
| LayoutMacros.BoxStartWithComponentNests | src/tui/rsx/layout_macros.rs:29-43 | Used as a runnable, `box_start_with_component!` only succeeds with balanced records. |
| LayoutMacros.SequenceNests | src/tui/rsx/layout_macros.rs:29-44 | Each expansion is statements ending in `?;`. Two placed one after the other in a runnable's body run the second only after the first succeeds. If each piece only succeeds with balanced records, so does the pair. |
| LayoutMacros.BoxStartWithRunnableNests | src/tui/rsx/layout_macros.rs:63-75 | Wrapping a runnable that nests in `box_start_with_runnable!` gives a runnable that nests, so layouts built from these macros stay balanced at any depth. |
| SurfaceTrace.BalancedWrapBox | src/tui/rsx/layout_macros.rs:63-75 | A balanced record between `box_start` and `box_end` is balanced. |
| SurfaceTrace.BalancedWrapSurface | src/tui/rsx/layout_macros.rs:98-112 | A balanced record between `surface_start` and `surface_end` is balanced. |
| SurfaceTrace.UnclosedBoxIsUnbalanced | src/tui/rsx/layout_macros.rs:71-75 | `box_start` followed by a balanced record, with the `box_end` skipped, leaves exactly that box open. |
| SurfaceTrace.UnclosedSurfaceIsUnbalanced | src/tui/rsx/layout_macros.rs:103-112 | `surface_start` followed by a balanced record, with the `surface_end` skipped, leaves exactly the surface open. |
| FlexBoxIds.ParseIdToString | src/tui/rsx/layout_macros.rs:147 | The decimal string form of an id reads back as that id. |
| FlexBoxIds.IdToStringInjective | src/tui/rsx/layout_macros.rs:147 | Distinct ids have distinct string forms, so a box's props identify the component it renders. |

## Left out

- The dialog and editor engines (`apply_event`, `render_engine`, `DialogEngine::reset`). They are not part of this model and are parameters. `DialogComponent::reset` is left out with them, since it only calls the engine's `reset`.
- `NewEditorEngine`: `EditorEngine::new` is not part of this model. It is taken to build an engine that keeps the options it was given; `EditorShim.New`'s claim about the engine's options rests on this.
- `NewDialogEngine`: `DialogEngine::new` is not part of this model. It is taken to store both option sets and start with no surface bounds; no property depends on the bounds it starts with.
- The surface operations (`surface_start`, `box_start`, `box_end`, `surface_end`), with their percentage resolution and error kinds. They are parameters of `SurfaceApi`.
- LayoutMacros.Call: the surface operations take `&mut self` on the whole `Surface`, but the model lets them change only the surface's state, not its stylesheet. The "stylesheet is kept" clauses of `BoxStart`, `Replay` and `SurfaceStartWithRunnable` rest on this assumption.
- TuiCore.HasFocus: the registry's focus semantics are not part of this model. `ResetModalId` is taken to clear only the modal id, and `RoutedId` to route to the modal id when set and to normal focus otherwise. `DialogShim.ChoiceRestoresNormalFocus`'s routing clause rests on these.
- `get_styles!` and the body of `render!`. Both are parameters. `render!` is modelled as one call that can fail.
- The percentage conversion itself (`(50, 100).try_into()`). The argument is substituted unevaluated into the `box_props!` struct literal, inside the `box_start` call. Its evaluation is therefore modelled as a `SizeArg`: a ready value, or an error that ends the expansion before `box_start`. Which pairs fail to convert is not modelled.
- Box ids are unbounded naturals, not `u8`. No id arithmetic happens, so the width does not matter. String-literal ids, for which `to_string` is the identity, are not modelled separately.
- The component registry is reduced to its focus pair. Its other contents are not touched by the shims.
- Engine options, buffers, choices, render pipelines, the store and shared global data are opaque carriers. The shims pass them on without looking inside.
- `async`/`await`, `Arc<RwLock<..>>` and `new_shared`. They only provide shared concurrent access.
- The debug logging of the dialog shim. It is output only.
- The store dispatch that user callbacks perform. Callbacks are recorded as effects only.
- `tui/examples/demo/ex_editor/state_management/state.rs` (demo wiring; its lookup is the map lookup of `AppState`) and `tui/src/tui/syntax_highlighting/mod.rs` (only module declarations).

## Findings

| source | as written | input that shows it | evidently intended | confidence | as-written member | corrected member |
|---|---|---|---|---|---|---|
| src/tui/rsx/layout_macros.rs:137-165 | The first `box_props!` rule takes `maybe_styles: $arg_styles: expr`. A bracketed list is an array-literal expression, so it matches this rule, and the list rule after it is never tried. | `box_props! { id: 1, dir: Direction::Vertical, requested_size_percent: p, maybe_styles: [s] }` expands to `maybe_styles: [s]`, which is not an `Option<Vec<Style>>` | The list rule gives `maybe_styles: Some(vec![s])`; listing it before the expression rule achieves this | medium; not executed | LayoutMacros.BoxPropsAsWritten, shown by LayoutMacros.BoxPropsListArmShadowed | LayoutMacros.BoxProps |
