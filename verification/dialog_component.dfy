/**
 * `DialogComponent`: the shim that lets the reusable dialog engine act as a
 * component. It fetches the dialog buffer for its own id (or an empty one),
 * hands everything to the engine, and turns the engine's response into an
 * `EventPropagation`, clearing modal focus and calling the user's handlers
 * on the way. The engine itself is a parameter (`DialogEngineApi`); the
 * handlers' calls are recorded as effects, in order.
 */
module DialogShim {
  import opened TuiCore

  /** The user's choice as the engine reports it; the shim passes it on without looking inside. */
  datatype Choice = Choice(value: string)

  /** `DialogEngineApplyResponse`. */
  datatype DialogEngineApplyResponse =
    | DialogChoice(choice: Choice)
    | UpdateEditorBuffer(newEditorBuffer: EditorBuffer)
    | SelectScrollResultsPanel
    | Noop  // every response the shim's catch-all arm handles

  /** The engine's own state: its options and the surface bounds a render recorded. */
  datatype DialogEngine = DialogEngine(
    dialogOptions: DialogEngineConfigOptions,
    editorOptions: EditorEngineConfig,
    maybeSurfaceBounds: Option<SurfaceBounds>)

  datatype DialogComponent = DialogComponent(
    id: FlexBoxId,
    dialogEngine: DialogEngine,
    onDialogPressHandler: Option<Callback>,
    onDialogEditorChangeHandler: Option<Callback>)

  /** `DialogEngineArgs`: what the shim hands the engine. */
  datatype DialogEngineArgs = DialogEngineArgs(
    sharedGlobalData: SharedGlobalData,
    sharedStore: StoreHandle,
    state: AppState,
    focus: HasFocus,
    selfId: FlexBoxId,
    dialogEngine: DialogEngine,
    dialogBuffer: DialogBuffer,
    windowSize: Size)

  /** `DialogEngineApi::apply_event` and `DialogEngineApi::render_engine`. */
  datatype DialogEngineApi = DialogEngineApi(
    applyEvent: (DialogEngineArgs, InputEvent) -> EngineReply<DialogEngineApplyResponse, DialogEngine>,
    renderEngine: DialogEngineArgs -> EngineReply<RenderPipeline, DialogEngine>)

  /**
   * What the shim does besides returning: clear the registry's modal id, or
   * call one of the user's handlers. A handler receives only its arguments;
   * `focusSeen` records the registry's focus at the moment it runs.
   */
  datatype DialogEffect =
    | ModalIdReset
    | PressHandlerCalled(handler: Callback, choice: Choice, store: StoreHandle, focusSeen: HasFocus)
    | EditorChangeHandlerCalled(handler: Callback, buffer: EditorBuffer, store: StoreHandle, focusSeen: HasFocus)

  /** The engine call made, the result, the component and focus afterwards, and the effects in order. */
  datatype HandleOutcome = HandleOutcome(
    engineCall: DialogEngineArgs,
    result: Result<EventPropagation>,
    component: DialogComponent,
    focus: HasFocus,
    effects: seq<DialogEffect>)

  datatype RenderOutcome = RenderOutcome(
    engineCall: DialogEngineArgs,
    result: Result<RenderPipeline>,
    component: DialogComponent,
    focus: HasFocus)

  // ---------------------------------------------------------------------------
  // Reading the effect record
  // ---------------------------------------------------------------------------

  /** The focus after applying the recorded effects in order; only a modal reset changes it. */
  function ApplyEffects(f: HasFocus, effects: seq<DialogEffect>): HasFocus
    decreases |effects|
  {
    if |effects| == 0 then f
    else ApplyEffects(if effects[0].ModalIdReset? then f.ResetModalId() else f, effects[1..])
  }

  /** The choices the press handler was called with, in order. */
  function PressChoices(effects: seq<DialogEffect>): seq<Choice>
    decreases |effects|
  {
    if |effects| == 0 then []
    else (if effects[0].PressHandlerCalled? then [effects[0].choice] else []) + PressChoices(effects[1..])
  }

  /** The buffers the editor-change handler was called with, in order. */
  function EditorChanges(effects: seq<DialogEffect>): seq<EditorBuffer>
    decreases |effects|
  {
    if |effects| == 0 then []
    else (if effects[0].EditorChangeHandlerCalled? then [effects[0].buffer] else []) + EditorChanges(effects[1..])
  }

  predicate IsHandlerCall(e: DialogEffect)
  {
    e.PressHandlerCalled? || e.EditorChangeHandlerCalled?
  }

  /** Every handler ran while the registry held the focus that the effects before it had produced. */
  predicate HandlersSeeEarlierEffects(start: HasFocus, effects: seq<DialogEffect>)
  {
    forall i :: 0 <= i < |effects| && IsHandlerCall(effects[i]) ==>
      effects[i].focusSeen == ApplyEffects(start, effects[..i])
  }

  // ---------------------------------------------------------------------------
  // The shim
  // ---------------------------------------------------------------------------

  /** The dialog buffer for `id` from state when there is one, otherwise `DialogBuffer::new_empty()`. */
  function DialogBufferFor(state: AppState, id: FlexBoxId): (b: DialogBuffer)
    ensures id in state.dialogBuffers ==> b == state.dialogBuffers[id]
    ensures id !in state.dialogBuffers ==> b == EmptyDialogBuffer()
  {
    match state.GetDialogBuffer(id)
    case Some(it) => it
    case None => EmptyDialogBuffer()
  }

  /** The engine arguments both `render` and `handle_event` build. */
  function EngineArgs(c: DialogComponent, scope: ComponentScopeArgs): (a: DialogEngineArgs)
    ensures a.selfId == c.id && a.dialogEngine == c.dialogEngine
    ensures a.dialogBuffer == DialogBufferFor(scope.state, c.id)
    ensures a.state == scope.state && a.focus == scope.focus && a.sharedStore == scope.sharedStore
    ensures a.sharedGlobalData == scope.sharedGlobalData && a.windowSize == scope.windowSize
  {
    DialogEngineArgs(scope.sharedGlobalData, scope.sharedStore, scope.state, scope.focus,
                     c.id, c.dialogEngine, DialogBufferFor(scope.state, c.id), scope.windowSize)
  }

  /** `DialogComponent::handle_event`. */
  function HandleEvent(c: DialogComponent, api: DialogEngineApi, scope: ComponentScopeArgs, event: InputEvent): (h: HandleOutcome)
    // the engine sees this component's id, its buffer (or the empty default) and the state as given
    ensures h.engineCall.selfId == c.id && h.engineCall.dialogEngine == c.dialogEngine
    ensures h.engineCall.dialogBuffer == DialogBufferFor(scope.state, c.id) && h.engineCall.state == scope.state
    // everything else in the scope is passed through as given
    ensures h.engineCall == EngineArgs(c, scope)
    ensures var reply := api.applyEvent(h.engineCall, event);
      // identity and handlers are the component's own; the engine keeps what the call made of it
      && h.component == c.(dialogEngine := reply.engine)
      // an engine error is returned as it is, with no effects
      && (reply.result.Err? ==> h.result == Err(reply.result.error) && h.effects == [] && h.focus == reply.focus)
      // the response -> propagation table, each row in both directions
      && (reply.result.Ok? ==> h.result.Ok?)
      && (reply.result.Ok? ==> (h.result.value == ConsumedRender <==>
                                 reply.result.value.DialogChoice? || reply.result.value.SelectScrollResultsPanel?))
      && (reply.result.Ok? ==> (h.result.value == Consumed <==> reply.result.value.UpdateEditorBuffer?))
      && (reply.result.Ok? ==> (h.result.value == Propagate <==> reply.result.value.Noop?))
      // the press handler runs exactly once, with the choice, when there is one; otherwise never
      && PressChoices(h.effects)
         == (if reply.result.Ok? && reply.result.value.DialogChoice? && c.onDialogPressHandler.Some?
             then [reply.result.value.choice] else [])
      // the editor-change handler runs exactly once, with the new buffer, when there is one; otherwise never
      && EditorChanges(h.effects)
         == (if reply.result.Ok? && reply.result.value.UpdateEditorBuffer? && c.onDialogEditorChangeHandler.Some?
             then [reply.result.value.newEditorBuffer] else [])
      // modal focus is cleared on a choice and on nothing else
      && (ModalIdReset in h.effects <==> reply.result.Ok? && reply.result.value.DialogChoice?)
      // on a choice the reset comes first, before any handler runs
      && (reply.result.Ok? && reply.result.value.DialogChoice? ==> |h.effects| > 0 && h.effects[0] == ModalIdReset)
      && (!(reply.result.Ok? && reply.result.value.DialogChoice?) ==> h.focus == reply.focus)
      // the press handler runs while the registry's modal focus is already cleared and normal focus is as the engine left it
      && (forall e :: e in h.effects && e.PressHandlerCalled? ==> e.focusSeen.modalId.None? && e.focusSeen.id == reply.focus.id)
      // the focus afterwards is exactly what the recorded effects make of the engine's
      && h.focus == ApplyEffects(reply.focus, h.effects)
      // handlers run after the reset: each runs while the registry holds the focus the earlier effects produced
      && HandlersSeeEarlierEffects(reply.focus, h.effects)
      // every handler called is the component's own
      && (forall e :: e in h.effects && e.PressHandlerCalled? ==> Some(e.handler) == c.onDialogPressHandler && e.store == scope.sharedStore)
      && (forall e :: e in h.effects && e.EditorChangeHandlerCalled? ==> Some(e.handler) == c.onDialogEditorChangeHandler && e.store == scope.sharedStore)
  {
    var args := EngineArgs(c, scope);
    var reply := api.applyEvent(args, event);
    var after := c.(dialogEngine := reply.engine);
    match reply.result
    case Err(err) => HandleOutcome(args, Err(err), after, reply.focus, [])
    case Ok(DialogChoice(choice)) => OnChoice(c, scope, args, after, reply.focus, choice)
    case Ok(UpdateEditorBuffer(newEditorBuffer)) => OnEditorUpdate(c, scope, args, after, reply.focus, newEditorBuffer)
    case Ok(SelectScrollResultsPanel) => HandleOutcome(args, Ok(ConsumedRender), after, reply.focus, [])
    case Ok(Noop) => HandleOutcome(args, Ok(Propagate), after, reply.focus, [])
  }

  /** The `DialogChoice` arm: reset modal focus, then call the press handler if there is one. */
  function OnChoice(c: DialogComponent, scope: ComponentScopeArgs, args: DialogEngineArgs, after: DialogComponent,
                    engineFocus: HasFocus, choice: Choice): (h: HandleOutcome)
    ensures h.engineCall == args && h.component == after && h.result == Ok(ConsumedRender)
    ensures |h.effects| > 0 && h.effects[0] == ModalIdReset && ModalIdReset in h.effects
    ensures PressChoices(h.effects) == (if c.onDialogPressHandler.Some? then [choice] else [])
    ensures EditorChanges(h.effects) == []
    ensures h.focus == engineFocus.ResetModalId() && h.focus == ApplyEffects(engineFocus, h.effects)
    ensures HandlersSeeEarlierEffects(engineFocus, h.effects)
    ensures forall e :: e in h.effects && e.PressHandlerCalled? ==>
              e.focusSeen.modalId.None? && e.focusSeen.id == engineFocus.id
              && Some(e.handler) == c.onDialogPressHandler && e.store == scope.sharedStore
    ensures forall e :: e in h.effects ==> !e.EditorChangeHandlerCalled?
  {
    var restored := engineFocus.ResetModalId();
    var calls := match c.onDialogPressHandler
      case Some(it) => [PressHandlerCalled(it, choice, scope.sharedStore, restored)]
      case None => [];
    ChoiceEffects(engineFocus, calls, restored);
    HandleOutcome(args, Ok(ConsumedRender), after, restored, [ModalIdReset] + calls)
  }

  /** The `UpdateEditorBuffer` arm: call the editor-change handler if there is one; focus is untouched. */
  function OnEditorUpdate(c: DialogComponent, scope: ComponentScopeArgs, args: DialogEngineArgs, after: DialogComponent,
                          engineFocus: HasFocus, newEditorBuffer: EditorBuffer): (h: HandleOutcome)
    ensures h.engineCall == args && h.component == after && h.result == Ok(Consumed)
    ensures ModalIdReset !in h.effects
    ensures PressChoices(h.effects) == []
    ensures EditorChanges(h.effects) == (if c.onDialogEditorChangeHandler.Some? then [newEditorBuffer] else [])
    ensures h.focus == engineFocus && h.focus == ApplyEffects(engineFocus, h.effects)
    ensures HandlersSeeEarlierEffects(engineFocus, h.effects)
    ensures forall e :: e in h.effects ==> !e.PressHandlerCalled?
    ensures forall e :: e in h.effects && e.EditorChangeHandlerCalled? ==>
              Some(e.handler) == c.onDialogEditorChangeHandler && e.store == scope.sharedStore
  {
    var calls := match c.onDialogEditorChangeHandler
      case Some(it) => [EditorChangeHandlerCalled(it, newEditorBuffer, scope.sharedStore, engineFocus)]
      case None => [];
    SingleCallEffects(engineFocus, calls);
    HandleOutcome(args, Ok(Consumed), after, engineFocus, calls)
  }

  /** The record of a choice: the reset, then at most one press call seeing the restored focus. */
  lemma ChoiceEffects(start: HasFocus, calls: seq<DialogEffect>, restored: HasFocus)
    requires restored == start.ResetModalId()
    requires |calls| <= 1
    requires forall e :: e in calls ==> e.PressHandlerCalled? && e.focusSeen == restored
    ensures ApplyEffects(start, [ModalIdReset] + calls) == restored
    ensures HandlersSeeEarlierEffects(start, [ModalIdReset] + calls)
    ensures PressChoices([ModalIdReset] + calls) == (if |calls| == 1 then [calls[0].choice] else [])
    ensures EditorChanges([ModalIdReset] + calls) == []
    ensures ([ModalIdReset] + calls)[0] == ModalIdReset
    ensures forall e :: e in [ModalIdReset] + calls ==> e == ModalIdReset || e in calls
  {
    var effects := [ModalIdReset] + calls;
    assert effects[1..] == calls;
    assert effects[..1] == [ModalIdReset];
    assert [ModalIdReset][1..] == [];
    if |calls| == 1 {
      assert calls[1..] == [];
      assert calls[0] in calls;
    }
  }

  /** A record of at most one handler call, run while the focus is as it was. */
  lemma SingleCallEffects(start: HasFocus, calls: seq<DialogEffect>)
    requires |calls| <= 1
    requires forall e :: e in calls ==> e.EditorChangeHandlerCalled? && e.focusSeen == start
    ensures ApplyEffects(start, calls) == start
    ensures HandlersSeeEarlierEffects(start, calls)
    ensures PressChoices(calls) == []
    ensures EditorChanges(calls) == (if |calls| == 1 then [calls[0].buffer] else [])
    ensures ModalIdReset !in calls
  {
    if |calls| == 1 {
      assert calls[1..] == [];
      assert calls[..0] == [];
      assert calls[0] in calls;
    }
  }

  /**
   * `DialogComponent::render`: the surface bounds are recorded in the
   * engine first, then the engine renders; the current box plays no part.
   */
  function Render(c: DialogComponent, api: DialogEngineApi, scope: ComponentScopeArgs, currentBox: FlexBox, surfaceBounds: SurfaceBounds): (o: RenderOutcome)
    ensures o.engineCall.dialogEngine == c.dialogEngine.(maybeSurfaceBounds := Some(surfaceBounds))
    ensures o.engineCall.selfId == c.id
    ensures o.engineCall.dialogBuffer == DialogBufferFor(scope.state, c.id) && o.engineCall.state == scope.state
    // everything else in the scope is passed through as given
    ensures o.engineCall == EngineArgs(c.(dialogEngine := c.dialogEngine.(maybeSurfaceBounds := Some(surfaceBounds))), scope)
    ensures var reply := api.renderEngine(o.engineCall);
      && o.result == reply.result
      && o.focus == reply.focus
      && o.component == c.(dialogEngine := reply.engine)
  {
    var withBounds := c.(dialogEngine := c.dialogEngine.(maybeSurfaceBounds := Some(surfaceBounds)));
    var args := EngineArgs(withBounds, scope);
    var reply := api.renderEngine(args);
    RenderOutcome(args, reply.result, withBounds.(dialogEngine := reply.engine), reply.focus)
  }

  /** `DialogEngine::new`: the options, and no surface bounds until the first render. */
  function NewDialogEngine(dialogOptions: DialogEngineConfigOptions, editorOptions: EditorEngineConfig): DialogEngine
  {
    DialogEngine(dialogOptions, editorOptions, None)
  }

  /** `DialogComponent::new`: the id and both handlers are stored; the engine is built from the options. */
  function New(id: FlexBoxId, dialogOptions: DialogEngineConfigOptions, editorOptions: EditorEngineConfig,
               onDialogPress: Callback, onDialogEditorChange: Callback): (c: DialogComponent)
    ensures c.id == id
    ensures c.onDialogPressHandler == Some(onDialogPress)
    ensures c.onDialogEditorChangeHandler == Some(onDialogEditorChange)
    ensures c.dialogEngine.dialogOptions == dialogOptions && c.dialogEngine.editorOptions == editorOptions
  {
    DialogComponent(id, NewDialogEngine(dialogOptions, editorOptions), Some(onDialogPress), Some(onDialogEditorChange))
  }

  // ---------------------------------------------------------------------------
  // Properties across calls
  // ---------------------------------------------------------------------------

  /**
   * After a choice, the next routed event goes to the normally focused
   * component, not to the dialog, even if the dialog held modal focus.
   */
  lemma ChoiceRestoresNormalFocus(c: DialogComponent, api: DialogEngineApi, scope: ComponentScopeArgs, event: InputEvent)
    requires api.applyEvent(EngineArgs(c, scope), event).result.Ok?
    requires api.applyEvent(EngineArgs(c, scope), event).result.value.DialogChoice?
    ensures HandleEvent(c, api, scope, event).focus.modalId.None?
    ensures HandleEvent(c, api, scope, event).focus.RoutedId() == api.applyEvent(EngineArgs(c, scope), event).focus.id
    ensures HandleEvent(c, api, scope, event).result == Ok(ConsumedRender)
  {
    var h := HandleEvent(c, api, scope, event);
    var reply := api.applyEvent(EngineArgs(c, scope), event);
    ApplyEffectsResets(reply.focus, h.effects);
  }

  /** A record containing a reset leaves no modal id if nothing after it sets one (effects never do). */
  lemma {:induction false} ApplyEffectsResets(f: HasFocus, effects: seq<DialogEffect>)
    requires ModalIdReset in effects
    ensures ApplyEffects(f, effects).modalId.None?
    ensures ApplyEffects(f, effects).id == f.id
    decreases |effects|
  {
    if effects[0].ModalIdReset? {
      ApplyEffectsKeepsId(f.ResetModalId(), effects[1..]);
    } else {
      assert ModalIdReset in effects[1..];
      ApplyEffectsResets(f, effects[1..]);
    }
  }

  /** Effects never change normal focus, and never set a modal id. */
  lemma {:induction false} ApplyEffectsKeepsId(f: HasFocus, effects: seq<DialogEffect>)
    ensures ApplyEffects(f, effects).id == f.id
    ensures f.modalId.None? ==> ApplyEffects(f, effects).modalId.None?
    decreases |effects|
  {
    if |effects| > 0 {
      ApplyEffectsKeepsId(if effects[0].ModalIdReset? then f.ResetModalId() else f, effects[1..]);
    }
  }

  /** `render` does not look at the box the layout placed the dialog in. */
  lemma RenderIgnoresCurrentBox(c: DialogComponent, api: DialogEngineApi, scope: ComponentScopeArgs,
                                box1: FlexBox, box2: FlexBox, surfaceBounds: SurfaceBounds)
    ensures Render(c, api, scope, box1, surfaceBounds) == Render(c, api, scope, box2, surfaceBounds)
  {
  }

  /** `render` and `handle_event` fetch the same buffer for the same id, and differ only in the recorded bounds. */
  lemma RenderAndHandleShareBuffer(c: DialogComponent, api: DialogEngineApi, scope: ComponentScopeArgs,
                                   currentBox: FlexBox, surfaceBounds: SurfaceBounds, event: InputEvent)
    ensures var r := Render(c, api, scope, currentBox, surfaceBounds).engineCall;
            var h := HandleEvent(c, api, scope, event).engineCall;
            r == h.(dialogEngine := h.dialogEngine.(maybeSurfaceBounds := Some(surfaceBounds)))
  {
  }

  /** A component built by `new` calls the press handler it was given, once, on a choice. */
  lemma NewComponentCallsPressHandler(id: FlexBoxId, dialogOptions: DialogEngineConfigOptions, editorOptions: EditorEngineConfig,
                                      onDialogPress: Callback, onDialogEditorChange: Callback,
                                      api: DialogEngineApi, scope: ComponentScopeArgs, event: InputEvent)
    requires var c := New(id, dialogOptions, editorOptions, onDialogPress, onDialogEditorChange);
             var reply := api.applyEvent(EngineArgs(c, scope), event);
             reply.result.Ok? && reply.result.value.DialogChoice?
    ensures var c := New(id, dialogOptions, editorOptions, onDialogPress, onDialogEditorChange);
            var reply := api.applyEvent(EngineArgs(c, scope), event);
            HandleEvent(c, api, scope, event).effects
              == [ModalIdReset, PressHandlerCalled(onDialogPress, reply.result.value.choice, scope.sharedStore, reply.focus.ResetModalId())]
  {
  }
}
