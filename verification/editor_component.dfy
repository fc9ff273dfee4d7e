/**
 * `EditorComponent`: the shim that lets the reusable editor engine act as a
 * component. It fetches the editor buffer for its own id (or the default
 * one), hands it to the engine, and turns the engine's two-way response
 * into an `EventPropagation`, calling the user's buffer-change handler when
 * the engine applied the event. The engine is a parameter
 * (`EditorEngineApi`); handler calls are recorded as effects.
 */
module EditorShim {
  import opened TuiCore

  /** `ApplyResponse`. */
  datatype ApplyResponse = Applied(buffer: EditorBuffer) | NotApplied

  /** The engine's own state; its workings are the engine's concern. */
  datatype EditorEngine = EditorEngine(config: EditorEngineConfigOptions)

  datatype EditorComponent = EditorComponent(
    engine: EditorEngine,
    id: FlexBoxId,
    onEditorBufferChangeHandler: Option<Callback>)

  /** `EditorEngineArgs`: what the shim hands the engine. */
  datatype EditorEngineArgs = EditorEngineArgs(
    state: AppState,
    buffer: EditorBuffer,
    focus: HasFocus,
    sharedGlobalData: SharedGlobalData,
    sharedStore: StoreHandle,
    selfId: FlexBoxId,
    engine: EditorEngine)

  /** `EditorEngineRenderApi::apply_event` and `EditorEngineRenderApi::render_engine`. */
  datatype EditorEngineApi = EditorEngineApi(
    applyEvent: (EditorEngineArgs, InputEvent) -> EngineReply<ApplyResponse, EditorEngine>,
    renderEngine: (EditorEngineArgs, FlexBox) -> EngineReply<RenderPipeline, EditorEngine>)

  /** A call of the buffer-change handler with `(store, id, buffer)`. */
  datatype EditorEffect = BufferChangeHandlerCalled(handler: Callback, store: StoreHandle, id: FlexBoxId, buffer: EditorBuffer)

  datatype HandleOutcome = HandleOutcome(
    engineCall: EditorEngineArgs,
    result: Result<EventPropagation>,
    component: EditorComponent,
    focus: HasFocus,
    effects: seq<EditorEffect>)

  datatype RenderOutcome = RenderOutcome(
    engineCall: EditorEngineArgs,
    result: Result<RenderPipeline>,
    component: EditorComponent,
    focus: HasFocus)

  /** The editor buffer for `id` from state when there is one, otherwise `EditorBuffer::default()`. */
  function EditorBufferFor(state: AppState, id: FlexBoxId): (b: EditorBuffer)
    ensures id in state.editorBuffers ==> b == state.editorBuffers[id]
    ensures id !in state.editorBuffers ==> b == DefaultEditorBuffer()
  {
    match state.GetEditorBuffer(id)
    case Some(buffer) => buffer
    case None => DefaultEditorBuffer()
  }

  /** The engine arguments both `render` and `handle_event` build. */
  function EngineArgs(c: EditorComponent, scope: ComponentScopeArgs): (a: EditorEngineArgs)
    ensures a.selfId == c.id && a.engine == c.engine
    ensures a.buffer == EditorBufferFor(scope.state, c.id)
    ensures a.state == scope.state && a.focus == scope.focus && a.sharedStore == scope.sharedStore
    ensures a.sharedGlobalData == scope.sharedGlobalData
  {
    EditorEngineArgs(scope.state, EditorBufferFor(scope.state, c.id), scope.focus,
                     scope.sharedGlobalData, scope.sharedStore, c.id, c.engine)
  }

  /** `EditorComponent::handle_event`. */
  function HandleEvent(c: EditorComponent, api: EditorEngineApi, scope: ComponentScopeArgs, event: InputEvent): (h: HandleOutcome)
    // the engine sees this component's id, its buffer (or the default) and the state as given
    ensures h.engineCall.selfId == c.id && h.engineCall.engine == c.engine
    ensures h.engineCall.buffer == EditorBufferFor(scope.state, c.id) && h.engineCall.state == scope.state
    // everything else in the scope is passed through as given
    ensures h.engineCall == EngineArgs(c, scope)
    ensures var reply := api.applyEvent(h.engineCall, event);
      && h.component == c.(engine := reply.engine)
      // the shim leaves focus as the engine left it
      && h.focus == reply.focus
      // an engine error is returned as it is, with no handler call
      && (reply.result.Err? ==> h.result == Err(reply.result.error) && h.effects == [])
      // Applied <==> Consumed and NotApplied <==> Propagate; never ConsumedRender
      && (reply.result.Ok? ==> h.result.Ok? && h.result.value != ConsumedRender)
      && (reply.result.Ok? ==> (h.result.value == Consumed <==> reply.result.value.Applied?))
      && (reply.result.Ok? ==> (h.result.value == Propagate <==> reply.result.value.NotApplied?))
      // the handler runs exactly once, with (store, own id, new buffer), when the event applied and a handler is set
      && h.effects
         == (if reply.result.Ok? && reply.result.value.Applied? && c.onEditorBufferChangeHandler.Some?
             then [BufferChangeHandlerCalled(c.onEditorBufferChangeHandler.value, scope.sharedStore, c.id, reply.result.value.buffer)]
             else [])
  {
    var args := EngineArgs(c, scope);
    var reply := api.applyEvent(args, event);
    var after := c.(engine := reply.engine);
    match reply.result
    case Err(err) => HandleOutcome(args, Err(err), after, reply.focus, [])
    case Ok(Applied(buffer)) =>
      var calls := match c.onEditorBufferChangeHandler
        case Some(onChangeHandler) => [BufferChangeHandlerCalled(onChangeHandler, scope.sharedStore, c.id, buffer)]
        case None => [];
      HandleOutcome(args, Ok(Consumed), after, reply.focus, calls)
    case Ok(NotApplied) => HandleOutcome(args, Ok(Propagate), after, reply.focus, [])
  }

  /** `EditorComponent::render`: the engine renders into the current box; its result is returned as it is. */
  function Render(c: EditorComponent, api: EditorEngineApi, scope: ComponentScopeArgs, currentBox: FlexBox): (o: RenderOutcome)
    ensures o.engineCall.selfId == c.id && o.engineCall.engine == c.engine
    ensures o.engineCall.buffer == EditorBufferFor(scope.state, c.id) && o.engineCall.state == scope.state
    // everything else in the scope is passed through as given
    ensures o.engineCall == EngineArgs(c, scope)
    ensures var reply := api.renderEngine(o.engineCall, currentBox);
      && o.result == reply.result
      && o.focus == reply.focus
      && o.component == c.(engine := reply.engine)
  {
    var args := EngineArgs(c, scope);
    var reply := api.renderEngine(args, currentBox);
    RenderOutcome(args, reply.result, c.(engine := reply.engine), reply.focus)
  }

  /** `EditorEngine::new`: an engine that keeps the options it was built from. */
  function NewEditorEngine(configOptions: EditorEngineConfigOptions): EditorEngine
  {
    EditorEngine(configOptions)
  }

  /** `EditorComponent::new`: the id and the handler are stored; the engine is built from the options. */
  function New(id: FlexBoxId, configOptions: EditorEngineConfigOptions, onBufferChange: Callback): (c: EditorComponent)
    ensures c.id == id
    ensures c.onEditorBufferChangeHandler == Some(onBufferChange)
    ensures c.engine == NewEditorEngine(configOptions) && c.engine.config == configOptions
  {
    EditorComponent(NewEditorEngine(configOptions), id, Some(onBufferChange))
  }

  /** `render` and `handle_event` hand the engine identical arguments. */
  lemma RenderAndHandleShareArgs(c: EditorComponent, api: EditorEngineApi, scope: ComponentScopeArgs,
                                 currentBox: FlexBox, event: InputEvent)
    ensures Render(c, api, scope, currentBox).engineCall == HandleEvent(c, api, scope, event).engineCall
  {
  }

  /** A component built by `new` calls the handler it was given, once, with its own id, when an event applies. */
  lemma NewComponentCallsHandler(id: FlexBoxId, configOptions: EditorEngineConfigOptions, onBufferChange: Callback,
                                 api: EditorEngineApi, scope: ComponentScopeArgs, event: InputEvent)
    requires var reply := api.applyEvent(EngineArgs(New(id, configOptions, onBufferChange), scope), event);
             reply.result.Ok? && reply.result.value.Applied?
    ensures var c := New(id, configOptions, onBufferChange);
            var reply := api.applyEvent(EngineArgs(c, scope), event);
            HandleEvent(c, api, scope, event).effects
              == [BufferChangeHandlerCalled(onBufferChange, scope.sharedStore, id, reply.result.value.buffer)]
            && HandleEvent(c, api, scope, event).result == Ok(Consumed)
  {
  }
}
