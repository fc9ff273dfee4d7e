/**
 * Shared vocabulary of the terminal-UI core: results, event propagation,
 * geometry, focus, the state-access capability and the buffers the
 * reusable engines work on. Everything an engine or a user callback does
 * with these values is outside this module; only their shape is modelled.
 */
module TuiCore {

  datatype Option<+T> = None | Some(value: T)

  /** The framework's error value; its contents are never inspected by the shims. */
  datatype CommonError = CommonError(kind: string, msg: string)

  /** `CommonResult<T>`: a value or the error that `?` propagates unchanged. */
  datatype Result<+T> = Ok(value: T) | Err(error: CommonError)

  /** What a component tells the event loop after handling an input event. */
  datatype EventPropagation = Propagate | Consumed | ConsumedRender

  /** Component identity (`FlexBoxId` / `FlexBoxIdType`, a small unsigned number). */
  type FlexBoxId = nat

  datatype Position = Position(col: nat, row: nat)
  datatype Size = Size(cols: nat, rows: nat)

  /** The box the layout placed a component in. */
  datatype FlexBox = FlexBox(id: FlexBoxId, origin: Position, boxSize: Size)

  /** The extent of the whole surface, which a dialog may paint anywhere inside. */
  datatype SurfaceBounds = SurfaceBounds(origin: Position, boxSize: Size)

  /** Opaque handles the shims pass through without looking inside. */
  datatype StoreHandle = StoreHandle(tag: nat)
  datatype SharedGlobalData = SharedGlobalData(tag: nat)
  datatype InputEvent = InputEvent(code: nat)
  datatype RenderPipeline = RenderPipeline(paintOps: seq<string>)

  /**
   * Engine option structs, fixed at construction; their fields are the
   * engines' concern. The dialog takes `EditorEngineConfig` for its embedded
   * editor; the editor component takes `EditorEngineConfigOptions`.
   */
  datatype EditorEngineConfig = EditorEngineConfig(tag: nat)
  datatype EditorEngineConfigOptions = EditorEngineConfigOptions(tag: nat)
  datatype DialogEngineConfigOptions = DialogEngineConfigOptions(tag: nat)

  /** Identity of a user-supplied callback (a plain `fn` pointer in Rust). */
  datatype Callback = Callback(name: string)

  /**
   * The focus part of the component registry: the normally focused id and
   * the optional modal id that overrides it while a dialog is open.
   */
  datatype HasFocus = HasFocus(id: Option<FlexBoxId>, modalId: Option<FlexBoxId>) {

    /** The id input events are routed to: the modal id when set, otherwise normal focus. */
    function RoutedId(): (r: Option<FlexBoxId>)
      ensures modalId.Some? ==> r == modalId
      ensures modalId.None? ==> r == id
    {
      if modalId.Some? then modalId else id
    }

    /** Leaves modal mode; normal focus is untouched. */
    function ResetModalId(): (f: HasFocus)
      ensures f.modalId.None? && f.id == id
      ensures f.RoutedId() == id
    {
      HasFocus(id, None)
    }
  }

  /** Per-component text editing state; only its identity matters to the shims. */
  datatype EditorBuffer = EditorBuffer(lines: seq<string>)

  /** `EditorBuffer::default()`. */
  function DefaultEditorBuffer(): EditorBuffer
  {
    EditorBuffer([])
  }

  /** Per-component dialog state; only its identity matters to the shims. */
  datatype DialogBuffer = DialogBuffer(editorBuffer: EditorBuffer, title: string, maybeResults: Option<seq<string>>)

  /** `DialogBuffer::new_empty()`. */
  function EmptyDialogBuffer(): DialogBuffer
  {
    DialogBuffer(DefaultEditorBuffer(), "", None)
  }

  /**
   * The application state as seen through the `HasEditorBuffers` and
   * `HasDialogBuffers` capabilities: id-keyed, read-only lookups.
   */
  datatype AppState = AppState(editorBuffers: map<FlexBoxId, EditorBuffer>, dialogBuffers: map<FlexBoxId, DialogBuffer>) {

    function GetEditorBuffer(key: FlexBoxId): Option<EditorBuffer>
    {
      if key in editorBuffers then Some(editorBuffers[key]) else None
    }

    function GetDialogBuffer(key: FlexBoxId): Option<DialogBuffer>
    {
      if key in dialogBuffers then Some(dialogBuffers[key]) else None
    }
  }

  /** `ComponentScopeArgs`: everything a component receives for one render or event. */
  datatype ComponentScopeArgs = ComponentScopeArgs(
    state: AppState,
    sharedStore: StoreHandle,
    sharedGlobalData: SharedGlobalData,
    focus: HasFocus,
    windowSize: Size)

  /**
   * What an engine hands back: its result, its own state after the call
   * (engines are borrowed mutably) and the registry focus after the call
   * (the registry is borrowed mutably too).
   */
  datatype EngineReply<+R, +E> = EngineReply(result: Result<R>, engine: E, focus: HasFocus)
}
