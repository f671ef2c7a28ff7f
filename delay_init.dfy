/**
  The pure helpers of the projection module: `_init_delay`, which builds the
  delay object for a node's output from its `return_info()`, and `_get_return`,
  which picks the value a node currently returns.
 */
module DelayInit {
  import opened Values

  /** The delay object `_init_delay` builds: a `VarDelay` over an existing
      variable, or a `DataDelay` over a new target variable and its initial data. */
  datatype DelayInit = VarDelay(variable: Variable) | DataDelay(target: Variable, dataInit: InitData)

  /** The value a freshly built delay holds before anything is written to it. */
  function InitialValue(d: DelayInit): Tensor
  {
    match d
    case VarDelay(v) => v.value
    case DataDelay(target, _) => target.value
  }

  /** The batch axis of the delay target: axis 0 when `batch_or_mode` is an int
      or a batching mode, no batch axis otherwise. */
  function BatchAxis(m: BatchOrMode): Option<nat>
  {
    match m
    case BatchSize(_) => Some(0)
    case BatchingMode(_) => Some(0)
    case NonBatchingMode => None
    case OtherMode => None
  }

  /** The length of the batch dimension, when there is one. */
  function BatchLength(m: BatchOrMode): int
    requires BatchAxis(m).Some?
  {
    if m.BatchSize? then m.size else m.batchSize
  }

  /** The shape of the delay target: `size`, with the batch dimension inserted
      at the batch axis when there is one. */
  function InitShape(info: ReturnInfo): (shape: Shape)
    ensures BatchAxis(info.batchOrMode).None? ==> shape == info.size
    ensures BatchAxis(info.batchOrMode).Some? ==>
      var a := BatchAxis(info.batchOrMode).value;
      && a < |shape|
      && shape[a] == BatchLength(info.batchOrMode)
      && shape[..a] + shape[a + 1..] == info.size
  {
    match info.batchOrMode
    case BatchSize(b) => [b] + info.size
    case NonBatchingMode => info.size
    case BatchingMode(n) => [n] + info.size
    case OtherMode => info.size
  }

  /** `init`: the factory called with the shape, or the array itself. */
  function InitValue(info: ReturnInfo): Result<Tensor>
  {
    match info.data
    case Factory(make) => Ok(make(InitShape(info)))
    case ArrayData(a) => Ok(a)
    case OtherData => Err(TypeError)
  }

  /** The two assertions of `_init_delay`: the initial value has the computed
      shape, and as many dimensions as there are axis names, if names are given. */
  predicate Consistent(info: ReturnInfo, init: Tensor)
  {
    && init.shape == InitShape(info)
    && (info.axisNames.Some? ==> |init.shape| == |info.axisNames.value|)
  }

  /** `_init_delay(info)`. */
  function InitDelay(src: DelaySource): (r: Result<DelayInit>)
    // a Variable is wrapped as it is; anything but a Variable or a ReturnInfo is refused
    ensures src.VariableSource? ==> r == Ok(VarDelay(src.variable))
    ensures src.OtherSource? ==> r == Err(TypeError)
    // a ReturnInfo succeeds exactly when its data yields a value of the declared layout
    ensures src.InfoSource? ==>
      (r.Ok? <==> InitValue(src.info).Ok? && Consistent(src.info, InitValue(src.info).value))
    // the data is checked first, then the shape, then the axis names
    ensures src.InfoSource? && src.info.data.OtherData? ==> r == Err(TypeError)
    ensures src.InfoSource? && InitValue(src.info).Ok? && InitValue(src.info).value.shape != InitShape(src.info)
      ==> r == Err(ShapeAssertion)
    ensures src.InfoSource? && r.Err? && !src.info.data.OtherData? && InitValue(src.info).value.shape == InitShape(src.info)
      ==> r == Err(AxisNamesAssertion)
    // on success the target variable has the computed shape, batch axis and the given axis names
    ensures src.InfoSource? && r.Ok? ==>
      && r.value.DataDelay?
      && r.value.target.value == InitValue(src.info).value
      && r.value.target.value.shape == InitShape(src.info)
      && r.value.target.batchAxis == BatchAxis(src.info.batchOrMode)
      && r.value.target.axisNames == src.info.axisNames
      && r.value.dataInit == src.info.data
  {
    match src
    case VariableSource(v) => Ok(VarDelay(v))
    case InfoSource(info) =>
      (match InitValue(info)
       case Err(e) => Err(e)
       case Ok(init) =>
         if init.shape != InitShape(info) then Err(ShapeAssertion)
         else if info.axisNames.Some? && |init.shape| != |info.axisNames.value| then Err(AxisNamesAssertion)
         else Ok(DataDelay(Variable(init, BatchAxis(info.batchOrMode), info.axisNames), info.data)))
    case OtherSource => Err(TypeError)
  }

  /** A delay built from a ReturnInfo has a target whose batch axis, if any, is
      one of its axes, whose shape without that axis is the declared size, and
      which has one axis name per dimension when names are given. */
  lemma DataDelayLayout(info: ReturnInfo)
    requires InitDelay(InfoSource(info)).Ok?
    ensures
      var t := InitDelay(InfoSource(info)).value.target;
      && (t.batchAxis.None? ==> t.value.shape == info.size)
      && (t.batchAxis.Some? ==>
            && t.batchAxis.value < |t.value.shape|
            && t.value.shape[t.batchAxis.value] == BatchLength(info.batchOrMode)
            && t.value.shape[..t.batchAxis.value] + t.value.shape[t.batchAxis.value + 1..] == info.size)
      && (t.axisNames.Some? ==> |t.axisNames.value| == |t.value.shape|)
  {
  }

  /** `_get_return(return_info)`. The `get_data()` of a ReturnInfo is not part of
      this model and is passed in as `getData`. */
  function GetReturn(src: DelaySource, getData: ReturnInfo -> Tensor): Result<Tensor>
  {
    match src
    case VariableSource(v) => Ok(v.value)
    case InfoSource(info) => Ok(getData(info))
    case OtherSource => Err(NotImplemented)
  }

  /** `_get_return` refuses exactly the sources that `_init_delay` refuses for
      their type, and what it picks from a Variable is the value a `VarDelay` over
      that Variable starts from. */
  lemma GetReturnAgreesWithInitDelay(src: DelaySource, getData: ReturnInfo -> Tensor)
    ensures GetReturn(src, getData).Err? <==> src.OtherSource?
    ensures GetReturn(src, getData).Err? ==> InitDelay(src) == Err(TypeError)
    ensures src.VariableSource? ==>
      InitDelay(src).Ok? && GetReturn(src, getData) == Ok(InitialValue(InitDelay(src).value))
  {
  }
}
