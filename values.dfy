/**
  The values the projection wiring passes around without looking inside them:
  arrays, variables, the `ReturnInfo` layout descriptor, projection delays and
  the exceptions the wiring can raise.
 */
module Values {

  /** A shape, as a tuple of Python integers. */
  type Shape = seq<int>

  /** An array value. The wiring only ever looks at its shape; `tag` stands for its contents. */
  datatype Tensor = Tensor(shape: Shape, tag: int)

  datatype Option<+T> = None | Some(value: T)

  /** The exceptions raised by the modelled code, by Python exception class. */
  datatype Error =
    | TypeError          // `_init_delay`: data neither callable nor an array, or info of another type
    | ShapeAssertion     // `_init_delay`: `assert init.shape == shape` fails
    | AxisNamesAssertion // `_init_delay`: `assert init.ndim == len(info.axis_names)` fails
    | NotImplemented     // `_get_return` of something that is neither a Variable nor a ReturnInfo
    | KeyError(key: string)       // lookup of a hook key or a delay tap that was never registered
    | AttributeError(key: string) // the entry under `key` is not a delay, so it has no `at`

  datatype Result<+T> = Ok(value: T) | Err(error: Error)

  /** A `bm.Variable`: its value, its batch axis and its axis names. */
  datatype Variable = Variable(value: Tensor, batchAxis: Option<nat>, axisNames: Option<seq<string>>)

  /** `ReturnInfo.batch_or_mode`: an int, a non-batching mode, a batching mode
      (`TrainingMode` included) with its batch size, or anything else. */
  datatype BatchOrMode = BatchSize(size: int) | NonBatchingMode | BatchingMode(batchSize: int) | OtherMode

  /** `ReturnInfo.data`: a callable that is given the shape, an array, or anything else. */
  datatype InitData = Factory(make: Shape -> Tensor) | ArrayData(array: Tensor) | OtherData

  /** `ReturnInfo`: the declared layout of a node's output, used to size a delay buffer. */
  datatype ReturnInfo = ReturnInfo(size: Shape, axisNames: Option<seq<string>>, batchOrMode: BatchOrMode, data: InitData)

  /** What a `return_info()` call hands back: a Variable, a ReturnInfo, or any other object. */
  datatype DelaySource = VariableSource(variable: Variable) | InfoSource(info: ReturnInfo) | OtherSource

  /** The `delay` argument of a projection: `None`, an int, or a float, the float
      carried as the text Python's `str` gives for it. */
  datatype DelayTime = NoDelay | IntDelay(steps: int) | FloatDelay(text: string)
}
