# BrainPy projection wiring, modelled in Dafny

BrainPy's `brainpy/_src/dyn/projections/aligns.py` defines the projections that
connect a presynaptic node to a postsynaptic node in a spiking network. A
projection does its work when it is built. It registers hooks on the nodes it
connects:

- *before-updates* (synapse/output pairs run before the node's own update);
- *after-updates* (delays and delayed synapses run after it);
- *input functions* (outputs whose bound conductances feed the node).

Then it keeps references to what its `update` will use. The *managed* variants
(`...Mg1`, `...Mg2`) deduplicate these hooks by string keys, so several
projections can share one synapse, output or delay. `ProjAlignPost1` and
`ProjAlignPre1` instead register their unit under the projection's own name
(the `_AlignPre` of `ProjAlignPre1` carries a delay of its own); `ProjAlignPost2` and `ProjAlignPre2` keep
their synapse to themselves: they register their output as an input function
under their name, and a tap under their name on the shared delay.
Every variant that delays a node's raw output (`ProjAlignPostMg2`,
`ProjAlignPost2`, `ProjAlignPreMg2`, `ProjAlignPre2`) shares that node's one
delay, kept under the key `_pre_delay_repr`.

This project models that protocol:

- `values.dfy`: the opaque data the wiring passes around (arrays, Variables,
  `ReturnInfo`, exceptions).
- `delay_init.dfy`: the pure helpers `_init_delay` (the shape table, the batch
  axis and its four failure points: data of the wrong type, the shape assertion,
  the axis-names assertion, and an argument of the wrong type) and `_get_return`.
- `keys.dfy`: the key strings (`_pre_delay_repr`, `_post_repr`, the two `_syn_id`s).
  It also proves when two keys can coincide, which decides when two projections share a unit.
- `units.dfy`: the runtime objects as classes, and the get-or-create steps the projections share.
  - Synapse, output and delay are classes; the registries of a node and of a delay are `map` fields.
  - The three internal units are `_AlignPre`, `_AlignPost` and `_AlignPreMg`.
- `projections.dfy`: the nine projection classes, one class each, with their construction and their `update`.
  - A variant that may raise from `_init_delay` is built by a static `Create` that returns a `Result`.
  - When construction fails, every node is left unchanged.
- `scenarios.dfy`: networks of several projections, which show what is shared and what is not:
  - two managed post-aligned projections with the same descriptors share one synapse and one output;
  - different descriptors get different units;
  - raw-output delays of one node are a single delay: a `ProjAlignPostMg2`, a `ProjAlignPre2` and a `ProjAlignPost2` each take a tap on it, while a `ProjAlignPreMg2` adds no tap but a before-update;
  - adding a tap changes what no other tap reads;
  - managed pre-aligned projections of one synapse share its synapse and its delay;
  - managed pre-aligned projections with different keys (a different synapse identifier, or for `ProjAlignPreMg2` a different delay) get a synapse of their own.

## Model

| member | source | states |
|---|---|---|
| DelayInit.InitShape | brainpy/_src/dyn/projections/aligns.py:62-73 | with no batch axis the shape is `size`; with a batch axis it is `size` with the batch length inserted at that axis (axis 0 for an int or a batching mode) |
| DelayInit.InitDelay | brainpy/_src/dyn/projections/aligns.py:58-86 | a Variable becomes a `VarDelay` over it; another non-`ReturnInfo` argument is a `TypeError`; a `ReturnInfo` succeeds exactly when its data gives a value of the computed shape and, if axis names are given, of as many dimensions as names; the failures come in order (data `TypeError`, shape assertion, axis-names assertion); the target Variable carries the value, the batch axis and the axis names, and the data is the initialiser |
| DelayInit.DataDelayLayout | brainpy/_src/dyn/projections/aligns.py:80-84 | a delay built from a `ReturnInfo` has a target whose batch axis, if any, is a valid axis of the batch length, whose shape without it is `size`, and which has one axis name per dimension when names are given |
| DelayInit.GetReturnAgreesWithInitDelay | brainpy/_src/dyn/projections/aligns.py:89-95 | `_get_return` fails exactly on what is neither a Variable nor a `ReturnInfo`, which `_init_delay` also refuses; from a Variable it gives the value a `VarDelay` over that Variable starts from |
| Keys.NatText | brainpy/_src/dyn/projections/aligns.py:771 | `str` of a natural number is a non-empty run of decimal digits, a single digit exactly below 10 |
| Keys.NatTextInjective | brainpy/_src/dyn/projections/aligns.py:771 | two naturals with the same `str` are equal |
| Keys.IntText | brainpy/_src/dyn/projections/aligns.py:771 | `str` of an int is non-empty, starts with `-` exactly when the int is negative, and is decimal digits after that |
| Keys.IntTextInjective | brainpy/_src/dyn/projections/aligns.py:771 | two ints with the same `str` are equal |
| Keys.DelayText | brainpy/_src/dyn/projections/aligns.py:771 | `str` of a delay: that of `None` or of an int is non-empty; a float is carried as its text; none of them holds `)` when the float text is one Python prints (`FloatText`: no `)`, not `None`, and a `.`, an `e` or the `n` of `inf`/`nan`) |
| Keys.IntTextChars | brainpy/_src/dyn/projections/aligns.py:771 | `str` of an int holds only `-` and decimal digits |
| Keys.DelayTextInjective | brainpy/_src/dyn/projections/aligns.py:771 | `None`, ints and floats Python can print have pairwise different `str` |
| Keys.PostRepr | brainpy/_src/dyn/projections/aligns.py:238 | the managed post-aligned key is the synapse identifier, then ` // `, then the output identifier |
| Keys.PostReprInjective | brainpy/_src/dyn/projections/aligns.py:238 | equal managed post-aligned keys mean equal synapse and output identifiers; proved for synapse identifiers that hold no `/` |
| Keys.PostReprCollision | brainpy/_src/dyn/projections/aligns.py:238 | without that condition two different identifier pairs give the same key |
| Keys.PreSynId | brainpy/_src/dyn/projections/aligns.py:652 | the `ProjAlignPreMg1` key is the synapse identifier followed by ` // Delay` |
| Keys.PreSynIdInjective | brainpy/_src/dyn/projections/aligns.py:652 | equal `ProjAlignPreMg1` keys mean equal synapse identifiers |
| Keys.PreSynIdNotSentinel | brainpy/_src/dyn/projections/aligns.py:652 | no `ProjAlignPreMg1` key is the shared-delay key `_pre_delay_repr` |
| Keys.PreMgSynId | brainpy/_src/dyn/projections/aligns.py:771 | the `ProjAlignPreMg2` key is `Delay(`, then `str(delay)`, then `) // `, then the synapse identifier |
| Keys.PreMgSynIdInjective | brainpy/_src/dyn/projections/aligns.py:771 | equal `ProjAlignPreMg2` keys mean equal delays and equal synapse identifiers, for every delay (`None`, an int, or a float whose text Python can print) |
| Units.Synapse.Instantiate | brainpy/_src/dyn/projections/aligns.py:240 | calling a synapse descriptor gives a new synapse with the descriptor's dynamics and `return_info`, and no currents yet |
| Units.Synapse.AddCurrent | brainpy/_src/dyn/projections/aligns.py:252 | `add_current` appends the current and changes nothing else |
| Units.Output.BindCond | brainpy/_src/dyn/projections/aligns.py:167 | `bind_cond` appends the conductance |
| Units.Delay.constructor | brainpy/_src/dyn/projections/aligns.py:83-84 | a new delay has no taps and no before-updates, and reads its initial value at every offset |
| Units.Delay.RegisterEntry | brainpy/_src/dyn/projections/aligns.py:354 | `register_entry(name, delay)` adds or replaces the tap `name` and changes nothing else; read back through `at`, tap `name` then reads the buffer at `delay` and every other tap (or its `KeyError`) reads as before |
| Units.Delay.AddBefUpdate | brainpy/_src/dyn/projections/aligns.py:778 | a before-update is added under a free key and nothing else changes |
| Units.Delay.GetOrCreatePreMgUnit | brainpy/_src/dyn/projections/aligns.py:771-778 | under a taken key the delay is unchanged and its unit is returned; under a free key a new `_AlignPreMg` over a new synapse, reading this delay at the given time, is registered |
| Units.AlignPre.constructor | brainpy/_src/dyn/projections/aligns.py:24-27 | keeps the synapse and the optional delay |
| Units.AlignPost.constructor | brainpy/_src/dyn/projections/aligns.py:37-42 | keeps the synapse and the output |
| Units.AlignPost.Update | brainpy/_src/dyn/projections/aligns.py:44-45 | the synapse's dynamics of the input are bound into the output |
| Units.AlignPreMg.constructor | brainpy/_src/dyn/projections/aligns.py:49-52 | keeps the delay access and the synapse |
| Units.AlignPreMg.ReadsLikeTap | brainpy/_src/dyn/projections/aligns.py:54-55 | the unit's update is the synapse's dynamics of what a tap registered at the access's delay on that delay object reads |
| Units.Node.AddInpFun | brainpy/_src/dyn/projections/aligns.py:160 | an input function is added under a free key and the other registries do not change |
| Units.Node.AddBefUpdate | brainpy/_src/dyn/projections/aligns.py:440 | a before-update is added under a free key and the other registries do not change |
| Units.Node.AddAftUpdate | brainpy/_src/dyn/projections/aligns.py:885 | an after-update is added under a free key and the other registries do not change |
| Units.Node.GetOrCreatePostUnit | brainpy/_src/dyn/projections/aligns.py:238-248 | under a taken key nothing changes and the existing pair is returned; under a free key a new synapse and a new output are made, the output becomes the caller's input function and the pair the before-update under the key |
| Units.Node.GetOrCreateSharedDelay | brainpy/_src/dyn/projections/aligns.py:348-353 | the delay under `_pre_delay_repr` is built from `return_info()` only if absent, with no taps, no hooks and its initial value at every offset; it fails exactly when it must be built and `_init_delay` fails, and then nothing changes |
| Units.Node.GetOrCreatePreUnit | brainpy/_src/dyn/projections/aligns.py:652-659 | under a taken key nothing changes; under a free key a new synapse (with no currents) is made, then a delay from its `return_info()` (no taps, no hooks, its initial value at every offset), and an `_AlignPre` over both is registered; failure leaves the node unchanged |
| Units.Node.SharedDelayAt | brainpy/_src/dyn/projections/aligns.py:370 | the tap `name` of the shared delay, failing exactly when the delay or the tap is missing; on a well-formed node that failure is a `KeyError` |
| Projections.VanillaProj.constructor | brainpy/_src/dyn/projections/aligns.py:143-163 | the output becomes the node's input function under the projection's name |
| Projections.VanillaProj.Update | brainpy/_src/dyn/projections/aligns.py:165-168 | `comm(x)` is bound into the output and returned |
| Projections.ProjAlignPostMg1.constructor | brainpy/_src/dyn/projections/aligns.py:219-248 | the key is `syn.identifier + " // " + out.identifier`; a new synapse/output pair and the input function are registered only when the key is free; the projection refers to the pair under the key either way |
| Projections.ProjAlignPostMg1.Update | brainpy/_src/dyn/projections/aligns.py:250-253 | `comm(x)` is added as a current to the shared synapse and returned |
| Projections.ProjAlignPostMg2.Create | brainpy/_src/dyn/projections/aligns.py:326-367 | the shared delay is built only if absent and gets this projection's tap; then the synapse/output pair is got or created as in `ProjAlignPostMg1`; an existing delay keeps its buffer and hooks, a new one reads its initial value; failure is exactly an `_init_delay` failure and changes nothing |
| Projections.ProjAlignPostMg2.Update | brainpy/_src/dyn/projections/aligns.py:369-373 | the projection's tap on the shared delay, through `comm`, is added as a current to the shared synapse; a missing delay or tap is an error |
| Projections.ProjAlignPost1.constructor | brainpy/_src/dyn/projections/aligns.py:420-445 | the output becomes the input function and a new `_AlignPost` over the given synapse and output the before-update, both under the projection's name |
| Projections.ProjAlignPost1.Update | brainpy/_src/dyn/projections/aligns.py:447-450 | `comm(x)` is added as a current to the synapse and returned |
| Projections.ProjAlignPost2.Create | brainpy/_src/dyn/projections/aligns.py:519-555 | the shared delay is built only if absent and gets this projection's tap; an existing delay keeps its buffer and hooks, a new one reads its initial value; the output becomes the input function; no before-update is registered |
| Projections.ProjAlignPost2.Update | brainpy/_src/dyn/projections/aligns.py:557-561 | the tap goes through `comm` and then the synapse, and is bound into the output; a missing delay or tap is an error |
| Projections.ProjAlignPreMg1.Create | brainpy/_src/dyn/projections/aligns.py:630-667 | the key is `syn.identifier + " // Delay"`; a synapse and its delay are built only when the key is free; the unit's delay gets this projection's tap and otherwise keeps its buffer and hooks; the projection refers to the unit's synapse and delay |
| Projections.ProjAlignPreMg1.UnitFeedsTapDelay | brainpy/_src/dyn/projections/aligns.py:29-33 | the `_AlignPre` this projection is wired to feeds the synapse's output of each input into the very delay this projection's tap reads |
| Projections.ProjAlignPreMg1.Update | brainpy/_src/dyn/projections/aligns.py:669-674 | the given value, or the projection's tap when none is given, through `comm`, is bound into the output; a missing tap is an error |
| Projections.ProjAlignPreMg2.Create | brainpy/_src/dyn/projections/aligns.py:743-786 | the shared delay is built only if absent and gets no tap, and an existing one keeps its buffer; the key is `"Delay(" + str(delay) + ") // " + syn.identifier` among the delay's before-updates; a new synapse reading the delay at `delay` is registered only when the key is free |
| Projections.ProjAlignPreMg2.Update | brainpy/_src/dyn/projections/aligns.py:788-792 | what `_get_return` gives for the shared synapse, through `comm`, is bound into the output |
| Projections.ProjAlignPre1.Create | brainpy/_src/dyn/projections/aligns.py:861-893 | a delay of its own is built from the synapse's `return_info()`, reads its initial value and gets this projection's tap; an `_AlignPre` over the synapse and that delay becomes the after-update under the projection's name |
| Projections.ProjAlignPre1.UnitFeedsTapDelay | brainpy/_src/dyn/projections/aligns.py:29-33 | the `_AlignPre` registered under this projection's name feeds the synapse's output of each input into the delay this projection's tap reads |
| Projections.ProjAlignPre1.Update | brainpy/_src/dyn/projections/aligns.py:895-900 | as for `ProjAlignPreMg1` |
| Projections.ProjAlignPre2.Create | brainpy/_src/dyn/projections/aligns.py:969-1003 | the shared delay is built only if absent and gets this projection's tap; an existing delay keeps its buffer and hooks, a new one reads its initial value; the projection refers to that delay |
| Projections.ProjAlignPre2.Update | brainpy/_src/dyn/projections/aligns.py:1005-1009 | the tap goes through the synapse and then `comm`, and is bound into the output; a missing tap is an error |
| Scenarios.SameDescriptorsShare | brainpy/_src/dyn/projections/aligns.py:238-248 | two managed post-aligned projections with the same descriptors share one new synapse and output; only the first becomes an input function |
| Scenarios.DifferentDescriptorsDoNotShare | brainpy/_src/dyn/projections/aligns.py:238-248 | different descriptors whose synapse identifiers hold no `/` get different synapses and outputs |
| Scenarios.RawOutputDelayIsShared | brainpy/_src/dyn/projections/aligns.py:348-354 | a `ProjAlignPostMg2` and a `ProjAlignPre2` on one node read one delay, each at its own tap; once the first is built the second cannot fail; a delay built here reads its initial value at both taps, an existing one keeps its buffer |
| Scenarios.OtherTapsKeepTheirReadings | brainpy/_src/dyn/projections/aligns.py:992-996 | adding a `ProjAlignPre2` to a node that already has its shared delay cannot fail, gives the new tap the buffer at its delay, and changes what no other tap reads |
| Scenarios.TapAndHookOnSharedDelay | brainpy/_src/dyn/projections/aligns.py:765-781 | on a node that already has its shared delay, a `ProjAlignPost2` then a `ProjAlignPreMg2` both succeed and keep that delay and its buffer; the only tap added is the first one's, and the second one's synapse is a before-update of that delay |
| Scenarios.DifferentSynapsesDoNotShareDelay | brainpy/_src/dyn/projections/aligns.py:652-660 | two `ProjAlignPreMg1` of different synapse identifiers on free keys get different synapses and different delays, each with only its own tap |
| Scenarios.DifferentDelaysDoNotShareSynapse | brainpy/_src/dyn/projections/aligns.py:771-778 | two `ProjAlignPreMg2` on an existing shared delay whose delays or synapse identifiers differ, on free keys, both succeed and get different keys and different synapses |
| Scenarios.SameSynapseSharesDelay | brainpy/_src/dyn/projections/aligns.py:652-660 | two `ProjAlignPreMg1` of one synapse descriptor share its synapse and its delay, each with its own tap; once the first is built the second cannot fail |

## Left out

- The numerics of synapses, communication operators and outputs. Each one is a function on an opaque `Tensor`.
- The `update` return value of a delay. `_AlignPre.update` therefore returns a symbolic "fed into this delay" value.
- The delay buffer's writes and rotation over time. `_AlignPre.update` writes the synapse's output into its delay (`x >> self.syn >> self.delay`). The model represents that write as the symbolic `Fed` value and leaves the buffer unchanged, so a delay built here reads its initial value at every offset.
- The order of the registries. They are Dafny maps, which are unordered. Python dicts keep insertion order, which decides the order in which the hooks run.
- `Delay`, `DelayAccess`, `DynamicalSystem` and the registries of `dynsys.py`. These are not part of this model. Their operations are modelled as follows:
  - `add_inp_fun`, `add_bef_update` and `add_aft_update` require a free key. The registries refuse a taken key, so callers must not pass one.
  - `register_entry` is a map update.
  - `at` is a lookup that fails with `KeyError`.
  - A `DelayAccess` records its delay and time.
- The `check.is_instance` argument checks, `ParamDescInit` introspection, automatic name generation and `mode`. Descriptors are modelled as an identifier, the dynamics and a `return_info`.
- `ReturnInfo.get_data()`. It is passed to `ProjAlignPreMg2.Update` as a parameter.
- `str` of a float delay. It is carried as the text Python prints, and characterised only by `FloatText`; Python's float formatting itself is not modelled.
- A `bool` delay. Python's `str(True)` is `"True"`; the model takes int delays only.
- Node well-formedness:
  - The model assumes that the after-update under `_pre_delay_repr` is always a delay, and every other after-update an `_AlignPre` with a delay.
  - `ProjAlignPre1` therefore requires that its name is not `_pre_delay_repr`. If that name were allowed, the source would register an `_AlignPre` where the shared delay is expected.
- Units.Delay.RegisterEntry: registering a tap name that is already taken replaces that tap; it is not reported as a conflict. The model assumes projection names are unique, so no two projections register the same tap.
- Units.AlignPost.Update: `_AlignPost.update(*args, **kwargs)` passes any arguments on to the synapse; the model passes exactly one `Tensor`.
- Keys.PostReprInjective: proved only for synapse identifiers without `/`; the key stays injective for many identifiers that hold one. `Keys.PostReprCollision` shows two different pairs whose keys collide. The source would then silently share the first pair's unit.
- The examples in the class docstrings and the simulation runners. They are not part of the wiring.
