/**
  The objects projections wire together: synapse and output instances, delays
  with their named taps, the three alignment units, and nodes with their keyed
  before-update, after-update and input-function registries.

  The numerics are opaque: a synapse's dynamics and a communication operator are
  functions on `Tensor`, and the side effects of `add_current` and `bind_cond`
  are recorded as logs of the values they were given.
 */
module Units {
  import opened Values
  import opened DelayInit
  import opened Keys

  /** A synapse descriptor (`ParamDescInit`): its identifier, and what each
      instance built from it computes and reports from `return_info()`. */
  datatype SynDesc = SynDesc(identifier: string, dynamics: Tensor -> Tensor, info: DelaySource)

  /** An output descriptor (`ParamDescInit`): its identifier. */
  datatype OutDesc = OutDesc(identifier: string)

  /** A synapse instance. Calling it is `dynamics`; `currents` logs every `add_current`. */
  class Synapse {
    const dynamics: Tensor -> Tensor
    const info: DelaySource
    var currents: seq<Tensor>

    constructor (dynamics: Tensor -> Tensor, info: DelaySource)
      ensures this.dynamics == dynamics && this.info == info && currents == []
    {
      this.dynamics := dynamics;
      this.info := info;
      currents := [];
    }

    /** `syn()` on a descriptor: a new instance, with no state shared with any other. */
    static method Instantiate(desc: SynDesc) returns (s: Synapse)
      ensures fresh(s) && s.dynamics == desc.dynamics && s.info == desc.info && s.currents == []
    {
      s := new Synapse(desc.dynamics, desc.info);
    }

    /** `add_current(c)`. */
    method AddCurrent(c: Tensor)
      modifies this
      ensures currents == old(currents) + [c]
    {
      currents := currents + [c];
    }
  }

  /** An output instance; `bound` logs every `bind_cond`. */
  class Output {
    var bound: seq<Tensor>

    constructor ()
      ensures bound == []
    {
      bound := [];
    }

    /** `bind_cond(g)`. */
    method BindCond(g: Tensor)
      modifies this
      ensures bound == old(bound) + [g]
    {
      bound := bound + [g];
    }
  }

  /** A delay: what it was built from, its named taps (`register_entry`), its own
      before-update registry, and the value its buffer yields at each delay. */
  class Delay {
    const source: DelayInit
    var entries: map<string, DelayTime>
    var befUpdates: map<string, AlignPreMg>
    var buffer: DelayTime -> Tensor

    /** A new delay has no taps and no hooks, and every tap reads its initial value. */
    constructor (source: DelayInit)
      ensures this.source == source && entries == map[] && befUpdates == map[]
      ensures forall t :: buffer(t) == InitialValue(source)
    {
      this.source := source;
      entries := map[];
      befUpdates := map[];
      buffer := (t: DelayTime) => InitialValue(source);
    }

    /** `register_entry(name, time)`: tap `name` now reads at `time`. */
    method RegisterEntry(name: string, time: DelayTime)
      modifies this
      ensures entries == old(entries)[name := time]
      ensures befUpdates == old(befUpdates) && buffer == old(buffer)
      // read back through `at`: the new tap reads the buffer at `time`, every other tap as before
      ensures At(name) == Ok(buffer(time))
      ensures forall m :: m != name ==> At(m) == old(At(m))
    {
      entries := entries[name := time];
    }

    /** `at(name)`: the value tap `name` reads; a tap never registered is a lookup error. */
    function At(name: string): Result<Tensor>
      reads this
    {
      if name in entries then Ok(buffer(entries[name])) else Err(KeyError(name))
    }

    /** `add_bef_update(key, unit)`; a key may be registered once. */
    method AddBefUpdate(key: string, unit: AlignPreMg)
      requires key !in befUpdates
      modifies this
      ensures befUpdates == old(befUpdates)[key := unit]
      ensures entries == old(entries) && buffer == old(buffer)
    {
      befUpdates := befUpdates[key := unit];
    }

    /** The get-or-create of `ProjAlignPreMg2` on this delay's before-updates:
        an `_AlignPreMg` reading this delay at `time` through a new synapse
        instance is registered under `key` only if `key` is not yet taken;
        either way the unit under `key` is returned. */
    method GetOrCreatePreMgUnit(key: string, time: DelayTime, syn: SynDesc) returns (u: AlignPreMg)
      modifies this
      ensures key in befUpdates && u == befUpdates[key]
      ensures entries == old(entries) && buffer == old(buffer)
      ensures key in old(befUpdates) ==> befUpdates == old(befUpdates)
      ensures key !in old(befUpdates) ==>
        && fresh(u) && fresh(u.syn)
        && u.access == Access(this, time)
        && u.syn.dynamics == syn.dynamics && u.syn.info == syn.info && u.syn.currents == []
        && befUpdates == old(befUpdates)[key := u]
    {
      if key !in befUpdates {
        var synCls := Synapse.Instantiate(syn);
        var unit := new AlignPreMg(Access(this, time), synCls);
        AddBefUpdate(key, unit);
      }
      u := befUpdates[key];
    }
  }

  /** A `DelayAccess`: a read of `delay` at the fixed delay `time`. */
  datatype Access = Access(delay: Delay, time: DelayTime) {
    function Read(): Tensor
      reads delay
    {
      delay.buffer(time)
    }
  }

  /** What `_AlignPre.update` returns: the synapse's output itself, or the result
      of feeding that output to the delay (whose own update is not modelled). */
  datatype PreOutput = Direct(value: Tensor) | Fed(delay: Delay, value: Tensor)

  /** `_AlignPre(syn, delay)`: synapse dynamics on the source side, optionally followed by a delay. */
  class AlignPre {
    const syn: Synapse
    const delay: Option<Delay>

    constructor (syn: Synapse, delay: Option<Delay>)
      ensures this.syn == syn && this.delay == delay
    {
      this.syn := syn;
      this.delay := delay;
    }

    /** `update(x)`: the synapse runs first; its output then goes to the delay, if any. */
    function Update(x: Tensor): PreOutput
    {
      match delay
      case None => Direct(syn.dynamics(x))
      case Some(d) => Fed(d, syn.dynamics(x))
    }
  }

  /** `_AlignPost(syn, out)`: synapse dynamics on the target side, bound into an output. */
  class AlignPost {
    const syn: Synapse
    const out: Output

    constructor (syn: Synapse, out: Output)
      ensures this.syn == syn && this.out == out
    {
      this.syn := syn;
      this.out := out;
    }

    /** `update(x)`: the synapse's output on `x` is bound into the output, and nothing else changes. */
    method Update(x: Tensor)
      modifies out
      ensures out.bound == old(out.bound) + [syn.dynamics(x)]
    {
      out.BindCond(syn.dynamics(x));
    }
  }

  /** `_AlignPreMg(access, syn)`: a delayed read followed by synapse dynamics. */
  class AlignPreMg {
    const access: Access
    const syn: Synapse

    constructor (access: Access, syn: Synapse)
      ensures this.access == access && this.syn == syn
    {
      this.access := access;
      this.syn := syn;
    }

    /** `update()`: the synapse applied to what the access reads. */
    function Update(): Tensor
      reads access.delay
    {
      syn.dynamics(access.Read())
    }

    /** The unit sees through its access exactly what a tap registered at the
        same delay on the same delay object reads. */
    lemma ReadsLikeTap(name: string)
      requires name in access.delay.entries && access.delay.entries[name] == access.time
      ensures access.delay.At(name).Ok? && Update() == syn.dynamics(access.delay.At(name).value)
    {
    }
  }

  /** An after-update unit: the shared delay of a node's output, or an `_AlignPre`. */
  datatype AftUnit = DelayUnit(delay: Delay) | PreUnit(pre: AlignPre)

  /** A node (neuron group): what its `return_info()` reports, and its three registries. */
  class Node {
    const returnInfo: DelaySource
    var befUpdates: map<string, AlignPost>
    var aftUpdates: map<string, AftUnit>
    var inpFuns: map<string, Output>

    constructor (returnInfo: DelaySource)
      ensures this.returnInfo == returnInfo
      ensures befUpdates == map[] && aftUpdates == map[] && inpFuns == map[]
      ensures Valid()
    {
      this.returnInfo := returnInfo;
      befUpdates := map[];
      aftUpdates := map[];
      inpFuns := map[];
    }

    /** The shape projections keep the after-updates in: the shared-delay key
        holds a delay, and every other key holds an `_AlignPre` with a delay. */
    ghost predicate Valid()
      reads this
    {
      forall k :: k in aftUpdates ==>
        && (aftUpdates[k].DelayUnit? <==> k == Sentinel)
        && (aftUpdates[k].PreUnit? ==> aftUpdates[k].pre.delay.Some?)
    }

    /** The delay reached through the after-update under `key`, if any. */
    function DelayUnder(key: string): set<object>
      reads this
    {
      if key !in aftUpdates then {}
      else match aftUpdates[key]
        case DelayUnit(d) => {d as object}
        case PreUnit(u) => if u.delay.Some? then {u.delay.value as object} else {}
    }

    /** `add_inp_fun(key, out)`; a key may be registered once. */
    method AddInpFun(key: string, out: Output)
      requires key !in inpFuns
      modifies this
      ensures inpFuns == old(inpFuns)[key := out]
      ensures befUpdates == old(befUpdates) && aftUpdates == old(aftUpdates)
    {
      inpFuns := inpFuns[key := out];
    }

    /** `add_bef_update(key, unit)`; a key may be registered once. */
    method AddBefUpdate(key: string, unit: AlignPost)
      requires key !in befUpdates
      modifies this
      ensures befUpdates == old(befUpdates)[key := unit]
      ensures aftUpdates == old(aftUpdates) && inpFuns == old(inpFuns)
    {
      befUpdates := befUpdates[key := unit];
    }

    /** `add_aft_update(key, unit)`; a key may be registered once. */
    method AddAftUpdate(key: string, unit: AftUnit)
      requires key !in aftUpdates
      modifies this
      ensures aftUpdates == old(aftUpdates)[key := unit]
      ensures befUpdates == old(befUpdates) && inpFuns == old(inpFuns)
    {
      aftUpdates := aftUpdates[key := unit];
    }

    /** The get-or-create of the managed post-aligned projections: only when
        `key` is not yet a before-update are a synapse and an output instantiated,
        the output added as input function `owner`, and an `_AlignPost` over the
        two registered under `key`. Either way the unit under `key` is returned. */
    method GetOrCreatePostUnit(key: string, syn: SynDesc, out: OutDesc, owner: string) returns (u: AlignPost)
      requires key !in befUpdates ==> owner !in inpFuns
      modifies this
      ensures aftUpdates == old(aftUpdates)
      ensures key in befUpdates && u == befUpdates[key]
      ensures key in old(befUpdates) ==> befUpdates == old(befUpdates) && inpFuns == old(inpFuns)
      ensures key !in old(befUpdates) ==>
        && fresh(u) && fresh(u.syn) && fresh(u.out)
        && u.syn.dynamics == syn.dynamics && u.syn.info == syn.info
        && u.syn.currents == [] && u.out.bound == []
        && befUpdates == old(befUpdates)[key := u]
        && inpFuns == old(inpFuns)[owner := u.out]
    {
      if key !in befUpdates {
        var synCls := Synapse.Instantiate(syn);
        var outCls := new Output();
        AddInpFun(owner, outCls);
        var unit := new AlignPost(synCls, outCls);
        AddBefUpdate(key, unit);
      }
      u := befUpdates[key];
    }

    /** The get-or-create of the one delay of this node's output: only when the
        shared-delay key is absent is a delay built from `return_info()` and
        registered under it. Building it can fail as `_init_delay` does, and then
        nothing changes. */
    method GetOrCreateSharedDelay() returns (r: Result<Delay>)
      requires Valid()
      modifies this
      ensures Valid()
      ensures befUpdates == old(befUpdates) && inpFuns == old(inpFuns)
      ensures r.Ok? <==> Sentinel in old(aftUpdates) || InitDelay(returnInfo).Ok?
      ensures Sentinel in old(aftUpdates) ==>
        aftUpdates == old(aftUpdates) && r == Ok(old(aftUpdates)[Sentinel].delay)
      ensures Sentinel !in old(aftUpdates) && r.Err? ==>
        unchanged(this) && r.error == InitDelay(returnInfo).error
      ensures Sentinel !in old(aftUpdates) && r.Ok? ==>
        && fresh(r.value)
        && r.value.source == InitDelay(returnInfo).value
        && r.value.entries == map[] && r.value.befUpdates == map[]
        && (forall t :: r.value.buffer(t) == InitialValue(r.value.source))
        && aftUpdates == old(aftUpdates)[Sentinel := DelayUnit(r.value)]
    {
      if Sentinel in aftUpdates {
        r := Ok(aftUpdates[Sentinel].delay);
      } else {
        var init := InitDelay(returnInfo);
        if init.Err? {
          r := Err(init.error);
        } else {
          var d := new Delay(init.value);
          AddAftUpdate(Sentinel, DelayUnit(d));
          r := Ok(d);
        }
      }
    }

    /** The get-or-create of `ProjAlignPreMg1`: only when `key` is not yet an
        after-update is a synapse instantiated, a delay built from its
        `return_info()`, and an `_AlignPre` over the two registered under `key`.
        Building the delay can fail as `_init_delay` does, and then nothing changes. */
    method GetOrCreatePreUnit(key: string, syn: SynDesc) returns (r: Result<AlignPre>)
      requires Valid() && key != Sentinel
      modifies this
      ensures Valid()
      ensures befUpdates == old(befUpdates) && inpFuns == old(inpFuns)
      ensures r.Ok? <==> key in old(aftUpdates) || InitDelay(syn.info).Ok?
      ensures r.Ok? ==> key in aftUpdates && aftUpdates[key] == PreUnit(r.value) && r.value.delay.Some?
      ensures key in old(aftUpdates) ==> aftUpdates == old(aftUpdates)
      ensures key !in old(aftUpdates) && r.Err? ==>
        unchanged(this) && r.error == InitDelay(syn.info).error
      ensures key !in old(aftUpdates) && r.Ok? ==>
        && fresh(r.value) && fresh(r.value.syn) && fresh(r.value.delay.value)
        && r.value.syn.dynamics == syn.dynamics && r.value.syn.info == syn.info && r.value.syn.currents == []
        && r.value.delay.value.source == InitDelay(syn.info).value
        && r.value.delay.value.entries == map[] && r.value.delay.value.befUpdates == map[]
        && (forall t :: r.value.delay.value.buffer(t) == InitialValue(r.value.delay.value.source))
        && aftUpdates == old(aftUpdates)[key := PreUnit(r.value)]
    {
      if key in aftUpdates {
        r := Ok(aftUpdates[key].pre);
      } else {
        var synCls := Synapse.Instantiate(syn);
        var init := InitDelay(synCls.info);
        if init.Err? {
          r := Err(init.error);
        } else {
          var d := new Delay(init.value);
          var unit := new AlignPre(synCls, Some(d));
          AddAftUpdate(key, PreUnit(unit));
          r := Ok(unit);
        }
      }
    }

    /** `get_aft_update(_pre_delay_repr).at(name)`: the tap `name` of the shared
        delay, a lookup error when the delay or the tap is missing. */
    function SharedDelayAt(name: string): (r: Result<Tensor>)
      reads this, DelayUnder(Sentinel)
      ensures r.Ok? <==>
        Sentinel in aftUpdates && aftUpdates[Sentinel].DelayUnit? && name in aftUpdates[Sentinel].delay.entries
      ensures r.Ok? ==> r.value == aftUpdates[Sentinel].delay.buffer(aftUpdates[Sentinel].delay.entries[name])
      // on a well-formed node a failure is always a missing key, never a missing `at`
      ensures Valid() && r.Err? ==> r.error.KeyError?
    {
      if Sentinel !in aftUpdates then Err(KeyError(Sentinel))
      else match aftUpdates[Sentinel]
        case DelayUnit(d) => d.At(name)
        case PreUnit(_) => Err(AttributeError(Sentinel))
    }
  }
}
