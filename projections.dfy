/**
  The nine projection classes. Each one, when built, registers what it needs on
  its pre- and post-synaptic nodes (sharing units by key or not, as its variant
  says) and keeps references to what it will use; its `Update` then pushes one
  step's value through the communication operator into the shared pipeline.

  Variants whose construction may call `_init_delay` can fail as that function
  does; they are built by a static `Create` that returns a `Result`, and a
  failed construction leaves every node as it was.
 */
module Projections {
  import opened Values
  import opened DelayInit
  import opened Keys
  import opened Units

  /** No synapse, no delay: the communication operator feeds an output directly. */
  class VanillaProj {
    const name: string
    const comm: Tensor -> Tensor
    const post: Node
    const out: Output

    constructor (name: string, comm: Tensor -> Tensor, out: Output, post: Node)
      requires name !in post.inpFuns
      modifies post
      ensures this.name == name && this.comm == comm && this.post == post && this.out == out
      ensures post.inpFuns == old(post.inpFuns)[name := out]
      ensures post.befUpdates == old(post.befUpdates) && post.aftUpdates == old(post.aftUpdates)
    {
      this.name := name;
      this.comm := comm;
      this.post := post;
      this.out := out;
      new;
      post.AddInpFun(name, out);
    }

    /** `comm(x)` is bound into the output and returned. */
    method Update(x: Tensor) returns (current: Tensor)
      modifies out
      ensures current == comm(x)
      ensures out.bound == old(out.bound) + [current]
    {
      current := comm(x);
      out.BindCond(current);
    }
  }

  /** Post-aligned, no delay, managed: one synapse/output pair per key on `post`. */
  class ProjAlignPostMg1 {
    const name: string
    const comm: Tensor -> Tensor
    const post: Node
    const postRepr: string
    const syn: Synapse
    const out: Output

    constructor (name: string, comm: Tensor -> Tensor, syn: SynDesc, out: OutDesc, post: Node)
      requires PostRepr(syn.identifier, out.identifier) !in post.befUpdates ==> name !in post.inpFuns
      modifies post
      ensures this.name == name && this.comm == comm && this.post == post
      ensures postRepr == PostRepr(syn.identifier, out.identifier)
      // this projection refers to the synapse and output of the unit under its key
      ensures postRepr in post.befUpdates
      ensures this.syn == post.befUpdates[postRepr].syn && this.out == post.befUpdates[postRepr].out
      ensures post.aftUpdates == old(post.aftUpdates)
      // a taken key leaves the node as it was: no new unit, no new input function
      ensures postRepr in old(post.befUpdates) ==>
        post.befUpdates == old(post.befUpdates) && post.inpFuns == old(post.inpFuns)
      // a free key gets a new unit, whose output is the input function of this projection
      ensures postRepr !in old(post.befUpdates) ==>
        && fresh(post.befUpdates[postRepr]) && fresh(this.syn) && fresh(this.out)
        && this.syn.dynamics == syn.dynamics && this.syn.info == syn.info
        && this.syn.currents == [] && this.out.bound == []
        && post.befUpdates == old(post.befUpdates)[postRepr := post.befUpdates[postRepr]]
        && post.inpFuns == old(post.inpFuns)[name := this.out]
    {
      var key := PostRepr(syn.identifier, out.identifier);
      var u := post.GetOrCreatePostUnit(key, syn, out, name);
      this.name := name;
      this.comm := comm;
      this.post := post;
      this.postRepr := key;
      this.syn := u.syn;
      this.out := u.out;
    }

    /** `comm(x)` is added as a current to the shared synapse and returned. */
    method Update(x: Tensor) returns (current: Tensor)
      modifies syn
      ensures current == comm(x)
      ensures syn.currents == old(syn.currents) + [current]
    {
      current := comm(x);
      syn.AddCurrent(current);
    }
  }

  /** Post-aligned, raw output of `pre` delayed, managed. */
  class ProjAlignPostMg2 {
    const name: string
    const pre: Node
    const comm: Tensor -> Tensor
    const post: Node
    const postRepr: string
    const syn: Synapse
    const out: Output

    constructor Make(name: string, pre: Node, comm: Tensor -> Tensor, post: Node, postRepr: string, syn: Synapse, out: Output)
      ensures this.name == name && this.pre == pre && this.comm == comm && this.post == post
      ensures this.postRepr == postRepr && this.syn == syn && this.out == out
    {
      this.name := name;
      this.pre := pre;
      this.comm := comm;
      this.post := post;
      this.postRepr := postRepr;
      this.syn := syn;
      this.out := out;
    }

    static method Create(name: string, pre: Node, delayTime: DelayTime, comm: Tensor -> Tensor,
                         syn: SynDesc, out: OutDesc, post: Node) returns (r: Result<ProjAlignPostMg2>)
      requires pre.Valid()
      requires PostRepr(syn.identifier, out.identifier) !in post.befUpdates ==> name !in post.inpFuns
      modifies pre, post, pre.DelayUnder(Sentinel)
      // construction fails only when the shared delay has to be built and cannot be
      ensures r.Err? <==> Sentinel !in old(pre.aftUpdates) && InitDelay(pre.returnInfo).Err?
      ensures r.Err? ==> r.error == InitDelay(pre.returnInfo).error && unchanged(pre, post)
      ensures r.Ok? ==>
        && fresh(r.value) && r.value.name == name && r.value.pre == pre && r.value.post == post
        && r.value.comm == comm && r.value.postRepr == PostRepr(syn.identifier, out.identifier)
      // one delay under the shared key, built only if absent, with this projection's tap
      ensures r.Ok? ==> pre.Valid() && Sentinel in pre.aftUpdates && pre.aftUpdates[Sentinel].DelayUnit?
      ensures r.Ok? && Sentinel in old(pre.aftUpdates) ==>
        && pre.aftUpdates == old(pre.aftUpdates)
        && pre.aftUpdates[Sentinel].delay.entries == old(pre.aftUpdates[Sentinel].delay.entries)[name := delayTime]
        && pre.aftUpdates[Sentinel].delay.befUpdates == old(pre.aftUpdates[Sentinel].delay.befUpdates)
        && pre.aftUpdates[Sentinel].delay.buffer == old(pre.aftUpdates[Sentinel].delay.buffer)
      ensures r.Ok? && Sentinel !in old(pre.aftUpdates) ==>
        && pre.aftUpdates == old(pre.aftUpdates)[Sentinel := pre.aftUpdates[Sentinel]]
        && fresh(pre.aftUpdates[Sentinel].delay)
        && pre.aftUpdates[Sentinel].delay.source == InitDelay(pre.returnInfo).value
        && pre.aftUpdates[Sentinel].delay.entries == map[name := delayTime]
        && pre.aftUpdates[Sentinel].delay.befUpdates == map[]
        && (forall t :: pre.aftUpdates[Sentinel].delay.buffer(t) == InitialValue(pre.aftUpdates[Sentinel].delay.source))
      // the synapse/output pair is got or created exactly as by ProjAlignPostMg1
      ensures r.Ok? ==>
        && r.value.postRepr in post.befUpdates
        && r.value.syn == post.befUpdates[r.value.postRepr].syn
        && r.value.out == post.befUpdates[r.value.postRepr].out
      ensures r.Ok? && PostRepr(syn.identifier, out.identifier) in old(post.befUpdates) ==>
        post.befUpdates == old(post.befUpdates) && post.inpFuns == old(post.inpFuns)
      ensures r.Ok? && PostRepr(syn.identifier, out.identifier) !in old(post.befUpdates) ==>
        && fresh(post.befUpdates[r.value.postRepr]) && fresh(r.value.syn) && fresh(r.value.out)
        && r.value.syn.dynamics == syn.dynamics && r.value.syn.info == syn.info
        && r.value.syn.currents == [] && r.value.out.bound == []
        && post.befUpdates == old(post.befUpdates)[r.value.postRepr := post.befUpdates[r.value.postRepr]]
        && post.inpFuns == old(post.inpFuns)[name := r.value.out]
      ensures pre != post ==>
        && pre.befUpdates == old(pre.befUpdates) && pre.inpFuns == old(pre.inpFuns)
        && post.aftUpdates == old(post.aftUpdates)
    {
      var dr := pre.GetOrCreateSharedDelay();
      if dr.Err? {
        return Err(dr.error);
      }
      var d := dr.value;
      d.RegisterEntry(name, delayTime);
      var key := PostRepr(syn.identifier, out.identifier);
      var u := post.GetOrCreatePostUnit(key, syn, out, name);
      var p := new ProjAlignPostMg2.Make(name, pre, comm, post, key, u.syn, u.out);
      r := Ok(p);
    }

    /** The tap of this projection on the shared delay, through `comm`, is added
        as a current to the shared synapse; a missing delay or tap is an error. */
    method Update() returns (r: Result<Tensor>)
      modifies syn
      ensures old(pre.SharedDelayAt(name)).Err? ==>
        r == old(pre.SharedDelayAt(name)) && syn.currents == old(syn.currents)
      ensures old(pre.SharedDelayAt(name)).Ok? ==>
        && r == Ok(comm(old(pre.SharedDelayAt(name)).value))
        && syn.currents == old(syn.currents) + [r.value]
    {
      var x := pre.SharedDelayAt(name);
      if x.Err? {
        return Err(x.error);
      }
      var current := comm(x.value);
      syn.AddCurrent(current);
      r := Ok(current);
    }
  }

  /** Post-aligned, no delay, explicit: the given synapse and output, under this projection's name. */
  class ProjAlignPost1 {
    const name: string
    const comm: Tensor -> Tensor
    const post: Node
    const syn: Synapse
    const out: Output

    constructor (name: string, comm: Tensor -> Tensor, syn: Synapse, out: Output, post: Node)
      requires name !in post.inpFuns && name !in post.befUpdates
      modifies post
      ensures this.name == name && this.comm == comm && this.post == post
      ensures this.syn == syn && this.out == out
      ensures post.inpFuns == old(post.inpFuns)[name := out]
      ensures name in post.befUpdates && fresh(post.befUpdates[name])
      ensures post.befUpdates[name].syn == syn && post.befUpdates[name].out == out
      ensures post.befUpdates == old(post.befUpdates)[name := post.befUpdates[name]]
      ensures post.aftUpdates == old(post.aftUpdates)
    {
      post.AddInpFun(name, out);
      var unit := new AlignPost(syn, out);
      post.AddBefUpdate(name, unit);
      this.name := name;
      this.comm := comm;
      this.post := post;
      this.syn := post.befUpdates[name].syn;
      this.out := post.befUpdates[name].out;
    }

    /** `comm(x)` is added as a current to the synapse and returned. */
    method Update(x: Tensor) returns (current: Tensor)
      modifies syn
      ensures current == comm(x)
      ensures syn.currents == old(syn.currents) + [current]
    {
      current := comm(x);
      syn.AddCurrent(current);
    }
  }

  /** Post-aligned, raw output of `pre` delayed, explicit. */
  class ProjAlignPost2 {
    const name: string
    const pre: Node
    const comm: Tensor -> Tensor
    const syn: Synapse
    const post: Node
    const out: Output

    constructor Make(name: string, pre: Node, comm: Tensor -> Tensor, syn: Synapse, post: Node, out: Output)
      ensures this.name == name && this.pre == pre && this.comm == comm
      ensures this.syn == syn && this.post == post && this.out == out
    {
      this.name := name;
      this.pre := pre;
      this.comm := comm;
      this.syn := syn;
      this.post := post;
      this.out := out;
    }

    static method Create(name: string, pre: Node, delayTime: DelayTime, comm: Tensor -> Tensor,
                         syn: Synapse, out: Output, post: Node) returns (r: Result<ProjAlignPost2>)
      requires pre.Valid()
      requires name !in post.inpFuns
      modifies pre, post, pre.DelayUnder(Sentinel)
      ensures r.Err? <==> Sentinel !in old(pre.aftUpdates) && InitDelay(pre.returnInfo).Err?
      ensures r.Err? ==> r.error == InitDelay(pre.returnInfo).error && unchanged(pre, post)
      ensures r.Ok? ==>
        && fresh(r.value) && r.value.name == name && r.value.pre == pre && r.value.post == post
        && r.value.comm == comm && r.value.syn == syn && r.value.out == out
      // one delay under the shared key, built only if absent, with this projection's tap
      ensures r.Ok? ==> pre.Valid() && Sentinel in pre.aftUpdates && pre.aftUpdates[Sentinel].DelayUnit?
      ensures r.Ok? && Sentinel in old(pre.aftUpdates) ==>
        && pre.aftUpdates == old(pre.aftUpdates)
        && pre.aftUpdates[Sentinel].delay.entries == old(pre.aftUpdates[Sentinel].delay.entries)[name := delayTime]
        && pre.aftUpdates[Sentinel].delay.befUpdates == old(pre.aftUpdates[Sentinel].delay.befUpdates)
        && pre.aftUpdates[Sentinel].delay.buffer == old(pre.aftUpdates[Sentinel].delay.buffer)
      ensures r.Ok? && Sentinel !in old(pre.aftUpdates) ==>
        && pre.aftUpdates == old(pre.aftUpdates)[Sentinel := pre.aftUpdates[Sentinel]]
        && fresh(pre.aftUpdates[Sentinel].delay)
        && pre.aftUpdates[Sentinel].delay.source == InitDelay(pre.returnInfo).value
        && pre.aftUpdates[Sentinel].delay.entries == map[name := delayTime]
        && pre.aftUpdates[Sentinel].delay.befUpdates == map[]
        && (forall t :: pre.aftUpdates[Sentinel].delay.buffer(t) == InitialValue(pre.aftUpdates[Sentinel].delay.source))
      // only the output is registered on `post`; the synapse is not a hook of any node
      ensures r.Ok? ==> post.inpFuns == old(post.inpFuns)[name := out]
      ensures pre.befUpdates == old(pre.befUpdates) && post.befUpdates == old(post.befUpdates)
      ensures pre != post ==> pre.inpFuns == old(pre.inpFuns) && post.aftUpdates == old(post.aftUpdates)
    {
      var dr := pre.GetOrCreateSharedDelay();
      if dr.Err? {
        return Err(dr.error);
      }
      var d := dr.value;
      d.RegisterEntry(name, delayTime);
      post.AddInpFun(name, out);
      var p := new ProjAlignPost2.Make(name, pre, comm, syn, post, out);
      r := Ok(p);
    }

    /** The tap of this projection goes through `comm`, then the synapse, and is
        bound into the output; a missing delay or tap is an error. */
    method Update() returns (r: Result<Tensor>)
      modifies out
      ensures old(pre.SharedDelayAt(name)).Err? ==>
        r == old(pre.SharedDelayAt(name)) && out.bound == old(out.bound)
      ensures old(pre.SharedDelayAt(name)).Ok? ==>
        && r == Ok(syn.dynamics(comm(old(pre.SharedDelayAt(name)).value)))
        && out.bound == old(out.bound) + [r.value]
    {
      var x := pre.SharedDelayAt(name);
      if x.Err? {
        return Err(x.error);
      }
      var g := syn.dynamics(comm(x.value));
      out.BindCond(g);
      r := Ok(g);
    }
  }

  /** Pre-aligned, synaptic output delayed, managed: one synapse+delay per key on `pre`. */
  class ProjAlignPreMg1 {
    const name: string
    const pre: Node
    const synId: string
    const syn: Synapse
    const delay: Delay
    const comm: Tensor -> Tensor
    const post: Node
    const out: Output

    constructor Make(name: string, pre: Node, synId: string, syn: Synapse, delay: Delay,
                     comm: Tensor -> Tensor, post: Node, out: Output)
      ensures this.name == name && this.pre == pre && this.synId == synId && this.syn == syn
      ensures this.delay == delay && this.comm == comm && this.post == post && this.out == out
    {
      this.name := name;
      this.pre := pre;
      this.synId := synId;
      this.syn := syn;
      this.delay := delay;
      this.comm := comm;
      this.post := post;
      this.out := out;
    }


    /** The after-update under `synId` is an `_AlignPre` over the synapse and the
        delay this projection refers to. */
    ghost predicate Wired()
      reads pre
    {
      && synId in pre.aftUpdates && pre.aftUpdates[synId].PreUnit?
      && pre.aftUpdates[synId].pre.syn == syn && pre.aftUpdates[synId].pre.delay == Some(delay)
    }

    /** At each step the unit feeds the synapse's output of the node's value into
        the very delay this projection reads its tap from. */
    lemma UnitFeedsTapDelay(x: Tensor)
      requires Wired()
      ensures pre.aftUpdates[synId].pre.Update(x) == Fed(delay, syn.dynamics(x))
    {
    }

    static method Create(name: string, pre: Node, syn: SynDesc, delayTime: DelayTime,
                         comm: Tensor -> Tensor, out: Output, post: Node) returns (r: Result<ProjAlignPreMg1>)
      requires pre.Valid()
      requires name !in post.inpFuns
      modifies pre, post, pre.DelayUnder(PreSynId(syn.identifier))
      // construction fails only when the unit has to be built and its delay cannot be
      ensures r.Err? <==> PreSynId(syn.identifier) !in old(pre.aftUpdates) && InitDelay(syn.info).Err?
      ensures r.Err? ==> r.error == InitDelay(syn.info).error && unchanged(pre, post)
      ensures r.Ok? ==>
        && fresh(r.value) && r.value.name == name && r.value.pre == pre && r.value.post == post
        && r.value.comm == comm && r.value.out == out && r.value.synId == PreSynId(syn.identifier)
      // this projection refers to the synapse and delay of the unit under its key,
      // and has its tap on that delay
      ensures r.Ok? ==> r.value.Wired()
      ensures r.Ok? ==>
        && pre.Valid()
        && r.value.synId in pre.aftUpdates && pre.aftUpdates[r.value.synId].PreUnit?
        && r.value.syn == pre.aftUpdates[r.value.synId].pre.syn
        && pre.aftUpdates[r.value.synId].pre.delay == Some(r.value.delay)
      ensures r.Ok? && PreSynId(syn.identifier) in old(pre.aftUpdates) ==>
        && pre.aftUpdates == old(pre.aftUpdates)
        && r.value.delay.entries == old(pre.aftUpdates[PreSynId(syn.identifier)].pre.delay.value.entries)[name := delayTime]
        && r.value.delay.befUpdates == old(pre.aftUpdates[PreSynId(syn.identifier)].pre.delay.value.befUpdates)
        && r.value.delay.buffer == old(pre.aftUpdates[PreSynId(syn.identifier)].pre.delay.value.buffer)
      ensures r.Ok? && PreSynId(syn.identifier) !in old(pre.aftUpdates) ==>
        && pre.aftUpdates == old(pre.aftUpdates)[r.value.synId := pre.aftUpdates[r.value.synId]]
        && fresh(pre.aftUpdates[r.value.synId].pre) && fresh(r.value.syn) && fresh(r.value.delay)
        && r.value.syn.dynamics == syn.dynamics && r.value.syn.info == syn.info && r.value.syn.currents == []
        && r.value.delay.source == InitDelay(syn.info).value
        && r.value.delay.entries == map[name := delayTime]
        && r.value.delay.befUpdates == map[]
        && (forall t :: r.value.delay.buffer(t) == InitialValue(r.value.delay.source))
      ensures r.Ok? ==> post.inpFuns == old(post.inpFuns)[name := out]
      ensures pre.befUpdates == old(pre.befUpdates) && post.befUpdates == old(post.befUpdates)
      ensures pre != post ==> pre.inpFuns == old(pre.inpFuns) && post.aftUpdates == old(post.aftUpdates)
    {
      var key := PreSynId(syn.identifier);
      PreSynIdNotSentinel(syn.identifier);
      var ur := pre.GetOrCreatePreUnit(key, syn);
      if ur.Err? {
        return Err(ur.error);
      }
      var unit := ur.value;
      var d := unit.delay.value;
      d.RegisterEntry(name, delayTime);
      post.AddInpFun(name, out);
      var p := new ProjAlignPreMg1.Make(name, pre, key, unit.syn, d, comm, post, out);
      r := Ok(p);
    }

    /** The given value, or when there is none the tap of this projection,
        through `comm`, bound into the output; a missing tap is an error. */
    method Update(x: Option<Tensor>) returns (r: Result<Tensor>)
      modifies out
      ensures x.Some? ==> r == Ok(comm(x.value)) && out.bound == old(out.bound) + [r.value]
      ensures x.None? && old(delay.At(name)).Ok? ==>
        r == Ok(comm(old(delay.At(name)).value)) && out.bound == old(out.bound) + [r.value]
      ensures x.None? && old(delay.At(name)).Err? ==>
        r == old(delay.At(name)) && out.bound == old(out.bound)
    {
      var v := x;
      if v.None? {
        var tap := delay.At(name);
        if tap.Err? {
          return Err(tap.error);
        }
        v := Some(tap.value);
      }
      var current := comm(v.value);
      out.BindCond(current);
      r := Ok(current);
    }
  }

  /** Pre-aligned, raw output of `pre` delayed, managed: one synapse per delay and
      descriptor, hooked on the shared delay. */
  class ProjAlignPreMg2 {
    const name: string
    const pre: Node
    const synId: string
    const syn: Synapse
    const comm: Tensor -> Tensor
    const post: Node
    const out: Output

    constructor Make(name: string, pre: Node, synId: string, syn: Synapse,
                     comm: Tensor -> Tensor, post: Node, out: Output)
      ensures this.name == name && this.pre == pre && this.synId == synId && this.syn == syn
      ensures this.comm == comm && this.post == post && this.out == out
    {
      this.name := name;
      this.pre := pre;
      this.synId := synId;
      this.syn := syn;
      this.comm := comm;
      this.post := post;
      this.out := out;
    }

    static method Create(name: string, pre: Node, delayTime: DelayTime, syn: SynDesc,
                         comm: Tensor -> Tensor, out: Output, post: Node) returns (r: Result<ProjAlignPreMg2>)
      requires pre.Valid()
      requires name !in post.inpFuns
      modifies pre, post, pre.DelayUnder(Sentinel)
      ensures r.Err? <==> Sentinel !in old(pre.aftUpdates) && InitDelay(pre.returnInfo).Err?
      ensures r.Err? ==> r.error == InitDelay(pre.returnInfo).error && unchanged(pre, post)
      ensures r.Ok? ==>
        && fresh(r.value) && r.value.name == name && r.value.pre == pre && r.value.post == post
        && r.value.comm == comm && r.value.out == out && r.value.synId == PreMgSynId(delayTime, syn.identifier)
      // one delay under the shared key, built only if absent; no tap is registered on it
      ensures r.Ok? ==> pre.Valid() && Sentinel in pre.aftUpdates && pre.aftUpdates[Sentinel].DelayUnit?
      ensures r.Ok? && Sentinel in old(pre.aftUpdates) ==>
        && pre.aftUpdates == old(pre.aftUpdates)
        && pre.aftUpdates[Sentinel].delay.entries == old(pre.aftUpdates[Sentinel].delay.entries)
        && pre.aftUpdates[Sentinel].delay.buffer == old(pre.aftUpdates[Sentinel].delay.buffer)
      ensures r.Ok? && Sentinel !in old(pre.aftUpdates) ==>
        && pre.aftUpdates == old(pre.aftUpdates)[Sentinel := pre.aftUpdates[Sentinel]]
        && fresh(pre.aftUpdates[Sentinel].delay)
        && pre.aftUpdates[Sentinel].delay.source == InitDelay(pre.returnInfo).value
        && pre.aftUpdates[Sentinel].delay.entries == map[]
        && (forall t :: pre.aftUpdates[Sentinel].delay.buffer(t) == InitialValue(pre.aftUpdates[Sentinel].delay.source))
      // this projection refers to the synapse of the unit under its key on that delay
      ensures r.Ok? ==>
        && r.value.synId in pre.aftUpdates[Sentinel].delay.befUpdates
        && r.value.syn == pre.aftUpdates[Sentinel].delay.befUpdates[r.value.synId].syn
      // a taken key leaves the delay's hooks as they were
      ensures r.Ok? && Sentinel in old(pre.aftUpdates)
                    && PreMgSynId(delayTime, syn.identifier) in old(pre.aftUpdates[Sentinel].delay.befUpdates) ==>
        pre.aftUpdates[Sentinel].delay.befUpdates == old(pre.aftUpdates[Sentinel].delay.befUpdates)
      // a free key gets a new unit reading the delay at `delayTime` through a new synapse
      ensures r.Ok? && Sentinel in old(pre.aftUpdates)
                    && PreMgSynId(delayTime, syn.identifier) !in old(pre.aftUpdates[Sentinel].delay.befUpdates) ==>
        var d := pre.aftUpdates[Sentinel].delay;
        && fresh(d.befUpdates[r.value.synId]) && fresh(r.value.syn)
        && d.befUpdates[r.value.synId].access == Access(d, delayTime)
        && r.value.syn.dynamics == syn.dynamics && r.value.syn.info == syn.info && r.value.syn.currents == []
        && d.befUpdates == old(pre.aftUpdates[Sentinel].delay.befUpdates)[r.value.synId := d.befUpdates[r.value.synId]]
      ensures r.Ok? && Sentinel !in old(pre.aftUpdates) ==>
        var d := pre.aftUpdates[Sentinel].delay;
        && fresh(d.befUpdates[r.value.synId]) && fresh(r.value.syn)
        && d.befUpdates[r.value.synId].access == Access(d, delayTime)
        && r.value.syn.dynamics == syn.dynamics && r.value.syn.info == syn.info && r.value.syn.currents == []
        && d.befUpdates == map[r.value.synId := d.befUpdates[r.value.synId]]
      ensures r.Ok? ==> post.inpFuns == old(post.inpFuns)[name := out]
      ensures pre.befUpdates == old(pre.befUpdates) && post.befUpdates == old(post.befUpdates)
      ensures pre != post ==> pre.inpFuns == old(pre.inpFuns) && post.aftUpdates == old(post.aftUpdates)
    {
      var dr := pre.GetOrCreateSharedDelay();
      if dr.Err? {
        return Err(dr.error);
      }
      var d := dr.value;
      var key := PreMgSynId(delayTime, syn.identifier);
      var unit := d.GetOrCreatePreMgUnit(key, delayTime, syn);
      post.AddInpFun(name, out);
      var p := new ProjAlignPreMg2.Make(name, pre, key, unit.syn, comm, post, out);
      r := Ok(p);
    }

    /** What the shared synapse returns (`_get_return` of its `return_info()`),
        through `comm`, bound into the output. `getData` is `ReturnInfo.get_data`. */
    method Update(getData: ReturnInfo -> Tensor) returns (r: Result<Tensor>)
      modifies out
      ensures GetReturn(syn.info, getData).Err? ==>
        r == GetReturn(syn.info, getData) && out.bound == old(out.bound)
      ensures GetReturn(syn.info, getData).Ok? ==>
        r == Ok(comm(GetReturn(syn.info, getData).value)) && out.bound == old(out.bound) + [r.value]
    {
      var x := GetReturn(syn.info, getData);
      if x.Err? {
        return Err(x.error);
      }
      var current := comm(x.value);
      out.BindCond(current);
      r := Ok(current);
    }
  }

  /** Pre-aligned, synaptic output delayed, explicit: a new delay and an
      `_AlignPre` over the given synapse, under this projection's name. */
  class ProjAlignPre1 {
    const name: string
    const pre: Node
    const syn: Synapse
    const delay: Delay
    const comm: Tensor -> Tensor
    const post: Node
    const out: Output

    constructor Make(name: string, pre: Node, syn: Synapse, delay: Delay,
                     comm: Tensor -> Tensor, post: Node, out: Output)
      ensures this.name == name && this.pre == pre && this.syn == syn && this.delay == delay
      ensures this.comm == comm && this.post == post && this.out == out
    {
      this.name := name;
      this.pre := pre;
      this.syn := syn;
      this.delay := delay;
      this.comm := comm;
      this.post := post;
      this.out := out;
    }


    /** The after-update under `name` is an `_AlignPre` over the synapse and the
        delay this projection refers to. */
    ghost predicate Wired()
      reads pre
    {
      && name in pre.aftUpdates && pre.aftUpdates[name].PreUnit?
      && pre.aftUpdates[name].pre.syn == syn && pre.aftUpdates[name].pre.delay == Some(delay)
    }

    /** At each step the unit feeds the synapse's output of the node's value into
        the very delay this projection reads its tap from. */
    lemma UnitFeedsTapDelay(x: Tensor)
      requires Wired()
      ensures pre.aftUpdates[name].pre.Update(x) == Fed(delay, syn.dynamics(x))
    {
    }

    static method Create(name: string, pre: Node, syn: Synapse, delayTime: DelayTime,
                         comm: Tensor -> Tensor, out: Output, post: Node) returns (r: Result<ProjAlignPre1>)
      requires pre.Valid()
      requires name != Sentinel && name !in pre.aftUpdates && name !in post.inpFuns
      modifies pre, post
      ensures r.Err? <==> InitDelay(syn.info).Err?
      ensures r.Err? ==> r.error == InitDelay(syn.info).error && unchanged(pre, post)
      ensures r.Ok? ==>
        && fresh(r.value) && r.value.name == name && r.value.pre == pre && r.value.post == post
        && r.value.comm == comm && r.value.out == out && r.value.syn == syn
      // a delay of its own, with this projection's tap
      ensures r.Ok? ==>
        && fresh(r.value.delay)
        && r.value.delay.source == InitDelay(syn.info).value
        && r.value.delay.entries == map[name := delayTime]
        && r.value.delay.befUpdates == map[]
        && (forall t :: r.value.delay.buffer(t) == InitialValue(r.value.delay.source))
      // an `_AlignPre` over the synapse and that delay, under this projection's name
      ensures r.Ok? ==> r.value.Wired()
      ensures r.Ok? ==>
        && pre.Valid()
        && name in pre.aftUpdates && pre.aftUpdates[name].PreUnit? && fresh(pre.aftUpdates[name].pre)
        && pre.aftUpdates[name].pre.syn == syn && pre.aftUpdates[name].pre.delay == Some(r.value.delay)
        && pre.aftUpdates == old(pre.aftUpdates)[name := pre.aftUpdates[name]]
      ensures r.Ok? ==> post.inpFuns == old(post.inpFuns)[name := out]
      ensures pre.befUpdates == old(pre.befUpdates) && post.befUpdates == old(post.befUpdates)
      ensures pre != post ==> pre.inpFuns == old(pre.inpFuns) && post.aftUpdates == old(post.aftUpdates)
    {
      var init := InitDelay(syn.info);
      if init.Err? {
        return Err(init.error);
      }
      var d := new Delay(init.value);
      d.RegisterEntry(name, delayTime);
      var unit := new AlignPre(syn, Some(d));
      pre.AddAftUpdate(name, PreUnit(unit));
      post.AddInpFun(name, out);
      var p := new ProjAlignPre1.Make(name, pre, syn, d, comm, post, out);
      r := Ok(p);
    }

    /** The given value, or when there is none the tap of this projection,
        through `comm`, bound into the output; a missing tap is an error. */
    method Update(x: Option<Tensor>) returns (r: Result<Tensor>)
      modifies out
      ensures x.Some? ==> r == Ok(comm(x.value)) && out.bound == old(out.bound) + [r.value]
      ensures x.None? && old(delay.At(name)).Ok? ==>
        r == Ok(comm(old(delay.At(name)).value)) && out.bound == old(out.bound) + [r.value]
      ensures x.None? && old(delay.At(name)).Err? ==>
        r == old(delay.At(name)) && out.bound == old(out.bound)
    {
      var v := x;
      if v.None? {
        var tap := delay.At(name);
        if tap.Err? {
          return Err(tap.error);
        }
        v := Some(tap.value);
      }
      var current := comm(v.value);
      out.BindCond(current);
      r := Ok(current);
    }
  }

  /** Pre-aligned, raw output of `pre` delayed, explicit: a tap on the shared
      delay, read through the given synapse at each step. */
  class ProjAlignPre2 {
    const name: string
    const pre: Node
    const syn: Synapse
    const delay: Delay
    const comm: Tensor -> Tensor
    const post: Node
    const out: Output

    constructor Make(name: string, pre: Node, syn: Synapse, delay: Delay,
                     comm: Tensor -> Tensor, post: Node, out: Output)
      ensures this.name == name && this.pre == pre && this.syn == syn && this.delay == delay
      ensures this.comm == comm && this.post == post && this.out == out
    {
      this.name := name;
      this.pre := pre;
      this.syn := syn;
      this.delay := delay;
      this.comm := comm;
      this.post := post;
      this.out := out;
    }

    static method Create(name: string, pre: Node, delayTime: DelayTime, syn: Synapse,
                         comm: Tensor -> Tensor, out: Output, post: Node) returns (r: Result<ProjAlignPre2>)
      requires pre.Valid()
      requires name !in post.inpFuns
      modifies pre, post, pre.DelayUnder(Sentinel)
      ensures r.Err? <==> Sentinel !in old(pre.aftUpdates) && InitDelay(pre.returnInfo).Err?
      ensures r.Err? ==> r.error == InitDelay(pre.returnInfo).error && unchanged(pre, post)
      ensures r.Ok? ==>
        && fresh(r.value) && r.value.name == name && r.value.pre == pre && r.value.post == post
        && r.value.comm == comm && r.value.out == out && r.value.syn == syn
      // one delay under the shared key, built only if absent, with this projection's tap;
      // the projection refers to that delay
      ensures r.Ok? ==>
        && pre.Valid() && Sentinel in pre.aftUpdates
        && pre.aftUpdates[Sentinel] == DelayUnit(r.value.delay)
      ensures r.Ok? && Sentinel in old(pre.aftUpdates) ==>
        && pre.aftUpdates == old(pre.aftUpdates)
        && r.value.delay.entries == old(pre.aftUpdates[Sentinel].delay.entries)[name := delayTime]
        && r.value.delay.befUpdates == old(pre.aftUpdates[Sentinel].delay.befUpdates)
        && r.value.delay.buffer == old(pre.aftUpdates[Sentinel].delay.buffer)
      ensures r.Ok? && Sentinel !in old(pre.aftUpdates) ==>
        && pre.aftUpdates == old(pre.aftUpdates)[Sentinel := DelayUnit(r.value.delay)]
        && fresh(r.value.delay)
        && r.value.delay.source == InitDelay(pre.returnInfo).value
        && r.value.delay.entries == map[name := delayTime]
        && r.value.delay.befUpdates == map[]
        && (forall t :: r.value.delay.buffer(t) == InitialValue(r.value.delay.source))
      ensures r.Ok? ==> post.inpFuns == old(post.inpFuns)[name := out]
      ensures pre.befUpdates == old(pre.befUpdates) && post.befUpdates == old(post.befUpdates)
      ensures pre != post ==> pre.inpFuns == old(pre.inpFuns) && post.aftUpdates == old(post.aftUpdates)
    {
      var dr := pre.GetOrCreateSharedDelay();
      if dr.Err? {
        return Err(dr.error);
      }
      var d := dr.value;
      d.RegisterEntry(name, delayTime);
      post.AddInpFun(name, out);
      var p := new ProjAlignPre2.Make(name, pre, syn, d, comm, post, out);
      r := Ok(p);
    }

    /** The tap of this projection goes through the synapse, then `comm`, and is
        bound into the output; a missing tap is an error. */
    method Update() returns (r: Result<Tensor>)
      modifies out
      ensures old(delay.At(name)).Err? ==> r == old(delay.At(name)) && out.bound == old(out.bound)
      ensures old(delay.At(name)).Ok? ==>
        r == Ok(comm(syn.dynamics(old(delay.At(name)).value))) && out.bound == old(out.bound) + [r.value]
    {
      var spk := delay.At(name);
      if spk.Err? {
        return Err(spk.error);
      }
      var g := comm(syn.dynamics(spk.value));
      out.BindCond(g);
      r := Ok(g);
    }
  }
}
