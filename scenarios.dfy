/**
  Networks built from several projections, showing the deduplication protocol
  at work: which projections end up sharing a synapse, an output or a delay,
  and which do not.
 */
module Scenarios {
  import opened Values
  import opened DelayInit
  import opened Keys
  import opened Units
  import opened Projections

  /** Two managed post-aligned projections with the same synapse and output
      descriptors onto one node share one synapse and one output, and only the
      first one's name becomes an input function. */
  method SameDescriptorsShare(post: Node, syn: SynDesc, out: OutDesc, nameA: string, nameB: string,
                              commA: Tensor -> Tensor, commB: Tensor -> Tensor)
    returns (a: ProjAlignPostMg1, b: ProjAlignPostMg1)
    requires PostRepr(syn.identifier, out.identifier) !in post.befUpdates
    requires nameA !in post.inpFuns
    modifies post
    ensures a.syn == b.syn && a.out == b.out
    ensures fresh(a.syn) && fresh(a.out)
    ensures post.inpFuns == old(post.inpFuns)[nameA := a.out]
    ensures post.befUpdates.Keys == old(post.befUpdates).Keys + {PostRepr(syn.identifier, out.identifier)}
  {
    a := new ProjAlignPostMg1(nameA, commA, syn, out, post);
    b := new ProjAlignPostMg1(nameB, commB, syn, out, post);
  }

  /** Managed post-aligned projections with different descriptors (synapse
      identifiers without `/`) get units of their own. */
  method DifferentDescriptorsDoNotShare(post: Node, synA: SynDesc, outA: OutDesc, synB: SynDesc, outB: OutDesc,
                                        nameA: string, nameB: string, comm: Tensor -> Tensor)
    returns (a: ProjAlignPostMg1, b: ProjAlignPostMg1)
    requires '/' !in synA.identifier && '/' !in synB.identifier
    requires synA.identifier != synB.identifier || outA.identifier != outB.identifier
    requires PostRepr(synA.identifier, outA.identifier) !in post.befUpdates
    requires PostRepr(synB.identifier, outB.identifier) !in post.befUpdates
    requires nameA !in post.inpFuns && nameB !in post.inpFuns && nameA != nameB
    modifies post
    ensures a.syn != b.syn && a.out != b.out
    ensures post.inpFuns == old(post.inpFuns)[nameA := a.out][nameB := b.out]
  {
    var keyA := PostRepr(synA.identifier, outA.identifier);
    var keyB := PostRepr(synB.identifier, outB.identifier);
    if keyA == keyB {
      PostReprInjective(synA.identifier, outA.identifier, synB.identifier, outB.identifier);
    }
    a := new ProjAlignPostMg1(nameA, comm, synA, outA, post);
    b := new ProjAlignPostMg1(nameB, comm, synB, outB, post);
  }

  /** A managed post-aligned and an explicit pre-aligned projection that both
      delay the raw output of `pre` read one shared delay, each at its own tap;
      once the first is built, the second cannot fail. */
  method RawOutputDelayIsShared(pre: Node, postA: Node, postB: Node, syn: SynDesc, out: OutDesc, synB: Synapse,
                                outB: Output, nameA: string, nameB: string, timeA: DelayTime, timeB: DelayTime,
                                comm: Tensor -> Tensor)
    returns (a: Result<ProjAlignPostMg2>, b: Result<ProjAlignPre2>)
    requires pre.Valid()
    requires nameA != nameB
    requires nameA !in postA.inpFuns && nameB !in postB.inpFuns
    modifies pre, postA, postB, pre.DelayUnder(Sentinel)
    ensures a.Ok? ==> b.Ok?
    ensures a.Ok? ==>
      && Sentinel in pre.aftUpdates && pre.aftUpdates[Sentinel] == DelayUnit(b.value.delay)
      && nameA in b.value.delay.entries && b.value.delay.entries[nameA] == timeA
      && nameB in b.value.delay.entries && b.value.delay.entries[nameB] == timeB
    // a delay built here reads its initial value at both taps; an existing one keeps its buffer
    ensures a.Ok? && Sentinel !in old(pre.aftUpdates) ==>
      && b.value.delay.At(nameA) == Ok(InitialValue(b.value.delay.source))
      && b.value.delay.At(nameB) == Ok(InitialValue(b.value.delay.source))
    ensures a.Ok? && Sentinel in old(pre.aftUpdates) ==>
      b.value.delay.buffer == old(pre.aftUpdates[Sentinel].delay.buffer)
  {
    a := ProjAlignPostMg2.Create(nameA, pre, timeA, comm, syn, out, postA);
    if a.Err? {
      b := Err(a.error);
      return;
    }
    b := ProjAlignPre2.Create(nameB, pre, timeB, synB, comm, outB, postB);
  }

  /** Two managed pre-aligned projections of one synapse descriptor share its
      synapse and its delay, and each reads that delay at its own tap. */
  method SameSynapseSharesDelay(pre: Node, postA: Node, postB: Node, syn: SynDesc, outA: Output, outB: Output,
                                nameA: string, nameB: string, timeA: DelayTime, timeB: DelayTime,
                                comm: Tensor -> Tensor)
    returns (a: Result<ProjAlignPreMg1>, b: Result<ProjAlignPreMg1>)
    requires pre.Valid()
    requires nameA != nameB
    requires nameA !in postA.inpFuns && nameB !in postB.inpFuns
    modifies pre, postA, postB, pre.DelayUnder(PreSynId(syn.identifier))
    ensures a.Ok? ==> b.Ok?
    ensures a.Ok? ==>
      && a.value.syn == b.value.syn && a.value.delay == b.value.delay
      && nameA in a.value.delay.entries && a.value.delay.entries[nameA] == timeA
      && nameB in a.value.delay.entries && a.value.delay.entries[nameB] == timeB
  {
    a := ProjAlignPreMg1.Create(nameA, pre, syn, timeA, comm, outA, postA);
    if a.Err? {
      b := Err(a.error);
      return;
    }
    b := ProjAlignPreMg1.Create(nameB, pre, syn, timeB, comm, outB, postB);
  }

  /** Adding a projection that taps the shared delay of `pre` changes what no
      other tap reads, and cannot fail once that delay exists. */
  method OtherTapsKeepTheirReadings(pre: Node, name: string, time: DelayTime, syn: Synapse,
                                    comm: Tensor -> Tensor, out: Output, post: Node, other: string)
    returns (p: Result<ProjAlignPre2>)
    requires pre.Valid() && Sentinel in pre.aftUpdates
    requires name !in post.inpFuns && other != name
    modifies pre, post, pre.DelayUnder(Sentinel)
    ensures p.Ok?
    ensures pre.SharedDelayAt(other) == old(pre.SharedDelayAt(other))
    ensures pre.SharedDelayAt(name) == Ok(p.value.delay.buffer(time))
  {
    p := ProjAlignPre2.Create(name, pre, time, syn, comm, out, post);
  }

  /** An explicit post-aligned and a managed pre-aligned projection that both
      delay the raw output of `pre` use its one shared delay: the first takes a
      tap on it, the second adds no tap but hooks its unit onto it. */
  method TapAndHookOnSharedDelay(pre: Node, postA: Node, postB: Node, synA: Synapse, outA: Output,
                                 synB: SynDesc, outB: Output, nameA: string, nameB: string,
                                 timeA: DelayTime, timeB: DelayTime, comm: Tensor -> Tensor)
    returns (a: Result<ProjAlignPost2>, b: Result<ProjAlignPreMg2>)
    requires pre.Valid() && Sentinel in pre.aftUpdates
    requires nameA != nameB
    requires nameA !in postA.inpFuns && nameB !in postB.inpFuns
    modifies pre, postA, postB, pre.DelayUnder(Sentinel)
    ensures a.Ok? && b.Ok?
    // the delay stays the one under the shared key, with its buffer kept
    ensures pre.aftUpdates == old(pre.aftUpdates)
    ensures pre.aftUpdates[Sentinel].delay.buffer == old(pre.aftUpdates[Sentinel].delay.buffer)
    // the only tap added is the first projection's ...
    ensures pre.aftUpdates[Sentinel].delay.entries == old(pre.aftUpdates[Sentinel].delay.entries)[nameA := timeA]
    // ... and the second projection's synapse is a hook on that delay
    ensures
      var d := pre.aftUpdates[Sentinel].delay;
      b.value.synId in d.befUpdates && b.value.syn == d.befUpdates[b.value.synId].syn
  {
    a := ProjAlignPost2.Create(nameA, pre, timeA, comm, synA, outA, postA);
    b := ProjAlignPreMg2.Create(nameB, pre, timeB, synB, comm, outB, postB);
  }

  /** Managed pre-aligned projections of different synapse descriptors each get
      a unit of their own: different synapses and different delays. */
  method DifferentSynapsesDoNotShareDelay(pre: Node, postA: Node, postB: Node, synA: SynDesc, synB: SynDesc,
                                          outA: Output, outB: Output, nameA: string, nameB: string,
                                          timeA: DelayTime, timeB: DelayTime, comm: Tensor -> Tensor)
    returns (a: Result<ProjAlignPreMg1>, b: Result<ProjAlignPreMg1>)
    requires pre.Valid()
    requires synA.identifier != synB.identifier
    requires PreSynId(synA.identifier) !in pre.aftUpdates && PreSynId(synB.identifier) !in pre.aftUpdates
    requires nameA != nameB
    requires nameA !in postA.inpFuns && nameB !in postB.inpFuns
    modifies pre, postA, postB
    ensures a.Ok? && b.Ok? ==> a.value.syn != b.value.syn && a.value.delay != b.value.delay
    ensures a.Ok? && b.Ok? ==> a.value.delay.entries == map[nameA := timeA] && b.value.delay.entries == map[nameB := timeB]
  {
    if PreSynId(synA.identifier) == PreSynId(synB.identifier) {
      PreSynIdInjective(synA.identifier, synB.identifier);
    }
    a := ProjAlignPreMg1.Create(nameA, pre, synA, timeA, comm, outA, postA);
    if a.Err? {
      b := Err(a.error);
      return;
    }
    b := ProjAlignPreMg1.Create(nameB, pre, synB, timeB, comm, outB, postB);
  }

  /** Managed pre-aligned projections on the shared delay with different delays
      or different synapse descriptors each hook a synapse of their own. */
  method DifferentDelaysDoNotShareSynapse(pre: Node, postA: Node, postB: Node, synA: SynDesc, synB: SynDesc,
                                          outA: Output, outB: Output, nameA: string, nameB: string,
                                          timeA: DelayTime, timeB: DelayTime, comm: Tensor -> Tensor)
    returns (a: Result<ProjAlignPreMg2>, b: Result<ProjAlignPreMg2>)
    requires pre.Valid() && Sentinel in pre.aftUpdates
    requires WellFormedDelay(timeA) && WellFormedDelay(timeB)
    requires timeA != timeB || synA.identifier != synB.identifier
    requires PreMgSynId(timeA, synA.identifier) !in pre.aftUpdates[Sentinel].delay.befUpdates
    requires PreMgSynId(timeB, synB.identifier) !in pre.aftUpdates[Sentinel].delay.befUpdates
    requires nameA != nameB
    requires nameA !in postA.inpFuns && nameB !in postB.inpFuns
    modifies pre, postA, postB, pre.DelayUnder(Sentinel)
    ensures a.Ok? && b.Ok?
    ensures a.value.synId != b.value.synId && a.value.syn != b.value.syn
  {
    if PreMgSynId(timeA, synA.identifier) == PreMgSynId(timeB, synB.identifier) {
      PreMgSynIdInjective(timeA, synA.identifier, timeB, synB.identifier);
    }
    a := ProjAlignPreMg2.Create(nameA, pre, timeA, synA, comm, outA, postA);
    b := ProjAlignPreMg2.Create(nameB, pre, timeB, synB, comm, outB, postB);
  }
}
