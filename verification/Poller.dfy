/**
 * Channels and the epoll poller (clia/src/reactor/channel.cc, clia/src/reactor/epoller.cc). `Registry` is what one
 * poller knows: its channels with their interest masks and indices, the map from descriptors to registered channels,
 * and the kernel's interest set. `C` identifies channels: a reference in the classes below, a name in the protocol.
 */
module Poller {
  import opened Checks

  /** The bits of an epoll mask that the code sets or tests. */
  datatype Mask = Mask(input: bool, urgent: bool, output: bool, error: bool, hangUp: bool, peerClosed: bool) {

    function Or(m: Mask): Mask
    {
      Mask(input || m.input, urgent || m.urgent, output || m.output,
           error || m.error, hangUp || m.hangUp, peerClosed || m.peerClosed)
    }

    function Without(m: Mask): Mask
    {
      Mask(input && !m.input, urgent && !m.urgent, output && !m.output,
           error && !m.error, hangUp && !m.hangUp, peerClosed && !m.peerClosed)
    }

    /** Some bit of `m` is set. */
    predicate Has(m: Mask)
    {
      || (input && m.input) || (urgent && m.urgent) || (output && m.output)
      || (error && m.error) || (hangUp && m.hangUp) || (peerClosed && m.peerClosed)
    }
  }

  const NO_EVENT: Mask := Mask(false, false, false, false, false, false)
  const EPOLLIN: Mask := NO_EVENT.(input := true)
  const EPOLLPRI: Mask := NO_EVENT.(urgent := true)
  const EPOLLOUT: Mask := NO_EVENT.(output := true)
  const EPOLLHUP: Mask := NO_EVENT.(hangUp := true)
  const EPOLLRDHUP: Mask := NO_EVENT.(peerClosed := true)
  const READ_EVENT: Mask := EPOLLIN.Or(EPOLLPRI)
  const WRITE_EVENT: Mask := EPOLLOUT

  datatype Index = New | Added | Deleted

  datatype Chan = Chan(fd: int, events: Mask, index: Index, addedToLoop: bool)

  datatype Entry<C> = Entry(events: Mask, owner: C)

  datatype CtlOp = Add | Mod | Del

  datatype Registry<C(==)> = Registry(chans: map<C, Chan>, channels: map<int, C>, kernel: map<int, Entry<C>>)

  // ----- one operation -----

  /** The kernel refuses to add a descriptor it has, and to modify or delete one it has not. */
  predicate CtlLegal<C>(kernel: map<int, Entry<C>>, op: CtlOp, fd: int)
  {
    op.Add? <==> fd !in kernel
  }

  function Ctl<C>(kernel: map<int, Entry<C>>, op: CtlOp, fd: int, entry: Entry<C>): Checked<map<int, Entry<C>>>
  {
    var _ :- Check(CtlLegal(kernel, op, fd), "epoller.cc:126");
    Fine(if op.Del? then kernel - {fd} else kernel[fd := entry])
  }

  function AfterUpdate<C>(r: Registry<C>, c: C): Checked<Registry<C>>
    requires c in r.chans
  {
    var ch := r.chans[c];
    var registered := ch.fd in r.channels && r.channels[ch.fd] == c;
    if !ch.index.Added? then
      var _ :- Check(ch.index.New? ==> ch.fd !in r.channels, "epoller.cc:79");
      var _ :- Check(ch.index.Deleted? ==> registered, "epoller.cc:82");
      var kernel :- Ctl(r.kernel, Add, ch.fd, Entry(ch.events, c));
      Fine(Registry(r.chans[c := ch.(index := Added)], r.channels[ch.fd := c], kernel))
    else
      var _ :- Check(registered, "epoller.cc:87");
      if ch.events == NO_EVENT then
        var kernel :- Ctl(r.kernel, Del, ch.fd, Entry(ch.events, c));
        Fine(r.(chans := r.chans[c := ch.(index := Deleted)], kernel := kernel))
      else
        var kernel :- Ctl(r.kernel, Mod, ch.fd, Entry(ch.events, c));
        Fine(r.(kernel := kernel))
  }

  function AfterRemove<C>(r: Registry<C>, c: C): Checked<Registry<C>>
    requires c in r.chans
  {
    var ch := r.chans[c];
    var _ :- Check(ch.fd in r.channels && r.channels[ch.fd] == c && ch.events == NO_EVENT, "epoller.cc:105");
    var _ :- Check(!ch.index.New?, "epoller.cc:107");
    var kernel :- if ch.index.Added? then Ctl(r.kernel, Del, ch.fd, Entry(ch.events, c)) else Fine(r.kernel);
    Fine(Registry(r.chans[c := ch.(index := New)], r.channels - {ch.fd}, kernel))
  }

  /** A channel changes its interest mask and tells its poller. */
  function SetEvents<C>(r: Registry<C>, c: C, events: Mask): Checked<Registry<C>>
    requires c in r.chans
  {
    AfterUpdate(r.(chans := r.chans[c := r.chans[c].(events := events, addedToLoop := true)]), c)
  }

  /** A channel without interest leaves its poller. */
  function Detach<C>(r: Registry<C>, c: C): Checked<Registry<C>>
    requires c in r.chans
  {
    var _ :- Check(r.chans[c].events == NO_EVENT, "channel.cc:129");
    AfterRemove(r.(chans := r.chans[c := r.chans[c].(addedToLoop := false)]), c)
  }

  // ----- the refinement invariant -----

  /**
   * The descriptor map holds exactly the channels that are not New; the kernel holds exactly those that are Added, each
   * under its current mask; a Deleted channel has no interest.
   */
  ghost predicate Refines<C>(r: Registry<C>)
  {
    && (forall fd :: fd in r.channels ==>
          r.channels[fd] in r.chans && r.chans[r.channels[fd]].fd == fd && !r.chans[r.channels[fd]].index.New?)
    && (forall c :: c in r.chans && !r.chans[c].index.New? ==>
          r.chans[c].fd in r.channels && r.channels[r.chans[c].fd] == c)
    && (forall fd :: fd in r.kernel ==>
          fd in r.channels && r.chans[r.channels[fd]].index.Added?
          && r.kernel[fd] == Entry(r.chans[r.channels[fd]].events, r.channels[fd]))
    && (forall c :: c in r.chans && r.chans[c].index.Added? ==> r.chans[c].fd in r.kernel)
    && (forall c :: c in r.chans && r.chans[c].index.Deleted? ==> r.chans[c].events == NO_EVENT)
  }

  lemma KernelOwner<C>(r: Registry<C>, fd: int)
    requires Refines(r) && fd in r.kernel
    ensures var c := r.kernel[fd].owner;
      c in r.chans && r.chans[c].fd == fd && r.chans[c].index.Added? && fd in r.channels && r.channels[fd] == c
  {
  }

  lemma MapMember<C>(r: Registry<C>, fd: int)
    requires Refines(r) && fd in r.channels
    ensures var c := r.channels[fd]; c in r.chans && r.chans[c].fd == fd && !r.chans[c].index.New?
  {
  }

  /** All but one channel keep everything. */
  ghost predicate SameOthers<C>(r: Registry<C>, r': Registry<C>, c: C)
  {
    && r'.chans.Keys == r.chans.Keys
    && (forall d :: d in r.chans && d != c ==> r'.chans[d] == r.chans[d])
  }

  /** The channel's descriptor is its own in the map, or nobody's. */
  ghost predicate FreeOrOwn<C>(r: Registry<C>, c: C)
    requires c in r.chans
  {
    r.chans[c].index.New? ==> r.chans[c].fd !in r.channels
  }

  /** No interest change breaks an assertion or an epoll_ctl rule, except a first one on a taken descriptor. */
  lemma SetEventsFineIff<C>(r: Registry<C>, c: C, events: Mask)
    requires Refines(r) && c in r.chans
    ensures SetEvents(r, c, events).Fine? <==> FreeOrOwn(r, c)
  {
  }

  /** Where a successful interest change leaves channel, map and kernel. */
  lemma SetEventsShape<C>(r: Registry<C>, c: C, events: Mask)
    requires Refines(r) && c in r.chans && SetEvents(r, c, events).Fine?
    ensures var fd := r.chans[c].fd;
      var index := if r.chans[c].index.Added? && events == NO_EVENT then Deleted else Added;
      SetEvents(r, c, events).value == Registry(
        r.chans[c := Chan(fd, events, index, true)], r.channels[fd := c],
        if index.Added? then r.kernel[fd := Entry(events, c)] else r.kernel - {fd})
  {
  }

  lemma RegisteredRefines<C>(r: Registry<C>, c: C, r': Registry<C>)
    requires Refines(r) && c in r.chans && c in r'.chans && FreeOrOwn(r, c)
    requires var next := r'.chans[c]; var fd := r.chans[c].fd;
      && next.fd == fd && !next.index.New? && (next.index.Deleted? ==> next.events == NO_EVENT)
      && r' == Registry(r.chans[c := next], r.channels[fd := c],
                        if next.index.Added? then r.kernel[fd := Entry(next.events, c)] else r.kernel - {fd})
    ensures Refines(r') && SameOthers(r, r', c)
  {
  }

  lemma SetEventsRefines<C>(r: Registry<C>, c: C, events: Mask)
    requires Refines(r) && c in r.chans && SetEvents(r, c, events).Fine?
    ensures var r' := SetEvents(r, c, events).value;
      && Refines(r')
      && SameOthers(r, r', c)
      && r'.chans[c] == Chan(r.chans[c].fd, events,
                             if r.chans[c].index.Added? && events == NO_EVENT then Deleted else Added, true)
      && r'.channels == r.channels[r.chans[c].fd := c]
  {
    SetEventsFineIff(r, c, events);
    SetEventsShape(r, c, events);
    hide SetEvents;
    RegisteredRefines(r, c, SetEvents(r, c, events).value);
  }

  lemma DetachFineIff<C>(r: Registry<C>, c: C)
    requires Refines(r) && c in r.chans
    ensures Detach(r, c).Fine? <==> !r.chans[c].index.New? && r.chans[c].events == NO_EVENT
  {
  }

  lemma DetachRefines<C>(r: Registry<C>, c: C)
    requires Refines(r) && c in r.chans && Detach(r, c).Fine?
    ensures var r' := Detach(r, c).value;
      && Refines(r')
      && SameOthers(r, r', c)
      && r'.chans[c] == Chan(r.chans[c].fd, NO_EVENT, New, false)
      && r'.channels == r.channels - {r.chans[c].fd}
      && r.chans[c].fd !in r'.kernel
  {
  }

  /** `~Channel`: the object may end once it has left its loop. */
  function Destructed<C>(r: Registry<C>, c: C): Checked<Registry<C>>
    requires c in r.chans
  {
    var ch := r.chans[c];
    var _ :- Check(!ch.addedToLoop, "channel.cc:30");
    var _ :- Check(!(ch.fd in r.channels && r.channels[ch.fd] == c), "channel.cc:32");
    Fine(r.(chans := r.chans - {c}))
  }

  /** A channel that is not registered is not marked as added to its loop. */
  ghost predicate NewStaysApart<C>(r: Registry<C>)
  {
    forall c :: c in r.chans && r.chans[c].index.New? ==> !r.chans[c].addedToLoop
  }

  lemma DestructFineIff<C>(r: Registry<C>, c: C)
    requires Refines(r) && NewStaysApart(r) && c in r.chans
    ensures Destructed(r, c).Fine? <==> r.chans[c].index.New?
  {
    if r.chans[c].fd in r.channels {
      MapMember(r, r.chans[c].fd);
    }
  }

  // ----- every run of one poller -----

  datatype Op<C> =
    | Construct(c: C, fd: int)
    | Interest(c: C, events: Mask)
    | Leave(c: C)
    | Destruct(c: C)

  /** A descriptor is open in one channel at a time. */
  ghost predicate DistinctFds<C>(r: Registry<C>)
  {
    forall c, d :: c in r.chans && d in r.chans && r.chans[c].fd == r.chans[d].fd ==> c == d
  }

  /** What the users of channels respect: fresh descriptors, no interest when leaving, and leaving before the end. */
  ghost predicate Allowed<C>(r: Registry<C>, op: Op<C>)
  {
    match op
    case Construct(c, fd) => c !in r.chans && forall d :: d in r.chans ==> r.chans[d].fd != fd
    case Interest(c, _) => c in r.chans
    case Leave(c) => c in r.chans && !r.chans[c].index.New? && r.chans[c].events == NO_EVENT
    case Destruct(c) => c in r.chans && r.chans[c].index.New?
  }

  ghost function Apply<C>(r: Registry<C>, op: Op<C>): Checked<Registry<C>>
    requires Allowed(r, op)
  {
    match op
    case Construct(c, fd) => Fine(r.(chans := r.chans[c := Chan(fd, NO_EVENT, New, false)]))
    case Interest(c, events) => SetEvents(r, c, events)
    case Leave(c) => Detach(r, c)
    case Destruct(c) => Destructed(r, c)
  }

  /** What every operation keeps. */
  ghost predicate Inv<C>(r: Registry<C>)
  {
    Refines(r) && DistinctFds(r) && NewStaysApart(r)
  }

  lemma ConstructKeeps<C>(r: Registry<C>, c: C, fd: int)
    requires Inv(r) && Allowed(r, Construct(c, fd))
    ensures Inv(r.(chans := r.chans[c := Chan(fd, NO_EVENT, New, false)]))
  {
  }

  lemma DestructKeeps<C>(r: Registry<C>, c: C)
    requires Inv(r) && c in r.chans && r.chans[c].index.New? && Destructed(r, c).Fine?
    ensures Inv(Destructed(r, c).value)
  {
  }

  lemma ApplyRefines<C>(r: Registry<C>, op: Op<C>)
    requires Inv(r) && Allowed(r, op)
    ensures Apply(r, op).Fine? && Inv(Apply(r, op).value)
  {
    hide SetEvents, Detach, Destructed;
    match op
    case Construct(c, fd) => ConstructKeeps(r, c, fd);
    case Interest(c, events) =>
      SetEventsFineIff(r, c, events);
      SetEventsRefines(r, c, events);
    case Leave(c) =>
      DetachFineIff(r, c);
      DetachRefines(r, c);
    case Destruct(c) =>
      DestructFineIff(r, c);
      DestructKeeps(r, c);
  }

  ghost function Run<C>(r: Registry<C>, ops: seq<Op<C>>): Checked<Registry<C>>
    decreases |ops|
  {
    if ops == [] then Fine(r)
    else if !Allowed(r, ops[0]) then Run(r, ops[1..])
    else
      var r' :- Apply(r, ops[0]);
      Run(r', ops[1..])
  }

  lemma EmptyInv<C>()
    ensures Inv<C>(Registry(map[], map[], map[]))
  {
  }

  /** From an empty poller, whatever its channels do, every assertion holds, every epoll_ctl is legal, and it refines. */
  lemma {:induction false} EveryRunRefines<C>(r: Registry<C>, ops: seq<Op<C>>)
    requires Inv(r)
    ensures Run(r, ops).Fine? && Inv(Run(r, ops).value)
    decreases |ops|
  {
    if ops == [] {
    } else if !Allowed(r, ops[0]) {
      EveryRunRefines(r, ops[1..]);
    } else {
      ApplyRefines(r, ops[0]);
      EveryRunRefines(Apply(r, ops[0]).value, ops[1..]);
    }
  }

  // ----- the classes -----

  class Epoller {
    var channels: map<int, Channel>
    var kernel: map<int, Entry<Channel>>
    ghost var owned: set<Channel>

    ghost function State(): Registry<Channel>
      reads this, owned
    {
      Registry(map c | c in owned :: Chan(c.fd, c.events, c.index, c.addedToLoop), channels, kernel)
    }

    ghost predicate Valid()
      reads this, owned
    {
      && (forall c :: c in owned ==> c.poller == this)
      && Refines(State())
    }

    constructor ()
      ensures Valid() && owned == {} && channels == map[]
    {
      channels, kernel, owned := map[], map[], {};
    }

    /** `epoll_ctl` on the channel's descriptor, mask and address. */
    method Update(op: CtlOp, channel: Channel)
      requires CtlLegal(kernel, op, channel.fd)
      modifies this`kernel
      ensures Fine(kernel) == Ctl(old(kernel), op, channel.fd, Entry(channel.events, channel))
    {
      if op.Del? {
        kernel := kernel - {channel.fd};
      } else {
        kernel := kernel[channel.fd := Entry(channel.events, channel)];
      }
    }

    method UpdateChannel(channel: Channel)
      requires channel in owned && AfterUpdate(State(), channel).Fine?
      modifies this`channels, this`kernel, channel`index
      ensures State() == AfterUpdate(old(State()), channel).value
    {
      var fd := channel.fd;
      ghost var was := State();
      assert was.chans[channel] == Chan(fd, channel.events, channel.index, channel.addedToLoop);
      if channel.index.New? || channel.index.Deleted? {
        if channel.index.New? {
          assert fd !in channels;
          channels := channels[fd := channel];
        } else {
          assert fd in channels && channels[fd] == channel;
        }
        channel.index := Added;
        Update(Add, channel);
        assert channels == was.channels[fd := channel];
        assert State().chans == was.chans[channel := was.chans[channel].(index := Added)];
      } else {
        assert fd in channels && channels[fd] == channel && channel.index.Added?;
        if channel.events == NO_EVENT {
          Update(Del, channel);
          channel.index := Deleted;
          assert State().chans == was.chans[channel := was.chans[channel].(index := Deleted)];
        } else {
          Update(Mod, channel);
          assert State().chans == was.chans;
        }
      }
    }

    method RemoveChannel(channel: Channel)
      requires channel in owned && AfterRemove(State(), channel).Fine?
      modifies this`channels, this`kernel, channel`index
      ensures State() == AfterRemove(old(State()), channel).value
    {
      var fd := channel.fd;
      ghost var was := State();
      assert was.chans[channel] == Chan(fd, channel.events, channel.index, channel.addedToLoop);
      assert fd in channels && channels[fd] == channel && channel.events == NO_EVENT;
      assert channel.index.Added? || channel.index.Deleted?;
      channels := channels - {fd};
      if channel.index.Added? {
        Update(Del, channel);
      }
      channel.index := New;
      assert State().chans == was.chans[channel := was.chans[channel].(index := New)];
    }

    method HasChannel(channel: Channel) returns (has: bool)
      requires Valid() && channel in owned
      ensures has <==> !channel.index.New?
    {
      has := channel.fd in channels && channels[channel.fd] == channel;
      assert State().chans[channel] == Chan(channel.fd, channel.events, channel.index, channel.addedToLoop);
    }

    /** Hands the channels of a poll result over in order, each with its ready mask. */
    method FillActiveChannels(ready: seq<(int, Mask)>) returns (active: seq<Channel>)
      requires Valid()
      requires forall k :: 0 <= k < |ready| ==> ready[k].0 in kernel
      requires forall j, k :: 0 <= j < k < |ready| ==> ready[j].0 != ready[k].0
      modifies owned`revents
      ensures Valid() && State() == old(State()) && |active| == |ready|
      ensures forall k :: 0 <= k < |ready| ==>
        && active[k] in owned && active[k].fd == ready[k].0 && active[k].revents == ready[k].1
        && active[k].fd in channels && channels[active[k].fd] == active[k] && active[k].index.Added?
      ensures forall c :: c in owned && c !in active ==> c.revents == old(c.revents)
    {
      hide Refines;
      active := [];
      ghost var was := State();
      for i := 0 to |ready|
        modifies owned`revents
        invariant State() == was && |active| == i
        invariant forall k :: 0 <= k < i ==> active[k] == kernel[ready[k].0].owner
        invariant forall k :: 0 <= k < i ==>
          active[k] in owned && active[k].fd == ready[k].0 && active[k].revents == ready[k].1
        invariant forall c :: c in owned && c !in active ==> c.revents == old(c.revents)
      {
        var channel := kernel[ready[i].0].owner;
        var fd := ready[i].0;
        KernelOwner(was, fd);
        assert channel.fd in channels && channels[channel.fd] == channel;
        channel.revents := ready[i].1;
        assert State().chans == was.chans;
        active := active + [channel];
      }
      forall k | 0 <= k < |ready|
        ensures active[k].index.Added? && active[k].fd in channels && channels[active[k].fd] == active[k]
      {
        KernelOwner(was, ready[k].0);
        assert was.chans[active[k]].index == active[k].index;
      }
    }
  }

  class Channel {
    const poller: Epoller
    const fd: int
    var events: Mask
    var revents: Mask
    var index: Index
    var addedToLoop: bool

    constructor (poller: Epoller, fd: int)
      requires poller.Valid()
      modifies poller`owned
      ensures this.poller == poller && this.fd == fd && events == NO_EVENT && index == New && !addedToLoop
      ensures poller.Valid() && poller.owned == old(poller.owned) + {this}
    {
      this.poller, this.fd := poller, fd;
      events, revents, index, addedToLoop := NO_EVENT, NO_EVENT, New, false;
      new;
      ghost var was := poller.State();
      poller.owned := poller.owned + {this};
      assert poller.State().chans == was.chans[this := Chan(fd, NO_EVENT, New, false)];
    }

    /** This channel belongs to its poller, and its descriptor is free there until its first registration. */
    ghost predicate Usable()
      reads this, poller, poller.owned
    {
      poller.Valid() && this in poller.owned && (index.New? ==> fd !in poller.channels)
    }

    /** Replaces the interest mask and tells the poller. */
    method Update(events: Mask)
      requires Usable()
      modifies this`events, this`index, this`addedToLoop, poller`channels, poller`kernel
      ensures Usable() && !index.New? && this.events == events
      ensures Fine(poller.State()) == SetEvents(old(poller.State()), this, events)
    {
      ghost var was := poller.State();
      assert was.chans[this] == Chan(fd, this.events, index, addedToLoop);
      SetEventsFineIff(was, this, events);
      SetEventsRefines(was, this, events);
      this.events := events;
      addedToLoop := true;
      assert poller.State().chans == was.chans[this := was.chans[this].(events := events, addedToLoop := true)];
      poller.UpdateChannel(this);
      assert poller.State().chans[this].index == index;
    }

    method EnableReading()
      requires Usable()
      modifies this`events, this`index, this`addedToLoop, poller`channels, poller`kernel
      ensures Usable() && !index.New? && events == old(events).Or(READ_EVENT)
      ensures Fine(poller.State()) == SetEvents(old(poller.State()), this, old(events).Or(READ_EVENT))
    {
      Update(events.Or(READ_EVENT));
    }

    method EnableWriting()
      requires Usable()
      modifies this`events, this`index, this`addedToLoop, poller`channels, poller`kernel
      ensures Usable() && !index.New? && events == old(events).Or(WRITE_EVENT)
      ensures Fine(poller.State()) == SetEvents(old(poller.State()), this, old(events).Or(WRITE_EVENT))
    {
      Update(events.Or(WRITE_EVENT));
    }

    method DisableWriting()
      requires Usable()
      modifies this`events, this`index, this`addedToLoop, poller`channels, poller`kernel
      ensures Usable() && !index.New? && events == old(events).Without(WRITE_EVENT)
      ensures Fine(poller.State()) == SetEvents(old(poller.State()), this, old(events).Without(WRITE_EVENT))
    {
      Update(events.Without(WRITE_EVENT));
    }

    method DisableAll()
      requires Usable()
      modifies this`events, this`index, this`addedToLoop, poller`channels, poller`kernel
      ensures Usable() && !index.New? && events == NO_EVENT
      ensures Fine(poller.State()) == SetEvents(old(poller.State()), this, NO_EVENT)
    {
      Update(NO_EVENT);
    }

    method Remove()
      requires Usable() && !index.New? && events == NO_EVENT
      modifies this`index, this`addedToLoop, poller`channels, poller`kernel
      ensures Usable() && index.New? && !addedToLoop && fd !in poller.kernel
      ensures Fine(poller.State()) == Detach(old(poller.State()), this)
    {
      ghost var was := poller.State();
      assert was.chans[this] == Chan(fd, events, index, addedToLoop);
      DetachFineIff(was, this);
      DetachRefines(was, this);
      addedToLoop := false;
      assert poller.State().chans == was.chans[this := was.chans[this].(addedToLoop := false)];
      poller.RemoveChannel(this);
      assert poller.State().chans[this].index == index;
    }
  }
}
