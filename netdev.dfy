/**
 * The package's active backend: the variable netdev, which starts as a
 * nopNetdev and is replaced by useNetdev. Every call the net package makes to
 * the backend goes through `Net.Do`, which also records the call and its reply
 * in a ghost trace so that the call sequences of the dial and listen
 * operations can be stated.
 */
module Netdev {
  import opened Wrappers
  import opened Netip
  import opened Netdever
  import Wasip2

  /**
   * A netdever value: the nop backend, the wasip2 backend, or another driver,
   * whose answer to each call is given by `answer`.
   */
  datatype Device =
    | NopDev
    | Wasip2Dev(dev: Wasip2.Wasip2Netdev)
    | DriverDev(answer: Call -> Reply)

  /** The host-name resolution of the active backend (its GetHostByName). */
  type Resolver = string -> (Addr, Option<NetError>)

  function Calls(steps: seq<Event>): (cs: seq<Call>)
    ensures |cs| == |steps| && forall i :: 0 <= i < |steps| ==> cs[i] == steps[i].call
  {
    seq(|steps|, i requires 0 <= i < |steps| => steps[i].call)
  }

  function Replies(steps: seq<Event>): (rs: seq<Reply>)
    ensures |rs| == |steps| && forall i :: 0 <= i < |steps| ==> rs[i] == steps[i].reply
  {
    seq(|steps|, i requires 0 <= i < |steps| => steps[i].reply)
  }

  /**
   * The replies of a run of calls are what backend d answers, starting (for a
   * wasip2 backend) from table t0 and ending in table t1.
   */
  ghost predicate Replayed(d: Device, t0: Wasip2.Table, steps: seq<Event>, t1: Wasip2.Table) {
    match d
    case NopDev => forall i :: 0 <= i < |steps| ==> steps[i].reply == NopNetdev(steps[i].call)
    case DriverDev(f) => forall i :: 0 <= i < |steps| ==> steps[i].reply == f(steps[i].call)
    case Wasip2Dev(w) => Wasip2.Run(t0, w.net, Calls(steps)) == (Replies(steps), t1)
  }

  lemma {:induction false} RunAppend(t0: Wasip2.Table, host: Wasip2.Host, cs: seq<Call>, c: Call)
    ensures var (rs, t1) := Wasip2.Run(t0, host, cs);
      Wasip2.Run(t0, host, cs + [c]) == (rs + [Wasip2.Step(t1, host, c).0], Wasip2.Step(t1, host, c).1)
    decreases |cs|
  {
    if cs == [] {
      assert cs + [c] == [c] && [c][1..] == [];
      var (r, t1) := Wasip2.Step(t0, host, c);
      assert Wasip2.Run(t1, host, []) == ([], t1);
      assert Wasip2.Run(t0, host, [c]) == ([r] + [], t1);
      assert [r] + [] == [] + [r];
    } else {
      var (r, ta) := Wasip2.Step(t0, host, cs[0]);
      assert (cs + [c])[0] == cs[0];
      assert (cs + [c])[1..] == cs[1..] + [c];
      RunAppend(ta, host, cs[1..], c);
      var (rs, tb) := Wasip2.Run(ta, host, cs[1..]);
      assert Wasip2.Run(t0, host, cs) == ([r] + rs, tb);
      assert Wasip2.Run(t0, host, cs + [c]) == ([r] + (rs + [Wasip2.Step(tb, host, c).0]), Wasip2.Step(tb, host, c).1);
      assert [r] + (rs + [Wasip2.Step(tb, host, c).0]) == [r] + rs + [Wasip2.Step(tb, host, c).0];
    }
  }

  lemma RunSingle(t: Wasip2.Table, host: Wasip2.Host, c: Call)
    ensures Wasip2.Run(t, host, [c]) == ([Wasip2.Step(t, host, c).0], Wasip2.Step(t, host, c).1)
  {
    var (r, t1) := Wasip2.Step(t, host, c);
    assert [c][1..] == [];
    assert Wasip2.Run(t1, host, []) == ([], t1);
    assert [r] + [] == [r];
  }

  /** Replayed runs compose. */
  lemma ReplayedAppend(d: Device, t0: Wasip2.Table, steps: seq<Event>, t1: Wasip2.Table, e: Event, t2: Wasip2.Table)
    requires Replayed(d, t0, steps, t1) && Replayed(d, t1, [e], t2)
    ensures Replayed(d, t0, steps + [e], t2)
  {
    match d
    case NopDev =>
      assert forall i :: 0 <= i < |steps| + 1 ==> (steps + [e])[i] == if i < |steps| then steps[i] else e;
    case DriverDev(f) =>
      assert forall i :: 0 <= i < |steps| + 1 ==> (steps + [e])[i] == if i < |steps| then steps[i] else e;
    case Wasip2Dev(w) =>
      RunAppend(t0, w.net, Calls(steps), e.call);
      RunSingle(t1, w.net, e.call);
      assert Calls([e]) == [e.call] && Replies([e]) == [e.reply];
      assert Calls(steps + [e]) == Calls(steps) + [e.call];
      assert Replies(steps + [e]) == Replies(steps) + [e.reply];
  }

  lemma ReplayedEmpty(d: Device, t: Wasip2.Table)
    ensures Replayed(d, t, [], t)
  {
    if d.Wasip2Dev? {
      assert Calls([]) == [] && Replies([]) == [];
    }
  }

  /** The package state of netdev.go: the variable netdev. */
  class Net {
    var netdev: Device
    /** Every call made on the active backend so far, with its reply. */
    ghost var trace: seq<Event>

    /** The objects the active backend owns. */
    function Backend(): set<object>
      reads this
    {
      if netdev.Wasip2Dev? then {netdev.dev} else {}
    }

    /** The wasip2 backend's table, or an empty one for the stateless backends. */
    function Table(): Wasip2.Table
      reads this, Backend()
    {
      if netdev.Wasip2Dev? then netdev.dev.State() else Wasip2.Table(map[], 0)
    }

    ghost predicate Valid()
      reads this, Backend()
    {
      netdev.Wasip2Dev? ==> netdev.dev.Valid()
    }

    /** The reply the active backend gives to c in the current state. */
    function Answer(c: Call): Reply
      reads this, Backend()
    {
      match netdev
      case NopDev => NopNetdev(c)
      case Wasip2Dev(d) => Wasip2.Step(d.State(), d.net, c).0
      case DriverDev(f) => f(c)
    }

    /** GetHostByName of the active backend, which no backend makes depend on its table. */
    function Lookup(): Resolver
      reads this
    {
      match netdev
      case NopDev => (name: string) => (Invalid, Some(NetdevNotSet))
      case Wasip2Dev(d) => (name: string) => Wasip2.Resolve(d.net, name)
      case DriverDev(f) => (name: string) => (f(GetHostByName(name)).addr, f(GetHostByName(name)).err)
    }

    /**
     * Between the two states exactly the calls of `steps` were made, in order,
     * on the same backend, which answered them as `Replayed` says.
     */
    twostate predicate Ran(steps: seq<Event>)
      reads this, Backend()
    {
      netdev == old(netdev) && Valid() && trace == old(trace) + steps &&
      Replayed(netdev, old(Table()), steps, Table())
    }

    /** Between the two states exactly call c was made, and r is the answer it got. */
    twostate predicate Called(c: Call, r: Reply)
      reads this, Backend()
    {
      Ran([Event(c, r)]) && r == old(Answer(c))
    }

    /** Until useNetdev is called the active backend is a nopNetdev. */
    constructor()
      ensures netdev == NopDev && trace == []
      ensures Valid()
    {
      netdev := NopDev;
      trace := [];
    }

    /** useNetdev: replaces the active backend; later calls go to dev. */
    method UseNetdev(dev: Device)
      requires dev.Wasip2Dev? ==> dev.dev.Valid()
      modifies this
      ensures netdev == dev && trace == old(trace)
      ensures Valid()
    {
      netdev := dev;
    }

    /** The wasip2 init: installs a wasip2 backend with an empty table. */
    method InitWasip2(host: Wasip2.Host)
      modifies this
      ensures netdev.Wasip2Dev? && fresh(netdev.dev)
      ensures netdev.dev.State() == Wasip2.Table(map[], 0) && netdev.dev.net == host
      ensures trace == old(trace) && Valid()
    {
      var d := new Wasip2.Wasip2Netdev(host);
      UseNetdev(Wasip2Dev(d));
    }

    /**
     * One call on the active backend. The reply is the active backend's answer,
     * the backend stays installed, and only a wasip2 backend has state that the
     * call can change.
     */
    method Do(c: Call) returns (r: Reply)
      requires Valid()
      modifies this, Backend()
      ensures netdev == old(netdev) && Valid()
      ensures r == old(Answer(c))
      ensures trace == old(trace) + [Event(c, r)]
      ensures netdev.Wasip2Dev? ==>
        netdev.dev.State() == Wasip2.Step(old(netdev.dev.State()), netdev.dev.net, c).1
      ensures Replayed(netdev, old(Table()), [Event(c, r)], Table())
      ensures Called(c, r)
    {
      match netdev {
      case NopDev =>
        r := NopNetdev(c);
      case DriverDev(f) =>
        r := f(c);
      case Wasip2Dev(d) =>
        Wasip2.StepCounter(d.State(), d.net, c);
        match c {
          case GetHostByName(name) =>
            var a, err := d.GetHostByName(name);
            r := AddrReply(a, err);
          case InterfaceAddr =>
            var a, err := d.Addr();
            r := AddrReply(a, err);
          case Socket(domain, stype, protocol) =>
            var fd, err := d.Socket(domain, stype, protocol);
            r := IntReply(fd, err);
          case Bind(fd, ip) =>
            var err := d.Bind(fd, ip);
            r := ErrReply(err);
          case Connect(fd, host, ip) =>
            var err := d.Connect(fd, host, ip);
            r := ErrReply(err);
          case Listen(fd, backlog) =>
            var err := d.Listen(fd, backlog);
            r := ErrReply(err);
          case Accept(fd) =>
            var newFd, peer, err := d.Accept(fd);
            r := AcceptReply(newFd, peer, err);
          case Send(fd, buf, flags, deadline) =>
            var n, err := d.Send(fd, buf, flags, deadline);
            r := IntReply(n, err);
          case Recv(fd, size, flags, deadline) =>
            var n, err := d.Recv(fd, size, flags, deadline);
            r := IntReply(n, err);
          case Close(fd) =>
            var err := d.Close(fd);
            r := ErrReply(err);
          case SetSockOpt(fd, level, opt, value) =>
            var err := d.SetSockOpt(fd, level, opt, value);
            r := ErrReply(err);
        }
      }
      trace := trace + [Event(c, r)];
      assert Calls([Event(c, r)]) == [c] && Replies([Event(c, r)]) == [r];
      if netdev.Wasip2Dev? {
        RunSingle(old(Table()), netdev.dev.net, c);
      }
    }

    /** Do, as the next call of a run `before` that started from table t0. */
    method DoNext(c: Call, ghost t0: Wasip2.Table, ghost before: seq<Event>) returns (r: Reply)
      requires Valid() && Replayed(netdev, t0, before, Table())
      modifies this, Backend()
      ensures netdev == old(netdev) && Valid()
      ensures r == old(Answer(c))
      ensures trace == old(trace) + [Event(c, r)]
      ensures Replayed(netdev, t0, before + [Event(c, r)], Table())
    {
      ghost var t1 := Table();
      r := Do(c);
      ReplayedAppend(netdev, t0, before, t1, Event(c, r), Table());
    }
  }
}
