/** PCI discovery (pci_initialize of kernel/drivers/pci.c): a breadth-first walk over the buses that
    bridges claim, under fixed limits for devices and buses. */
module PciScan {
  import opened Options

  const MAX_DEVICES: nat := 16
  const MAX_BUSES: nat := 32
  const DEVICES: nat := 32
  const FUNCTIONS: nat := 8

  datatype Bdf = Bdf(bus: nat, dev: nat, fn: nat)

  /** What configuration space says about a function: its header layout, the multifunction bit, and
      for bridges the bus range it claims. Absent functions are not in the map. */
  datatype Fn = Fn(layout: nat, multi: bool, sec: nat, sub: nat)

  type Config = map<Bdf, Fn>

  datatype Result = PciOk | PciFull

  /** The functions the walk looks at: function 0, and the others only of a multifunction device. */
  predicate Seen(cfg: Config, r: Bdf) {
    && r.dev < DEVICES && r.fn < FUNCTIONS
    && Bdf(r.bus, r.dev, 0) in cfg
    && r in cfg
    && (r.fn == 0 || cfg[Bdf(r.bus, r.dev, 0)].multi)
  }

  /** The bus a function leads to, if it is a well-formed bridge that does not loop on itself. */
  function Target(cfg: Config, r: Bdf): Option<nat>
    requires r in cfg
  {
    var f := cfg[r];
    if f.layout != 1 || f.sec == 0 || f.sec > f.sub || f.sec == r.bus then None else Some(f.sec)
  }

  ghost predicate Edge(cfg: Config, a: nat, b: nat) {
    exists r :: Seen(cfg, r) && r.bus == a && Target(cfg, r) == Some(b)
  }

  ghost predicate IsPath(cfg: Config, p: seq<nat>) {
    |p| > 0 && p[0] == 0 && forall i :: 0 <= i < |p| - 1 ==> Edge(cfg, p[i], p[i + 1])
  }

  /** Buses reachable from bus 0 over well-formed bridges of present functions. */
  ghost predicate Reachable(cfg: Config, b: nat) {
    exists p :: IsPath(cfg, p) && p[|p| - 1] == b
  }

  lemma ReachesZero(cfg: Config)
    ensures Reachable(cfg, 0)
  {
    assert IsPath(cfg, [0]) && [0][|[0]| - 1] == 0;
  }

  lemma ReachesOn(cfg: Config, r: Bdf)
    requires Reachable(cfg, r.bus) && Seen(cfg, r) && Target(cfg, r).Some?
    ensures Reachable(cfg, Target(cfg, r).value)
  {
    var p :| IsPath(cfg, p) && p[|p| - 1] == r.bus;
    var b := Target(cfg, r).value;
    var q := p + [b];
    assert Edge(cfg, r.bus, b);
    forall i | 0 <= i < |q| - 1
      ensures Edge(cfg, q[i], q[i + 1])
    {
      if i < |p| - 1 {
        assert Edge(cfg, p[i], p[i + 1]);
      }
    }
    assert IsPath(cfg, q) && q[|q| - 1] == b;
  }

  /** A set of buses that holds bus 0 and follows every bridge holds every reachable bus. */
  lemma {:induction false} ClosedHoldsPath(cfg: Config, buses: seq<nat>, p: seq<nat>)
    requires 0 in buses && IsPath(cfg, p)
    requires forall r :: Seen(cfg, r) && r.bus in buses && Target(cfg, r).Some? ==> Target(cfg, r).value in buses
    ensures p[|p| - 1] in buses
  {
    if |p| > 1 {
      var q := p[..|p| - 1];
      forall i | 0 <= i < |q| - 1
        ensures Edge(cfg, q[i], q[i + 1])
      {
        assert Edge(cfg, p[i], p[i + 1]);
      }
      ClosedHoldsPath(cfg, buses, q);
      assert Edge(cfg, p[|p| - 2], p[|p| - 1]);
    }
  }

  // ----- The walk -----

  /** Scan order: buses in queue order, then device, then function. `r` comes before (d, f) on the
      bus at `head`. */
  predicate Before(queue: seq<nat>, head: nat, d: nat, f: nat, r: Bdf)
    requires head <= |queue|
  {
    || r.bus in queue[..head]
    || (head < |queue| && r.bus == queue[head] && (r.dev < d || (r.dev == d && r.fn < f)))
  }

  predicate Distinct<T(==)>(s: seq<T>) {
    forall i, j :: 0 <= i < j < |s| ==> s[i] != s[j]
  }

  /** The queue: distinct reachable buses, starting with bus 0; never longer than one more than the
      registry, because every further bus was claimed by a registered bridge. */
  ghost predicate QueueOk(cfg: Config, queue: seq<nat>, registry: seq<Bdf>) {
    && |queue| > 0 && queue[0] == 0 && Distinct(queue)
    && (forall b :: b in queue ==> Reachable(cfg, b))
    && |queue| <= 1 + |registry|
    && (forall r :: r in registry ==> r in cfg && (Target(cfg, r).Some? ==> Target(cfg, r).value in queue))
  }

  /** The registry: exactly the functions before the cursor, each once. */
  ghost predicate RegistryOk(cfg: Config, queue: seq<nat>, registry: seq<Bdf>, head: nat, d: nat, f: nat)
    requires head <= |queue|
  {
    && Distinct(registry) && |registry| <= MAX_DEVICES
    && (forall r :: r in registry ==> Seen(cfg, r))
    && (forall r :: Seen(cfg, r) ==> (r in registry <==> Before(queue, head, d, f, r)))
  }

  class Pci {
    const cfg: Config
    var registry: seq<Bdf>
    var queue: seq<nat>
    var visited: set<nat>

    ghost predicate Scanning(head: nat, d: nat, f: nat)
      reads this
    {
      && head < |queue|
      && QueueOk(cfg, queue, registry)
      && RegistryOk(cfg, queue, registry, head, d, f)
      && (forall b :: b in visited <==> b in queue)
    }

    constructor (cfg: Config)
      ensures this.cfg == cfg
    {
      this.cfg := cfg;
      registry, queue, visited := [], [], {};
    }

    /** One present function: registered, and the bus it claims queued unless already claimed. The
        arm for a full queue is not reachable. */
    method ScanFunction(r: Bdf, ghost head: nat) returns (full: bool)
      requires Scanning(head, r.dev, r.fn) && r.bus == queue[head] && Seen(cfg, r)
      modifies this`registry, this`queue, this`visited
      ensures full == (|old(registry)| == MAX_DEVICES)
      ensures full ==> registry == old(registry) && queue == old(queue) && visited == old(visited)
      ensures !full ==> Scanning(head, r.dev, r.fn + 1) && registry == old(registry) + [r]
      ensures old(queue) <= queue
    {
      if |registry| >= MAX_DEVICES { return true; }
      ghost var q0, reg0 := queue, registry;
      registry := registry + [r];
      var f := cfg[r];
      if f.layout == 1 && f.sec != 0 && f.sec <= f.sub && f.sec != r.bus && f.sec !in visited {
        if |queue| >= MAX_BUSES {
          assert false;
          return false;
        }
        ReachesOn(cfg, r);
        visited := visited + {f.sec};
        queue := queue + [f.sec];
      }
      Advance(cfg, q0, reg0, queue, head, r);
      return false;
    }

    /** A function that was not registered for lack of room. */
    ghost predicate Overflowed()
      reads this
    {
      && Distinct(registry) && |registry| == MAX_DEVICES
      && (forall r :: r in registry ==> Seen(cfg, r) && Reachable(cfg, r.bus))
      && exists r :: Seen(cfg, r) && Reachable(cfg, r.bus) && r !in registry
    }

    /** All functions of one device. */
    method ScanDevice(bus: nat, d: nat, ghost head: nat) returns (full: bool)
      requires d < DEVICES && Scanning(head, d, 0) && bus == queue[head]
      modifies this`registry, this`queue, this`visited
      ensures full ==> Overflowed()
      ensures !full ==> Scanning(head, d + 1, 0) && old(queue) <= queue
    {
      var zero := Bdf(bus, d, 0);
      if zero !in cfg {
        Skip(cfg, queue, registry, head, d, 0, d + 1, 0);
        return false;
      }
      var maxfn := if cfg[zero].multi then FUNCTIONS - 1 else 0;
      for fn := 0 to maxfn + 1
        invariant Scanning(head, d, fn) && bus == queue[head] && old(queue) <= queue
      {
        var r := Bdf(bus, d, fn);
        if r in cfg {
          assert Seen(cfg, r);
          full := ScanFunction(r, head);
          if full {
            Overflow(cfg, queue, registry, head, r);
            return;
          }
        } else {
          Skip(cfg, queue, registry, head, d, fn, d, fn + 1);
        }
      }
      Skip(cfg, queue, registry, head, d, maxfn + 1, d + 1, 0);
      return false;
    }

    /** All devices of the bus at `head`. */
    method ScanBus(bus: nat, ghost head: nat) returns (full: bool)
      requires Scanning(head, 0, 0) && bus == queue[head]
      modifies this`registry, this`queue, this`visited
      ensures full ==> Overflowed()
      ensures !full ==> Scanning(head, DEVICES, 0) && old(queue) <= queue
    {
      for d := 0 to DEVICES
        invariant Scanning(head, d, 0) && bus == queue[head] && old(queue) <= queue
      {
        full := ScanDevice(bus, d, head);
        if full { return; }
      }
      return false;
    }

    /** pci_initialize. On success the buses scanned are exactly the reachable ones, each once, and
        the registry holds exactly their present functions, each once; otherwise the registry is
        full and a present function on a reachable bus did not fit. */
    method Initialize() returns (r: Result)
      modifies this`registry, this`queue, this`visited
      ensures r == PciOk ==>
                && Distinct(queue) && (forall b :: b in queue <==> Reachable(cfg, b))
                && Distinct(registry) && |registry| <= MAX_DEVICES
                && (forall x :: x in registry <==> Seen(cfg, x) && Reachable(cfg, x.bus))
                && |queue| <= 1 + |registry| < MAX_BUSES
      ensures r == PciFull ==> Overflowed()
    {
      registry, queue, visited := [], [0], {0};
      ReachesZero(cfg);
      var head := 0;
      while head < |queue|
        invariant 0 <= head <= |queue|
        invariant QueueOk(cfg, queue, registry) && RegistryOk(cfg, queue, registry, head, 0, 0)
        invariant forall b :: b in visited <==> b in queue
        decreases 1 + MAX_DEVICES - head
      {
        var full := ScanBus(queue[head], head);
        if full { return PciFull; }
        BusDone(cfg, queue, registry, head);
        head := head + 1;
      }
      AllScanned(cfg, queue, registry);
      return PciOk;
    }
  }

  /** Moving the cursor over places where no function is. */
  lemma Skip(cfg: Config, queue: seq<nat>, registry: seq<Bdf>, head: nat, d: nat, f: nat, d': nat, f': nat)
    requires head < |queue| && RegistryOk(cfg, queue, registry, head, d, f)
    requires d < d' || (d == d' && f <= f')
    requires forall x :: Seen(cfg, x) && x.bus == queue[head] && (x.dev < d' || (x.dev == d' && x.fn < f')) ==>
               x.dev < d || (x.dev == d && x.fn < f)
    ensures RegistryOk(cfg, queue, registry, head, d', f')
  {
    forall x | Seen(cfg, x)
      ensures x in registry <==> Before(queue, head, d', f', x)
    {
      assert x in registry <==> Before(queue, head, d, f, x);
    }
  }

  lemma Overflow(cfg: Config, queue: seq<nat>, registry: seq<Bdf>, head: nat, r: Bdf)
    requires head < |queue| && QueueOk(cfg, queue, registry) && RegistryOk(cfg, queue, registry, head, r.dev, r.fn)
    requires r.bus == queue[head] && Seen(cfg, r)
    ensures Reachable(cfg, r.bus) && r !in registry
    ensures forall x :: x in registry ==> Reachable(cfg, x.bus)
  {
    assert r.bus !in queue[..head];
    forall x | x in registry
      ensures Reachable(cfg, x.bus)
    {
      assert Before(queue, head, r.dev, r.fn, x);
      assert x.bus in queue;
    }
  }

  lemma BusDone(cfg: Config, queue: seq<nat>, registry: seq<Bdf>, head: nat)
    requires head < |queue| && RegistryOk(cfg, queue, registry, head, DEVICES, 0)
    ensures RegistryOk(cfg, queue, registry, head + 1, 0, 0)
  {
    assert queue[..head + 1] == queue[..head] + [queue[head]];
    forall x | Seen(cfg, x)
      ensures x in registry <==> Before(queue, head + 1, 0, 0, x)
    {
      assert x in registry <==> Before(queue, head, DEVICES, 0, x);
      if head + 1 < |queue| && x.bus == queue[head + 1] {
        assert !(x.dev < 0);
      }
    }
  }

  lemma AllScanned(cfg: Config, queue: seq<nat>, registry: seq<Bdf>)
    requires QueueOk(cfg, queue, registry) && RegistryOk(cfg, queue, registry, |queue|, 0, 0)
    ensures forall b :: b in queue <==> Reachable(cfg, b)
    ensures forall x :: x in registry <==> Seen(cfg, x) && Reachable(cfg, x.bus)
  {
    assert queue[..|queue|] == queue;
    forall b | Reachable(cfg, b)
      ensures b in queue
    {
      var p :| IsPath(cfg, p) && p[|p| - 1] == b;
      ClosedHoldsPath(cfg, queue, p);
    }
    forall x | Seen(cfg, x)
      ensures x in registry <==> Reachable(cfg, x.bus)
    {
      assert x in registry <==> Before(queue, |queue|, 0, 0, x);
    }
  }

  /** Registering `r` at the cursor moves the cursor past it. */
  lemma Advance(cfg: Config, queue: seq<nat>, registry: seq<Bdf>, queue': seq<nat>, head: nat, r: Bdf)
    requires head < |queue| && queue <= queue' && r.bus == queue[head] && Seen(cfg, r)
    requires Distinct(queue')
    requires RegistryOk(cfg, queue, registry, head, r.dev, r.fn) && |registry| < MAX_DEVICES
    ensures RegistryOk(cfg, queue', registry + [r], head, r.dev, r.fn + 1)
  {
    assert queue'[..head] == queue[..head];
    assert r.bus !in queue[..head];
    forall x | Seen(cfg, x)
      ensures x in registry + [r] <==> Before(queue', head, r.dev, r.fn + 1, x)
    {
      assert x in registry <==> Before(queue, head, r.dev, r.fn, x);
    }
  }
}
