/** The descriptors and in-flight counters of remote calls. Whatever the network does (a choice at
    every `*`), a layer call returns with every descriptor it opened or took either closed or in
    exactly one pool, and with nothing counted in flight. */
module Calls {
  import opened Limits

  /** Replicas remembered for one expert. */
  const REPLICAS: nat := 4
  const POOL_MAX: nat := 64

  /** Nobody's descriptor twice: not in two pools, not twice in one, not both pooled and held. */
  ghost predicate Separate(held: set<nat>, pools: seq<seq<nat>>) {
    && (forall p, i | 0 <= p < |pools| && 0 <= i < |pools[p]| :: pools[p][i] !in held)
    && (forall p, i, q, j | 0 <= p < |pools| && 0 <= q < |pools| && 0 <= i < |pools[p]| && 0 <= j < |pools[q]| && (p != q || i != j) ::
          pools[p][i] != pools[q][j])
  }

  /** The peer table. `held` are the open descriptors of the running call, `flying` the peers of the
      requests it has sent and not settled, `reset` the peers whose counter a rediscovery cleared. */
  class Peers {
    var pools: seq<seq<nat>>
    var inflight: seq<nat>
    var nextFd: nat
    ghost var held: set<nat>
    ghost var flying: multiset<nat>
    ghost var reset: set<nat>

    ghost predicate Valid()
      reads this
    {
      && |pools| == |inflight| && Separate(held, pools)
      && (forall p | 0 <= p < |pools| :: |pools[p]| <= POOL_MAX)
      && (forall f | f in held :: f < nextFd)
      && (forall p, i | 0 <= p < |pools| && 0 <= i < |pools[p]| :: pools[p][i] < nextFd)
      && (forall p | p in flying :: p < |pools|)
      && (forall p | 0 <= p < |pools| :: inflight[p] <= flying[p] && (p !in reset ==> inflight[p] == flying[p]))
    }

    constructor (n: nat)
      ensures Valid() && |pools| == n && held == {} && flying == multiset{} && reset == {}
    {
      pools, inflight, nextFd := seq(n, i => []), seq(n, i => 0), 0;
      held, flying, reset := {}, multiset{}, {};
    }

    /** A new descriptor of the kernel. */
    method Socket() returns (fd: nat)
      requires Valid()
      modifies this
      ensures Valid() && fd !in old(held) && held == old(held) + {fd}
      ensures pools == old(pools) && inflight == old(inflight) && flying == old(flying) && reset == old(reset)
    {
      fd := nextFd;
      nextFd := nextFd + 1;
      held := held + {fd};
    }

    /** One request to the tracker, on a descriptor of its own. */
    method Request() returns (answered: bool)
      requires Valid()
      modifies this
      ensures Valid() && Same(old(pools), old(inflight), old(flying), old(reset)) && held == old(held)
    {
      if * {
        return false;
      }
      var fd := Socket();
      answered := *;
      Close(fd);
    }

    /** Closing needs an open descriptor that is not pooled, so nothing is closed twice. */
    method Close(fd: nat)
      requires Valid() && fd in held
      modifies this`held
      ensures Valid() && held == old(held) - {fd}
    {
      held := held - {fd};
    }

    method Sent(p: nat)
      requires Valid() && p < |pools|
      modifies this`inflight, this`flying
      ensures Valid() && flying == old(flying) + multiset{p} && |inflight| == old(|inflight|)
    {
      inflight := inflight[p := inflight[p] + 1];
      flying := flying + multiset{p};
    }

    method Done(p: nat)
      requires Valid() && p in flying
      modifies this`inflight, this`flying
      ensures Valid() && flying == old(flying) - multiset{p} && |inflight| == old(|inflight|)
    {
      if inflight[p] > 0 {
        inflight := inflight[p := inflight[p] - 1];
      }
      flying := flying - multiset{p};
    }

    /** Dial, authenticate, and give up on a peer that does not match. */
    method OpenSock() returns (fd: int)
      requires Valid()
      modifies this
      ensures Valid() && Same(old(pools), old(inflight), old(flying), old(reset))
      ensures fd < 0 ==> held == old(held)
      ensures fd >= 0 ==> fd !in old(held) && held == old(held) + {fd}
    {
      if * {
        return -1;
      }
      fd := Socket();
      if * {
        Close(fd);
        return -1;
      }
    }

    ghost predicate Same(pools': seq<seq<nat>>, inflight': seq<nat>, flying': multiset<nat>, reset': set<nat>)
      reads this
    {
      pools == pools' && inflight == inflight' && flying == flying' && reset == reset'
    }

    /** A pooled descriptor that is still alive, or a new one. */
    method TakeSock(p: nat) returns (fd: int)
      requires Valid() && p < |pools|
      modifies this
      ensures Valid() && |pools| == old(|pools|) && inflight == old(inflight) && flying == old(flying) && reset == old(reset)
      ensures fd < 0 ==> held == old(held)
      ensures fd >= 0 ==> fd !in old(held) && held == old(held) + {fd}
    {
      while |pools[p]| > 0
        invariant Valid() && |pools| == old(|pools|) && held == old(held)
        invariant inflight == old(inflight) && flying == old(flying) && reset == old(reset)
        decreases |pools[p]|
      {
        fd := Pop(p);
        if * {
          return;
        }
        Close(fd);
      }
      fd := OpenSock();
    }

    method Pop(p: nat) returns (fd: nat)
      requires Valid() && p < |pools| && |pools[p]| > 0
      modifies this`pools, this`held
      ensures Valid() && |pools| == old(|pools|) && |pools[p]| == old(|pools[p]|) - 1
      ensures fd !in old(held) && held == old(held) + {fd}
    {
      var n := |pools[p]| - 1;
      fd := pools[p][n];
      pools := pools[p := pools[p][..n]];
      held := held + {fd};
    }

    method PutSock(p: nat, fd: nat)
      requires Valid() && p < |pools| && fd in held
      modifies this`pools, this`held
      ensures Valid() && |pools| == old(|pools|) && held == old(held) - {fd}
    {
      if |pools[p]| < POOL_MAX {
        pools := pools[p := pools[p] + [fd]];
        held := held - {fd};
      } else {
        Close(fd);
      }
    }

    /** What every operation of a call keeps: the table stays well formed and never shrinks. */
    ghost predicate Kept(n: nat)
      reads this
    {
      Valid() && |pools| >= n
    }

    /** Rediscovery: a dead peer's pool is drained and its counter cleared, one warm descriptor may be
        pooled, and a new peer may join the table. */
    method Rediscover()
      requires Valid()
      modifies this
      ensures Kept(old(|pools|)) && held == old(held) && flying == old(flying)
    {
      var asked := Request();
      var p := 0;
      while p < |pools|
        invariant Valid() && |pools| == old(|pools|) && held == old(held) && flying == old(flying)
      {
        if * {
          Reprobe(p);
        }
        p := p + 1;
      }
      if * {
        pools, inflight := pools + [[]], inflight + [0];
        if p in reset {
          reset := reset - {p};
        }
      }
    }

    method Reprobe(p: nat)
      requires Valid() && p < |pools|
      modifies this
      ensures Valid() && |pools| == old(|pools|) && held == old(held) && flying == old(flying)
    {
      while |pools[p]| > 0
        invariant Valid() && |pools| == old(|pools|) && held == old(held) && flying == old(flying)
        decreases |pools[p]|
      {
        var fd := Pop(p);
        Close(fd);
      }
      inflight, reset := inflight[p := 0], reset + {p};
      var fd := OpenSock();
      if fd >= 0 {
        PutSock(p, fd);
      }
    }

    /** Any replica not tried yet, or none. */
    method Pick(tried: set<nat>) returns (r: int, p: nat)
      requires Valid()
      ensures r >= 0 ==> r < REPLICAS && r !in tried && p < |pools|
    {
      if * {
        return -1, 0;
      }
      r, p := *, *;
      if r < 0 || r >= REPLICAS || r in tried || p >= |pools| {
        return -1, 0;
      }
    }

    /** Tried replicas leave ever fewer to try. */
    static lemma TriedGrows(tried: set<nat>, r: nat)
      requires r < REPLICAS && r !in tried
      ensures Left(tried + {r}) < Left(tried)
    {
      assert Remaining(tried + {r}) == Remaining(tried) - {r};
    }

    static ghost function Remaining(tried: set<nat>): set<nat> {
      set r | 0 <= r < REPLICAS && r !in tried
    }

    static ghost function Left(tried: set<nat>): nat {
      |Remaining(tried)|
    }

    /** The issue loop of one expert: a request in flight on a held descriptor, or nothing. */
    method Issue() returns (fd: int, p: nat, tried: set<nat>)
      requires Valid()
      modifies this
      ensures Kept(old(|pools|))
      ensures fd < 0 ==> held == old(held) && flying == old(flying)
      ensures fd >= 0 ==> fd !in old(held) && held == old(held) + {fd} && flying == old(flying) + multiset{p}
    {
      tried := {};
      while true
        invariant Kept(old(|pools|)) && held == old(held) && flying == old(flying)
        decreases Left(tried)
      {
        var r;
        r, p := Pick(tried);
        if r < 0 {
          return -1, 0, tried;
        }
        TriedGrows(tried, r);
        tried := tried + {r};
        fd := TakeSock(p);
        if fd < 0 {
          continue;
        }
        if * {
          Close(fd);
          continue;
        }
        Sent(p);
        return;
      }
    }

    /** The call so far: what it holds and flies beyond H and F are its two open requests. */
    ghost predicate Calling(H: set<nat>, F: multiset<nat>, n: nat, fd: seq<int>, ps: seq<nat>)
      reads this
    {
      && Kept(n) && |fd| == |ps| == 2 && ps[0] < |pools| && ps[1] < |pools|
      && held == H + HeldBy(fd) && flying == F + FlyingBy(fd, ps)
      && H !! HeldBy(fd) && (fd[0] >= 0 ==> fd[0] != fd[1])
    }

    /** The hedge: a second replica, or none. */
    method Hedge(tried0: set<nat>) returns (fd: int, p: nat, tried: set<nat>)
      requires Valid()
      modifies this
      ensures Kept(old(|pools|)) && (fd >= 0 ==> p < |pools|)
      ensures fd < 0 ==> held == old(held) && flying == old(flying)
      ensures fd >= 0 ==> fd !in old(held) && held == old(held) + {fd} && flying == old(flying) + multiset{p}
    {
      tried := tried0;
      var r;
      r, p := Pick(tried);
      if r < 0 {
        return -1, 0, tried;
      }
      tried := tried + {r};
      fd := TakeSock(p);
      if fd < 0 {
        return;
      }
      if * {
        Close(fd);
        return -1, p, tried;
      }
      Sent(p);
    }

    /** One readable request: a good reply settles both, a bad one closes this one, and a primary the
        peer had closed may be dialled again, once, when it is the only one. */
    method Receive(i: nat, fd0: seq<int>, ps: seq<nat>, alive0: nat, reconnected0: bool, ghost H: set<nat>, ghost F: multiset<nat>, ghost n: nat)
      returns (answered: bool, fd: seq<int>, alive: nat, reconnected: bool)
      requires i < 2 && |fd0| == |ps| == 2 && Calling(H, F, n, fd0, ps) && fd0[i] >= 0 && alive0 == Open(fd0)
      modifies this
      ensures answered ==> Kept(n) && held == H && flying == F
      ensures !answered ==> |fd| == 2 && Calling(H, F, n, fd, ps) && alive == Open(fd) && fd[1 - i] == fd0[1 - i]
      ensures !answered ==> alive < alive0 || (alive == alive0 && reconnected && !reconnected0)
    {
      hide Valid, Calling, Kept, HeldBy, FlyingBy, Open;
      fd, alive, reconnected := fd0, alive0, reconnected0;
      if * {
        fd := Keep(i, fd, ps, H, F, n);
        GiveUpBoth(fd, ps, H, F, n);
        return true, fd, alive, reconnected;
      }
      fd, alive, reconnected := Lose(i, fd, ps, alive, reconnected, H, F, n);
      answered := false;
    }

    /** A bad reply: the request is closed, and perhaps dialled once more. */
    method Lose(i: nat, fd0: seq<int>, ps: seq<nat>, alive0: nat, reconnected0: bool, ghost H: set<nat>, ghost F: multiset<nat>, ghost n: nat)
      returns (fd: seq<int>, alive: nat, reconnected: bool)
      requires i < 2 && |fd0| == |ps| == 2 && Calling(H, F, n, fd0, ps) && fd0[i] >= 0 && alive0 == Open(fd0)
      modifies this
      ensures |fd| == 2 && Calling(H, F, n, fd, ps) && alive == Open(fd) && fd[1 - i] == fd0[1 - i]
      ensures alive < alive0 || (alive == alive0 && reconnected && !reconnected0)
    {
      OpenCount(fd0);
      hide Valid, Calling, Kept, HeldBy, FlyingBy, Open;
      alive, reconnected := alive0, reconnected0;
      fd := Drop(i, fd0, ps, H, F, n);
      OpenCount(fd);
      var gone := *;
      if i == 0 && alive == 1 && !reconnected && gone {
        reconnected := true;
        fd := Redial(fd, ps, H, F, n);
        OpenCount(fd);
        if fd[0] >= 0 {
          return;
        }
      }
      alive := alive - 1;
    }

    /** A good reply: the request is settled and its descriptor goes back to the pool. */
    method Keep(i: nat, fd0: seq<int>, ps: seq<nat>, ghost H: set<nat>, ghost F: multiset<nat>, ghost n: nat) returns (fd: seq<int>)
      requires i < 2 && Calling(H, F, n, fd0, ps) && fd0[i] >= 0
      modifies this
      ensures |fd| == 2 && Calling(H, F, n, fd, ps) && fd[i] < 0 && fd[1 - i] == fd0[1 - i]
    {
      Without(H, F, fd0, ps, i);
      hide Valid, HeldBy, FlyingBy;
      PutSock(ps[i], fd0[i]);
      Done(ps[i]);
      fd := fd0[i := -1];
    }

    /** The one reconnection to the same peer. */
    method Redial(fd0: seq<int>, ps: seq<nat>, ghost H: set<nat>, ghost F: multiset<nat>, ghost n: nat) returns (fd: seq<int>)
      requires Calling(H, F, n, fd0, ps) && fd0[0] < 0 && fd0[1] < 0
      modifies this
      ensures |fd| == 2 && Calling(H, F, n, fd, ps) && fd[1] == fd0[1]
    {
      hide Valid;
      fd := fd0;
      var again := OpenSock();
      if again < 0 {
        return;
      }
      if * {
        Close(again);
        return;
      }
      Sent(ps[0]);
      fd := fd[0 := again];
    }

    /** Gives up an open request. */
    method Drop(i: nat, fd0: seq<int>, ps: seq<nat>, ghost H: set<nat>, ghost F: multiset<nat>, ghost n: nat) returns (fd: seq<int>)
      requires i < 2 && Calling(H, F, n, fd0, ps)
      modifies this
      ensures |fd| == 2 && Calling(H, F, n, fd, ps) && fd[i] < 0 && fd[1 - i] == fd0[1 - i]
    {
      if fd0[i] >= 0 {
        Without(H, F, fd0, ps, i);
      }
      hide Valid, HeldBy, FlyingBy;
      fd := fd0;
      if fd[i] >= 0 {
        Close(fd[i]);
        Done(ps[i]);
        fd := fd[i := -1];
      }
    }

    /** One wake-up of the poll: the primary, the hedge, or both in that order have something to read. */
    method Round(fd0: seq<int>, ps: seq<nat>, alive0: nat, reconnected0: bool, ghost H: set<nat>, ghost F: multiset<nat>, ghost n: nat)
      returns (answered: bool, fd: seq<int>, alive: nat, reconnected: bool)
      requires |fd0| == |ps| == 2 && Calling(H, F, n, fd0, ps) && alive0 == Open(fd0) > 0
      modifies this
      ensures answered ==> Kept(n) && held == H && flying == F
      ensures !answered ==> |fd| == 2 && Calling(H, F, n, fd, ps) && alive == Open(fd)
      ensures !answered ==> alive < alive0 || (alive == alive0 && reconnected && !reconnected0)
    {
      OpenCount(fd0);
      hide Valid, Calling, Kept, HeldBy, FlyingBy, Open;
      var first, both := *, *;
      if fd0[0] < 0 || (fd0[1] >= 0 && !first) {
        answered, fd, alive, reconnected := Receive(1, fd0, ps, alive0, reconnected0, H, F, n);
        return;
      }
      answered, fd, alive, reconnected := Receive(0, fd0, ps, alive0, reconnected0, H, F, n);
      if !answered && fd[1] >= 0 && both {
        answered, fd, alive, reconnected := Receive(1, fd, ps, alive, reconnected, H, F, n);
      }
    }

    lemma Known(p: nat)
      requires Valid() && p in flying
      ensures p < |pools|
    {
    }

    method Start(fd0: nat, p0: nat, tried0: set<nat>) returns (fd: seq<int>, ps: seq<nat>, tried: set<nat>)
      requires Valid() && fd0 in held && p0 in flying
      modifies this
      ensures |fd| == |ps| == 2 && Calling(old(held) - {fd0}, old(flying) - multiset{p0}, old(|pools|), fd, ps)
    {
      Known(p0);
      hide Valid;
      tried := tried0;
      var fd1, p1 := -1, p0;
      if * {
        fd1, p1, tried := Hedge(tried);
      }
      fd, ps := [fd0 as int, fd1], [p0, if fd1 >= 0 then p1 else p0];
    }

    lemma Settled(H: set<nat>, F: multiset<nat>, n: nat, fd: seq<int>, ps: seq<nat>)
      requires Calling(H, F, n, fd, ps) && fd[0] < 0 && fd[1] < 0
      ensures Kept(n) && held == H && flying == F
    {
    }

    method GiveUpBoth(fd0: seq<int>, ps: seq<nat>, ghost H: set<nat>, ghost F: multiset<nat>, ghost n: nat)
      requires |fd0| == |ps| == 2 && Calling(H, F, n, fd0, ps)
      modifies this
      ensures Kept(n) && held == H && flying == F
    {
      hide Valid, Calling, Kept, HeldBy, FlyingBy;
      var fd := Drop(0, fd0, ps, H, F, n);
      fd := Drop(1, fd, ps, H, F, n);
      Settled(H, F, n, fd, ps);
    }

    /** Collects the reply of an issued request, with at most one hedge and one reconnection; the
        descriptor and the in-flight count of the request are settled on every path. */
    method FinishExec(fd0: nat, p0: nat, tried0: set<nat>) returns (answered: bool, tried: set<nat>)
      requires Valid() && fd0 in held && p0 in flying
      modifies this
      ensures Kept(old(|pools|)) && held == old(held) - {fd0} && flying == old(flying) - multiset{p0}
    {
      ghost var H, F, n := held - {fd0}, flying - multiset{p0}, |pools|;
      var fd, ps;
      fd, ps, tried := Start(fd0, p0, tried0);
      hide Valid, Calling, Kept, HeldBy, FlyingBy;
      var alive, reconnected := Open(fd), false;
      while alive > 0
        invariant |fd| == 2 && Calling(H, F, n, fd, ps) && alive == Open(fd)
        decreases alive, if reconnected then 0 else 1
      {
        if * {
          break;
        }
        answered, fd, alive, reconnected := Round(fd, ps, alive, reconnected, H, F, n);
        if answered {
          return;
        }
      }
      GiveUpBoth(fd, ps, H, F, n);
      answered := false;
    }

    /** The relay: refused at once, or one request to the tracker whose reply may still be no result. */
    method Relay() returns (relayed: bool)
      requires Valid()
      modifies this
      ensures Valid() && Same(old(pools), old(inflight), old(flying), old(reset)) && held == old(held)
    {
      if * {
        return false;
      }
      relayed := Request();
      if * {
        relayed := false;
      }
    }

    /** The failover path: the remaining replicas one by one, then the relay, then patience. */
    method ExecRetry(tried0: set<nat>, fallback: bool, waitLimit: nat) returns (answered: bool, tried: set<nat>)
      requires Valid()
      modifies this
      ensures Kept(old(|pools|)) && held == old(held) && flying == old(flying)
    {
      tried := tried0;
      var waited := 0;
      while true
        invariant Kept(old(|pools|)) && held == old(held) && flying == old(flying)
        decreases if waited < waitLimit then waitLimit - waited else 0, Left(tried)
      {
        var r, p := Pick(tried);
        if r < 0 {
          var relayed := Relay();
          var patient := *;
          if relayed || fallback || waited >= waitLimit || !patient {
            return relayed, tried;
          }
          tried, waited := {}, waited + 2;
          Rediscover();
          continue;
        }
        TriedGrows(tried, r);
        tried := tried + {r};
        answered := Attempt(p);
        if answered {
          return;
        }
      }
    }

    /** One synchronous call of one replica. */
    method Attempt(p: nat) returns (answered: bool)
      requires Valid() && p < |pools|
      modifies this
      ensures Kept(old(|pools|)) && held == old(held) && flying == old(flying)
    {
      var fd := TakeSock(p);
      if fd < 0 {
        return false;
      }
      if * {
        Close(fd);
        return false;
      }
      Sent(p);
      if * {
        Close(fd);
        Done(p);
        return false;
      }
      Done(p);
      PutSock(p, fd);
      return true;
    }

    /** The same request to a different replica, to compare the bytes. */
    method SpotCheck(tried: set<nat>) returns (bad: bool)
      requires Valid()
      modifies this
      ensures Kept(old(|pools|)) && held == old(held) && flying == old(flying)
    {
      var r, p := Pick(tried);
      if r < 0 {
        return false;
      }
      var fd := TakeSock(p);
      if fd < 0 {
        return false;
      }
      if * {
        Close(fd);
        return false;
      }
      PutSock(p, fd);
      bad := *;
    }

    /** The requests fds[i] to peers ps[i] are in flight beyond H and F; a negative one is not. */
    ghost predicate Flying(H: set<nat>, F: multiset<nat>, n: nat, fds: seq<int>, ps: seq<nat>)
      reads this
    {
      && Kept(n) && |fds| == |ps| && Lone(fds) && H !! SetOf(fds)
      && held == H + SetOf(fds) && flying == F + BagOf(fds, ps)
    }

    /** Issues one expert's request after those already issued. */
    method IssueNext(ghost H: set<nat>, ghost F: multiset<nat>, ghost n: nat, fds0: seq<int>, ps0: seq<nat>)
      returns (fds: seq<int>, ps: seq<nat>, tried: set<nat>)
      requires Flying(H, F, n, fds0, ps0)
      modifies this
      ensures Flying(H, F, n, fds, ps) && |fds| == |fds0| + 1
    {
      hide Valid, SetOf, BagOf, Lone;
      var fd, p;
      fd, p, tried := Issue();
      AppendRequest(fds0, ps0, fd, p);
      fds, ps := fds0 + [fd], ps0 + [p];
    }

    /** Settles the first of the outstanding requests: the issued reply, its check, one retry, its check. */
    method CollectFirst(ghost H: set<nat>, ghost F: multiset<nat>, ghost n: nat, fds: seq<int>, ps: seq<nat>, tried0: set<nat>,
                        fallback: bool, waitLimit: nat) returns (ok: bool)
      requires |fds| > 0 && Flying(H, F, n, fds, ps)
      modifies this
      ensures Flying(H, F, n, fds[1..], ps[1..])
    {
      FirstRequest(H, F, fds, ps);
      hide Valid, SetOf, BagOf, Lone;
      var tried := tried0;
      ok := false;
      if fds[0] >= 0 {
        ok, tried := FinishExec(fds[0], ps[0], tried);
        ok := Checked(ok, tried);
      }
      if !ok {
        ok, tried := ExecRetry(tried, fallback, waitLimit);
        ok := Checked(ok, tried);
      }
    }

    method Checked(ok0: bool, tried: set<nat>) returns (ok: bool)
      requires Valid()
      modifies this
      ensures Kept(old(|pools|)) && held == old(held) && flying == old(flying)
    {
      ok := ok0;
      var sampled := *;
      if ok && sampled {
        var bad := SpotCheck(tried);
        ok := !bad;
      }
    }

    /** Gives up the outstanding requests of a failed call. */
    method Abandon(ghost H: set<nat>, ghost F: multiset<nat>, ghost n: nat, fds: seq<int>, ps: seq<nat>)
      requires Flying(H, F, n, fds, ps)
      modifies this
      ensures Kept(n) && held == H && flying == F
    {
      var q := 0;
      while q < |fds|
        invariant q <= |fds| && Flying(H, F, n, fds[q..], ps[q..])
      {
        AbandonFirst(H, F, n, fds[q..], ps[q..]);
        assert fds[q..][1..] == fds[q + 1..] && ps[q..][1..] == ps[q + 1..];
        q := q + 1;
      }
      assert fds[q..] == [] && ps[q..] == [];
    }

    method AbandonFirst(ghost H: set<nat>, ghost F: multiset<nat>, ghost n: nat, fds: seq<int>, ps: seq<nat>)
      requires |fds| > 0 && Flying(H, F, n, fds, ps)
      modifies this
      ensures Flying(H, F, n, fds[1..], ps[1..])
    {
      FirstRequest(H, F, fds, ps);
      hide Valid, SetOf, BagOf, Lone;
      if fds[0] >= 0 {
        Close(fds[0]);
        Done(ps[0]);
      }
    }

    /** One block of a layer: issue every request, then collect them in order. */
    method CallBlock(nb: nat, fallback: bool, waitLimit: nat) returns (ok: bool)
      requires Valid()
      modifies this
      ensures Kept(old(|pools|)) && held == old(held) && flying == old(flying)
    {
      ghost var H, F, n := held, flying, |pools|;
      var fds, ps, tried := [], [], [];
      hide Valid, Kept, Flying;
      NothingIssued(H, F, n);
      var j := 0;
      while j < nb
        invariant j <= nb && |fds| == |ps| == |tried| == j && Flying(H, F, n, fds, ps)
      {
        var t;
        fds, ps, t := IssueNext(H, F, n, fds, ps);
        FlyingLength(H, F, n, fds, ps);
        tried, j := tried + [t], j + 1;
      }
      ok := CollectAll(H, F, n, fds, ps, tried, fallback, waitLimit);
    }

    lemma NothingIssued(H: set<nat>, F: multiset<nat>, n: nat)
      requires Kept(n) && held == H && flying == F
      ensures Flying(H, F, n, [], [])
    {
    }

    lemma FlyingLength(H: set<nat>, F: multiset<nat>, n: nat, fds: seq<int>, ps: seq<nat>)
      requires Flying(H, F, n, fds, ps)
      ensures |fds| == |ps|
      ensures |fds| == 0 ==> Kept(n) && held == H && flying == F
    {
    }

    /** The collect loop; a failure closes what is still outstanding. */
    method CollectAll(ghost H: set<nat>, ghost F: multiset<nat>, ghost n: nat, fds: seq<int>, ps: seq<nat>, tried: seq<set<nat>>,
                      fallback: bool, waitLimit: nat) returns (ok: bool)
      requires |fds| == |ps| == |tried| && Flying(H, F, n, fds, ps)
      modifies this
      ensures Kept(n) && held == H && flying == F
    {
      hide Valid, Kept, Flying;
      var j := 0;
      assert fds[0..] == fds && ps[0..] == ps;
      while j < |fds|
        invariant j <= |fds| && Flying(H, F, n, fds[j..], ps[j..])
      {
        assert fds[j..][1..] == fds[j + 1..] && ps[j..][1..] == ps[j + 1..];
        ok := CollectFirst(H, F, n, fds[j..], ps[j..], tried[j], fallback, waitLimit);
        j := j + 1;
        if !ok {
          Abandon(H, F, n, fds[j..], ps[j..]);
          return false;
        }
      }
      FlyingLength(H, F, n, fds[j..], ps[j..]);
      ok := true;
    }

    /** A batched layer, block by block: with nothing in flight on entry, nothing is on return, and the
        descriptors held are those held before: every other one is closed or in exactly one pool. */
    method ApplyBatch(experts: nat, fallback: bool, waitLimit: nat) returns (ok: bool)
      requires Valid()
      modifies this
      ensures Kept(old(|pools|)) && held == old(held) && flying == old(flying)
      ensures old(flying) == multiset{} ==> forall p | 0 <= p < |inflight| :: inflight[p] == 0
    {
      var base := 0;
      ok := true;
      while ok && base < experts
        invariant Kept(old(|pools|)) && held == old(held) && flying == old(flying)
        decreases experts - base, ok
      {
        var nb := if experts - base < BLOCK then experts - base else BLOCK;
        ok := CallBlock(nb, fallback, waitLimit);
        base := base + nb;
      }
    }

    /** The split layer: a failed local expert abandons every request before any was collected. */
    method ApplySplit(remoteCount: nat, fallback: bool, waitLimit: nat) returns (ok: bool)
      requires Valid()
      modifies this
      ensures Kept(old(|pools|)) && held == old(held) && flying == old(flying)
      ensures old(flying) == multiset{} ==> forall p | 0 <= p < |inflight| :: inflight[p] == 0
    {
      ghost var H, F, n := held, flying, |pools|;
      var fds, ps, tried := [], [], [];
      NothingIssued(H, F, n);
      for k := 0 to remoteCount
        invariant |fds| == |ps| == |tried| == k && Flying(H, F, n, fds, ps)
      {
        var t;
        fds, ps, t := IssueNext(H, F, n, fds, ps);
        tried := tried + [t];
      }
      if * {
        Abandon(H, F, n, fds, ps);
        return false;
      }
      ok := CollectAll(H, F, n, fds, ps, tried, fallback, waitLimit);
    }
  }

  function SetOf(fds: seq<int>): set<nat> {
    if |fds| == 0 then {} else (if fds[0] >= 0 then {fds[0] as nat} else {}) + SetOf(fds[1..])
  }

  function BagOf(fds: seq<int>, ps: seq<nat>): multiset<nat>
    requires |fds| == |ps|
  {
    if |fds| == 0 then multiset{} else (if fds[0] >= 0 then multiset{ps[0]} else multiset{}) + BagOf(fds[1..], ps[1..])
  }

  ghost predicate Lone(fds: seq<int>) {
    forall i, j | 0 <= i < j < |fds| && fds[i] >= 0 :: fds[i] != fds[j]
  }

  lemma {:induction false} InSet(fds: seq<int>, f: nat)
    ensures f in SetOf(fds) <==> exists i | 0 <= i < |fds| :: fds[i] == f
  {
    if |fds| > 0 {
      InSet(fds[1..], f);
      if exists i | 0 <= i < |fds| :: fds[i] == f {
        var i :| 0 <= i < |fds| && fds[i] == f;
        assert i > 0 ==> fds[1..][i - 1] == f;
      }
    }
  }

  lemma {:induction false} SetAppended(fds: seq<int>, fd: int)
    ensures SetOf(fds + [fd]) == SetOf(fds) + if fd >= 0 then {fd as nat} else {}
  {
    if |fds| > 0 {
      SetAppended(fds[1..], fd);
      assert (fds + [fd])[1..] == fds[1..] + [fd];
    }
  }

  lemma {:induction false} BagAppended(fds: seq<int>, ps: seq<nat>, fd: int, p: nat)
    requires |fds| == |ps|
    ensures BagOf(fds + [fd], ps + [p]) == BagOf(fds, ps) + if fd >= 0 then multiset{p} else multiset{}
  {
    if |fds| > 0 {
      var f, q := fds + [fd], ps + [p];
      BagAppended(fds[1..], ps[1..], fd, p);
      assert f[1..] == fds[1..] + [fd] && q[1..] == ps[1..] + [p];
      assert f[0] == fds[0] && q[0] == ps[0];
    }
  }

  lemma AppendRequest(fds: seq<int>, ps: seq<nat>, fd: int, p: nat)
    requires |fds| == |ps|
    ensures SetOf(fds + [fd]) == SetOf(fds) + if fd >= 0 then {fd as nat} else {}
    ensures BagOf(fds + [fd], ps + [p]) == BagOf(fds, ps) + if fd >= 0 then multiset{p} else multiset{}
    ensures Lone(fds) && (fd >= 0 ==> fd !in SetOf(fds)) ==> Lone(fds + [fd])
  {
    hide BagOf;
    SetAppended(fds, fd);
    BagAppended(fds, ps, fd, p);
    if Lone(fds) && fd >= 0 {
      InSet(fds, fd);
    }
  }

  /** The first outstanding request beside the rest. */
  lemma FirstRequest(H: set<nat>, F: multiset<nat>, fds: seq<int>, ps: seq<nat>)
    requires |fds| == |ps| > 0 && Lone(fds) && H !! SetOf(fds)
    ensures Lone(fds[1..]) && H !! SetOf(fds[1..])
    ensures fds[0] >= 0 ==>
              && fds[0] in H + SetOf(fds) && ps[0] in F + BagOf(fds, ps)
              && H + SetOf(fds[1..]) == H + SetOf(fds) - {fds[0]}
              && F + BagOf(fds[1..], ps[1..]) == F + BagOf(fds, ps) - multiset{ps[0]}
    ensures fds[0] < 0 ==> SetOf(fds[1..]) == SetOf(fds) && BagOf(fds[1..], ps[1..]) == BagOf(fds, ps)
  {
    if fds[0] >= 0 {
      InSet(fds[1..], fds[0]);
      assert fds[0] !in SetOf(fds[1..]) by {
        assert forall i | 0 <= i < |fds| - 1 :: fds[1..][i] == fds[i + 1];
      }
    }
  }

  function Open(fd: seq<int>): nat
    requires |fd| == 2
  {
    (if fd[0] >= 0 then 1 else 0) + (if fd[1] >= 0 then 1 else 0)
  }

  function HeldBy(fd: seq<int>): set<nat>
    requires |fd| == 2
  {
    (if fd[0] >= 0 then {fd[0] as nat} else {}) + (if fd[1] >= 0 then {fd[1] as nat} else {})
  }

  function FlyingBy(fd: seq<int>, ps: seq<nat>): multiset<nat>
    requires |fd| == |ps| == 2
  {
    (if fd[0] >= 0 then multiset{ps[0]} else multiset{}) + (if fd[1] >= 0 then multiset{ps[1]} else multiset{})
  }

  /** Settling one open request takes away its descriptor and its count, and nothing else. */
  lemma Without(H: set<nat>, F: multiset<nat>, fd: seq<int>, ps: seq<nat>, i: nat)
    requires i < 2 && |fd| == |ps| == 2 && fd[i] >= 0 && H !! HeldBy(fd) && fd[0] != fd[1]
    ensures fd[i] in H + HeldBy(fd) && ps[i] in F + FlyingBy(fd, ps)
    ensures H + HeldBy(fd[i := -1]) == H + HeldBy(fd) - {fd[i]} && H !! HeldBy(fd[i := -1])
    ensures F + FlyingBy(fd[i := -1], ps) == F + FlyingBy(fd, ps) - multiset{ps[i]}
    ensures Open(fd[i := -1]) == Open(fd) - 1
  {
    if i == 0 {
      assert HeldBy(fd[0 := -1]) == HeldBy(fd) - {fd[0]};
    } else {
      assert HeldBy(fd[1 := -1]) == HeldBy(fd) - {fd[1]};
    }
  }

  lemma OpenCount(fd: seq<int>)
    requires |fd| == 2
    ensures fd[0] < 0 && fd[1] < 0 <==> Open(fd) == 0
    ensures fd[0] < 0 ==> Open(fd) == if fd[1] >= 0 then 1 else 0
    ensures fd[1] < 0 ==> Open(fd) == if fd[0] >= 0 then 1 else 0
    ensures fd[0] >= 0 && fd[1] >= 0 ==> Open(fd) == 2
  {
  }
}
