// The scheduler's queues of files and its request counters.
//
// Files are numbered.  Each file counts its requests by state; the scheduler keeps a queue
// of the files that have any, and the number of requests over all files.
module Queues {

  // The state of a write request: partly filled, full and bound for the data partition, or
  // written there and waiting for the index partition.
  datatype State = Partial | Dp | Ip

  // How many requests a file has in each state.
  datatype Counters = Counters(partial: nat, dp: nat, ip: nat)
  {
    function Of(s: State): nat
    {
      match s case Partial => partial case Dp => dp case Ip => ip
    }

    function With(s: State, n: nat): Counters
    {
      match s case Partial => this.(partial := n) case Dp => this.(dp := n) case Ip => this.(ip := n)
    }
  }

  const NONE := Counters(0, 0, 0)

  // ---------------------------------------------------------------- sums

  // Requests in state `s` over files [0, n), not counting files marked in `skip`.
  function Total(counters: seq<Counters>, skip: seq<bool>, s: State, n: nat): nat
    requires n <= |counters| && n <= |skip|
  {
    if n == 0 then 0 else Total(counters, skip, s, n - 1) + if skip[n - 1] then 0 else counters[n - 1].Of(s)
  }

  lemma {:induction false} TotalChange(a: seq<Counters>, b: seq<Counters>, skipA: seq<bool>, skipB: seq<bool>,
      s: State, id: nat, n: nat)
    requires id < |a| == |b| == |skipA| == |skipB| && n <= |a|
    requires forall j :: 0 <= j < |a| && j != id ==> a[j] == b[j] && skipA[j] == skipB[j]
    ensures Total(b, skipB, s, n) - Total(a, skipA, s, n) ==
            if id < n then (if skipB[id] then 0 else b[id].Of(s)) - (if skipA[id] then 0 else a[id].Of(s)) else 0
    ensures id < n && !skipA[id] ==> a[id].Of(s) <= Total(a, skipA, s, n)
  {
    if n > 0 {
      TotalChange(a, b, skipA, skipB, s, id, n - 1);
    }
  }

  // A queue holds just the files with requests in that state, each once.
  ghost predicate QueueOk(queue: seq<nat>, counters: seq<Counters>, s: State)
  {
    && (forall i, j :: 0 <= i < j < |queue| ==> queue[i] != queue[j])
    && (forall f: nat {:trigger f in queue} :: f in queue <==> f < |counters| && counters[f].Of(s) > 0)
  }

  function Without(queue: seq<nat>, id: nat): seq<nat>
  {
    if queue == [] then []
    else if queue[|queue| - 1] == id then queue[..|queue| - 1]
    else Without(queue[..|queue| - 1], id) + [queue[|queue| - 1]]
  }

  lemma {:induction false} WithoutElements(queue: seq<nat>, id: nat)
    requires forall i, j :: 0 <= i < j < |queue| ==> queue[i] != queue[j]
    ensures forall f: nat {:trigger f in Without(queue, id)} :: f in Without(queue, id) <==> f in queue && f != id
    ensures forall i, j :: 0 <= i < j < |Without(queue, id)| ==> Without(queue, id)[i] != Without(queue, id)[j]
  {
    if queue != [] && queue[|queue| - 1] != id {
      var front, last := queue[..|queue| - 1], queue[|queue| - 1];
      WithoutElements(front, id);
      assert queue == front + [last];
      assert last !in front;
      assert last !in Without(front, id);
    } else if queue != [] {
      assert queue == queue[..|queue| - 1] + [id];
    }
  }

  // Taking a file out leaves the order of the others.
  lemma {:induction false} WithoutOrder(queue: seq<nat>, id: nat)
    requires id in queue
    ensures LeftOut(queue, Without(queue, id), id)
  {
    var front, last := queue[..|queue| - 1], queue[|queue| - 1];
    if last == id {
      assert queue[..|queue| - 1] + queue[|queue|..] == front;
    } else {
      assert id in front by {
        assert queue == front + [last];
      }
      WithoutOrder(front, id);
      var i: nat :| i < |front| && front[i] == id && Without(front, id) == front[..i] + front[i + 1..];
      OneMoreLeft(front, i, last, queue);
    }
  }

  lemma OneMoreLeft(front: seq<nat>, i: nat, last: nat, queue: seq<nat>)
    requires i < |front| && queue == front + [last]
    ensures front[..i] + front[i + 1..] + [last] == queue[..i] + queue[i + 1..] && queue[i] == front[i]
  {
  }

  ghost predicate LeftOut(was: seq<nat>, now: seq<nat>, id: nat)
  {
    exists i {:trigger was[i]} :: 0 <= i < |was| && was[i] == id && now == was[..i] + was[i + 1..]
  }

  // A file that gets its first request goes to the end of the queue, one that lost its last request
  // leaves it, and nothing else changes.
  ghost predicate InTurn(was: seq<nat>, now: seq<nat>, id: nat, c: nat, c': nat)
  {
    if c == 0 < c' then now == was + [id] else if c' == 0 < c then LeftOut(was, now, id) else now == was
  }

  // One counter before and after adding a request, or removing one or all of them.
  function Adjust(c: nat, add: bool, all: bool): nat
  {
    if add then c + 1 else if all || c == 0 then 0 else c - 1
  }

  // The queue is entered with the first request and left with the last.
  function Requeue(queue: seq<nat>, id: nat, c: nat, add: bool, all: bool): seq<nat>
  {
    if add then (if c == 0 then queue + [id] else queue)
    else if (all && c > 0) || c == 1 then Without(queue, id)
    else queue
  }

  lemma Requeued(queue: seq<nat>, a: seq<Counters>, s: State, id: nat, add: bool, all: bool)
    requires QueueOk(queue, a, s) && id < |a|
    ensures var b := a[id := a[id].With(s, Adjust(a[id].Of(s), add, all))];
            && QueueOk(Requeue(queue, id, a[id].Of(s), add, all), b, s)
            && InTurn(queue, Requeue(queue, id, a[id].Of(s), add, all), id, a[id].Of(s), b[id].Of(s))
  {
    var c := a[id].Of(s);
    var b := a[id := a[id].With(s, Adjust(c, add, all))];
    var queue' := Requeue(queue, id, c, add, all);
    WithoutElements(queue, id);
    if id in queue {
      WithoutOrder(queue, id);
    }
    forall f: nat
      ensures f in queue' <==> f < |b| && b[f].Of(s) > 0
    {
      if f < |b| && f != id {
        assert b[f] == a[f];
      }
      assert id in queue <==> c > 0;
    }
  }

  lemma OtherQueue(queue: seq<nat>, a: seq<Counters>, b: seq<Counters>, s: State)
    requires QueueOk(queue, a, s) && |a| == |b| && forall f :: 0 <= f < |a| ==> a[f].Of(s) == b[f].Of(s)
    ensures QueueOk(queue, b, s)
  {
    forall f: nat
      ensures f in queue <==> f < |b| && b[f].Of(s) > 0
    {
      if f < |a| {
        assert a[f].Of(s) == b[f].Of(s);
      }
    }
  }

  lemma {:induction false} TotalSame(a: seq<Counters>, b: seq<Counters>, skip: seq<bool>, s: State, n: nat)
    requires |a| == |b| == |skip| && n <= |a| && forall f :: 0 <= f < |a| ==> a[f].Of(s) == b[f].Of(s)
    ensures Total(b, skip, s, n) == Total(a, skip, s, n)
  {
    if n > 0 {
      TotalSame(a, b, skip, s, n - 1);
    }
  }

  // ---------------------------------------------------------------- the scheduler

  class UnifiedData {
    // Per file: its counters, and whether its data goes on to the index partition.
    var counters: seq<Counters>
    var writeIp: seq<bool>

    var workingSet: seq<nat>
    var dpQueue: seq<nat>
    var ipQueue: seq<nat>

    // Requests over all files; requests of files bound for the index partition do not
    // count as data partition requests, since writing them frees no cache block.
    var wsRequests: nat
    var dpRequests: nat
    var ipRequests: nat

    ghost predicate Valid()
      reads this
    {
      && |counters| == |writeIp|
      && QueueOk(workingSet, counters, Partial) && QueueOk(dpQueue, counters, Dp) && QueueOk(ipQueue, counters, Ip)
      && wsRequests == Total(counters, Nobody(|counters|), Partial, |counters|)
      && dpRequests == Total(counters, writeIp, Dp, |counters|)
      && ipRequests == Total(counters, Nobody(|counters|), Ip, |counters|)
    }

    constructor ()
      ensures Valid() && counters == []
    {
      counters, writeIp, workingSet, dpQueue, ipQueue := [], [], [], [], [];
      wsRequests, dpRequests, ipRequests := 0, 0, 0;
    }

    // Add or remove requests of a file: one of them, or, when removing, all of them.
    method UpdateQueueMembership(add: bool, all: bool, s: State, id: nat)
      requires Valid() && id < |counters|
      modifies `counters, `workingSet, `dpQueue, `ipQueue, `wsRequests, `dpRequests, `ipRequests
      ensures Valid()
      ensures counters == old(counters)[id := old(counters)[id].With(s, Adjust(old(counters)[id].Of(s), add, all))]
      ensures InTurn(old(workingSet), workingSet, id, old(counters)[id].partial, counters[id].partial)
              && InTurn(old(dpQueue), dpQueue, id, old(counters)[id].dp, counters[id].dp)
              && InTurn(old(ipQueue), ipQueue, id, old(counters)[id].ip, counters[id].ip)
    {
      hide QueueOk, Total, Requeue, LeftOut;
      var c := counters[id].Of(s);
      ghost var was := counters;
      counters := counters[id := counters[id].With(s, Adjust(c, add, all))];
      match s {
        case Partial =>
          Requeued(workingSet, was, s, id, add, all);
          TotalChange(was, counters, Nobody(|was|), Nobody(|was|), s, id, |was|);
          workingSet := Requeue(workingSet, id, c, add, all);
          wsRequests := if add then wsRequests + 1 else if all then wsRequests - c else if c > 0 then wsRequests - 1
              else wsRequests;
        case Dp =>
          Requeued(dpQueue, was, s, id, add, all);
          TotalChange(was, counters, writeIp, writeIp, s, id, |was|);
          dpQueue := Requeue(dpQueue, id, c, add, all);
          if !writeIp[id] {
            dpRequests := if add then dpRequests + 1 else if all then dpRequests - c else if c > 0 then dpRequests - 1
                else dpRequests;
          }
        case Ip =>
          Requeued(ipQueue, was, s, id, add, all);
          TotalChange(was, counters, Nobody(|was|), Nobody(|was|), s, id, |was|);
          ipQueue := Requeue(ipQueue, id, c, add, all);
          ipRequests := if add then ipRequests + 1 else if all then ipRequests - c else if c > 0 then ipRequests - 1
              else ipRequests;
      }
      if s != Partial {
        OtherQueue(workingSet, was, counters, Partial);
        TotalSame(was, counters, Nobody(|was|), Partial, |was|);
      }
      if s != Dp {
        OtherQueue(dpQueue, was, counters, Dp);
        TotalSame(was, counters, writeIp, Dp, |was|);
      }
      if s != Ip {
        OtherQueue(ipQueue, was, counters, Ip);
        TotalSame(was, counters, Nobody(|was|), Ip, |was|);
      }
    }

    // Let a file's data go on to the index partition: its data partition requests no longer
    // count, since they cannot be freed.
    method SetWriteIp(id: nat)
      requires Valid() && id < |counters| && !writeIp[id]
      modifies `writeIp, `dpRequests
      ensures Valid() && writeIp == old(writeIp)[id := true]
    {
      hide QueueOk, Total;
      TotalChange(counters, counters, writeIp, writeIp[id := true], Dp, id, |counters|);
      writeIp := writeIp[id := true];
      dpRequests := dpRequests - counters[id].dp;
    }

    method UnsetWriteIp(id: nat)
      requires Valid() && id < |counters| && writeIp[id]
      modifies `writeIp, `dpRequests
      ensures Valid() && writeIp == old(writeIp)[id := false]
    {
      hide QueueOk, Total;
      TotalChange(counters, counters, writeIp, writeIp[id := false], Dp, id, |counters|);
      writeIp := writeIp[id := false];
      dpRequests := dpRequests + counters[id].dp;
    }

    // A file gets its number when it is first written.
    method AddFile(ip: bool) returns (id: nat)
      requires Valid()
      modifies this
      ensures Valid() && id == |old(counters)| && counters == old(counters) + [NONE] && writeIp == old(writeIp) + [ip]
      ensures workingSet == old(workingSet) && dpQueue == old(dpQueue) && ipQueue == old(ipQueue)
    {
      id := |counters|;
      AddedFile(counters, writeIp, ip);
      counters, writeIp := counters + [NONE], writeIp + [ip];
    }
  }

  function Nobody(n: nat): (s: seq<bool>)
    ensures |s| == n && forall k :: 0 <= k < n ==> !s[k]
  {
    seq(n, _ => false)
  }

  lemma {:induction false} TotalPrefix(a: seq<Counters>, b: seq<Counters>, skipA: seq<bool>, skipB: seq<bool>,
      s: State, n: nat)
    requires n <= |a| && n <= |b| && n <= |skipA| && n <= |skipB|
    requires forall k :: 0 <= k < n ==> a[k] == b[k] && skipA[k] == skipB[k]
    ensures Total(a, skipA, s, n) == Total(b, skipB, s, n)
  {
    if n > 0 {
      TotalPrefix(a, b, skipA, skipB, s, n - 1);
    }
  }

  lemma AddedFile(counters: seq<Counters>, writeIp: seq<bool>, ip: bool)
    requires |counters| == |writeIp|
    ensures var n, now := |counters|, counters + [NONE];
            && (forall s :: Total(now, Nobody(n + 1), s, n + 1) == Total(counters, Nobody(n), s, n))
            && (forall s :: Total(now, writeIp + [ip], s, n + 1) == Total(counters, writeIp, s, n))
            && (forall s, queue :: QueueOk(queue, counters, s) ==> QueueOk(queue, now, s))
  {
    var n, now := |counters|, counters + [NONE];
    forall s
      ensures Total(now, Nobody(n + 1), s, n + 1) == Total(counters, Nobody(n), s, n)
      ensures Total(now, writeIp + [ip], s, n + 1) == Total(counters, writeIp, s, n)
    {
      TotalPrefix(now, counters, Nobody(n + 1), Nobody(n), s, n);
      TotalPrefix(now, counters, writeIp + [ip], writeIp, s, n);
    }
    forall s, queue: seq<nat> | QueueOk(queue, counters, s)
      ensures QueueOk(queue, now, s)
    {
      forall f: nat
        ensures f in queue <==> f < |now| && now[f].Of(s) > 0
      {
        if f < n {
          assert now[f] == counters[f];
        }
      }
    }
  }
}
