/**
 * TimersImpl: a table of software timers. Each timer has an ID, a default
 * timeout, the timeout of the current run, a running flag, a periodic flag
 * and the client told on expiry. The clock is not modelled: the expiry pass
 * is told which timers have reached their timeout.
 */
module Timers {
  import opened Common

  /** The ID createTimer returns on failure and never hands out. */
  const TIMERS_INVALID_ID: U32 := 0xFF

  /** One entry of the table; `client` 0 stands for a null ITimerClient pointer, the start time is left out. */
  datatype Timer = Timer(id: U32, defaultTimeout: U32, currentTimeout: U32, isRunning: bool, periodic: bool, client: nat)

  /** isTimeoutValid: positive and a multiple of 10 ms. */
  predicate IsTimeoutValid(timeout: U32)
  {
    timeout > 0 && timeout % 10 == 0
  }

  /** std::find_if on the ID: the first entry with that ID, or |timers|. */
  function Find(timers: seq<Timer>, id: U32): (i: nat)
    ensures i <= |timers|
    ensures i < |timers| ==> timers[i].id == id
    ensures forall j :: 0 <= j < i ==> timers[j].id != id
  {
    if timers == [] then 0
    else if timers[0].id == id then 0
    else 1 + Find(timers[1..], id)
  }

  /** The ID after `last` in a uint32_t counter, skipping TIMERS_INVALID_ID. */
  function NextId(last: U32): (r: U32)
    ensures r != TIMERS_INVALID_ID
    ensures last < UINT32_MAX ==> r > last
    ensures last == UINT32_MAX ==> r == 0
    ensures last != TIMERS_INVALID_ID - 1 ==> r == ToU32(last + 1)
  {
    var next := ToU32(last + 1);
    if next == TIMERS_INVALID_ID then ToU32(next + 1) else next
  }

  /** The expiry of one timer: the current timeout returns to the default, and only a periodic timer keeps running. */
  function Expire(t: Timer): (r: Timer)
    ensures r.currentTimeout == t.defaultTimeout && r.isRunning == t.periodic
    ensures r.id == t.id && r.defaultTimeout == t.defaultTimeout && r.periodic == t.periodic && r.client == t.client
  {
    t.(currentTimeout := t.defaultTimeout, isRunning := t.periodic)
  }

  /** The IDs of the first n timers that are running and due, in table order: the onTimeout calls of one pass. */
  function DueIds(timers: seq<Timer>, due: nat -> bool, n: nat): (r: seq<U32>)
    requires n <= |timers|
    ensures |r| <= n
    ensures forall k :: 0 <= k < |r| ==> exists j :: 0 <= j < n && timers[j].id == r[k] && timers[j].isRunning && due(j)
  {
    if n == 0 then []
    else
      var before := DueIds(timers, due, n - 1);
      if timers[n - 1].isRunning && due(n - 1) then before + [timers[n - 1].id] else before
  }

  /** Every timer in the table has a usable ID, a valid default timeout and a client. */
  predicate WellFormed(timers: seq<Timer>)
  {
    forall i :: 0 <= i < |timers| ==>
      timers[i].id != TIMERS_INVALID_ID && IsTimeoutValid(timers[i].defaultTimeout) && timers[i].client != 0
  }

  /** Neither a start, a stop nor an expiry can make a table ill-formed: none of them touches ID, default or client. */
  lemma {:induction false} WellFormedUpdate(timers: seq<Timer>, i: nat, t: Timer)
    requires WellFormed(timers) && i < |timers|
    requires t.id == timers[i].id && t.defaultTimeout == timers[i].defaultTimeout && t.client == timers[i].client
    ensures WellFormed(timers[i := t])
  {
  }

  class TimersTable {
    var timers: seq<Timer>
    var lastTimerId: U32

    /** The table starts empty and the ID counter at 0. */
    constructor()
      ensures timers == [] && lastTimerId == 0
    {
      timers, lastTimerId := [], 0;
    }

    predicate Valid()
      reads this
    {
      WellFormed(timers)
    }

    /** stop: the worker thread is stopped (not modelled) and the table emptied. */
    method Stop()
      modifies this
      ensures timers == [] && lastTimerId == old(lastTimerId) && Valid()
    {
      timers := [];
    }

    /**
     * createTimer: with a valid timeout and a client the next ID is taken and
     * a stopped, one-shot timer appended; otherwise TIMERS_INVALID_ID and no
     * change.
     */
    method CreateTimer(client: nat, defaultTimeout: U32) returns (result: U32)
      requires Valid()
      modifies this
      ensures Valid()
      ensures !IsTimeoutValid(defaultTimeout) || client == 0 ==>
        result == TIMERS_INVALID_ID && timers == old(timers) && lastTimerId == old(lastTimerId)
      ensures IsTimeoutValid(defaultTimeout) && client != 0 ==>
        && result == NextId(old(lastTimerId)) && result != TIMERS_INVALID_ID
        && lastTimerId == result
        && timers == old(timers) + [Timer(result, defaultTimeout, defaultTimeout, false, false, client)]
    {
      result := TIMERS_INVALID_ID;
      if IsTimeoutValid(defaultTimeout) && client != 0 {
        lastTimerId := ToU32(lastTimerId + 1);
        if lastTimerId == TIMERS_INVALID_ID {
          lastTimerId := ToU32(lastTimerId + 1);
        }
        timers := timers + [Timer(lastTimerId, defaultTimeout, defaultTimeout, false, false, client)];
        result := lastTimerId;
      }
    }

    /** removeTimer: the first timer with that ID is erased; an unknown ID changes nothing. */
    method RemoveTimer(id: U32)
      requires Valid()
      modifies this
      ensures Valid() && lastTimerId == old(lastTimerId)
      ensures var i := Find(old(timers), id);
        timers == if i < |old(timers)| then old(timers)[..i] + old(timers)[i + 1..] else old(timers)
    {
      var i := Find(timers, id);
      if i < |timers| {
        timers := timers[..i] + timers[i + 1..];
      }
    }

    /** setTimeout: a valid timeout on a known ID becomes both the default and the current timeout. */
    method SetTimeout(id: U32, timeout: U32) returns (result: bool)
      requires Valid()
      modifies this
      ensures Valid() && lastTimerId == old(lastTimerId)
      ensures result <==> IsTimeoutValid(timeout) && Find(old(timers), id) < |old(timers)|
      ensures !result ==> timers == old(timers)
      ensures result ==>
        var i := Find(old(timers), id);
        timers == old(timers)[i := old(timers)[i].(defaultTimeout := timeout, currentTimeout := timeout)]
      ensures result ==> GetTimeout(id) == timeout
    {
      result := false;
      if IsTimeoutValid(timeout) {
        var i := Find(timers, id);
        if i < |timers| {
          timers := timers[i := timers[i].(defaultTimeout := timeout, currentTimeout := timeout)];
          result := true;
          FindAfterUpdate(old(timers), id, i, timers[i]);
        }
      }
    }

    /** getTimeout: the current timeout of the first timer with that ID, 0 for an unknown ID. */
    function GetTimeout(id: U32): (r: U32)
      reads this
      ensures Find(timers, id) == |timers| ==> r == 0
      ensures Find(timers, id) < |timers| ==> r == timers[Find(timers, id)].currentTimeout
    {
      var i := Find(timers, id);
      if i < |timers| then timers[i].currentTimeout else 0
    }

    /** startTimer(id): the timer runs with the timeout it has. */
    method StartTimer(id: U32)
      requires Valid()
      modifies this
      ensures Valid() && lastTimerId == old(lastTimerId)
      ensures var i := Find(old(timers), id);
        timers == if i < |old(timers)| then old(timers)[i := old(timers)[i].(isRunning := true)] else old(timers)
    {
      var i := Find(timers, id);
      if i < |timers| {
        WellFormedUpdate(timers, i, timers[i].(isRunning := true));
        timers := timers[i := timers[i].(isRunning := true)];
      }
    }

    /** startTimer(id, timeout): only the current run's timeout changes, and it is not validated. */
    method StartTimerWithTimeout(id: U32, timeout: U32)
      requires Valid()
      modifies this
      ensures Valid() && lastTimerId == old(lastTimerId)
      ensures var i := Find(old(timers), id);
        timers == if i < |old(timers)| then old(timers)[i := old(timers)[i].(isRunning := true, currentTimeout := timeout)] else old(timers)
    {
      var i := Find(timers, id);
      if i < |timers| {
        WellFormedUpdate(timers, i, timers[i].(isRunning := true, currentTimeout := timeout));
        timers := timers[i := timers[i].(isRunning := true, currentTimeout := timeout)];
      }
    }

    /** startTimer(id, periodic): the timer runs and the periodic flag is set as given. */
    method StartTimerPeriodic(id: U32, periodic: bool)
      requires Valid()
      modifies this
      ensures Valid() && lastTimerId == old(lastTimerId)
      ensures var i := Find(old(timers), id);
        timers == if i < |old(timers)| then old(timers)[i := old(timers)[i].(isRunning := true, periodic := periodic)] else old(timers)
    {
      var i := Find(timers, id);
      if i < |timers| {
        WellFormedUpdate(timers, i, timers[i].(isRunning := true, periodic := periodic));
        timers := timers[i := timers[i].(isRunning := true, periodic := periodic)];
      }
    }

    /** stopTimer: the timer no longer runs; its timeouts and flags are kept. */
    method StopTimer(id: U32)
      requires Valid()
      modifies this
      ensures Valid() && lastTimerId == old(lastTimerId)
      ensures var i := Find(old(timers), id);
        timers == if i < |old(timers)| then old(timers)[i := old(timers)[i].(isRunning := false)] else old(timers)
    {
      var i := Find(timers, id);
      if i < |timers| {
        WellFormedUpdate(timers, i, timers[i].(isRunning := false));
        timers := timers[i := timers[i].(isRunning := false)];
      }
    }

    /**
     * One pass of the worker thread's loop. `due(i)` says that the i-th timer
     * has run for its current timeout. Every running, due timer expires and
     * its client is told, in table order; `notified` lists the IDs told.
     */
    method ExpiryPass(due: nat -> bool) returns (notified: seq<U32>)
      requires Valid()
      modifies this
      ensures Valid() && lastTimerId == old(lastTimerId)
      ensures |timers| == |old(timers)|
      ensures forall i :: 0 <= i < |timers| ==>
        timers[i] == if old(timers)[i].isRunning && due(i) then Expire(old(timers)[i]) else old(timers)[i]
      ensures notified == DueIds(old(timers), due, |old(timers)|)
    {
      notified := [];
      var i := 0;
      while i < |timers|
        invariant 0 <= i <= |timers| == |old(timers)|
        invariant Valid() && lastTimerId == old(lastTimerId)
        invariant forall j :: 0 <= j < i ==>
          timers[j] == if old(timers)[j].isRunning && due(j) then Expire(old(timers)[j]) else old(timers)[j]
        invariant forall j :: i <= j < |timers| ==> timers[j] == old(timers)[j]
        invariant notified == DueIds(old(timers), due, i)
      {
        if timers[i].isRunning && due(i) {
          WellFormedUpdate(timers, i, Expire(timers[i]));
          timers := timers[i := Expire(timers[i])];
          notified := notified + [timers[i].id];
        }
        i := i + 1;
      }
    }
  }

  /** Updating the entry Find chose, without touching its ID, keeps it the entry Find chooses. */
  lemma FindAfterUpdate(timers: seq<Timer>, id: U32, i: nat, t: Timer)
    requires i == Find(timers, id) && i < |timers| && t.id == id
    ensures Find(timers[i := t], id) == i
  {
    var u := timers[i := t];
    assert forall j :: 0 <= j < i ==> u[j].id != id;
    FindFirst(u, id, i);
  }

  lemma {:induction false} FindFirst(timers: seq<Timer>, id: U32, i: nat)
    requires i < |timers| && timers[i].id == id
    requires forall j :: 0 <= j < i ==> timers[j].id != id
    ensures Find(timers, id) == i
  {
    if i > 0 {
      FindFirst(timers[1..], id, i - 1);
    }
  }
}
