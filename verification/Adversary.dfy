// The provider and the clock: objects whose answers nothing constrains.
module Adversary {
  import opened Records

  // One Terminate request for several instances, as the log shows it.
  function Logged(ids: seq<string>, ok: bool): seq<(string, bool)> {
    seq(|ids|, i requires 0 <= i < |ids| => (ids[i], ok))
  }

  class Provider {
    ghost var calls: seq<(string, bool)>   // Terminate calls and whether they returned nil

    constructor ()
      ensures calls == []
    {
      calls := [];
    }

    method Terminate(id: string) returns (ok: bool)
      modifies this
      ensures calls == old(calls) + [(id, ok)]
    {
      ok := *;
      calls := calls + [(id, ok)];
    }

    // One request for all of them; none is made for an empty list.
    method TerminateAll(ids: seq<string>) returns (ok: bool)
      modifies this
      ensures calls == old(calls) + Logged(ids, ok)
      ensures ids == [] ==> ok
    {
      if ids == [] { return true; }
      ok := *;
      calls := calls + Logged(ids, ok);
    }
  }

  class Clock {
    var last: Time

    constructor (now: Time)
      ensures last == now
    {
      last := now;
    }

    // The clock does not go backwards.
    method Now() returns (now: Time)
      modifies this
      ensures old(last) <= now && last == now
    {
      now :| last <= now;
      last := now;
    }
  }
}
