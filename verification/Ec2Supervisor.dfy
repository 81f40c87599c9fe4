// EC2Driver.StartWatcher: polls once per tick of the interval, whatever the
// polls return.
module Ec2Supervisor {
  import opened Records
  import opened Fleet
  import opened Reconcile
  import opened Polling
  import opened Ec2Watcher
  import opened Supervisor

  // The registries the watcher goes through and what each poll did are a
  // history for the miss counters, and its broadcasts explain all of it.
  method StartWatcher(driver: EC2Driver, ticks: seq<Option<seq<Instance>>>)
    returns (ghost r: seq<map<string, Record>>, ghost history: seq<Round>)
    requires driver.Valid()
    modifies driver.registry, driver.provider, driver.clock
    ensures driver.Valid() && Follows(old(driver.Now()), driver.Now())
    ensures |history| == |ticks| && Rounds(EC2, r, history, driver.maxAge)
    ensures forall i :: 0 <= i < |ticks| ==> Brought(ticks[i], history[i])
    ensures r[0] == old(driver.registry.records) && r[|history|] == driver.registry.records
  {
    hide RoundRel, Follows, Brought, Rounds;
    ghost var start := driver.Now();
    FollowsSelf(start);
    r, history := [driver.registry.records], [];
    NoRounds(EC2, driver.registry.records, driver.maxAge);
    for i := 0 to |ticks|
      invariant driver.Valid() && Follows(start, driver.Now())
      invariant |history| == i && Rounds(EC2, r, history, driver.maxAge)
      invariant forall j :: 0 <= j < i ==> Brought(ticks[j], history[j])
      invariant |r| == i + 1 && r[0] == start.records && r[i] == driver.registry.records
    {
      ghost var before := driver.Now();
      ghost var round;
      var ok;
      ok, round := PollOnce(Ec2(driver), ticks[i]);
      FollowsTrans(start, before, driver.Now());
      RoundsNext(EC2, r, history, driver.maxAge, driver.registry.records, round);
      r, history := r + [driver.registry.records], history + [round];
    }
  }
}
