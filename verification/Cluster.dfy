// The API server as an object: requests are numbered, and what happens to each
// is fixed by a forecast nobody knows.
module Cluster {
  import opened Records
  import O = ObjectStore

  class Cluster {
    const forecast: nat -> O.Weather
    var objects: O.Objects
    var calls: nat   // requests made so far

    constructor (forecast: nat -> O.Weather)
      ensures this.forecast == forecast && objects == O.Objects(map[], map[], {}, 1) && calls == 0
    {
      this.forecast := forecast;
      objects, calls := O.Objects(map[], map[], {}, 1), 0;
    }

    method CreateSecret(name: string, s: O.Secret) returns (err: Option<O.Fault>)
      modifies this
      ensures calls == old(calls) + 1 && (objects, err) == O.CreateSecret(old(objects), name, s, forecast(old(calls)))
    {
      var (after, fault) := O.CreateSecret(objects, name, s, forecast(calls));
      objects, calls, err := after, calls + 1, fault;
    }

    method GetSecret(name: string) returns (s: Option<O.Secret>, err: Option<O.Fault>)
      modifies this`calls
      ensures calls == old(calls) + 1 && (s, err) == O.GetSecret(objects, name, forecast(old(calls)))
    {
      var (found, fault) := O.GetSecret(objects, name, forecast(calls));
      calls, s, err := calls + 1, found, fault;
    }

    method UpdateSecret(name: string, s: O.Secret) returns (err: Option<O.Fault>)
      modifies this
      ensures calls == old(calls) + 1 && (objects, err) == O.UpdateSecret(old(objects), name, s, forecast(old(calls)))
    {
      var (after, fault) := O.UpdateSecret(objects, name, s, forecast(calls));
      objects, calls, err := after, calls + 1, fault;
    }

    method CreateVm(name: string, desired: O.Vm) returns (vm: Option<O.Vm>, err: Option<O.Fault>)
      modifies this
      ensures calls == old(calls) + 1 && (objects, err) == O.CreateVm(old(objects), name, desired, forecast(old(calls)))
      ensures vm == if err.None? then Lookup(objects.vms, name) else None
    {
      var (after, fault) := O.CreateVm(objects, name, desired, forecast(calls));
      objects, calls, err := after, calls + 1, fault;
      vm := if err.None? then Lookup(objects.vms, name) else None;
    }

    method GetVm(name: string) returns (vm: Option<O.Vm>, err: Option<O.Fault>)
      modifies this`calls
      ensures calls == old(calls) + 1 && (vm, err) == O.GetVm(objects, name, forecast(old(calls)))
    {
      var (found, fault) := O.GetVm(objects, name, forecast(calls));
      calls, vm, err := calls + 1, found, fault;
    }

    method Delete(kind: O.Kind, name: string) returns (err: Option<O.Fault>)
      modifies this
      ensures calls == old(calls) + 1 && (objects, err) == O.Delete(old(objects), kind, name, forecast(old(calls)))
    {
      var (after, fault) := O.Delete(objects, kind, name, forecast(calls));
      objects, calls, err := after, calls + 1, fault;
    }
  }
}
