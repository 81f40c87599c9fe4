// Whom GetSandbox, StopSandbox and DeleteSandbox act on, and what their replies
// mean, over every run of the interleaved driver.
module LifecycleCalls {
  import opened Records
  import opened Store
  import opened Fleet
  import opened Transitions
  import opened Lifecycle
  import opened LifecycleInvariant
  import opened LifecycleSafety
  import opened LifecyclePolls
  import opened LifecycleWrites

  // What a request asks for: the id or the name, whichever is given.
  predicate Asked(r: Record, id: string, name: string) {
    (id != "" ==> r.sandboxId == id) && (name != "" ==> r.name == name)
  }

  // ---- The tombstone scan ------------------------------------------------------------

  // A record the scan must not pass over.
  predicate Markable(r: Record, id: string, name: string) {
    r.instanceId == "" && Asked(r, id, name)
  }

  lemma ScanMoves(l: Ledger, h: History, id: string, name: string, e: Env, cap: nat)
    requires (id == "") != (name == "")
    ensures
      var o := MoveCall(l, h, MarkScan(id, name), e, cap);
      o.pc == MarkScan(id, name) || (o.pc.Mark? && o.pc.id == id && o.pc.name == name && Enumerates(e.order, l.store.records.Keys)
        && (forall k :: k in l.store.records && Markable(Redact(l.store.records[k]), id, name) ==> Redact(l.store.records[k]) in o.pc.todo)
        && (forall r :: r in o.pc.todo ==> Markable(r, id, name) && exists k :: k in l.store.records && r == Redact(l.store.records[k])))
  {
    SelectMembers(l.store.records, e.order, (r: Record) => !r.Bound() && (id != "" ==> r.sandboxId == id) && (name != "" ==> r.name == name));
    hide Select;
  }

  // The step at which a delete takes its snapshot.
  ghost predicate ScansAt(ws: seq<World>, acts: seq<Action>, j: nat, tid: nat, id: string, name: string)
    requires j < |acts| && |ws| == |acts| + 1
  {
    && acts[j].Go? && acts[j].tid == tid && (id == "") != (name == "")
    && tid in ws[j].threads && ws[j].threads[tid] == Calling(MarkScan(id, name))
    && tid in ws[j + 1].threads && ws[j + 1].threads[tid].Calling? && ws[j + 1].threads[tid].r.Mark?
  }

  ghost predicate TodoFrom(w: World, todo: seq<Record>, id: string, name: string) {
    forall r :: r in todo ==>
      r.sandboxId in w.ledger.store.records && w.ledger.store.records[r.sandboxId] == r && Markable(r, id, name)
  }

  // What a delete has still to try was in its snapshot and is what it asked for.
  lemma {:induction false} TodoIsAsked(
    ws: seq<World>, acts: seq<Action>, cap: nat, maxAge: int, n: nat, tid: nat) returns (j: nat)
    requires Run(ws, acts, cap, maxAge) && n < |ws| && tid in ws[n].threads
    requires ws[n].threads[tid].Calling? && ws[n].threads[tid].r.Mark?
    ensures |ws| == |acts| + 1 && j < n && j < |acts|
    ensures
      var pc := ws[n].threads[tid].r;
      ScansAt(ws, acts, j, tid, pc.id, pc.name) && TodoFrom(ws[j], pc.todo, pc.id, pc.name)
    decreases n
  {
    hide Run, Step, Enabled, WorldOk, Markable, TodoFrom;
    RunStart(ws, acts, cap, maxAge);
    if n == 0 {
      assert false;
    } else {
      RunStep(ws, acts, cap, maxAge, n);
      RunKeeps(ws, acts, cap, maxAge, n - 1);
      var w, a, pc := ws[n - 1], acts[n - 1], ws[n].threads[tid].r;
      MarkStep(w, a, cap, maxAge, tid);
      if w.threads[tid].r.Mark? {
        j := TodoIsAsked(ws, acts, cap, maxAge, n - 1, tid);
        TodoLess(ws[j], w.threads[tid].r.todo, pc.todo, pc.id, pc.name);
      } else {
        j := n - 1;
      }
    }
  }

  lemma TodoLess(w: World, todo: seq<Record>, less: seq<Record>, id: string, name: string)
    requires TodoFrom(w, todo, id, name) && forall r :: r in less ==> r in todo
    ensures TodoFrom(w, less, id, name)
  {
  }

  // How a thread comes to be at the tombstone loop.
  lemma MarkStep(w: World, a: Action, cap: nat, maxAge: int, tid: nat)
    requires WorldOk(w, cap) && Enabled(w, a)
    requires
      var w' := Step(w, a, cap, maxAge);
      tid in w'.threads && w'.threads[tid].Calling? && w'.threads[tid].r.Mark?
    ensures tid in w.threads && w.threads[tid].Calling?
    ensures
      var pc, pc' := w.threads[tid].r, Step(w, a, cap, maxAge).threads[tid].r;
      || (pc.Mark? && pc.id == pc'.id && pc.name == pc'.name && forall r :: r in pc'.todo ==> r in pc.todo)
      || (pc == MarkScan(pc'.id, pc'.name) && a.Go? && a.tid == tid && (pc'.id == "") != (pc'.name == "")
          && TodoFrom(w, pc'.todo, pc'.id, pc'.name))
  {
    hide Inv, Markable, MoveCreate, MoveListing, MoveSweep, MoveCall;
    if a.Go? && a.tid == tid {
      var pc := w.threads[tid].r;
      MarkMoves(w.ledger, w.hist, pc, a.env, cap);
      if pc.MarkScan? { ScanTakes(w, pc.id, pc.name, a.env, cap); }
    }
  }

  lemma MarkMoves(l: Ledger, h: History, pc: CallPc, e: Env, cap: nat)
    ensures
      var pc' := MoveCall(l, h, pc, e, cap).pc;
      pc'.Mark? ==>
        || (pc.Mark? && pc.id == pc'.id && pc.name == pc'.name && forall r :: r in pc'.todo ==> r in pc.todo)
        || (pc == MarkScan(pc'.id, pc'.name) && (pc'.id == "") != (pc'.name == ""))
  {
    hide Select, Apply, Update, Enumerates;
  }

  lemma ScanTakes(w: World, id: string, name: string, e: Env, cap: nat)
    requires WorldOk(w, cap)
    ensures
      var pc' := MoveCall(w.ledger, w.hist, MarkScan(id, name), e, cap).pc;
      pc'.Mark? ==> (id == "") != (name == "") && TodoFrom(w, pc'.todo, id, name)
  {
    if (id == "") != (name == "") {
      hide MoveCall;
      ScanMoves(w.ledger, w.hist, id, name, e, cap);
      forall k | k in w.ledger.store.records
        ensures w.ledger.store.records[k].sandboxId == k && Redact(w.ledger.store.records[k]) == w.ledger.store.records[k]
      {
        RecordFacts(w.ledger, w.hist, cap, k);
      }
      hide Inv, Markable, Redact;
    }
  }

  // A delete that marks anything marks one launching record, the one with the
  // id asked for or one with the name asked for; it changes nothing else, and
  // is over.
  lemma MarkIsAsked(
    ws: seq<World>, acts: seq<Action>, cap: nat, maxAge: int, n: nat, tid: nat, id: string, name: string) returns (k: string)
    requires Run(ws, acts, cap, maxAge) && n < |acts| && acts[n].Go? && acts[n].tid == tid
    requires tid in ws[n].threads && ws[n].threads[tid].Calling? && ws[n].threads[tid].r.Mark?
    requires ws[n].threads[tid].r.id == id && ws[n].threads[tid].r.name == name
    requires ws[n + 1].hist.marked != ws[n].hist.marked
    ensures (id == "") != (name == "") && k in ws[n].ledger.store.records
    ensures
      var records, r := ws[n].ledger.store.records, ws[n].ledger.store.records[k];
      && (id != "" ==> k == id) && (name != "" ==> r.name == name)
      && r.instanceId == "" && r.state == "launching"
      && ws[n + 1].ledger.store.records ==
         records[k := r.(state := "delete-requested", lastStatus := Some(Status(r.name, "", "deleting", acts[n].env.at)))]
      && ws[n + 1].hist.marked == ws[n].hist.marked + {r.lease}
    ensures tid in ws[n + 1].threads && ws[n + 1].threads[tid] == Calling(Over(Done))
  {
    var todo := ws[n].threads[tid].r.todo;
    var j := TodoIsAsked(ws, acts, cap, maxAge, n, tid);
    MarkAccepted(ws, acts, cap, maxAge, n, tid);
    k := todo[0].sandboxId;
    assert todo[0] in todo;
    StepRewrites(ws, acts, cap, maxAge, n);
    GenerationKeepsIdentity(ws, acts, cap, maxAge, j, n, k);
    RunKeeps(ws, acts, cap, maxAge, n);
    RecordFacts(ws[n].ledger, ws[n].hist, cap, k);
    hide Run, Inv;
  }

  // The first it tries is stored as it was, so the mark is accepted, or it is not.
  lemma MarkAccepted(ws: seq<World>, acts: seq<Action>, cap: nat, maxAge: int, n: nat, tid: nat)
    requires Run(ws, acts, cap, maxAge) && n < |acts| && acts[n].Go? && acts[n].tid == tid
    requires tid in ws[n].threads && ws[n].threads[tid].Calling? && ws[n].threads[tid].r.Mark?
    ensures
      var todo, records, after := ws[n].threads[tid].r.todo, ws[n].ledger.store.records, ws[n + 1];
      if todo != [] && todo[0].sandboxId in records && Meets(ws[n].threads[tid], records[todo[0].sandboxId])
      then after.threads == ws[n].threads[tid := Calling(Over(Done))] && after.hist.marked == ws[n].hist.marked + {todo[0].lease}
      else after.hist.marked == ws[n].hist.marked
  {
    RunStep(ws, acts, cap, maxAge, n + 1);
    hide Run, MoveCreate, MoveListing, MoveSweep, Apply, Update;
  }

  // ---- Nobody is passed over ------------------------------------------------------------

  // The delete tried this record, and it was no longer a launch of that
  // generation.
  ghost predicate TriedInVain(w: World, a: Action, tid: nat, r: Record) {
    && a.Go? && a.tid == tid && tid in w.threads && w.threads[tid].Calling? && w.threads[tid].r.Mark?
    && !(r.sandboxId in w.ledger.store.records
         && w.ledger.store.records[r.sandboxId].lease == r.lease
         && w.ledger.store.records[r.sandboxId].instanceId == ""
         && w.ledger.store.records[r.sandboxId].state == "launching")
  }

  ghost predicate Tried(ws: seq<World>, acts: seq<Action>, m: nat, n: nat, tid: nat, r: Record)
    requires m <= n < |ws| == |acts| + 1
  {
    exists j :: m <= j < n && TriedInVain(ws[j], acts[j], tid, r)
  }

  ghost predicate StillToTry(t: Thread, r: Record) {
    t.Calling? && t.r.Mark? && r in t.r.todo
  }

  lemma TryStep(w: World, a: Action, cap: nat, maxAge: int, tid: nat, r: Record)
    requires Enabled(w, a) && tid in w.threads && StillToTry(w.threads[tid], r)
    ensures
      var w' := Step(w, a, cap, maxAge);
      && tid in w'.threads
      && (StillToTry(w'.threads[tid], r) || w'.threads[tid] == Calling(Over(Done)) || TriedInVain(w, a, tid, r))
  {
    if a.Go? && a.tid == tid {
      var todo := w.threads[tid].r.todo;
      assert todo == [todo[0]] + todo[1..];
    }
    hide MoveCreate, MoveListing, MoveSweep, Apply, Update;
  }

  lemma OverStays(w: World, a: Action, cap: nat, maxAge: int, tid: nat, reply: Reply)
    requires Enabled(w, a) && tid in w.threads && w.threads[tid] == Calling(Over(reply))
    ensures tid in Step(w, a, cap, maxAge).threads && Step(w, a, cap, maxAge).threads[tid] == Calling(Over(reply))
  {
    hide MoveCreate, MoveListing, MoveSweep, Apply, Update;
  }

  lemma {:induction false} TriedOrNot(
    ws: seq<World>, acts: seq<Action>, cap: nat, maxAge: int, m: nat, n: nat, tid: nat, r: Record)
    requires Run(ws, acts, cap, maxAge) && m <= n < |ws| && tid in ws[m].threads && StillToTry(ws[m].threads[tid], r)
    ensures |ws| == |acts| + 1 && tid in ws[n].threads
    ensures Tried(ws, acts, m, n, tid, r) || StillToTry(ws[n].threads[tid], r) || ws[n].threads[tid] == Calling(Over(Done))
    decreases n
  {
    hide Run, Step, Enabled, StillToTry, TriedInVain;
    RunStart(ws, acts, cap, maxAge);
    if m < n {
      TriedOrNot(ws, acts, cap, maxAge, m, n - 1, tid, r);
      RunStep(ws, acts, cap, maxAge, n);
      if StillToTry(ws[n - 1].threads[tid], r) {
        TryStep(ws[n - 1], acts[n - 1], cap, maxAge, tid, r);
      } else if ws[n - 1].threads[tid] == Calling(Over(Done)) {
        OverStays(ws[n - 1], acts[n - 1], cap, maxAge, tid, Done);
      }
      ThreadStays(ws[n - 1], acts[n - 1], cap, maxAge, tid);
    }
  }

  lemma ThreadStays(w: World, a: Action, cap: nat, maxAge: int, tid: nat)
    requires tid in w.threads
    ensures tid in Step(w, a, cap, maxAge).threads
  {
    hide Move;
  }

  predicate Deleting(t: Thread, id: string, name: string) {
    t.Calling? && (t.r == Find(Delete, id, name) || (t.r.Mark? && t.r.id == id && t.r.name == name))
  }

  lemma DeletingStep(w: World, a: Action, cap: nat, maxAge: int, tid: nat, id: string, name: string)
    requires Enabled(w, a) && (id == "") != (name == "")
    requires tid in Step(w, a, cap, maxAge).threads && Deleting(Step(w, a, cap, maxAge).threads[tid], id, name)
    ensures tid in w.threads
    ensures Deleting(w.threads[tid], id, name)
            || (a.Go? && a.tid == tid && w.threads[tid] == Calling(MarkScan(id, name))
                && Step(w, a, cap, maxAge).threads[tid].r.Mark?)
  {
    hide MoveCreate, MoveListing, MoveSweep, Apply, Update, Select, Enumerates;
  }

  // Every delete by id or name takes its snapshot before it resolves.
  lemma {:induction false} ScansFirst(
    ws: seq<World>, acts: seq<Action>, cap: nat, maxAge: int, n: nat, tid: nat, id: string, name: string) returns (m: nat)
    requires Run(ws, acts, cap, maxAge) && n < |ws| && (id == "") != (name == "")
    requires tid in ws[n].threads && Deleting(ws[n].threads[tid], id, name)
    ensures m < n && |ws| == |acts| + 1 && ScansAt(ws, acts, m, tid, id, name)
    decreases n
  {
    hide Run, Step, Enabled;
    RunStart(ws, acts, cap, maxAge);
    if n == 0 {
      assert false;
    } else {
      RunStep(ws, acts, cap, maxAge, n);
      DeletingStep(ws[n - 1], acts[n - 1], cap, maxAge, tid, id, name);
      if Deleting(ws[n - 1].threads[tid], id, name) {
        m := ScansFirst(ws, acts, cap, maxAge, n - 1, tid, id, name);
      } else {
        m := n - 1;
      }
    }
  }

  // A delete that goes on to resolve has taken a snapshot and tried every unbound
  // record in it with the id or name asked for, each in vain: it was gone, or
  // bound, or no longer launching.
  lemma NobodyIsPassedOver(
    ws: seq<World>, acts: seq<Action>, cap: nat, maxAge: int, n: nat, tid: nat, id: string, name: string) returns (m: nat)
    requires Run(ws, acts, cap, maxAge) && n < |ws| && (id == "") != (name == "")
    requires tid in ws[n].threads && ws[n].threads[tid] == Calling(Find(Delete, id, name))
    ensures m < n && |ws| == |acts| + 1 && ScansAt(ws, acts, m, tid, id, name)
    ensures forall k :: k in ws[m].ledger.store.records && Markable(ws[m].ledger.store.records[k], id, name) ==>
              Tried(ws, acts, m + 1, n, tid, ws[m].ledger.store.records[k])
  {
    m := ScansFirst(ws, acts, cap, maxAge, n, tid, id, name);
    hide Tried, Markable;
    forall k | k in ws[m].ledger.store.records && Markable(ws[m].ledger.store.records[k], id, name)
      ensures Tried(ws, acts, m + 1, n, tid, ws[m].ledger.store.records[k])
    {
      SnapshotTried(ws, acts, cap, maxAge, m, n, tid, id, name, k);
    }
    hide Run;
  }

  lemma SnapshotTried(
    ws: seq<World>, acts: seq<Action>, cap: nat, maxAge: int, m: nat, n: nat, tid: nat, id: string, name: string, k: string)
    requires Run(ws, acts, cap, maxAge) && m < n < |ws| && |ws| == |acts| + 1 && ScansAt(ws, acts, m, tid, id, name)
    requires k in ws[m].ledger.store.records && Markable(ws[m].ledger.store.records[k], id, name)
    requires tid in ws[n].threads && ws[n].threads[tid].Calling? && ws[n].threads[tid].r.Find?
    ensures Tried(ws, acts, m + 1, n, tid, ws[m].ledger.store.records[k])
  {
    RunStep(ws, acts, cap, maxAge, m + 1);
    RunKeeps(ws, acts, cap, maxAge, m);
    RecordFacts(ws[m].ledger, ws[m].hist, cap, k);
    hide Run, Inv, MoveCall, Markable;
    ScanMoves(ws[m].ledger, ws[m].hist, id, name, acts[m].env, cap);
    TriedOrNot(ws, acts, cap, maxAge, m + 1, n, tid, ws[m].ledger.store.records[k]);
  }

  // ---- Resolution in the registry -----------------------------------------------------------

  // What a resolved request goes on with.
  function Resolves(intent: Intent, rec: Record): Thread {
    if intent == Get then Calling(Over(Found(rec))) else Calling(Act(intent, rec))
  }

  // A request by id resolves to the record of that id if it is bound, and asks
  // the provider otherwise.
  lemma FindById(ws: seq<World>, acts: seq<Action>, cap: nat, maxAge: int, n: nat, tid: nat, intent: Intent, id: string)
    requires Run(ws, acts, cap, maxAge) && n < |acts| && acts[n].Go? && acts[n].tid == tid && id != ""
    requires tid in ws[n].threads && ws[n].threads[tid] == Calling(Find(intent, id, ""))
    ensures tid in ws[n + 1].threads && ws[n + 1].ledger == ws[n].ledger
    ensures
      var records := ws[n].ledger.store.records;
      ws[n + 1].threads[tid] ==
        if id in records && records[id].instanceId != "" then Resolves(intent, records[id]) else Calling(List(intent, id, ""))
  {
    RunStep(ws, acts, cap, maxAge, n + 1);
    RunKeeps(ws, acts, cap, maxAge, n);
    hide Run;
    if id in ws[n].ledger.store.records { RecordFacts(ws[n].ledger, ws[n].hist, cap, id); }
    hide Inv, MoveCreate, MoveListing, MoveSweep, Select;
  }

  predicate NamedBound(r: Record, name: string) {
    r.name == name && r.instanceId != ""
  }

  // Every key once: the order has no duplicates.
  lemma {:induction false} NoDuplicates(order: seq<string>, keys: set<string>)
    requires |order| <= |keys| && forall k :: k in keys ==> k in order
    ensures forall i, j :: 0 <= i < j < |order| ==> order[i] != order[j]
    decreases |order|
  {
    if order != [] {
      var rest, others := order[1..], keys - {order[0]};
      assert order == [order[0]] + rest;
      assert keys <= others + {order[0]} && (order[0] in keys ==> keys == others + {order[0]});
      if order[0] in rest || order[0] !in keys {
        TooFew(rest, keys);
        assert false;
      }
      NoDuplicates(rest, others);
      forall j | 0 < j < |order| ensures order[0] != order[j] { assert order[j] == rest[j - 1]; }
      forall i, j | 0 < i < j < |order| ensures order[i] != order[j] { assert order[i] == rest[i - 1] && order[j] == rest[j - 1]; }
    }
  }

  lemma {:induction false} TooFew(s: seq<string>, keys: set<string>)
    requires forall k :: k in keys ==> k in s
    ensures |keys| <= |s|
    decreases |s|
  {
    if s == [] {
      assert keys == {};
    } else {
      assert s == [s[0]] + s[1..];
      TooFew(s[1..], keys - {s[0]});
      assert |keys| <= |keys - {s[0]}| + 1;
    }
  }

  ghost predicate Once(out: seq<Record>) {
    forall i, j :: 0 <= i < j < |out| ==> out[i].sandboxId != out[j].sandboxId
  }

  lemma FirstNotInRest(order: seq<string>)
    requires order != [] && forall i, j :: 0 <= i < j < |order| ==> order[i] != order[j]
    ensures order[0] !in order[1..]
    ensures forall i, j :: 0 <= i < j < |order| - 1 ==> order[1..][i] != order[1..][j]
  {
  }

  lemma FirstOnce(r: Record, others: seq<Record>)
    requires Once(others) && forall x :: x in others ==> x.sandboxId != r.sandboxId
    ensures Once([r] + others)
  {
  }

  lemma SelectFrom(records: map<string, Record>, order: seq<string>, keep: Record -> bool, r: Record)
    requires r in Select(records, order, keep) && forall k :: k in records ==> records[k].sandboxId == k
    ensures r.sandboxId in order
  {
    SelectMembers(records, order, keep);
    var k :| k in records && k in order && r == Redact(records[k]);
  }

  // A snapshot in an order of all keys holds each selected record once.
  lemma {:induction false} SelectOnce(records: map<string, Record>, order: seq<string>, keep: Record -> bool)
    requires forall i, j :: 0 <= i < j < |order| ==> order[i] != order[j]
    requires forall k :: k in records ==> records[k].sandboxId == k
    ensures Once(Select(records, order, keep))
    decreases |order|
  {
    if order != [] {
      var first, rest := order[0], order[1..];
      var out, others := Select(records, order, keep), Select(records, rest, keep);
      assert out == others || (first in records && out == [Redact(records[first])] + others);
      FirstNotInRest(order);
      SelectOnce(records, rest, keep);
      hide Select, Once;
      forall r | r in others ensures r.sandboxId != first { SelectFrom(records, rest, keep, r); }
      if out != others { FirstOnce(Redact(records[first]), others); }
    }
  }

  ghost predicate OnlyOne(records: map<string, Record>, name: string, k: string) {
    k in records && NamedBound(records[k], name)
    && forall j :: j in records && NamedBound(records[j], name) ==> j == k
  }

  ghost predicate Several(records: map<string, Record>, name: string) {
    exists j, k :: j in records && k in records && j != k && NamedBound(records[j], name) && NamedBound(records[k], name)
  }

  ghost predicate KeyedRecords(records: map<string, Record>) {
    forall k :: k in records ==> records[k].sandboxId == k && Redact(records[k]) == records[k]
  }

  // These are the bound records of that name, each once.
  ghost predicate AllNamed(found: seq<Record>, records: map<string, Record>, name: string) {
    && (forall r :: r in found ==> r.sandboxId in records && records[r.sandboxId] == r && NamedBound(r, name))
    && (forall k :: k in records && NamedBound(records[k], name) ==> records[k] in found)
    && Once(found)
  }

  lemma SelectedByName(records: map<string, Record>, order: seq<string>, name: string)
    requires KeyedRecords(records) && Enumerates(order, records.Keys)
    ensures AllNamed(Select(records, order, (r: Record) => r.name == name && r.Bound()), records, name)
  {
    var keep := (r: Record) => r.name == name && r.Bound();
    SelectMembers(records, order, keep);
    NoDuplicates(order, records.Keys);
    SelectOnce(records, order, keep);
    hide Select;
    forall k | k in records && NamedBound(records[k], name) ensures records[k] in Select(records, order, keep) {
      assert keep(Redact(records[k]));
    }
  }

  lemma NamedCount(found: seq<Record>, records: map<string, Record>, name: string)
    requires AllNamed(found, records, name) && KeyedRecords(records)
    ensures found == [] <==> forall k :: k in records ==> !NamedBound(records[k], name)
    ensures |found| > 1 <==> Several(records, name)
    ensures |found| == 1 ==> found[0].sandboxId in records && records[found[0].sandboxId] == found[0]
    ensures |found| == 1 ==> OnlyOne(records, name, found[0].sandboxId)
  {
    hide NamedBound, Redact;
    if found != [] { assert found[0] in found; }
    if |found| > 1 {
      assert found[1] in found && found[0].sandboxId != found[1].sandboxId;
    }
    if Several(records, name) {
      var j, k :| j in records && k in records && j != k && NamedBound(records[j], name) && NamedBound(records[k], name);
      assert records[j] in found && records[k] in found && records[j] != records[k];
    }
  }

  // A request by name resolves to the only bound record of that name, fails if
  // there are several, and asks the provider if there is none.
  lemma FindByName(ws: seq<World>, acts: seq<Action>, cap: nat, maxAge: int, n: nat, tid: nat, intent: Intent, name: string)
    requires Run(ws, acts, cap, maxAge) && n < |acts| && acts[n].Go? && acts[n].tid == tid && name != ""
    requires tid in ws[n].threads && ws[n].threads[tid] == Calling(Find(intent, "", name))
    requires Enumerates(acts[n].env.order, ws[n].ledger.store.records.Keys)
    ensures tid in ws[n + 1].threads && ws[n + 1].ledger == ws[n].ledger
    ensures
      var records, after := ws[n].ledger.store.records, ws[n + 1].threads[tid];
      && (forall k :: OnlyOne(records, name, k) ==> after == Resolves(intent, records[k]))
      && (Several(records, name) ==> after == Calling(Over(Erred)))
      && ((forall k :: k in records ==> !NamedBound(records[k], name)) ==> after == Calling(List(intent, "", name)))
  {
    RunStep(ws, acts, cap, maxAge, n + 1);
    RunKeeps(ws, acts, cap, maxAge, n);
    hide Run;
    var l, h, e := ws[n].ledger, ws[n].hist, acts[n].env;
    forall k | k in l.store.records
      ensures l.store.records[k].sandboxId == k && Redact(l.store.records[k]) == l.store.records[k]
    {
      RecordFacts(l, h, cap, k);
    }
    hide Inv, MoveCreate, MoveListing, MoveSweep, MoveCall, Select, Enumerates, NamedBound;
    FindMoves(l, h, intent, name, e, cap);
    SelectedByName(l.store.records, e.order, name);
    hide AllNamed;
    NamedCount(Select(l.store.records, e.order, (r: Record) => r.name == name && r.Bound()), l.store.records, name);
  }

  lemma FindMoves(l: Ledger, h: History, intent: Intent, name: string, e: Env, cap: nat)
    requires name != "" && Enumerates(e.order, l.store.records.Keys)
    ensures
      var found := Select(l.store.records, e.order, (r: Record) => r.name == name && r.Bound());
      var o := MoveCall(l, h, Find(intent, "", name), e, cap);
      && o.ledger == l && o.hist == h
      && o.pc == if |found| == 1 then Resolved(intent, found[0]) else if |found| > 1 then Over(Erred) else List(intent, "", name)
  {
    hide Select;
  }

  // ---- Resolution at the provider ---------------------------------------------------------------

  // The provider's answer, in which every VM has the name asked for, resolves a
  // request exactly if it holds one live instance. None is not found, several
  // are an error.
  lemma ListResolves(
    ws: seq<World>, acts: seq<Action>, cap: nat, maxAge: int, n: nat, tid: nat, intent: Intent, id: string, name: string)
    requires Run(ws, acts, cap, maxAge) && n < |acts| && acts[n].Go? && acts[n].tid == tid
    requires tid in ws[n].threads && ws[n].threads[tid] == Calling(List(intent, id, name))
    requires forall x :: x in acts[n].env.listing ==> x.id != "" && x.sandboxId != "" && (name != "" ==> x.name == name)
    ensures tid in ws[n + 1].threads && ws[n + 1].ledger == ws[n].ledger
    ensures
      var live, after := Live(acts[n].env.listing), ws[n + 1].threads[tid];
      if !acts[n].env.ok || |live| > 1 then after == Calling(Over(Erred))
      else if live == [] then after == Calling(Over(NotFound))
      else
        var x := live[0];
        && x in acts[n].env.listing && x.state != "Deleted"
        && after == Calling(Insert(intent, Record(
             x.sandboxId, x.name, x.namespace, x.workspace, x.id, x.state, x.createdAt, 0, None,
             Some(Status(x.name, x.id, x.state, acts[n].env.at)), 0)))
    ensures forall x :: x in Live(acts[n].env.listing) <==> x in acts[n].env.listing && x.state != "Deleted"
  {
    RunStep(ws, acts, cap, maxAge, n + 1);
    FirstLive(acts[n].env.listing);
    LiveMembers(acts[n].env.listing);
    hide Run, MoveCreate, MoveListing, MoveSweep, Live;
  }

  // What the provider resolved is added, or adopted by a launch that is still
  // under way, or gives way to the bound record there is by then; a sandbox that
  // is none of these is an error.
  lemma ResolveGoesOn(ws: seq<World>, acts: seq<Action>, cap: nat, maxAge: int, n: nat, tid: nat)
    requires Run(ws, acts, cap, maxAge) && n < |acts| && acts[n].Go? && acts[n].tid == tid
    requires tid in ws[n].threads && ws[n].threads[tid].Calling?
    ensures tid in ws[n + 1].threads
    ensures
      var records, after := ws[n].ledger.store.records, ws[n + 1].threads[tid];
      match ws[n].threads[tid].r
      case Insert(intent, rec) =>
        after == if rec.sandboxId in records then Calling(Adopt(intent, rec)) else Resolves(intent, rec)
      case Adopt(intent, rec) =>
        if rec.sandboxId in records && records[rec.sandboxId].instanceId == "" && records[rec.sandboxId].state == "launching"
        then rec.sandboxId in ws[n + 1].ledger.store.records
             && after == Resolves(intent, ws[n + 1].ledger.store.records[rec.sandboxId])
        else after == Calling(FindAgain(intent, rec))
      case FindAgain(intent, rec) =>
        after == if rec.sandboxId in records && records[rec.sandboxId].instanceId != ""
                 then Resolves(intent, records[rec.sandboxId]) else Calling(Over(Erred))
      case Act(intent, rec) =>
        && after == (if acts[n].env.ok then Calling(Note(intent, rec)) else Calling(Over(Erred)))
        && ws[n + 1].hist.attempted == ws[n].hist.attempted + (if intent == Delete then {Deletion(rec.instanceId)} else {})
      case Note(_, _) => after == Calling(Over(Done))
      case _ => true
  {
    RunStep(ws, acts, cap, maxAge, n + 1);
    RunKeeps(ws, acts, cap, maxAge, n);
    hide Run;
    var pc, l := ws[n].threads[tid].r, ws[n].ledger;
    forall k | k in l.store.records ensures Redact(l.store.records[k]) == l.store.records[k] {
      RecordFacts(l, ws[n].hist, cap, k);
    }
    hide Inv, MoveCreate, MoveListing, MoveSweep, MoveCall, Redact;
    CallGoesOn(l, ws[n].hist, pc, acts[n].env, cap);
  }

  lemma CallGoesOn(l: Ledger, h: History, pc: CallPc, e: Env, cap: nat)
    requires forall k :: k in l.store.records ==> Redact(l.store.records[k]) == l.store.records[k]
    ensures
      var records, o := l.store.records, MoveCall(l, h, pc, e, cap);
      match pc
      case Insert(intent, rec) =>
        Calling(o.pc) == if rec.sandboxId in records then Calling(Adopt(intent, rec)) else Resolves(intent, rec)
      case Adopt(intent, rec) =>
        if rec.sandboxId in records && records[rec.sandboxId].instanceId == "" && records[rec.sandboxId].state == "launching"
        then rec.sandboxId in o.ledger.store.records && Calling(o.pc) == Resolves(intent, o.ledger.store.records[rec.sandboxId])
        else o.pc == FindAgain(intent, rec)
      case FindAgain(intent, rec) =>
        Calling(o.pc) == if rec.sandboxId in records && records[rec.sandboxId].instanceId != ""
                         then Resolves(intent, records[rec.sandboxId]) else Calling(Over(Erred))
      case Act(intent, rec) =>
        && o.pc == (if e.ok then Note(intent, rec) else Over(Erred))
        && o.hist.attempted == h.attempted + (if intent == Delete then {Deletion(rec.instanceId)} else {})
      case Note(_, _) => o.pc == Over(Done)
      case _ => true
  {
    hide Select, Enumerates, Live;
  }

  // ---- Replies -------------------------------------------------------------------------------------

  // The step behind a success: a launch was marked, or the provider did to the
  // resolved instance what was asked; a delete has called Terminate on it.
  ghost predicate EarnsAt(w: World, a: Action, w': World, tid: nat) {
    && a.Go? && a.tid == tid && tid in w.threads && w.threads[tid].Calling?
    && match w.threads[tid].r
       case Mark(_, _, todo) => todo != [] && w'.hist.marked == w.hist.marked + {todo[0].lease}
       case Act(intent, rec) => a.env.ok && intent != Get && (intent == Delete ==> Deletion(rec.instanceId) in w'.hist.attempted)
       case _ => false
  }

  ghost predicate Earned(ws: seq<World>, acts: seq<Action>, n: nat, tid: nat)
    requires n < |ws| == |acts| + 1
  {
    exists j :: 0 <= j < n && EarnsAt(ws[j], acts[j], ws[j + 1], tid)
  }

  predicate Succeeding(t: Thread) {
    t.Calling? && (t.r == Over(Done) || t.r.Note?)
  }

  lemma SucceedStep(w: World, a: Action, cap: nat, maxAge: int, tid: nat)
    requires WorldOk(w, cap) && Enabled(w, a)
    requires tid in Step(w, a, cap, maxAge).threads && Succeeding(Step(w, a, cap, maxAge).threads[tid])
    ensures tid in w.threads
    ensures Succeeding(w.threads[tid]) || EarnsAt(w, a, Step(w, a, cap, maxAge), tid)
  {
    hide Inv, MoveCreate, MoveListing, MoveSweep, MoveCall, CallOk;
    if tid in w.threads && w.threads[tid].Calling? && a.Go? && a.tid == tid {
      assert ThreadOk(w.ledger, w.hist, w.threads[tid]);
      SucceedMoves(w.ledger, w.hist, w.threads[tid].r, a.env, cap);
    }
  }

  lemma SucceedMoves(l: Ledger, h: History, pc: CallPc, e: Env, cap: nat)
    requires CallOk(l, h, pc)
    ensures
      var o := MoveCall(l, h, pc, e, cap);
      o.pc == Over(Done) || o.pc.Note? ==>
        match pc
        case Mark(_, _, todo) => todo != [] && o.hist.marked == h.marked + {todo[0].lease}
        case Act(intent, rec) => e.ok && intent != Get && (intent == Delete ==> Deletion(rec.instanceId) in o.hist.attempted)
        case Note(_, _) => true
        case Over(reply) => reply == Done
        case _ => false
  {
    hide Apply, Update, Select, Enumerates, Live;
  }

  // A stop or delete that returned OK, a delete that returned that it deleted,
  // marked a launch or had the provider act on what it resolved.
  lemma {:induction false} SuccessIsEarned(ws: seq<World>, acts: seq<Action>, cap: nat, maxAge: int, n: nat, tid: nat)
    requires Run(ws, acts, cap, maxAge) && n < |ws| && tid in ws[n].threads && Succeeding(ws[n].threads[tid])
    ensures |ws| == |acts| + 1 && Earned(ws, acts, n, tid)
    decreases n
  {
    hide Run, Step, Enabled, WorldOk, EarnsAt;
    RunStart(ws, acts, cap, maxAge);
    if n == 0 {
      assert false;
    } else {
      RunStep(ws, acts, cap, maxAge, n);
      RunKeeps(ws, acts, cap, maxAge, n - 1);
      SucceedStep(ws[n - 1], acts[n - 1], cap, maxAge, tid);
      if Succeeding(ws[n - 1].threads[tid]) { SuccessIsEarned(ws, acts, cap, maxAge, n - 1, tid); }
    }
  }
}
