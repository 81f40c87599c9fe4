// What a poll of the interleaved driver bases its writes on, over every run:
// the listing it fetched, the instance it chose, the others it ended, and the
// absences and ages it acts on.
module LifecyclePolls {
  import opened Records
  import opened Store
  import opened Fleet
  import opened Transitions
  import opened Reconcile
  import opened Lifecycle
  import opened LifecycleInvariant

  // ---- What a poll holds -----------------------------------------------------------

  // This poll's listing is one the provider returned to it.
  ghost predicate Fetched(ws: seq<World>, acts: seq<Action>, n: nat, tid: nat, listing: seq<Instance>)
    requires n < |ws| == |acts| + 1
  {
    exists j :: 0 <= j < n && FetchesAt(ws[j], acts[j], tid, listing)
  }

  ghost predicate FetchesAt(w: World, a: Action, tid: nat, listing: seq<Instance>) {
    && a.Go? && a.tid == tid && tid in w.threads && w.threads[tid] == Listing(Fetch)
    && a.env.ok && a.env.listing == listing
  }

  // This poll's Terminate of an instance returned nil.
  ghost predicate Ended(ws: seq<World>, acts: seq<Action>, n: nat, tid: nat, instanceId: string)
    requires n < |ws| == |acts| + 1
  {
    exists j :: 0 <= j < n && EndsAt(ws[j], acts[j], tid, instanceId)
  }

  ghost predicate EndsAt(w: World, a: Action, tid: nat, instanceId: string) {
    && a.Go? && a.tid == tid && tid in w.threads && w.threads[tid].Listing? && a.env.ok
    && match w.threads[tid].p
       case Duplicates(_, _, names) => names != [] && names[0] == instanceId
       case _ => false
  }

  predicate LiveOf(x: Instance, id: string) {
    x.sandboxId == id && x.state != "Deleted"
  }

  // A sandbox is seen if it has a live instance, and only then; some are still
  // to be visited.
  ghost predicate Visited(g: Groups, todo: seq<string>) {
    && (forall x :: x in g.listing && x.sandboxId != "" && x.state != "Deleted" ==> x.sandboxId in g.seen || x.sandboxId in todo)
    && (forall id :: id in g.seen ==> exists x :: x in g.listing && LiveOf(x, id))
  }

  ghost predicate OthersEnded(
    ws: seq<World>, acts: seq<Action>, n: nat, tid: nat, g: Groups, keeper: Instance, names: seq<string>)
    requires n < |ws| == |acts| + 1
  {
    forall x :: x in g.listing && LiveOf(x, keeper.sandboxId) && x != keeper ==>
      x.id in names || Ended(ws, acts, n, tid, x.id)
  }

  // No live instance of the sandbox was listed.
  ghost predicate Absent(g: Groups, id: string) {
    forall x :: x in g.listing ==> !LiveOf(x, id)
  }

  ghost predicate AbsentAll(g: Groups, todo: seq<Record>) {
    forall r :: r in todo ==> r.sandboxId != "" ==> Absent(g, r.sandboxId)
  }

  // Known to be older than allowed, by default eight hours, bound, and not on
  // its way out.
  ghost predicate Overdue(r: Record, now: Time, maxAge: int) {
    && r.createdAt != 0 && now - r.createdAt > (if maxAge > 0 then maxAge else 28_800_000_000_000)
    && r.instanceId != "" && r.state != "terminated" && r.state != "deleting"
  }

  ghost predicate OverdueAll(todo: seq<Record>, now: Time, maxAge: int) {
    forall r :: r in todo ==> Overdue(r, now, maxAge)
  }

  ghost predicate Holding(ws: seq<World>, acts: seq<Action>, n: nat, tid: nat, g: Groups, keeper: Instance, names: seq<string>)
    requires n < |ws| == |acts| + 1
  {
    && Fetched(ws, acts, n, tid, g.listing) && Visited(g, g.todo)
    && Chosen(keeper, g.listing, keeper.sandboxId) && OthersEnded(ws, acts, n, tid, g, keeper, names)
  }

  ghost predicate Sweeps(ws: seq<World>, acts: seq<Action>, n: nat, tid: nat, g: Groups)
    requires n < |ws| == |acts| + 1
  {
    Fetched(ws, acts, n, tid, g.listing) && Visited(g, [])
  }

  ghost predicate PollOk(ws: seq<World>, acts: seq<Action>, n: nat, tid: nat, t: Thread, maxAge: int)
    requires n < |ws| == |acts| + 1
  {
    match t
    case Listing(NextGroup(g)) => Fetched(ws, acts, n, tid, g.listing) && Visited(g, g.todo)
    case Listing(Duplicates(g, keeper, names)) => Holding(ws, acts, n, tid, g, keeper, names)
    case Listing(Terminal(g, keeper)) => Holding(ws, acts, n, tid, g, keeper, [])
    case Listing(Read(g, keeper)) => Holding(ws, acts, n, tid, g, keeper, [])
    case Listing(Recover(g, keeper)) => Holding(ws, acts, n, tid, g, keeper, [])
    case Listing(Write(g, keeper, _)) => Holding(ws, acts, n, tid, g, keeper, [])
    case Listing(Listed(g)) => Sweeps(ws, acts, n, tid, g)
    case Sweeping(Scan(g)) => Sweeps(ws, acts, n, tid, g)
    case Sweeping(Miss(g, todo)) => Sweeps(ws, acts, n, tid, g) && AbsentAll(g, todo)
    case Sweeping(Confirm(g, todo, missed)) =>
      Sweeps(ws, acts, n, tid, g) && AbsentAll(g, todo) && (missed.sandboxId != "" ==> Absent(g, missed.sandboxId))
    case Sweeping(Remove(g, todo, missed)) =>
      Sweeps(ws, acts, n, tid, g) && AbsentAll(g, todo) && (missed.sandboxId != "" ==> Absent(g, missed.sandboxId))
    case Sweeping(Expire(now, todo)) => OverdueAll(todo, now, maxAge)
    case Sweeping(NoteExpired(now, todo, rec)) => OverdueAll(todo, now, maxAge) && Overdue(rec, now, maxAge)
    case _ => true
  }

  // ---- Every poll of every run -----------------------------------------------------

  lemma KeptLonger(ws: seq<World>, acts: seq<Action>, m: nat, n: nat, tid: nat, listing: seq<Instance>, instanceId: string)
    requires m <= n < |ws| == |acts| + 1
    ensures Fetched(ws, acts, m, tid, listing) ==> Fetched(ws, acts, n, tid, listing)
    ensures Ended(ws, acts, m, tid, instanceId) ==> Ended(ws, acts, n, tid, instanceId)
  {
    hide FetchesAt, EndsAt;
  }

  lemma HoldingLonger(
    ws: seq<World>, acts: seq<Action>, n: nat, tid: nat, g: Groups, keeper: Instance, names: seq<string>)
    requires n + 1 < |ws| == |acts| + 1 && Holding(ws, acts, n, tid, g, keeper, names)
    ensures Holding(ws, acts, n + 1, tid, g, keeper, names)
  {
    hide Fetched, Ended, Chosen, Visited;
    KeptLonger(ws, acts, n, n + 1, tid, g.listing, "");
    forall x | x in g.listing && LiveOf(x, keeper.sandboxId) && x != keeper && Ended(ws, acts, n, tid, x.id)
      ensures Ended(ws, acts, n + 1, tid, x.id)
    {
      KeptLonger(ws, acts, n, n + 1, tid, g.listing, x.id);
    }
  }

  lemma SweepsLonger(ws: seq<World>, acts: seq<Action>, n: nat, tid: nat, g: Groups)
    requires n + 1 < |ws| == |acts| + 1 && Sweeps(ws, acts, n, tid, g)
    ensures Sweeps(ws, acts, n + 1, tid, g)
  {
    hide Fetched, Visited;
    KeptLonger(ws, acts, n, n + 1, tid, g.listing, "");
  }

  // What other threads do leaves a poll's grounds alone.
  lemma PollStays(ws: seq<World>, acts: seq<Action>, n: nat, tid: nat, t: Thread, maxAge: int)
    requires n + 1 < |ws| == |acts| + 1 && PollOk(ws, acts, n, tid, t, maxAge)
    ensures PollOk(ws, acts, n + 1, tid, t, maxAge)
  {
    hide Holding, Sweeps, Visited, Fetched, AbsentAll, OverdueAll, Overdue, Absent;
    match t
    case Listing(NextGroup(g)) => KeptLonger(ws, acts, n, n + 1, tid, g.listing, "");
    case Listing(Duplicates(g, keeper, names)) => HoldingLonger(ws, acts, n, tid, g, keeper, names);
    case Listing(Terminal(g, keeper)) => HoldingLonger(ws, acts, n, tid, g, keeper, []);
    case Listing(Read(g, keeper)) => HoldingLonger(ws, acts, n, tid, g, keeper, []);
    case Listing(Recover(g, keeper)) => HoldingLonger(ws, acts, n, tid, g, keeper, []);
    case Listing(Write(g, keeper, _)) => HoldingLonger(ws, acts, n, tid, g, keeper, []);
    case Listing(Listed(g)) => SweepsLonger(ws, acts, n, tid, g);
    case Sweeping(Scan(g)) => SweepsLonger(ws, acts, n, tid, g);
    case Sweeping(Miss(g, _)) => SweepsLonger(ws, acts, n, tid, g);
    case Sweeping(Confirm(g, _, _)) => SweepsLonger(ws, acts, n, tid, g);
    case Sweeping(Remove(g, _, _)) => SweepsLonger(ws, acts, n, tid, g);
    case _ =>
  }

  lemma {:induction false} InOrderIsByAge(s: seq<Instance>, i: nat, j: nat)
    requires InOrder(s) && i < j < |s|
    ensures OlderEq(s[i], s[j])
    decreases j
  {
    hide OlderEq;
    assert OlderEq(s[j - 1], s[j]);
    if i < j - 1 {
      InOrderIsByAge(s, i, j - 1);
      OlderTransitive(s[i], s[j - 1], s[j]);
    }
  }

  lemma IdsHold(s: seq<Instance>, x: Instance)
    requires x in s
    ensures x.id in Ids(s)
  {
  }

  lemma GroupLive(g: Groups, id: string, sorted: seq<Instance>)
    requires multiset(sorted) == multiset(Group(g.listing, id))
    ensures forall x :: x in Live(sorted) <==> x in g.listing && LiveOf(x, id)
  {
    SameMembers(sorted, Group(g.listing, id));
    GroupMembers(g.listing, id);
    LiveMembers(sorted);
    hide Group, Live;
  }

  lemma GroupSorted(group: seq<Instance>, sorted: seq<Instance>)
    requires multiset(sorted) == multiset(group) && InOrder(sorted)
    ensures SortedFrom(sorted, group)
  {
    forall i, j | 0 <= i < j < |sorted| ensures OlderEq(sorted[i], sorted[j]) { InOrderIsByAge(sorted, i, j); }
    hide OlderEq;
  }

  // The sort of a group, its live instances and its keeper.
  lemma GroupChosen(g: Groups, id: string, sorted: seq<Instance>)
    requires multiset(sorted) == multiset(Group(g.listing, id)) && InOrder(sorted)
    ensures Live(sorted) == [] ==> Absent(g, id)
    ensures Live(sorted) != [] ==>
              var live := Live(sorted);
              var k := KeeperIndex(live);
              && Chosen(live[k], g.listing, id) && live[k] in g.listing && LiveOf(live[k], id)
              && forall x :: x in g.listing && LiveOf(x, id) && x != live[k] ==> x.id in Ids(live[..k] + live[k + 1..])
  {
    hide Group, Live, Chosen, KeeperIndex, InOrder, SortedFrom, IsKeeper, Ids, LiveOf;
    var live := Live(sorted);
    GroupLive(g, id, sorted);
    if live != [] {
      var k := KeeperIndex(live);
      GroupSorted(Group(g.listing, id), sorted);
      KeeperCharacterised(sorted, Group(g.listing, id));
      KeeperIsChosen(live[k], g.listing, id);
      assert live[k] in live;
      forall x | x in g.listing && LiveOf(x, id) && x != live[k] ensures x.id in Ids(live[..k] + live[k + 1..]) {
        assert x in live && live == live[..k] + [live[k]] + live[k + 1..];
        IdsHold(live[..k] + live[k + 1..], x);
      }
    }
  }

  ghost predicate OwnStep(ws: seq<World>, acts: seq<Action>, cap: nat, maxAge: int, n: nat, tid: nat) {
    && n + 1 < |ws| == |acts| + 1 && Taken(ws, acts, cap, maxAge, n)
    && acts[n].Go? && acts[n].tid == tid && tid in ws[n].threads
    && PollOk(ws, acts, n, tid, ws[n].threads[tid], maxAge)
  }

  ghost predicate StillOk(ws: seq<World>, acts: seq<Action>, maxAge: int, n: nat, tid: nat) {
    n + 1 < |ws| == |acts| + 1 && tid in ws[n + 1].threads && PollOk(ws, acts, n + 1, tid, ws[n + 1].threads[tid], maxAge)
  }

  lemma FetchOk(ws: seq<World>, acts: seq<Action>, cap: nat, maxAge: int, n: nat, tid: nat)
    requires OwnStep(ws, acts, cap, maxAge, n, tid) && ws[n].threads[tid] == Listing(Fetch)
    ensures StillOk(ws, acts, maxAge, n, tid)
  {
    hide Chosen, OthersEnded, MoveCreate, MoveCall, MoveSweep;
    if ws[n + 1].threads[tid].p.NextGroup? {
      assert FetchesAt(ws[n], acts[n], tid, acts[n].env.listing);
    }
  }

  lemma VisitedNext(g: Groups, keeper: Option<Instance>)
    requires g.todo != [] && Visited(g, g.todo)
    requires if keeper.Some? then keeper.value in g.listing && LiveOf(keeper.value, g.todo[0]) else Absent(g, g.todo[0])
    ensures
      var g' := g.(todo := g.todo[1..], seen := if keeper.Some? then g.seen + {g.todo[0]} else g.seen);
      Visited(g', g'.todo)
  {
    assert g.todo == [g.todo[0]] + g.todo[1..];
  }

  lemma NextGroupOk(ws: seq<World>, acts: seq<Action>, cap: nat, maxAge: int, n: nat, tid: nat)
    requires OwnStep(ws, acts, cap, maxAge, n, tid) && ws[n].threads[tid].Listing? && ws[n].threads[tid].p.NextGroup?
    ensures StillOk(ws, acts, maxAge, n, tid)
  {
    hide Chosen, Fetched, Visited, LiveOf, Absent, MoveCreate, MoveCall, MoveSweep, Live, KeeperIndex, Group, InOrder, Ids;
    var g, e := ws[n].threads[tid].p.g, acts[n].env;
    PollStays(ws, acts, n, tid, ws[n].threads[tid], maxAge);
    if g.todo != [] && multiset(e.sorted) == multiset(Group(g.listing, g.todo[0])) && InOrder(e.sorted) {
      GroupChosen(g, g.todo[0], e.sorted);
      var live := Live(e.sorted);
      VisitedNext(g, if live == [] then None else Some(live[KeeperIndex(live)]));
      if live != [] { assert live[KeeperIndex(live)].sandboxId == g.todo[0] by { OfSandbox(live[KeeperIndex(live)], g.todo[0]); } }
    }
  }

  lemma OfSandbox(x: Instance, id: string)
    requires LiveOf(x, id)
    ensures x.sandboxId == id
  {
  }

  lemma DuplicatesOk(ws: seq<World>, acts: seq<Action>, cap: nat, maxAge: int, n: nat, tid: nat)
    requires OwnStep(ws, acts, cap, maxAge, n, tid) && ws[n].threads[tid].Listing? && ws[n].threads[tid].p.Duplicates?
    ensures StillOk(ws, acts, maxAge, n, tid)
  {
    hide Chosen, Fetched, MoveCreate, MoveCall, MoveSweep, Visited;
    var pc := ws[n].threads[tid].p;
    PollStays(ws, acts, n, tid, ws[n].threads[tid], maxAge);
    if pc.names != [] && acts[n].env.ok { assert EndsAt(ws[n], acts[n], tid, pc.names[0]); }
  }

  lemma VisitOk(ws: seq<World>, acts: seq<Action>, cap: nat, maxAge: int, n: nat, tid: nat)
    requires OwnStep(ws, acts, cap, maxAge, n, tid) && ws[n].threads[tid].Listing?
    requires !ws[n].threads[tid].p.Fetch? && !ws[n].threads[tid].p.NextGroup? && !ws[n].threads[tid].p.Duplicates?
    ensures StillOk(ws, acts, maxAge, n, tid)
  {
    PollStays(ws, acts, n, tid, ws[n].threads[tid], maxAge);
    hide Chosen, Fetched, OthersEnded, MoveCreate, MoveCall, MoveSweep, Visited, Apply, Update;
  }

  lemma ScanOk(ws: seq<World>, acts: seq<Action>, cap: nat, maxAge: int, n: nat, tid: nat)
    requires OwnStep(ws, acts, cap, maxAge, n, tid) && ws[n].threads[tid].Sweeping?
    requires ws[n].threads[tid].s.Scan?
    ensures StillOk(ws, acts, maxAge, n, tid)
  {
    PollStays(ws, acts, n, tid, ws[n].threads[tid], maxAge);
    hide Fetched, MoveCreate, MoveCall, MoveListing;
  }

  lemma SelectOk(ws: seq<World>, acts: seq<Action>, cap: nat, maxAge: int, n: nat, tid: nat)
    requires OwnStep(ws, acts, cap, maxAge, n, tid) && ws[n].threads[tid] == Sweeping(SelectExpired)
    ensures StillOk(ws, acts, maxAge, n, tid)
  {
    hide MoveCreate, MoveCall, MoveListing;
  }

  lemma MissMoves(l: Ledger, h: History, g: Groups, todo: seq<Record>, e: Env, cap: nat, maxAge: int)
    requires todo != [] && todo[0].sandboxId in l.store.records ==> l.store.records[todo[0].sandboxId].sandboxId == todo[0].sandboxId
    ensures
      match MoveSweep(l, h, Miss(g, todo), e, cap, maxAge).pc
      case SelectExpired => todo == []
      case Miss(g', todo') => todo != [] && g' == g && todo' == todo[1..]
      case Confirm(g', todo', missed) => todo != [] && g' == g && todo' == todo[1..] && missed.sandboxId == todo[0].sandboxId
      case _ => false
  {
    hide Update, Apply;
  }

  lemma MissOk(ws: seq<World>, acts: seq<Action>, cap: nat, maxAge: int, n: nat, tid: nat)
    requires OwnStep(ws, acts, cap, maxAge, n, tid) && ws[n].threads[tid].Sweeping? && ws[n].threads[tid].s.Miss?
    requires WorldOk(ws[n], cap)
    ensures StillOk(ws, acts, maxAge, n, tid)
  {
    hide Fetched, Visited, MoveCreate, MoveCall, MoveListing, MoveSweep, Inv, ThreadOk, Absent;
    PollStays(ws, acts, n, tid, ws[n].threads[tid], maxAge);
    var g, todo, l := ws[n].threads[tid].s.g, ws[n].threads[tid].s.todo, ws[n].ledger;
    if todo != [] {
      assert todo[0] in todo && forall r :: r in todo[1..] ==> r in todo;
      if todo[0].sandboxId in l.store.records { RecordFacts(l, ws[n].hist, cap, todo[0].sandboxId); }
    }
    MissMoves(l, ws[n].hist, g, todo, acts[n].env, cap, maxAge);
  }

  lemma SweepStepOk(ws: seq<World>, acts: seq<Action>, cap: nat, maxAge: int, n: nat, tid: nat)
    requires OwnStep(ws, acts, cap, maxAge, n, tid) && ws[n].threads[tid].Sweeping?
    requires !ws[n].threads[tid].s.Scan? && !ws[n].threads[tid].s.SelectExpired? && !ws[n].threads[tid].s.Miss?
    ensures StillOk(ws, acts, maxAge, n, tid)
  {
    PollStays(ws, acts, n, tid, ws[n].threads[tid], maxAge);
    hide Fetched, Visited, MoveCreate, MoveCall, MoveListing, Absent, Overdue, Apply, Update;
    if ws[n].threads[tid].s.Expire? && ws[n].threads[tid].s.todo != [] {
      var todo := ws[n].threads[tid].s.todo;
      assert todo[0] in todo && forall r :: r in todo[1..] ==> r in todo;
    }
  }

  lemma OwnStepOk(ws: seq<World>, acts: seq<Action>, cap: nat, maxAge: int, n: nat, tid: nat)
    requires OwnStep(ws, acts, cap, maxAge, n, tid) && WorldOk(ws[n], cap)
    ensures StillOk(ws, acts, maxAge, n, tid)
  {
    match ws[n].threads[tid]
    case Listing(pc) =>
      hide *;
      if pc.Fetch? {
        FetchOk(ws, acts, cap, maxAge, n, tid);
      } else if pc.NextGroup? {
        NextGroupOk(ws, acts, cap, maxAge, n, tid);
      } else if pc.Duplicates? {
        DuplicatesOk(ws, acts, cap, maxAge, n, tid);
      } else {
        VisitOk(ws, acts, cap, maxAge, n, tid);
      }
    case Sweeping(pc) =>
      hide *;
      if pc.Scan? {
        ScanOk(ws, acts, cap, maxAge, n, tid);
      } else if pc.SelectExpired? {
        SelectOk(ws, acts, cap, maxAge, n, tid);
      } else if pc.Miss? {
        MissOk(ws, acts, cap, maxAge, n, tid);
      } else {
        SweepStepOk(ws, acts, cap, maxAge, n, tid);
      }
    case Creating(_) => OthersOk(ws, acts, cap, maxAge, n, tid); hide *;
    case Calling(_) => OthersOk(ws, acts, cap, maxAge, n, tid); hide *;
  }

  lemma OthersOk(ws: seq<World>, acts: seq<Action>, cap: nat, maxAge: int, n: nat, tid: nat)
    requires OwnStep(ws, acts, cap, maxAge, n, tid) && (ws[n].threads[tid].Creating? || ws[n].threads[tid].Calling?)
    ensures StillOk(ws, acts, maxAge, n, tid)
  {
    hide MoveCreate, MoveCall, MoveListing, MoveSweep;
  }

  lemma {:induction false} PollsOk(ws: seq<World>, acts: seq<Action>, cap: nat, maxAge: int, n: nat, tid: nat)
    requires Run(ws, acts, cap, maxAge) && n < |ws| && tid in ws[n].threads
    ensures |ws| == |acts| + 1 && PollOk(ws, acts, n, tid, ws[n].threads[tid], maxAge)
  {
    if n > 0 {
      var a := acts[n - 1];
      RunStep(ws, acts, cap, maxAge, n);
      RunKeeps(ws, acts, cap, maxAge, n - 1);
      assert Taken(ws, acts, cap, maxAge, n - 1);
      hide WorldOk, PollOk, Taken, Move;
      if a.Go? && a.tid == tid {
        PollsOk(ws, acts, cap, maxAge, n - 1, tid);
        OwnStepOk(ws, acts, cap, maxAge, n - 1, tid);
      } else if tid in ws[n - 1].threads {
        PollsOk(ws, acts, cap, maxAge, n - 1, tid);
        PollStays(ws, acts, n - 1, tid, ws[n].threads[tid], maxAge);
      } else {
        StartsOk(ws, acts, n, tid, ws[n].threads[tid], maxAge);
      }
    }
  }

  lemma StartsOk(ws: seq<World>, acts: seq<Action>, n: nat, tid: nat, t: Thread, maxAge: int)
    requires n < |ws| == |acts| + 1 && Starts(t)
    ensures PollOk(ws, acts, n, tid, t, maxAge)
  {
  }

  // ---- What follows for every write of a poll -------------------------------------------

  // The instance a poll recovers or refreshes a sandbox from is the one its
  // listing says to keep, and its Terminate of every other live instance of the
  // sandbox returned nil before.
  lemma WritesFollowListing(
    ws: seq<World>, acts: seq<Action>, cap: nat, maxAge: int, n: nat, tid: nat) returns (listing: seq<Instance>, keeper: Instance)
    requires Run(ws, acts, cap, maxAge) && n < |ws| && tid in ws[n].threads && ws[n].threads[tid].Listing?
    requires ws[n].threads[tid].p.Recover? || ws[n].threads[tid].p.Write?
    ensures keeper == ws[n].threads[tid].p.keeper && |ws| == |acts| + 1
    ensures Fetched(ws, acts, n, tid, listing) && Chosen(keeper, listing, keeper.sandboxId)
    ensures forall x :: x in listing && x.sandboxId == keeper.sandboxId && x.state != "Deleted" && x != keeper ==>
              Ended(ws, acts, n, tid, x.id)
  {
    PollsOk(ws, acts, cap, maxAge, n, tid);
    listing, keeper := ws[n].threads[tid].p.g.listing, ws[n].threads[tid].p.keeper;
    hide Run, Fetched, Ended, Chosen;
  }

  // A poll counts a miss, asks for a cleanup and releases a sandbox only if its
  // own listing shows no live instance of it.
  lemma MissesAreAbsences(
    ws: seq<World>, acts: seq<Action>, cap: nat, maxAge: int, n: nat, tid: nat) returns (listing: seq<Instance>)
    requires Run(ws, acts, cap, maxAge) && n < |ws| && tid in ws[n].threads && ws[n].threads[tid].Sweeping?
    ensures |ws| == |acts| + 1
    ensures
      match ws[n].threads[tid].s
      case Miss(g, todo) => todo != [] ==> Fetched(ws, acts, n, tid, listing) && NotListed(listing, todo[0].sandboxId)
      case Confirm(g, _, missed) => Fetched(ws, acts, n, tid, listing) && NotListed(listing, missed.sandboxId)
      case Remove(g, _, missed) => Fetched(ws, acts, n, tid, listing) && NotListed(listing, missed.sandboxId)
      case _ => true
  {
    PollsOk(ws, acts, cap, maxAge, n, tid);
    hide Run, Fetched;
    listing := match ws[n].threads[tid].s
      case Miss(g, _) => g.listing
      case Confirm(g, _, _) => g.listing
      case Remove(g, _, _) => g.listing
      case _ => [];
    match ws[n].threads[tid].s
    case Miss(g, todo) => if todo != [] { assert todo[0] in todo; }
    case _ =>
  }

  ghost predicate NotListed(listing: seq<Instance>, id: string) {
    id == "" || forall x :: x in listing && x.sandboxId == id ==> x.state == "Deleted"
  }

  // A poll terminates a sandbox for its age, and marks it, only if it was
  // overdue at one reading of the clock.
  lemma ExpiriesAreDue(ws: seq<World>, acts: seq<Action>, cap: nat, maxAge: int, n: nat, tid: nat)
    requires Run(ws, acts, cap, maxAge) && n < |ws| && tid in ws[n].threads && ws[n].threads[tid].Sweeping?
    ensures
      match ws[n].threads[tid].s
      case Expire(now, todo) => todo != [] ==> Overdue(todo[0], now, maxAge)
      case NoteExpired(now, _, rec) => Overdue(rec, now, maxAge)
      case _ => true
  {
    PollsOk(ws, acts, cap, maxAge, n, tid);
    hide Run, Overdue;
  }

  // ---- Nothing is passed over --------------------------------------------------------------

  lemma {:induction false} SelectMembers(records: map<string, Record>, order: seq<string>, keep: Record -> bool)
    ensures forall k :: k in records && k in order && keep(Redact(records[k])) ==> Redact(records[k]) in Select(records, order, keep)
    ensures forall r :: r in Select(records, order, keep) ==> exists k :: k in records && k in order && r == Redact(records[k]) && keep(r)
    decreases |order|
  {
    if order != [] {
      SelectMembers(records, order[1..], keep);
      assert order == [order[0]] + order[1..];
    }
  }

  // The absence loop takes exactly the bound records no live instance was
  // listed for.
  lemma ScanTakesAbsent(ws: seq<World>, acts: seq<Action>, cap: nat, maxAge: int, n: nat, tid: nat, id: string)
    requires Run(ws, acts, cap, maxAge) && n < |acts| && acts[n].Go? && acts[n].tid == tid
    requires tid in ws[n].threads && ws[n].threads[tid].Sweeping? && ws[n].threads[tid].s.Scan?
    requires tid in ws[n + 1].threads && ws[n + 1].threads[tid].Sweeping? && ws[n + 1].threads[tid].s.Miss?
    requires id in ws[n].ledger.store.records && id != ""
    ensures ws[n].ledger.store.records[id] in ws[n + 1].threads[tid].s.todo <==>
              && ws[n].ledger.store.records[id].instanceId != ""
              && NotListed(ws[n].threads[tid].s.g.listing, id)
  {
    PollsOk(ws, acts, cap, maxAge, n, tid);
    RunKeeps(ws, acts, cap, maxAge, n);
    RunStep(ws, acts, cap, maxAge, n + 1);
    hide Run;
    var l, g := ws[n].ledger, ws[n].threads[tid].s.g;
    RecordFacts(l, ws[n].hist, cap, id);
    hide Inv;
    SelectMembers(l.store.records, acts[n].env.order, (r: Record) => r.Bound() && r.sandboxId !in g.seen);
  }

  lemma ExpiresWhenOverdue(r: Record, now: Time, maxAge: int)
    requires maxAge < 0x7FFF_FFFF_FFFF_FFFF
    ensures Expires(r, DELETING, now, maxAge) <==> Overdue(r, now, maxAge)
  {
  }

  lemma SelectMoves(l: Ledger, h: History, e: Env, cap: nat, maxAge: int)
    ensures
      var o := MoveSweep(l, h, SelectExpired, e, cap, maxAge);
      o.pc == SelectExpired || (Enumerates(e.order, l.store.records.Keys)
        && o.pc == Expire(e.at, Select(l.store.records, e.order, (r: Record) => Expires(r, DELETING, e.at, maxAge))))
  {
    hide Expires, Select;
  }

  // The expiry loop takes exactly what is overdue at its reading of the clock.
  lemma SelectTakesOverdue(ws: seq<World>, acts: seq<Action>, cap: nat, maxAge: int, n: nat, tid: nat, id: string)
    requires Run(ws, acts, cap, maxAge) && n < |acts| && acts[n].Go? && acts[n].tid == tid
    requires tid in ws[n].threads && ws[n].threads[tid] == Sweeping(SelectExpired)
    requires tid in ws[n + 1].threads && ws[n + 1].threads[tid].Sweeping? && ws[n + 1].threads[tid].s.Expire?
    requires id in ws[n].ledger.store.records && maxAge < 0x7FFF_FFFF_FFFF_FFFF
    ensures ws[n + 1].threads[tid].s.now == acts[n].env.at
    ensures ws[n].ledger.store.records[id] in ws[n + 1].threads[tid].s.todo <==>
              Overdue(ws[n].ledger.store.records[id], acts[n].env.at, maxAge)
  {
    RunKeeps(ws, acts, cap, maxAge, n);
    RunStep(ws, acts, cap, maxAge, n + 1);
    hide Run;
    var l, e := ws[n].ledger, acts[n].env;
    RecordFacts(l, ws[n].hist, cap, id);
    hide Inv, Expires, Overdue, MoveCreate, MoveCall, MoveListing, MoveSweep;
    ExpiresWhenOverdue(l.store.records[id], e.at, maxAge);
    SelectMoves(l, ws[n].hist, e, cap, maxAge);
    SelectMembers(l.store.records, e.order, (r: Record) => Expires(r, DELETING, e.at, maxAge));
  }

  // ---- How a poll goes on ---------------------------------------------------------------

  // A poll goes from its listing through every sandbox of it, from there to the
  // absences, and from there to what is overdue. It gives up only if it gets no
  // listing, if an instance cannot be terminated, or if a sandbox to recover has
  // come up meanwhile.
  lemma StepGoesOn(ws: seq<World>, acts: seq<Action>, cap: nat, maxAge: int, n: nat, tid: nat)
    requires Run(ws, acts, cap, maxAge) && n < |acts| && acts[n].Go? && acts[n].tid == tid && tid in ws[n].threads
    ensures tid in ws[n + 1].threads
    ensures
      var e, records, t := acts[n].env, ws[n].ledger.store.records, ws[n + 1].threads[tid];
      match ws[n].threads[tid]
      case Listing(Fetch) =>
        if !e.ok then t == Listing(GaveUp)
        else t == Listing(Fetch) || t == Listing(NextGroup(Groups(e.listing, e.order, {})))
      case Listing(NextGroup(g)) => g.todo == [] ==> t == Listing(Listed(g))
      case Listing(Duplicates(g, keeper, names)) => names == [] ==> t == Listing(Read(g, keeper))
      case Listing(Recover(g, keeper)) => t == Listing(if keeper.sandboxId in records then GaveUp else NextGroup(g))
      case Listing(Write(g, _, _)) => t == Listing(NextGroup(g))
      case Listing(Listed(g)) => t == Sweeping(Scan(g))
      case Sweeping(Scan(g)) => t == Sweeping(Scan(g)) || (t.Sweeping? && t.s.Miss? && t.s.g == g)
      case Sweeping(Miss(g, todo)) =>
        if todo == [] then t == Sweeping(SelectExpired)
        else
          var r := todo[0];
          if r.sandboxId in records && records[r.sandboxId].lease == r.lease && records[r.sandboxId].instanceId == r.instanceId
             && records[r.sandboxId].missingPolls >= 2
          then t == Sweeping(Confirm(g, todo[1..], records[r.sandboxId].(missingPolls := records[r.sandboxId].missingPolls + 1)))
          else t == Sweeping(Miss(g, todo[1..]))
      case Sweeping(NoteExpired(now, todo, _)) => t == Sweeping(Expire(now, todo))
      case _ => true
  {
    RunStep(ws, acts, cap, maxAge, n + 1);
    RunKeeps(ws, acts, cap, maxAge, n);
    hide Run;
    var w := ws[n];
    assert ThreadOk(w.ledger, w.hist, w.threads[tid]);
    forall k | k in w.ledger.store.records ensures Redact(w.ledger.store.records[k]) == w.ledger.store.records[k] {
      RecordFacts(w.ledger, w.hist, cap, k);
    }
    hide Inv, MoveCreate, MoveCall, MoveListing, MoveSweep, Redact, ListingOk, SweepOk, CreateOk, CallOk;
    match w.threads[tid] {
      case Listing(pc) => if !pc.Listed? { ListingGoesOn(w.ledger, w.hist, pc, acts[n].env, cap, maxAge); }
      case Sweeping(pc) => SweepGoesOn(w.ledger, w.hist, pc, acts[n].env, cap, maxAge);
      case _ =>
    }
  }

  lemma ListingGoesOn(l: Ledger, h: History, pc: ListingPc, e: Env, cap: nat, maxAge: int)
    requires ListingOk(l, h, pc)
    ensures
      var pc' := MoveListing(l, h, pc, e, cap, maxAge).pc;
      match pc
      case Fetch => if !e.ok then pc' == GaveUp else pc' == Fetch || pc' == NextGroup(Groups(e.listing, e.order, {}))
      case NextGroup(g) => g.todo == [] ==> pc' == Listed(g)
      case Duplicates(g, keeper, names) => names == [] ==> pc' == Read(g, keeper)
      case Recover(g, keeper) => pc' == if keeper.sandboxId in l.store.records then GaveUp else NextGroup(g)
      case Write(g, _, _) => pc' == NextGroup(g)
      case _ => true
  {
    hide Apply, Update, Enumerates, Live, Group, KeeperIndex;
  }

  lemma SweepGoesOn(l: Ledger, h: History, pc: SweepPc, e: Env, cap: nat, maxAge: int)
    requires forall k :: k in l.store.records ==> Redact(l.store.records[k]) == l.store.records[k]
    ensures
      var records, pc' := l.store.records, MoveSweep(l, h, pc, e, cap, maxAge).pc;
      match pc
      case Scan(g) => pc' == Scan(g) || (pc'.Miss? && pc'.g == g)
      case Miss(g, todo) =>
        if todo == [] then pc' == SelectExpired
        else
          var r := todo[0];
          if r.sandboxId in records && records[r.sandboxId].lease == r.lease && records[r.sandboxId].instanceId == r.instanceId
             && records[r.sandboxId].missingPolls >= 2
          then pc' == Confirm(g, todo[1..], records[r.sandboxId].(missingPolls := records[r.sandboxId].missingPolls + 1))
          else pc' == Miss(g, todo[1..])
      case NoteExpired(now, todo, _) => pc' == Expire(now, todo)
      case _ => true
  {
    hide Apply, Update, Enumerates, Select;
  }

  // A sandbox all of whose instances are deleted is passed over, any other is
  // dealt with.
  lemma StepVisits(ws: seq<World>, acts: seq<Action>, cap: nat, maxAge: int, n: nat, tid: nat)
    requires Run(ws, acts, cap, maxAge) && n < |acts| && acts[n].Go? && acts[n].tid == tid && tid in ws[n].threads
    requires ws[n].threads[tid].Listing? && ws[n].threads[tid].p.NextGroup? && ws[n].threads[tid].p.g.todo != []
    requires multiset(acts[n].env.sorted) == multiset(Group(ws[n].threads[tid].p.g.listing, ws[n].threads[tid].p.g.todo[0]))
    requires InOrder(acts[n].env.sorted)
    ensures tid in ws[n + 1].threads
    ensures
      var g, t := ws[n].threads[tid].p.g, ws[n + 1].threads[tid];
      if Absent(g, g.todo[0]) then t == Listing(NextGroup(g.(todo := g.todo[1..])))
      else
        && t.Listing? && t.p.Duplicates? && t.p.keeper.sandboxId == g.todo[0]
        && t.p.g == g.(todo := g.todo[1..], seen := g.seen + {g.todo[0]})
  {
    RunStep(ws, acts, cap, maxAge, n + 1);
    hide Run, Inv, MoveCreate, MoveCall, MoveSweep, Live, KeeperIndex, Group, InOrder, Ids, Chosen, LiveOf;
    var g, sorted := ws[n].threads[tid].p.g, acts[n].env.sorted;
    GroupChosen(g, g.todo[0], sorted);
    if Live(sorted) != [] {
      var x := Live(sorted)[KeeperIndex(Live(sorted))];
      OfSandbox(x, g.todo[0]);
      assert x in g.listing && LiveOf(x, g.todo[0]);
    }
  }
}
