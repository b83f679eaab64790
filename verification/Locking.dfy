/** The controller lock of `ble/locking.py` and the stateless executor of `client_v2.py`. Each method is what a
    task does between two awaits; which task moves next, and what the Bluetooth stack answers, is arbitrary. */
module Locking {
  import opened Options

  type Task = nat
  type Link = nat
  type ClientId = nat
  type Address = string

  /** A deferred cleanup still owns this link, if any was made. */
  datatype Cleanup = Cleanup(link: Option<Link>)

  /** The executor of the task inside: between attempts, past the cleanup check, or on a link. */
  datatype Attempt = Idle | Checked | Trying(link: Option<Link>)

  /** `str.upper`, on the characters of an address. */
  function Upper(s: Address): (r: Address)
    ensures |r| == |s|
    ensures forall k :: 0 <= k < |s| ==> r[k] == if 'a' <= s[k] <= 'z' then s[k] - 'a' + 'A' else s[k]
  {
    seq(|s|, k requires 0 <= k < |s| => if 'a' <= s[k] <= 'z' then s[k] - 'a' + 'A' else s[k])
  }

  lemma UpperOnce(s: Address)
    ensures Upper(Upper(s)) == Upper(s)
  {
    assert forall k :: 0 <= k < |s| ==> Upper(Upper(s))[k] == Upper(s)[k];
  }

  function LinkSet(link: Option<Link>): set<Link> {
    if link.Some? then {link.value} else {}
  }

  // ---- what the moves do, as a function of the state ---------------------------------------------

  /** The state of one lock: who holds the inner lock and who owns the transaction, the cleanup left to do, the client
      whose transaction it is, how deeply it is nested, what its executor is doing, the tasks in the body of a
      transaction, and the links to this controller that may still be up. */
  datatype LockState = LockState(
    held: Option<Task>, owner: Option<Task>, recover: Option<Cleanup>, retained: bool, user: ClientId, depth: nat,
    attempt: Attempt, inside: set<Task>, live: set<Link>)

  function FreshLock(): LockState {
    LockState(None, None, None, false, 0, 0, Idle, {}, {})
  }

  /** What the task on a controller can do next. */
  datatype Move =
    | Admit(recovered: bool)
    | Nest(recovered: bool)
    | Exit
    | Try(recovered: bool)
    | Join(link: Option<Link>)
    | Close(released: bool)

  /** The cleanup check lets the task pass. */
  predicate Passes(l: LockState, recovered: bool) {
    l.recover.None? || recovered
  }

  /** After a passed check, no cleanup is left and what it owned is down. */
  function Recovered(l: LockState): LockState {
    if l.recover.None? then l else l.(recover := None, retained := false, live := {})
  }

  function Entered(l: LockState): LockState
    requires l.held.Some?
  {
    Recovered(l).(owner := l.held, depth := 1, inside := l.inside + {l.held.value})
  }

  function Left(l: LockState): LockState
    requires l.owner.Some? && l.depth > 0
  {
    if l.depth > 1 then l.(depth := l.depth - 1)
    else l.(depth := 0, owner := None, held := None, inside := l.inside - {l.owner.value})
  }

  /** One move, where the task is in a position to make it. */
  function Moved(l: LockState, move: Move): LockState {
    match move
    case Admit(recovered) =>
      if l.held.None? || l.owner.Some? then l
      else if Passes(l, recovered) then Entered(l)
      else l.(held := None)
    case Nest(recovered) =>
      if l.owner.Some? && l.attempt.Idle? && Passes(l, recovered) then Recovered(l).(depth := l.depth + 1) else l
    case Exit => if l.owner.Some? && l.attempt.Idle? && l.depth > 0 then Left(l) else l
    case Try(recovered) =>
      if l.owner.Some? && l.attempt.Idle? && Passes(l, recovered) then Recovered(l).(attempt := Checked) else l
    case Join(link) =>
      if l.attempt.Checked? then l.(attempt := Trying(link), live := l.live + LinkSet(link)) else l
    case Close(released) =>
      if !l.attempt.Trying? then l
      else if released then l.(attempt := Idle, live := {})
      else l.(attempt := Idle, recover := Some(Cleanup(l.attempt.link)), retained := true)
  }

  /** The locks and the clients of the process. */
  datatype Process = Process(locks: map<Address, LockState>, clients: map<ClientId, Address>)

  datatype Step =
    | New(id: ClientId, address: Address)
    | Drop(id: ClientId)
    | Forget(address: Address)
    | Grant(task: Task, id: ClientId)
    | At(address: Address, move: Move)

  /** The client has a transaction on its controller. */
  predicate Busy(r: Process, id: ClientId) {
    id in r.clients && r.clients[id] in r.locks
    && r.locks[r.clients[id]].held.Some? && r.locks[r.clients[id]].user == id
  }

  /** One step, where the process is in a position to take it. */
  function Next(r: Process, step: Step): Process {
    match step
    case New(id, address) =>
      var key := Upper(address);
      if id in r.clients then r
      else Process(if key in r.locks then r.locks else r.locks[key := FreshLock()], r.clients[id := key])
    case Drop(id) => if id in r.clients && !Busy(r, id) then r.(clients := r.clients - {id}) else r
    case Forget(address) =>
      if address in r.locks && !r.locks[address].retained && address !in r.clients.Values then r.(locks := r.locks - {address})
      else r
    case Grant(task, id) =>
      if id in r.clients && r.clients[id] in r.locks && r.locks[r.clients[id]].held.None? then
        r.(locks := r.locks[r.clients[id] := r.locks[r.clients[id]].(held := Some(task), user := id)])
      else r
    case At(address, move) =>
      if address in r.locks then r.(locks := r.locks[address := Moved(r.locks[address], move)]) else r
  }

  function After(steps: seq<Step>): Process {
    if steps == [] then Process(map[], map[]) else Next(After(steps[..|steps| - 1]), steps[|steps| - 1])
  }

  // ---- the locks and the registry ---------------------------------------------------------------

  /** `held` is the inner `asyncio.Lock`; `retained` says whether the lock is in `_RECOVERING`. */
  class ControllerLock {
    var held: Option<Task>
    var owner: Option<Task>
    var recover: Option<Cleanup>
    var retained: bool

    /** The client whose transaction holds the lock, how deeply, what its executor is doing, the tasks in the
        body of a transaction, and the links to this controller that may still be up. */
    var user: ClientId
    var depth: nat
    var attempt: Attempt
    ghost var inside: set<Task>
    ghost var live: set<Link>

    ghost predicate Valid()
      reads this
    {
      && (owner.Some? ==> held == owner)
      && (depth > 0 <==> owner.Some?)
      && inside == (if owner.Some? then {owner.value} else {})
      && (attempt.Idle? || (owner.Some? && recover.None?))
      && live == (if attempt.Trying? then LinkSet(attempt.link) else {}) + (if recover.Some? then LinkSet(recover.value.link) else {})
      && retained == recover.Some?
    }

    ghost function State(): LockState
      reads this
    {
      LockState(held, owner, recover, retained, user, depth, attempt, inside, live)
    }

    constructor ()
      ensures Valid() && held == None && live == {} && State() == FreshLock()
    {
      held, owner, recover, retained := None, None, None, false;
      user, depth, attempt, inside, live := 0, 0, Idle, {}, {};
    }

    /** At most one task is inside, and at most one link may be up. */
    lemma Exclusive()
      requires Valid()
      ensures |inside| <= 1 && |live| <= 1
      ensures owner.None? && recover.None? ==> live == {}
    {
    }

    /** `defer_cleanup`. */
    method DeferCleanup(cleanup: Cleanup)
      modifies this`recover, this`retained
      ensures recover == Some(cleanup) && retained
    {
      recover, retained := Some(cleanup), true;
    }

    /** `check_cleanup`; `recovered` is the answer of the retried cleanup. */
    method CheckCleanup(recovered: bool) returns (ok: bool)
      requires Valid() && attempt.Idle?
      modifies this`recover, this`retained, this`live
      ensures Valid() && ok == (old(recover).None? || recovered)
      ensures ok ==> recover.None? && live == {}
      ensures !ok ==> recover == old(recover) && live == old(live)
      ensures State() == if ok then Recovered(old(State())) else old(State())
    {
      if recover.None? {
        return true;
      }
      if !recovered {
        return false;
      }
      recover, retained, live := None, false, {};
      ok := true;
    }

    /** `hold`, from another task: the inner lock is granted. */
    method Acquire(task: Task, client: ClientId)
      requires Valid() && held.None?
      modifies this`held, this`user
      ensures Valid() && State() == old(State()).(held := Some(task), user := client)
    {
      held, user := Some(task), client;
    }

    /** The rest of entering: unresolved cleanup first, then ownership; on failure the inner lock is given back. */
    method Enter(recovered: bool) returns (ok: bool)
      requires Valid() && held.Some? && owner.None?
      modifies this
      ensures Valid() && user == old(user) && ok == (old(recover).None? || recovered)
      ensures ok ==> owner == held == old(held) && depth == 1 && recover.None? && live == {}
      ensures !ok ==> held.None? && owner.None? && recover == old(recover) && live == old(live)
      ensures State() == Moved(old(State()), Admit(recovered))
    {
      ok := CheckCleanup(recovered);
      if ok {
        owner, depth, inside := held, 1, inside + {held.value};
      } else {
        held := None;
      }
    }

    /** `hold`, from the owning task. */
    method Reenter(recovered: bool) returns (ok: bool)
      requires Valid() && owner.Some? && attempt.Idle?
      modifies this
      ensures Valid() && user == old(user) && owner == old(owner) && held == old(held)
      ensures depth == old(depth) + if ok then 1 else 0
      ensures ok ==> recover.None? && live == {}
      ensures !ok ==> recover == old(recover) && live == old(live)
      ensures State() == Moved(old(State()), Nest(recovered))
    {
      ok := CheckCleanup(recovered);
      if ok {
        depth := depth + 1;
      }
    }

    /** Leaving a transaction: a nested one releases nothing. */
    method Leave()
      requires Valid() && owner.Some? && attempt.Idle?
      modifies this
      ensures Valid() && user == old(user) && depth == old(depth) - 1 && recover == old(recover) && live == old(live)
      ensures old(depth) > 1 ==> owner == old(owner) && held == old(held)
      ensures old(depth) == 1 ==> owner.None? && held.None?
      ensures State() == Moved(old(State()), Exit)
    {
      depth := depth - 1;
      if depth == 0 {
        inside := inside - {owner.value};
        owner, held := None, None;
      }
    }

    /** The head of one executor attempt. */
    method BeginAttempt(recovered: bool) returns (ok: bool)
      requires Valid() && owner.Some? && attempt.Idle?
      modifies this
      ensures Valid() && user == old(user) && owner == old(owner) && held == old(held) && depth == old(depth)
      ensures ok ==> attempt.Checked? && recover.None? && live == {}
      ensures !ok ==> attempt.Idle? && recover == old(recover) && live == old(live)
      ensures State() == Moved(old(State()), Try(recovered))
    {
      ok := CheckCleanup(recovered);
      if ok {
        attempt := Checked;
      }
    }

    /** Connecting; `link` is the link this attempt may have brought up. No other is up when it starts. */
    method Connect(link: Option<Link>)
      requires Valid() && attempt.Checked?
      modifies this`attempt, this`live
      ensures Valid() && attempt == Trying(link) && live == old(live) + LinkSet(link) && old(live) == {}
      ensures State() == Moved(old(State()), Join(link))
    {
      attempt, live := Trying(link), live + LinkSet(link);
    }

    /** `_cleanup` at the end of the attempt: released for certain, or deferred. */
    method Clean(released: bool)
      requires Valid() && attempt.Trying?
      modifies this`attempt, this`recover, this`retained, this`live
      ensures Valid() && attempt.Idle? && live == if released then {} else old(live)
      ensures recover == if released then None else Some(Cleanup(old(attempt).link))
      ensures State() == Moved(old(State()), Close(released))
    {
      if released {
        live := {};
      } else {
        DeferCleanup(Cleanup(attempt.link));
      }
      attempt := Idle;
    }
  }

  // ---- all controllers of the process ---------------------------------------------------------

  /** `locks` is the weak registry: an entry lasts as long as a client or `_RECOVERING` refers to its lock. */
  class Registry {
    var locks: map<Address, ControllerLock>
    var clients: map<ClientId, Address>

    ghost predicate Valid()
      reads this, locks.Values
    {
      && (forall a :: a in locks ==> locks[a].Valid() && Upper(a) == a)
      && (forall a, b :: a in locks && b in locks && a != b ==> locks[a] != locks[b])
      && (forall id :: id in clients ==> clients[id] in locks)
      && (forall a :: a in locks && locks[a].held.Some? ==> locks[a].user in clients && clients[locks[a].user] == a)
    }

    /** The state of every lock, and the clients. */
    ghost function View(): Process
      reads this, locks.Values
    {
      Process(States(), clients)
    }

    ghost function States(): (states: map<Address, LockState>)
      reads this`locks, locks.Values
      ensures states.Keys == locks.Keys && forall a :: a in locks ==> states[a] == locks[a].State()
    {
      map a | a in locks :: locks[a].State()
    }

    constructor ()
      ensures Valid() && locks == map[] && View() == After([])
    {
      locks, clients := map[], map[];
      new;
      assert States() == map[];
    }

    method Register(key: Address, lock: ControllerLock)
      requires Valid() && key !in locks && Upper(key) == key && lock.Valid() && lock.held.None?
      requires forall a :: a in locks ==> locks[a] != lock
      modifies this`locks
      ensures Valid() && locks == old(locks)[key := lock] && States() == old(States())[key := lock.State()]
    {
      hide Upper, ControllerLock.Valid, ControllerLock.State, States;
      ghost var before := States();
      locks := locks[key := lock];
      assert States() == before[key := lock.State()];
    }

    /** The first use of an address. */
    method MakeLock(key: Address)
      requires Valid() && key !in locks && Upper(key) == key
      modifies this`locks
      ensures Valid() && key in locks && locks == old(locks)[key := locks[key]]
      ensures fresh(locks[key]) && locks[key].live == {} && States() == old(States())[key := FreshLock()]
    {
      hide Upper, ControllerLock.Valid, Registry.Valid, States, FreshLock;
      var lock := new ControllerLock();
      Register(key, lock);
    }

    method AddClient(id: ClientId, key: Address)
      requires Valid() && id !in clients && key in locks
      modifies this`clients
      ensures Valid() && clients == old(clients)[id := key] && States() == old(States())
    {
      hide Upper, ControllerLock.Valid, ControllerLock.State, States;
      clients := clients[id := key];
    }

    /** `controller_lock`, for a new client: the lock of this address in any spelling, made on first use. */
    method NewClient(id: ClientId, address: Address)
      requires Valid() && id !in clients
      modifies this
      ensures Valid() && clients == old(clients)[id := Upper(address)] && Upper(address) in locks
      ensures forall a :: a in old(locks) ==> a in locks && locks[a] == old(locks[a])
      ensures forall a :: a in locks && a !in old(locks) ==> a == Upper(address) && fresh(locks[a]) && locks[a].live == {}
      ensures View() == Next(old(View()), New(id, address))
    {
      hide Upper, Registry.Valid, ControllerLock.State, States;
      var key := Upper(address);
      UpperOnce(address);
      if key !in locks {
        MakeLock(key);
      }
      AddClient(id, key);
    }

    /** A client object goes away once none of its calls is running. */
    method DropClient(id: ClientId)
      requires Valid() && id in clients
      requires !(locks[clients[id]].held.Some? && locks[clients[id]].user == id)
      modifies this`clients
      ensures Valid() && clients == old(clients) - {id}
      ensures View() == Next(old(View()), Drop(id))
    {
      hide Upper, ControllerLock.Valid, States;
      clients := clients - {id};
    }

    /** A lock to which nothing refers has no link and no cleanup left. */
    lemma Unreferenced(address: Address)
      requires Valid() && address in locks && !locks[address].retained && address !in clients.Values
      ensures locks[address].live == {} && locks[address].recover.None?
    {
      hide Upper;
      assert locks[address].Valid();
    }

    /** Garbage collection of a lock to which nothing refers any more: it never has a link left. */
    method Collect(address: Address)
      requires Valid() && address in locks && !locks[address].retained && address !in clients.Values
      modifies this`locks
      ensures Valid() && locks == old(locks) - {address}
      ensures old(locks[address].live) == {} && old(locks[address].recover).None?
      ensures View() == Next(old(View()), Forget(address))
    {
      hide Upper, ControllerLock.Valid, ControllerLock.State, States;
      Unreferenced(address);
      ghost var before := States();
      Retained(address);
      locks := locks - {address};
      assert States() == before - {address};
    }

    lemma Retained(address: Address)
      requires address in locks
      ensures View().locks[address].retained == locks[address].retained
    {
      hide States;
    }
  }

  /** One move, if the runtime can make it. */
  method Advance(l: ControllerLock, move: Move)
    requires l.Valid()
    modifies l
    ensures l.Valid() && l.user == old(l.user) && (old(l.held).None? ==> l.held.None?)
    ensures l.State() == Moved(old(l.State()), move)
  {
    match move {
      case Admit(recovered) => if l.held.Some? && l.owner.None? { var _ := l.Enter(recovered); }
      case Nest(recovered) => if l.owner.Some? && l.attempt.Idle? { var _ := l.Reenter(recovered); }
      case Exit => if l.owner.Some? && l.attempt.Idle? { l.Leave(); }
      case Try(recovered) => if l.owner.Some? && l.attempt.Idle? { var _ := l.BeginAttempt(recovered); }
      case Join(link) => if l.attempt.Checked? { l.Connect(link); }
      case Close(released) => if l.attempt.Trying? { l.Clean(released); }
    }
  }

  /** The current lock of every address stays it while cleanup is unresolved or a link may be up. */
  twostate predicate Kept(r: Registry)
    reads r, r.locks.Values
  {
    && (forall a :: a in r.locks ==> (a in old(r.locks) && r.locks[a] == old(r.locks[a])) || fresh(r.locks[a]))
    && (forall a :: a in old(r.locks) && old(r.locks[a].recover.Some? || r.locks[a].live != {}) ==>
          a in r.locks && r.locks[a] == old(r.locks[a]))
    && (forall a :: a in r.locks && a !in old(r.locks) ==> r.locks[a].live == {})
  }

  /** One step, if the runtime can take it. */
  method Take(r: Registry, step: Step)
    requires r.Valid()
    modifies r, r.locks.Values
    ensures r.Valid() && Kept(r) && r.View() == Next(old(r.View()), step)
  {
    if step.Grant? || step.At? { OnLock(r, step); } else { OnRegistry(r, step); }
  }

  method OnRegistry(r: Registry, step: Step)
    requires r.Valid() && (step.New? || step.Drop? || step.Forget?)
    modifies r
    ensures r.Valid() && Kept(r) && r.View() == Next(old(r.View()), step)
  {
    hide Upper, Registry.Valid, ControllerLock.Valid, Registry.States, Moved;
    if step.New? {
      if step.id !in r.clients { r.NewClient(step.id, step.address); }
    } else if step.Drop? {
      OnDrop(r, step.id);
    } else {
      OnForget(r, step.address);
    }
  }

  method OnDrop(r: Registry, id: ClientId)
    requires r.Valid()
    modifies r`clients
    ensures r.Valid() && r.View() == Next(old(r.View()), Drop(id))
  {
    hide Upper, ControllerLock.Valid, Registry.States;
    if id in r.clients && !(r.locks[r.clients[id]].held.Some? && r.locks[r.clients[id]].user == id) {
      r.DropClient(id);
    }
  }

  method OnForget(r: Registry, address: Address)
    requires r.Valid()
    modifies r`locks
    ensures r.Valid() && r.View() == Next(old(r.View()), Forget(address))
    ensures r.locks == old(r.locks)
            || (address in old(r.locks) && r.locks == old(r.locks) - {address}
                && old(r.locks[address].live) == {} && old(r.locks[address].recover).None?)
  {
    hide Upper, Registry.Valid, ControllerLock.Valid, Registry.States;
    if address in r.locks && !r.locks[address].retained && address !in r.clients.Values { r.Collect(address); }
  }

  method OnLock(r: Registry, step: Step)
    requires r.Valid() && (step.Grant? || step.At?)
    modifies r.locks.Values
    ensures r.Valid() && Kept(r) && r.View() == Next(old(r.View()), step)
  {
    hide Upper, Registry.Valid, ControllerLock.Valid, Registry.States, Moved;
    if step.Grant? { OnGrant(r, step.task, step.id); } else { OnMove(r, step.address, step.move); }
  }

  method OnGrant(r: Registry, task: Task, id: ClientId)
    requires r.Valid()
    modifies r.locks.Values
    ensures r.Valid() && r.View() == Next(old(r.View()), Grant(task, id))
  {
    hide Upper, ControllerLock.Valid, Registry.States;
    ghost var before := r.States();
    if id in r.clients && r.locks[r.clients[id]].held.None? {
      var a := r.clients[id];
      r.locks[a].Acquire(task, id);
      assert r.States() == before[a := r.locks[a].State()];
    }
  }

  method OnMove(r: Registry, address: Address, move: Move)
    requires r.Valid()
    modifies r.locks.Values
    ensures r.Valid() && r.View() == Next(old(r.View()), At(address, move))
  {
    hide Upper, Registry.Valid, ControllerLock.Valid, ControllerLock.State, Registry.States, Moved;
    if address in r.locks { AdvanceAt(r, address, move); }
  }

  method AdvanceAt(r: Registry, address: Address, move: Move)
    requires r.Valid() && address in r.locks
    modifies r.locks.Values
    ensures r.Valid() && r.States() == old(r.States())[address := Moved(old(r.States())[address], move)]
  {
    hide Upper, ControllerLock.Valid, ControllerLock.State, Registry.States, Moved;
    ghost var before := r.States();
    Advance(r.locks[address], move);
    assert r.States() == before[address := r.locks[address].State()];
  }

  /** Over any interleaving: the locks and clients are those the steps lead to, and per controller address, however
      its clients spell it, at most one task is inside a transaction and at most one stateless link may be up. */
  method Run(steps: seq<Step>) returns (r: Registry)
    ensures r.Valid() && r.View() == After(steps)
    ensures forall a :: a in r.locks ==> |r.locks[a].inside| <= 1 && |r.locks[a].live| <= 1
  {
    hide Next;
    r := new Registry();
    assert steps[..0] == [];
    for k := 0 to |steps|
      invariant r.Valid() && fresh(r) && forall a :: a in r.locks ==> fresh(r.locks[a])
      invariant r.View() == After(steps[..k])
    {
      Take(r, steps[k]);
      assert steps[..k + 1][..k] == steps[..k];
    }
    assert steps[..|steps|] == steps;
    forall a | a in r.locks
      ensures |r.locks[a].inside| <= 1 && |r.locks[a].live| <= 1
    {
      r.locks[a].Exclusive();
    }
  }
}
