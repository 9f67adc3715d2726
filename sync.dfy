/**
 * The offline queue drain (frontend/src/services/sync.js). Each queued entry names an API
 * action; a drain walks a snapshot of the queue in order, calls the action's handler, and
 * removes the entry unless the call failed while the device was offline, which ends the drain.
 */
module Sync {
  import opened Wrappers
  import opened Domain
  import opened LocalDb

  /** The thirteen handlers of the action table. */
  datatype Endpoint =
    | CategoriesCreate | CategoriesUpdate | CategoriesDelete | CategoriesReorder
    | ItemsCreate | ItemsUpdate | ItemsToggleCheck | ItemsDelete | ItemsDeleteChecked
    | RecipesCreate | RecipesUpdate | RecipesDelete | RecipesAddToList

  /** The action name under which each handler is registered. */
  function ActionName(e: Endpoint): string {
    match e
    case CategoriesCreate => "categories.create"
    case CategoriesUpdate => "categories.update"
    case CategoriesDelete => "categories.delete"
    case CategoriesReorder => "categories.reorder"
    case ItemsCreate => "items.create"
    case ItemsUpdate => "items.update"
    case ItemsToggleCheck => "items.toggleCheck"
    case ItemsDelete => "items.delete"
    case ItemsDeleteChecked => "items.deleteChecked"
    case RecipesCreate => "recipes.create"
    case RecipesUpdate => "recipes.update"
    case RecipesDelete => "recipes.delete"
    case RecipesAddToList => "recipes.addToList"
  }

  /** The action table: each handler under its action name. */
  const ApiMap: map<string, Endpoint> := map[
    "categories.create" := CategoriesCreate,
    "categories.update" := CategoriesUpdate,
    "categories.delete" := CategoriesDelete,
    "categories.reorder" := CategoriesReorder,
    "items.create" := ItemsCreate,
    "items.update" := ItemsUpdate,
    "items.toggleCheck" := ItemsToggleCheck,
    "items.delete" := ItemsDelete,
    "items.deleteChecked" := ItemsDeleteChecked,
    "recipes.create" := RecipesCreate,
    "recipes.update" := RecipesUpdate,
    "recipes.delete" := RecipesDelete,
    "recipes.addToList" := RecipesAddToList]

  /** `apiMap[action]`: the handler registered under an action name, if any. */
  function Handler(action: string): (r: Option<Endpoint>)
    ensures r.Some? ==> ActionName(r.value) == action
  {
    if action in ApiMap then Some(ApiMap[action]) else None
  }

  /** Every handler is found under its own name, so the table has no unreachable entry. */
  lemma HandlerOfActionName(e: Endpoint)
    ensures Handler(ActionName(e)) == Some(e)
  {
  }

  /** A property of the entry's data, `undefined` (here `null`) when missing. */
  function Field(d: Json, f: string): Json {
    if d.JObj? && f in d.fields then d.fields[f] else JNull
  }

  /** One API request the drain issues: the handler and the arguments it takes from the entry's data. */
  datatype ApiCall = ApiCall(endpoint: Endpoint, data: Json) {
    /** The arguments the handler passes to the API client. */
    function Args(): seq<Json> { Arguments(endpoint, data) }
  }

  /** What each handler passes to the API client. */
  function Arguments(e: Endpoint, d: Json): seq<Json> {
    match e
    case CategoriesCreate => [Field(d, "name")]
    case CategoriesUpdate => [Field(d, "id"), Field(d, "name")]
    case CategoriesDelete => [Field(d, "id")]
    case CategoriesReorder => [Field(d, "categories")]
    case ItemsCreate => [Field(d, "item")]
    case ItemsUpdate => [Field(d, "id"), Field(d, "item")]
    case ItemsToggleCheck => [Field(d, "id"), Field(d, "checked")]
    case ItemsDelete => [Field(d, "id")]
    case ItemsDeleteChecked => []
    case RecipesCreate => [Field(d, "recipe")]
    case RecipesUpdate => [Field(d, "id"), Field(d, "recipe")]
    case RecipesDelete => [Field(d, "id")]
    case RecipesAddToList => [Field(d, "id")]
  }

  /**
   * The request the drain issues for an entry, or none when its action has no handler in
   * `table` (the drain is stated for any action table; `processQueue` uses `ApiMap`).
   */
  function CallOf(table: map<string, Endpoint>, entry: QueueEntry): (r: Option<ApiCall>)
    ensures r.Some? <==> entry.action in table
    ensures r.Some? ==> r.value.endpoint == table[entry.action] && r.value.data == entry.data
  {
    if entry.action in table then
      var e := table[entry.action];
      Some(ApiCall(e, entry.data))
    else None
  }

  /**
   * With the store's own action table, an entry yields a request exactly when its action has a
   * handler, and that request goes to the handler named by the action, with the entry's data.
   */
  lemma CallOfUsesHandler(entry: QueueEntry)
    ensures CallOf(ApiMap, entry).Some? <==> Handler(entry.action).Some?
    ensures CallOf(ApiMap, entry).Some? ==>
      && CallOf(ApiMap, entry).value.endpoint == Handler(entry.action).value
      && ActionName(CallOf(ApiMap, entry).value.endpoint) == entry.action
      && CallOf(ApiMap, entry).value.data == entry.data
  {
  }

  /** An entry queued under an endpoint's action name is replayed against that endpoint. */
  lemma QueuedActionReachesHandler(e: Endpoint, entry: QueueEntry)
    requires entry.action == ActionName(e)
    ensures CallOf(ApiMap, entry) == Some(ApiCall(e, entry.data))
  {
    HandlerOfActionName(e);
  }

  /**
   * The outcome of the k-th API call of a drain. A failure carries the value of
   * `navigator.onLine` read after it.
   */
  datatype Reply = Succeeded | Failed(onlineAfter: bool)

  predicate StopsDrain(r: Reply) { r.Failed? && !r.onlineAfter }

  /** The requests a drain issues and the entries it leaves queued. */
  datatype DrainResult = DrainResult(calls: seq<ApiCall>, remaining: seq<QueueEntry>)

  /**
   * The drain of `q`, whose first request is the k-th call answered by `replies`.
   * An unknown action is dropped without a call; a call that fails offline leaves its entry
   * and every later one queued; any other outcome removes the entry and moves on.
   */
  function Drain(table: map<string, Endpoint>, q: seq<QueueEntry>, replies: nat -> Reply, k: nat): DrainResult
    decreases |q|
  {
    if q == [] then DrainResult([], [])
    else match CallOf(table, q[0])
      case None => Drain(table, q[1..], replies, k)
      case Some(call) =>
        if StopsDrain(replies(k)) then DrainResult([call], q)
        else
          var rest := Drain(table, q[1..], replies, k + 1);
          DrainResult([call] + rest.calls, rest.remaining)
  }

  /** The requests for every entry that has a handler, in queue order. */
  function Handled(table: map<string, Endpoint>, q: seq<QueueEntry>): (r: seq<ApiCall>)
    ensures |r| <= |q|
  {
    if q == [] then []
    else match CallOf(table, q[0])
      case None => Handled(table, q[1..])
      case Some(call) => [call] + Handled(table, q[1..])
  }

  /** How many entries of `q` a drain that leaves `rest` queued has visited. */
  function Visited(q: seq<QueueEntry>, rest: seq<QueueEntry>): int {
    |q| - |rest| + (if rest == [] then 0 else 1)
  }

  /**
   * What a drain leaves queued is a suffix of the queue: entries are removed only from the
   * front, in order, and nothing is added.
   */
  lemma {:induction false} DrainLeavesSuffix(table: map<string, Endpoint>, q: seq<QueueEntry>, replies: nat -> Reply, k: nat)
    ensures |Drain(table, q, replies, k).remaining| <= |q|
    ensures Drain(table, q, replies, k).remaining == q[|q| - |Drain(table, q, replies, k).remaining|..]
  {
    if q != [] {
      match CallOf(table, q[0])
      case None =>
        DrainLeavesSuffix(table, q[1..], replies, k);
        var n := |Drain(table, q[1..], replies, k).remaining|;
        assert q[1..][|q[1..]| - n..] == q[|q| - n..];
      case Some(call) =>
        if !StopsDrain(replies(k)) {
          DrainLeavesSuffix(table, q[1..], replies, k + 1);
          var n := |Drain(table, q[1..], replies, k + 1).remaining|;
          assert q[1..][|q[1..]| - n..] == q[|q| - n..];
        }
    }
  }

  /**
   * A drain keeps entries only after an offline failure: then the first kept entry has a
   * handler, and the last request issued was its call, answered by a failure seen offline.
   */
  lemma {:induction false} DrainStopsOnlyOffline(table: map<string, Endpoint>, q: seq<QueueEntry>, replies: nat -> Reply, k: nat)
    ensures var r := Drain(table, q, replies, k);
      r.remaining != [] ==>
        && CallOf(table, r.remaining[0]).Some?
        && |r.calls| >= 1
        && r.calls[|r.calls| - 1] == CallOf(table, r.remaining[0]).value
        && StopsDrain(replies(k + |r.calls| - 1))
  {
    if q != [] {
      match CallOf(table, q[0])
      case None =>
        DrainStopsOnlyOffline(table, q[1..], replies, k);
      case Some(call) =>
        if !StopsDrain(replies(k)) {
          DrainStopsOnlyOffline(table, q[1..], replies, k + 1);
        }
    }
  }

  /**
   * The requests of a drain are exactly those of the entries it visited, in queue order: the
   * ones it removed and, when it stopped, the one it kept first. So entries are visited in
   * order and no handler is called twice for one entry.
   */
  lemma {:induction false} DrainCalls(table: map<string, Endpoint>, q: seq<QueueEntry>, replies: nat -> Reply, k: nat)
    ensures var r := Drain(table, q, replies, k);
      0 <= Visited(q, r.remaining) <= |q| && r.calls == Handled(table, q[..Visited(q, r.remaining)])
  {
    DrainLeavesSuffix(table, q, replies, k);
    if q != [] {
      var r := Drain(table, q, replies, k);
      match CallOf(table, q[0])
      case None =>
        DrainCalls(table, q[1..], replies, k);
        assert q[..Visited(q, r.remaining)][1..] == q[1..][..Visited(q[1..], r.remaining)];
      case Some(call) =>
        if StopsDrain(replies(k)) {
          assert q[..Visited(q, r.remaining)] == [q[0]];
          assert [q[0]][1..] == [];
        } else {
          DrainCalls(table, q[1..], replies, k + 1);
          assert q[..Visited(q, r.remaining)][1..] == q[1..][..Visited(q[1..], r.remaining)];
        }
    }
  }

  /** One step of a drain, unfolded: an entry without a handler is dropped without a call. */
  lemma DrainSkips(table: map<string, Endpoint>, q: seq<QueueEntry>, replies: nat -> Reply, k: nat)
    requires q != [] && CallOf(table, q[0]).None?
    ensures Drain(table, q, replies, k) == Drain(table, q[1..], replies, k)
  {
  }

  /** A call that fails offline ends the drain, keeping its entry and every later one. */
  lemma DrainStops(table: map<string, Endpoint>, q: seq<QueueEntry>, replies: nat -> Reply, k: nat)
    requires q != [] && CallOf(table, q[0]).Some? && StopsDrain(replies(k))
    ensures Drain(table, q, replies, k) == DrainResult([CallOf(table, q[0]).value], q)
  {
  }

  /** Any other outcome of a call removes its entry and moves on to the next. */
  lemma DrainContinues(table: map<string, Endpoint>, q: seq<QueueEntry>, replies: nat -> Reply, k: nat)
    requires q != [] && CallOf(table, q[0]).Some? && !StopsDrain(replies(k))
    ensures Drain(table, q, replies, k).calls == [CallOf(table, q[0]).value] + Drain(table, q[1..], replies, k + 1).calls
    ensures Drain(table, q, replies, k).remaining == Drain(table, q[1..], replies, k + 1).remaining
  {
  }

  /** `removeSyncEntry(entry.id)` for the entry at the head of the queue. */
  method RemoveHead(db: LocalDatabase, entry: QueueEntry)
    requires db.Valid() && db.syncQueue != [] && db.syncQueue[0] == entry
    modifies db`syncQueue
    ensures db.Valid() && db.syncQueue == old(db.syncQueue)[1..]
  {
    WithoutHead(db.syncQueue);
    db.RemoveSyncEntry(entry.id);
  }

  /** A drain never issues more requests than there are queued entries. */
  lemma DrainCallsBounded(table: map<string, Endpoint>, q: seq<QueueEntry>, replies: nat -> Reply, k: nat)
    ensures |Drain(table, q, replies, k).calls| <= |q|
  {
    DrainCalls(table, q, replies, k);
    var r := Drain(table, q, replies, k);
    assert |Handled(table, q[..Visited(q, r.remaining)])| <= Visited(q, r.remaining);
  }

  /** When no call fails offline, a drain empties the queue and issues every handled request. */
  lemma {:induction false} DrainOnlineEmptiesQueue(table: map<string, Endpoint>, q: seq<QueueEntry>, replies: nat -> Reply, k: nat)
    requires forall j :: k <= j < k + |q| ==> !StopsDrain(replies(j))
    ensures Drain(table, q, replies, k) == DrainResult(Handled(table, q), [])
  {
    if q != [] {
      match CallOf(table, q[0])
      case None =>
        DrainOnlineEmptiesQueue(table, q[1..], replies, k);
      case Some(call) =>
        DrainOnlineEmptiesQueue(table, q[1..], replies, k + 1);
    }
  }

  /** A queue of unknown actions only is emptied without any request. */
  lemma {:induction false} DrainDropsUnknown(table: map<string, Endpoint>, q: seq<QueueEntry>, replies: nat -> Reply, k: nat)
    requires forall i :: 0 <= i < |q| ==> q[i].action !in table
    ensures Drain(table, q, replies, k) == DrainResult([], [])
  {
    if q != [] {
      DrainDropsUnknown(table, q[1..], replies, k);
    }
  }

  /** The loop of `processQueue`: walk a snapshot of the queue as `Drain` describes. */
  method DrainQueue(db: LocalDatabase, table: map<string, Endpoint>, replies: nat -> Reply) returns (calls: seq<ApiCall>)
    requires db.Valid()
    modifies db`syncQueue
    ensures db.Valid()
    ensures calls == Drain(table, old(db.syncQueue), replies, 0).calls
    ensures db.syncQueue == Drain(table, old(db.syncQueue), replies, 0).remaining
  {
    calls := [];
    var queue := db.GetSyncQueue();
    ghost var all := Drain(table, queue, replies, 0);
    var pending := queue;
    while pending != []
      invariant db.Valid() && db.syncQueue == pending
      invariant all.calls == calls + Drain(table, pending, replies, |calls|).calls
      invariant all.remaining == Drain(table, pending, replies, |calls|).remaining
      decreases |pending|
    {
      var entry := pending[0];
      var call := CallOf(table, entry);
      if call.None? {
        DrainSkips(table, pending, replies, |calls|);
        RemoveHead(db, entry);
        pending := pending[1..];
      } else {
        var reply := replies(|calls|);
        if reply.Failed? && !reply.onlineAfter {
          DrainStops(table, pending, replies, |calls|);
          assert all.calls == calls + [call.value] && all.remaining == pending;
          calls := calls + [call.value];
          break;
        }
        DrainContinues(table, pending, replies, |calls|);
        ghost var tail := Drain(table, pending[1..], replies, |calls| + 1);
        assert all.calls == (calls + [call.value]) + tail.calls && all.remaining == tail.remaining;
        calls := calls + [call.value];
        RemoveHead(db, entry);
        pending := pending[1..];
      }
    }
  }

  /** The module-level `syncing` flag and the `online` listener of `startSyncListener`. */
  class SyncEngine {
    var syncing: bool
    var listening: bool
    /** How often the `onSyncComplete` callback has been invoked. */
    var completions: nat

    constructor ()
      ensures !syncing && !listening && completions == 0
    {
      syncing, listening, completions := false, false, 0;
    }

    /**
     * `processQueue`. When a drain is already running or the device is offline nothing happens.
     * Otherwise the queue is drained as `Drain` describes and `syncing` is false again at the end.
     */
    method ProcessQueue(db: LocalDatabase, online: bool, replies: nat -> Reply) returns (calls: seq<ApiCall>)
      requires db.Valid()
      modifies this`syncing, db`syncQueue
      ensures db.Valid()
      ensures syncing == old(syncing)
      ensures old(syncing) || !online ==> calls == [] && db.syncQueue == old(db.syncQueue)
      ensures !old(syncing) && online ==>
        && calls == Drain(ApiMap, old(db.syncQueue), replies, 0).calls
        && db.syncQueue == Drain(ApiMap, old(db.syncQueue), replies, 0).remaining
    {
      calls := [];
      if syncing || !online {
        return;
      }
      syncing := true;
      calls := DrainQueue(db, ApiMap, replies);
      syncing := false;
    }

    /** `startSyncListener`: register the `online` handler. */
    method StartSyncListener()
      modifies this`listening
      ensures listening
    {
      listening := true;
    }

    /** The function `startSyncListener` returns: unregister the handler. */
    method StopSyncListener()
      modifies this`listening
      ensures !listening
    {
      listening := false;
    }

    /** The browser's `online` event: when registered, drain the queue, then report completion. */
    method OnOnline(db: LocalDatabase, online: bool, replies: nat -> Reply) returns (calls: seq<ApiCall>)
      requires db.Valid()
      modifies this`syncing, this`completions, db`syncQueue
      ensures db.Valid()
      ensures syncing == old(syncing)
      ensures !listening ==> calls == [] && db.syncQueue == old(db.syncQueue) && completions == old(completions)
      ensures listening ==> completions == old(completions) + 1
      ensures listening && !old(syncing) && online ==>
        && calls == Drain(ApiMap, old(db.syncQueue), replies, 0).calls
        && db.syncQueue == Drain(ApiMap, old(db.syncQueue), replies, 0).remaining
      ensures listening && (old(syncing) || !online) ==> calls == [] && db.syncQueue == old(db.syncQueue)
    {
      calls := [];
      if listening {
        calls := ProcessQueue(db, online, replies);
        completions := completions + 1;
      }
    }
  }
}
