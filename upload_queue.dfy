/** The persistent upload queue: a map from ID to item plus the order in
    which IDs are served, a status per item (pending, uploading, success,
    failed, cancelled) and a priority insertion. Disk persistence, the
    ticker and the callbacks are left out; the upload is an oracle. */
module UploadQueue {
  import opened GoRuntime
  import opened GoTime
  import opened StoreService

  /** `Status` is a Go string type: the five constants, or whatever a
      persisted queue file or a caller's filter holds. */
  type Status = GoString

  const StatusPending: Status := "pending"
  const StatusUploading: Status := "uploading"
  const StatusSuccess: Status := "success"
  const StatusFailed: Status := "failed"
  const StatusCancelled: Status := "cancelled"

  const PriorityNormal := 0
  const PriorityHigh := 1
  const PriorityEmergency := 2

  /** The hard limit on the number of items `Add` accepts. */
  const MaxItems := 1000
  /** The number of successful items `cleanupCompleted` keeps. */
  const KeptSuccesses := 100

  datatype QueueItem = QueueItem(id: GoString, dicomPath: GoString, patientName: GoString,
                                 patientId: GoString, studyDate: GoString, status: Status, priority: int,
                                 addedAt: Instant, lastAttempt: Option<Instant>, attemptCount: int,
                                 errorMessage: GoString, errorType: ErrorType)

  /** The counts `GetStatus` reports. */
  datatype QueueStatus = QueueStatus(total: nat, pending: nat, uploading: nat, failed: nat, success: nat,
                                     processing: bool)

  /** What reading the persisted queue gives: no file, an error (reading or
      JSON), or the saved items and order. */
  datatype DiskRead = Missing | Unreadable(err: GoString) | Parsed(savedItems: seq<QueueItem>, savedQueue: seq<GoString>)

  // ---------------------------------------------------------------------------
  // Invariants

  /** Every queued ID names an item: the lookups `q.items[id]` on the queue's
      IDs then find an item rather than nil. */
  predicate QueueValid(items: map<GoString, QueueItem>, queue: seq<GoString>)
  {
    forall i | 0 <= i < |queue| :: queue[i] in items
  }

  /** Every item is queued: `Add` puts each new item in both places. */
  predicate ItemsQueued(items: map<GoString, QueueItem>, queue: seq<GoString>)
  {
    forall id | id in items :: id in queue
  }

  /** Pending items are queued in non-increasing priority. */
  predicate PendingOrdered(items: map<GoString, QueueItem>, queue: seq<GoString>)
    requires QueueValid(items, queue)
  {
    forall i, j | 0 <= i < j < |queue| && items[queue[i]].status == StatusPending
                                        && items[queue[j]].status == StatusPending
      :: items[queue[i]].priority >= items[queue[j]].priority
  }

  // ---------------------------------------------------------------------------
  // Adding an item

  /** A Go map lookup: the zero value for a missing key. */
  function Lookup(m: map<GoString, GoString>, k: GoString): GoString
  {
    if k in m then m[k] else ""
  }

  /** The item `Add` creates: pending, never attempted, with the patient
      fields taken from the map. */
  function NewItem(id: GoString, dicomPath: GoString, patientInfo: map<GoString, GoString>, priority: int,
                   now: Instant): QueueItem
  {
    QueueItem(id, dicomPath, Lookup(patientInfo, "patientName"), Lookup(patientInfo, "patientId"),
              Lookup(patientInfo, "studyDate"), StatusPending, priority, now, None, 0, "", ErrorUnset)
  }

  /** The items a new item of priority `p` goes in front of. */
  predicate Outranked(item: QueueItem, p: int)
  {
    item.status == StatusPending && item.priority < p
  }

  /** Where `Add` inserts an item of priority `p`: before the first pending
      item of strictly lower priority, or at the end when there is none. */
  function InsertIndex(items: map<GoString, QueueItem>, queue: seq<GoString>, p: int): (i: nat)
    requires QueueValid(items, queue)
    ensures i <= |queue|
    ensures forall j | 0 <= j < i :: !Outranked(items[queue[j]], p)
    ensures i < |queue| ==> Outranked(items[queue[i]], p)
    decreases |queue|
  {
    if queue == [] then 0
    else if Outranked(items[queue[0]], p) then 0
    else
      var i := 1 + InsertIndex(items, queue[1..], p);
      assert forall j | 1 <= j < i :: queue[j] == queue[1..][j - 1];
      i
  }

  function Inserted(queue: seq<GoString>, i: nat, id: GoString): (q: seq<GoString>)
    requires i <= |queue|
    ensures |q| == |queue| + 1 && q[i] == id
    ensures forall j | 0 <= j < i :: q[j] == queue[j]
    ensures forall j | i < j < |q| :: q[j] == queue[j - 1]
  {
    queue[..i] + [id] + queue[i..]
  }

  /** Adding a pending item with a fresh ID keeps every queued ID an item and
      the pending items in non-increasing priority; the new item comes after
      every pending item of equal or higher priority (first in, first out
      among equals) and before every pending item of lower priority. */
  lemma AddKeepsOrder(items: map<GoString, QueueItem>, queue: seq<GoString>, item: QueueItem)
    requires QueueValid(items, queue) && PendingOrdered(items, queue)
    requires item.id !in items && item.status == StatusPending
    ensures var items' := items[item.id := item];
            var i := InsertIndex(items', queue, item.priority);
            var q' := Inserted(queue, i, item.id);
            && QueueValid(items', q') && PendingOrdered(items', q')
            && (forall j | 0 <= j < i && items'[q'[j]].status == StatusPending :: items'[q'[j]].priority >= item.priority)
            && (forall j | i < j < |q'| && items'[q'[j]].status == StatusPending :: items'[q'[j]].priority < item.priority)
  {
    var items' := items[item.id := item];
    assert forall j | 0 <= j < |queue| :: items'[queue[j]] == items[queue[j]];
    var i := InsertIndex(items', queue, item.priority);
    var q' := Inserted(queue, i, item.id);
    assert QueueValid(items', q');
    forall j | i < j < |q'| && items'[q'[j]].status == StatusPending
      ensures items'[q'[j]].priority < item.priority
    {
      assert q'[j] == queue[j - 1] && q'[i + 1] == queue[i];
      if j - 1 > i {
        assert items[queue[i]].priority >= items[queue[j - 1]].priority;
      }
    }
    assert PendingOrdered(items', q') by {
      forall a, b | 0 <= a < b < |q'| && items'[q'[a]].status == StatusPending && items'[q'[b]].status == StatusPending
        ensures items'[q'[a]].priority >= items'[q'[b]].priority
      {
        var qa := if a < i then a else a - 1;
        var qb := if b < i then b else b - 1;
        if a != i && b != i {
          assert q'[a] == queue[qa] && q'[b] == queue[qb] && qa < qb;
        }
      }
    }
  }

  // ---------------------------------------------------------------------------
  // Serving the queue

  /** The item `processNext` takes: the first pending one in queue order. */
  function FirstPending(items: map<GoString, QueueItem>, queue: seq<GoString>): (r: Option<nat>)
    requires QueueValid(items, queue)
    ensures r.Some? ==> r.value < |queue| && items[queue[r.value]].status == StatusPending
    ensures forall j | 0 <= j < |queue| && (r.None? || j < r.value) :: items[queue[j]].status != StatusPending
    decreases |queue|
  {
    if queue == [] then None
    else if items[queue[0]].status == StatusPending then Some(0)
    else
      var r := FirstPending(items, queue[1..]);
      assert forall j | 1 <= j < |queue| :: queue[j] == queue[1..][j - 1];
      if r.None? then None else Some(r.value + 1)
  }

  /** With the pending items ordered, the one served next has the highest
      priority among all pending items. */
  lemma FirstPendingHasTopPriority(items: map<GoString, QueueItem>, queue: seq<GoString>)
    requires QueueValid(items, queue) && PendingOrdered(items, queue)
    ensures var r := FirstPending(items, queue);
            r.Some? ==> forall j | 0 <= j < |queue| && items[queue[j]].status == StatusPending
                          :: items[queue[j]].priority <= items[queue[r.value]].priority
  {
  }

  // ---------------------------------------------------------------------------
  // Listing

  /** The items of the queue, in queue order, whose status is `status`
      (every item when it is `None`). */
  function Matching(items: map<GoString, QueueItem>, queue: seq<GoString>, status: Option<Status>): (r: seq<QueueItem>)
    requires QueueValid(items, queue)
    ensures |r| <= |queue|
    ensures forall k | 0 <= k < |r| :: status.None? || r[k].status == status.value
    decreases |queue|
  {
    if queue == [] then []
    else
      var init := queue[..|queue| - 1];
      var item := items[queue[|queue| - 1]];
      assert QueueValid(items, init);
      Matching(items, init, status) + (if status.None? || item.status == status.value then [item] else [])
  }

  /** `GetItems`: the matching items, at most `limit` of them when `limit` is positive. */
  function Listed(items: map<GoString, QueueItem>, queue: seq<GoString>, status: Option<Status>, limit: int)
    : (r: seq<QueueItem>)
    requires QueueValid(items, queue)
  {
    var m := Matching(items, queue, status);
    if limit > 0 && |m| > limit then m[..limit] else m
  }

  /** The listing is a prefix of the matching items: all of them without a
      limit, and `min(limit, matches)` of them with one; with no filter every
      queued item is a match. */
  lemma ListedIsPrefix(items: map<GoString, QueueItem>, queue: seq<GoString>, status: Option<Status>, limit: int)
    requires QueueValid(items, queue)
    ensures var r := Listed(items, queue, status, limit);
            var m := Matching(items, queue, status);
            && r == m[..|r|]
            && (limit <= 0 ==> r == m)
            && (limit > 0 ==> |r| == if |m| < limit then |m| else limit)
            && (forall k | 0 <= k < |r| :: status.None? || r[k].status == status.value)
            && (status.None? ==> |m| == |queue|)
  {
    if status.None? {
      MatchingAll(items, queue);
    }
  }

  lemma {:induction false} MatchingAll(items: map<GoString, QueueItem>, queue: seq<GoString>)
    requires QueueValid(items, queue)
    ensures |Matching(items, queue, None)| == |queue|
    ensures forall k | 0 <= k < |queue| :: Matching(items, queue, None)[k] == items[queue[k]]
    decreases |queue|
  {
    if queue != [] {
      var init := queue[..|queue| - 1];
      MatchingAll(items, init);
    }
  }

  // ---------------------------------------------------------------------------
  // Counting

  /** The number of items among `keys` whose status is `s`. */
  function CountIn(items: map<GoString, QueueItem>, keys: set<GoString>, s: Status): nat
  {
    |set id | id in keys && id in items && items[id].status == s|
  }

  /** Counting one more key adds one exactly when its status matches. */
  lemma CountInStep(items: map<GoString, QueueItem>, keys: set<GoString>, id: GoString, s: Status)
    requires id !in keys && id in items
    ensures CountIn(items, keys + {id}, s) == CountIn(items, keys, s) + (if items[id].status == s then 1 else 0)
  {
    var before := set k | k in keys && k in items && items[k].status == s;
    var after := set k | k in keys + {id} && k in items && items[k].status == s;
    if items[id].status == s {
      assert after == before + {id};
    } else {
      assert after == before;
    }
  }

  // ---------------------------------------------------------------------------
  // Cleanup

  /** The IDs of successful items in `order`, the order in which the map is
      enumerated. */
  function SuccessIds(items: map<GoString, QueueItem>, order: seq<GoString>): (r: seq<GoString>)
    ensures forall k | 0 <= k < |r| :: r[k] in items && items[r[k]].status == StatusSuccess && r[k] in order
    ensures |r| <= |order|
    decreases |order|
  {
    if order == [] then []
    else
      var rest := SuccessIds(items, order[1..]);
      if order[0] in items && items[order[0]].status == StatusSuccess then [order[0]] + rest else rest
  }

  /** The successful items `cleanupCompleted` deletes: all but the last 100
      in enumeration order, when there are more than 100. */
  function Victims(items: map<GoString, QueueItem>, order: seq<GoString>): (v: set<GoString>)
    ensures forall id | id in v :: id in items && items[id].status == StatusSuccess
  {
    var s := SuccessIds(items, order);
    if |s| > KeptSuccesses then set k | 0 <= k < |s| - KeptSuccesses :: s[k] else {}
  }

  /** `order` enumerates the map's keys, each once, as Go's `range` does. */
  predicate Enumerates(order: seq<GoString>, items: map<GoString, QueueItem>)
  {
    && (forall i, j | 0 <= i < j < |order| :: order[i] != order[j])
    && (forall id | id in items :: id in order)
    && (forall i | 0 <= i < |order| :: order[i] in items)
  }

  /** The items left once `Add` has made room: cleaned up when there are
      `MaxItems` or more, untouched otherwise. */
  function KeptItems(items: map<GoString, QueueItem>, order: seq<GoString>): map<GoString, QueueItem>
  {
    if |items| < MaxItems then items else items - Victims(items, order)
  }

  /** The queue once `Add` has made room, under the corrected cleanup. */
  function KeptQueue(items: map<GoString, QueueItem>, queue: seq<GoString>, order: seq<GoString>): seq<GoString>
  {
    if |items| < MaxItems then queue else Without(queue, Victims(items, order))
  }

  /** The queue without the IDs in `gone`. */
  function Without(queue: seq<GoString>, gone: set<GoString>): (q: seq<GoString>)
    ensures forall k | 0 <= k < |q| :: q[k] in queue && q[k] !in gone
    ensures forall id | id in queue && id !in gone :: id in q
  {
    if queue == [] then []
    else
      var rest := Without(queue[1..], gone);
      assert forall id | id in queue[1..] :: id in queue;
      if queue[0] in gone then rest else [queue[0]] + rest
  }

  /** As written, cleanup deletes items but leaves their IDs queued: as soon as
      more than 100 items succeeded and they are still queued, as `Add` leaves
      every item, a queued ID names no item, and the next `q.items[id]`
      lookup in `Add`, `GetItems` or `processNext` yields nil. */
  lemma CleanupAsWrittenBreaksValid(items: map<GoString, QueueItem>, queue: seq<GoString>, order: seq<GoString>)
    requires ItemsQueued(items, queue)
    requires |SuccessIds(items, order)| > KeptSuccesses
    ensures !QueueValid(items - Victims(items, order), queue)
  {
    var s := SuccessIds(items, order);
    assert s[0] in Victims(items, order);
    var k :| 0 <= k < |queue| && queue[k] == s[0];
    assert queue[k] !in items - Victims(items, order);
  }

  /** The cleanup as evidently intended, which also drops the deleted IDs from
      the queue: every queued ID still names an item, every item is still
      queued, and only successful items are removed. */
  lemma CleanupKeepsValid(items: map<GoString, QueueItem>, queue: seq<GoString>, order: seq<GoString>)
    requires QueueValid(items, queue)
    ensures var v := Victims(items, order);
            && QueueValid(items - v, Without(queue, v))
            && (ItemsQueued(items, queue) ==> ItemsQueued(items - v, Without(queue, v)))
            && (forall id | id in items && items[id].status != StatusSuccess :: id in items - v)
  {
  }

  /** With an enumeration of distinct keys and more than 100 successes,
      exactly `count - 100` items go. */
  lemma VictimsCount(items: map<GoString, QueueItem>, order: seq<GoString>)
    requires Enumerates(order, items)
    ensures var s := SuccessIds(items, order);
            |s| > KeptSuccesses ==> |Victims(items, order)| == |s| - KeptSuccesses
  {
    var s := SuccessIds(items, order);
    SuccessIdsDistinct(items, order);
    if |s| > KeptSuccesses {
      var gone := s[..|s| - KeptSuccesses];
      DistinctCard(gone);
      assert Victims(items, order) == set x | x in gone;
    }
  }

  lemma {:induction false} SuccessIdsDistinct(items: map<GoString, QueueItem>, order: seq<GoString>)
    requires forall i, j | 0 <= i < j < |order| :: order[i] != order[j]
    ensures var s := SuccessIds(items, order);
            forall i, j | 0 <= i < j < |s| :: s[i] != s[j]
    decreases |order|
  {
    if order != [] {
      SuccessIdsDistinct(items, order[1..]);
      assert forall id | id in SuccessIds(items, order[1..]) :: id in order[1..];
      assert order[0] !in order[1..];
    }
  }

  lemma {:induction false} DistinctCard(s: seq<GoString>)
    requires forall i, j | 0 <= i < j < |s| :: s[i] != s[j]
    ensures |set x | x in s| == |s|
    decreases |s|
  {
    if s != [] {
      var init := s[..|s| - 1];
      DistinctCard(init);
      assert (set x | x in s) == (set x | x in init) + {s[|s| - 1]};
      assert s[|s| - 1] !in init;
    }
  }

  // ---------------------------------------------------------------------------
  // Loading

  /** The status a persisted item is restored with: an interrupted upload
      is pending again. */
  function Reset(item: QueueItem): (r: QueueItem)
    ensures r.status != StatusUploading
    ensures r.id == item.id
  {
    if item.status == StatusUploading then item.(status := StatusPending) else item
  }

  /** The map `loadFromDisk` rebuilds; a later item with the same ID wins. */
  function Restored(saved: seq<QueueItem>): (m: map<GoString, QueueItem>)
    ensures forall id | id in m :: m[id].status != StatusUploading && m[id].id == id
    decreases |saved|
  {
    if saved == [] then map[]
    else
      var last := saved[|saved| - 1];
      Restored(saved[..|saved| - 1])[last.id := Reset(last)]
  }

  /** The restored items are exactly the saved IDs, none uploading; the
      restored queue is valid exactly when every saved queue entry is the ID
      of a saved item. */
  lemma {:induction false} RestoredKeys(saved: seq<QueueItem>)
    ensures forall id :: id in Restored(saved) <==> exists k | 0 <= k < |saved| :: saved[k].id == id
    decreases |saved|
  {
    if saved != [] {
      var init := saved[..|saved| - 1];
      RestoredKeys(init);
      forall id ensures id in Restored(saved) <==> exists k | 0 <= k < |saved| :: saved[k].id == id {
        if exists k | 0 <= k < |init| :: init[k].id == id {
          var k :| 0 <= k < |init| && init[k].id == id;
          assert saved[k].id == id;
        }
        if exists k | 0 <= k < |saved| :: saved[k].id == id {
          var k :| 0 <= k < |saved| && saved[k].id == id;
          if k < |init| { assert init[k].id == id; }
        }
      }
    }
  }

  lemma RestoredValid(saved: seq<QueueItem>, queue: seq<GoString>)
    ensures QueueValid(Restored(saved), queue)
            <==> forall i | 0 <= i < |queue| :: exists k | 0 <= k < |saved| :: saved[k].id == queue[i]
  {
    RestoredKeys(saved);
  }

  // ---------------------------------------------------------------------------
  // The queue

  class UploadQueue {
    var items: map<GoString, QueueItem>
    var queue: seq<GoString>
    var processing: bool

    ghost predicate Valid()
      reads this
    {
      QueueValid(items, queue)
    }

    /** `NewUploadQueue`: an empty queue that then loads the persisted one.
        A failure to load is not fatal: the queue stays empty. Whether the
        queue directory can be made and what the queue file holds are
        parameters. A persisted queue whose order names a saved-away item
        is restored as it is, and is then not valid (see `RestoredValid`). */
    constructor (mkdirOk: bool, read: DiskRead)
      ensures !processing
      ensures mkdirOk && read.Parsed? ==> items == Restored(read.savedItems) && queue == read.savedQueue
      ensures !(mkdirOk && read.Parsed?) ==> items == map[] && queue == [] && Valid()
    {
      items := map[];
      queue := [];
      processing := false;
      new;
      var _ := LoadFromDisk(mkdirOk, read);
    }

    /** `loadFromDisk`: a missing file is an empty queue; a failure to make
        the directory, read or parse is an error that changes nothing;
        otherwise the saved items and order replace the current ones, with
        interrupted uploads pending again. */
    method LoadFromDisk(mkdirOk: bool, read: DiskRead) returns (err: Option<GoString>)
      modifies this
      ensures err.None? <==> mkdirOk && !read.Unreadable?
      ensures (err.Some? || read.Missing?) ==> items == old(items) && queue == old(queue)
      ensures err.None? && read.Parsed? ==> items == Restored(read.savedItems) && queue == read.savedQueue
      ensures processing == old(processing)
    {
      if !mkdirOk {
        return Some("mkdir failed");
      }
      match read
      case Missing => return None;
      case Unreadable(e) => return Some(e);
      case Parsed(savedItems, savedQueue) =>
        var restored := map[];
        var i := 0;
        while i < |savedItems|
          invariant 0 <= i <= |savedItems|
          invariant restored == Restored(savedItems[..i])
        {
          var item := savedItems[i];
          if item.status == StatusUploading {
            item := item.(status := StatusPending);
          }
          assert savedItems[..i + 1][..i] == savedItems[..i];
          restored := restored[item.id := item];
          i := i + 1;
        }
        assert savedItems[..i] == savedItems;
        items := restored;
        queue := savedQueue;
        return None;
    }

    /** The insertion loop of `Add`. */
    method FindInsertIndex(priority: int) returns (i: nat)
      requires Valid()
      ensures i == InsertIndex(items, queue, priority)
    {
      i := 0;
      while i < |queue|
        invariant 0 <= i <= |queue|
        invariant forall j | 0 <= j < i :: !Outranked(items[queue[j]], priority)
      {
        if items[queue[i]].status == StatusPending && items[queue[i]].priority < priority {
          InsertIndexIsFirst(items, queue, priority, i);
          return;
        }
        i := i + 1;
      }
      InsertIndexIsFirst(items, queue, priority, i);
    }

    /** `Add`. Whether the file exists, the new ID, the clock and the order in
        which the cleanup enumerates the items are parameters. A full queue
        is cleaned up first and refused when it is still full. */
    method Add(dicomPath: GoString, fileExists: bool, patientInfo: map<GoString, GoString>, priority: int,
               id: GoString, now: Instant, order: seq<GoString>)
      returns (r: Result<GoString>)
      requires Valid()
      modifies this
      ensures Valid() && processing == old(processing)
      ensures !fileExists ==> r == Err("DICOM file not found: " + dicomPath)
                              && items == old(items) && queue == old(queue)
      ensures r.Ok? ==> r.value == id
      ensures r.Ok? <==> fileExists && |KeptItems(old(items), order)| < MaxItems
      ensures r.Err? && fileExists ==>
                items == KeptItems(old(items), order) && queue == KeptQueue(old(items), old(queue), order)
      ensures r.Ok? ==>
                var items' := KeptItems(old(items), order)[id := NewItem(id, dicomPath, patientInfo, priority, now)];
                var q := KeptQueue(old(items), old(queue), order);
                items == items' && queue == Inserted(q, InsertIndex(items', q, priority), id)
    {
      if !fileExists {
        return Err("DICOM file not found: " + dicomPath);
      }
      if |items| >= MaxItems {
        CleanupCompleted(order);
        if |items| >= MaxItems {
          return Err("queue is full (" + Itoa(|items|) + " items)");
        }
      }
      InsertItem(NewItem(id, dicomPath, patientInfo, priority, now));
      return Ok(id);
    }

    /** The second half of `Add`: the item is stored under its ID and its ID
        inserted at its priority's place. */
    method InsertItem(item: QueueItem)
      requires Valid()
      modifies this
      ensures items == old(items)[item.id := item]
      ensures queue == Inserted(old(queue), InsertIndex(items, old(queue), item.priority), item.id)
      ensures Valid() && processing == old(processing)
    {
      items := items[item.id := item];
      assert QueueValid(items, queue);
      var i := FindInsertIndex(item.priority);
      queue := Inserted(queue, i, item.id);
    }

    /** `GetStatus`: the number of items and of those in each of four states. */
    method GetStatus() returns (s: QueueStatus)
      ensures s.total == |items| && s.processing == processing
      ensures s.pending == CountIn(items, items.Keys, StatusPending)
      ensures s.uploading == CountIn(items, items.Keys, StatusUploading)
      ensures s.failed == CountIn(items, items.Keys, StatusFailed)
      ensures s.success == CountIn(items, items.Keys, StatusSuccess)
    {
      var pending, uploading, failed, success := 0, 0, 0, 0;
      var done: set<GoString> := {};
      while done != items.Keys
        invariant done <= items.Keys
        invariant pending == CountIn(items, done, StatusPending)
        invariant uploading == CountIn(items, done, StatusUploading)
        invariant failed == CountIn(items, done, StatusFailed)
        invariant success == CountIn(items, done, StatusSuccess)
        decreases |items.Keys - done|
      {
        var id :| id in items.Keys - done;
        CountInStep(items, done, id, StatusPending);
        CountInStep(items, done, id, StatusUploading);
        CountInStep(items, done, id, StatusFailed);
        CountInStep(items, done, id, StatusSuccess);
        var status := items[id].status;
        if status == StatusPending {
          pending := pending + 1;
        } else if status == StatusUploading {
          uploading := uploading + 1;
        } else if status == StatusFailed {
          failed := failed + 1;
        } else if status == StatusSuccess {
          success := success + 1;
        }
        assert (items.Keys - (done + {id})) < (items.Keys - done);
        done := done + {id};
      }
      s := QueueStatus(|items|, pending, uploading, failed, success, processing);
    }

    /** `GetItems`: in queue order, the items with the given status (all when
        `None`), stopping once `limit` are found when `limit` is positive. */
    method GetItems(status: Option<Status>, limit: int) returns (r: seq<QueueItem>)
      requires Valid()
      ensures r == Listed(items, queue, status, limit)
    {
      r := [];
      var i := 0;
      while i < |queue|
        invariant 0 <= i <= |queue|
        invariant QueueValid(items, queue[..i])
        invariant r == Matching(items, queue[..i], status)
        invariant limit > 0 ==> |r| < limit
      {
        var item := items[queue[i]];
        MatchingSnoc(items, queue, i, status);
        if status.None? || item.status == status.value {
          r := r + [item];
        }
        i := i + 1;
        if limit > 0 && |r| >= limit {
          MatchingPrefix(items, queue, i, status);
          return;
        }
      }
      assert queue[..i] == queue;
    }

    /** `Retry`: a failed item is pending again, with its attempts, message
        and error type reset; the queue order is left as it is, as the
        source's `reorderQueue` does nothing. */
    method Retry(id: GoString) returns (err: Option<GoString>)
      modifies this
      ensures id !in old(items) ==> err == Some("item not found: " + id) && items == old(items)
      ensures id in old(items) && old(items)[id].status != StatusFailed ==>
                err == Some("can only retry failed items") && items == old(items)
      ensures err.None? <==> id in old(items) && old(items)[id].status == StatusFailed
      ensures err.None? ==> items == old(items)[id := old(items)[id].(status := StatusPending, attemptCount := 0,
                                                                        errorMessage := "", errorType := ErrorNone)]
      ensures queue == old(queue) && processing == old(processing)
      ensures old(Valid()) ==> Valid()
    {
      if id !in items {
        return Some("item not found: " + id);
      }
      if items[id].status != StatusFailed {
        return Some("can only retry failed items");
      }
      items := items[id := items[id].(status := StatusPending, attemptCount := 0, errorMessage := "",
                                      errorType := ErrorNone)];
      return None;
    }

    /** `Cancel`: only a pending item can be cancelled; anything else is an
        error that changes nothing. */
    method Cancel(id: GoString) returns (err: Option<GoString>)
      modifies this
      ensures id !in old(items) ==> err == Some("item not found: " + id)
      ensures id in old(items) && old(items)[id].status != StatusPending ==> err == Some("can only cancel pending items")
      ensures err.None? <==> id in old(items) && old(items)[id].status == StatusPending
      ensures err.None? ==> items == old(items)[id := old(items)[id].(status := StatusCancelled)]
      ensures err.Some? ==> items == old(items)
      ensures queue == old(queue) && processing == old(processing)
      ensures old(Valid()) ==> Valid()
    {
      if id !in items {
        return Some("item not found: " + id);
      }
      if items[id].status != StatusPending {
        return Some("can only cancel pending items");
      }
      items := items[id := items[id].(status := StatusCancelled)];
      return None;
    }

    /** The search loop of `processNext`. */
    method NextPending() returns (next: Option<nat>)
      requires Valid()
      ensures next == FirstPending(items, queue)
    {
      var i := 0;
      while i < |queue|
        invariant 0 <= i <= |queue|
        invariant FirstPending(items, queue) == ShiftBy(FirstPending(items, queue[i..]), i)
      {
        if items[queue[i]].status == StatusPending {
          return Some(i);
        }
        assert queue[i..][1..] == queue[i + 1..];
        i := i + 1;
      }
      return None;
    }

    /** `processNext`: unless an upload is running, the first pending item is
        marked uploading (one more attempt, stamped `now`), handed to
        `upload`, and then marked successful or failed with the result's
        error; `processing` is false again afterwards. */
    method ProcessNext(now: Instant, upload: GoString -> StoreResult)
      requires Valid()
      modifies this
      ensures Valid() && queue == old(queue) && processing == old(processing)
      ensures old(processing) ==> items == old(items)
      ensures !old(processing) && FirstPending(old(items), old(queue)).None? ==> items == old(items)
      ensures !old(processing) && FirstPending(old(items), old(queue)).Some? ==>
                var id := old(queue)[FirstPending(old(items), old(queue)).value];
                var item := old(items)[id];
                var result := upload(item.dicomPath);
                items == old(items)[id := Finished(item.(lastAttempt := Some(now), attemptCount := item.attemptCount + 1),
                                                   result)]
    {
      if processing {
        return;
      }
      var next := NextPending();
      if next.None? {
        return;
      }
      var id := queue[next.value];
      var item := items[id];
      item := item.(status := StatusUploading, lastAttempt := Some(now), attemptCount := item.attemptCount + 1);
      items := items[id := item];
      processing := true;
      var result := upload(item.dicomPath);
      items := items[id := Finished(item, result)];
      processing := false;
    }

    /** `cleanupCompleted` as written: deletes from `items` only. */
    method CleanupCompletedAsWritten(order: seq<GoString>)
      modifies this
      ensures items == old(items) - Victims(old(items), order)
      ensures queue == old(queue) && processing == old(processing)
    {
      var successItems := SuccessScan(order);
      if |successItems| > KeptSuccesses {
        var i := 0;
        while i < |successItems| - KeptSuccesses
          invariant 0 <= i <= |successItems| - KeptSuccesses
          invariant items == old(items) - (set k | 0 <= k < i :: successItems[k])
          invariant queue == old(queue) && processing == old(processing)
        {
          assert (set k | 0 <= k < i + 1 :: successItems[k]) == (set k | 0 <= k < i :: successItems[k]) + {successItems[i]};
          items := items - {successItems[i]};
          i := i + 1;
        }
      }
    }

    /** `cleanupCompleted` as evidently intended: the deleted IDs leave the
        queue too, so every queued ID still names an item. */
    method CleanupCompleted(order: seq<GoString>)
      modifies this
      ensures items == old(items) - Victims(old(items), order)
      ensures queue == Without(old(queue), Victims(old(items), order))
      ensures processing == old(processing)
      ensures old(Valid()) ==> Valid()
    {
      var victims := Victims(items, order);
      CleanupCompletedAsWritten(order);
      queue := Without(queue, victims);
    }

    /** The collecting loop of `cleanupCompleted`, over the map in `order`. */
    method SuccessScan(order: seq<GoString>) returns (ids: seq<GoString>)
      ensures ids == SuccessIds(items, order)
    {
      ids := [];
      var i := |order|;
      while i > 0
        invariant 0 <= i <= |order|
        invariant ids == SuccessIds(items, order[i..])
      {
        i := i - 1;
        assert order[i..][1..] == order[i + 1..];
        if order[i] in items && items[order[i]].status == StatusSuccess {
          ids := [order[i]] + ids;
        }
      }
    }
  }

  /** The status update after the upload. */
  function Finished(item: QueueItem, result: StoreResult): (r: QueueItem)
    ensures r.status == (if result.success then StatusSuccess else StatusFailed)
    ensures r.errorMessage == (if result.success then "" else result.errorMessage)
  {
    if result.success then item.(status := StatusSuccess, errorMessage := "", errorType := ErrorNone)
    else item.(status := StatusFailed, errorMessage := result.errorMessage, errorType := result.errorType)
  }

  function ShiftBy(r: Option<nat>, i: nat): Option<nat>
  {
    if r.None? then None else Some(r.value + i)
  }

  lemma InsertIndexIsFirst(items: map<GoString, QueueItem>, queue: seq<GoString>, p: int, i: nat)
    requires QueueValid(items, queue) && i <= |queue|
    requires forall j | 0 <= j < i :: !Outranked(items[queue[j]], p)
    requires i < |queue| ==> Outranked(items[queue[i]], p)
    ensures InsertIndex(items, queue, p) == i
  {
  }

  lemma {:induction false} MatchingPrefix(items: map<GoString, QueueItem>, queue: seq<GoString>, n: nat,
                                          status: Option<Status>)
    requires QueueValid(items, queue) && n <= |queue|
    ensures QueueValid(items, queue[..n])
    ensures |Matching(items, queue[..n], status)| <= |Matching(items, queue, status)|
    ensures Matching(items, queue[..n], status) == Matching(items, queue, status)[..|Matching(items, queue[..n], status)|]
    decreases |queue| - n
  {
    if n < |queue| {
      MatchingPrefix(items, queue, n + 1, status);
      MatchingSnoc(items, queue, n, status);
    } else {
      assert queue[..n] == queue;
    }
  }

  lemma MatchingSnoc(items: map<GoString, QueueItem>, queue: seq<GoString>, n: nat, status: Option<Status>)
    requires QueueValid(items, queue) && n < |queue|
    ensures QueueValid(items, queue[..n]) && QueueValid(items, queue[..n + 1])
    ensures var item := items[queue[n]];
            Matching(items, queue[..n + 1], status)
            == Matching(items, queue[..n], status) + (if status.None? || item.status == status.value then [item] else [])
  {
    assert queue[..n + 1][..n] == queue[..n];
  }

  /** An item that stops being pending (cancelled, or taken for upload and
      finished) leaves the remaining pending items in order. */
  lemma UnpendKeepsOrder(items: map<GoString, QueueItem>, queue: seq<GoString>, id: GoString, item: QueueItem)
    requires QueueValid(items, queue) && PendingOrdered(items, queue)
    requires id in items && item.status != StatusPending
    ensures QueueValid(items[id := item], queue) && PendingOrdered(items[id := item], queue)
  {
    var items' := items[id := item];
    forall i, j | 0 <= i < j < |queue| && items'[queue[i]].status == StatusPending
                                        && items'[queue[j]].status == StatusPending
      ensures items'[queue[i]].priority >= items'[queue[j]].priority
    {
      assert queue[i] != id && queue[j] != id;
    }
  }
}
