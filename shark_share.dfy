/** The transfer queue of `apps/SharkShare.tsx`: nearby devices appear one by
    one while the machine is discoverable, a click queues an idle device, the
    queue feeds one transfer at a time, a transfer's interval raises its
    progress by 5 until 100, and a cool-down timer then makes the device idle
    again. */
module SharkShare {
  import Seqs
  import opened Types

  /** `Device['type']`. */
  datatype DeviceKind = Smartphone | Laptop | Tablet

  /** `Device['status']`. */
  datatype Status = Idle | Sending | Completed | Failed | Queued

  /** `interface Device`. */
  datatype Device = Device(id: string, name: string, kind: DeviceKind, status: Status, progress: int)

  /** The four devices the scan finds, in the order it finds them. */
  const FoundDevices: seq<Device> := [
    Device("1", "Diver's Phone", Smartphone, Idle, 0),
    Device("2", "Research Tablet", Tablet, Idle, 0),
    Device("3", "Control Station", Laptop, Idle, 0),
    Device("4", "Submersible Link", Laptop, Idle, 0)
  ]

  /** The progress added by each tick of a transfer's interval. */
  const Step: int := 5

  /** A running transfer interval: its device and its local `progress`. */
  datatype Transfer = Transfer(deviceId: string, progress: int)

  /** A device as the scan found it. */
  function Base(d: Device): Device {
    d.(status := Idle, progress := 0)
  }

  /** Whether some listed device has id `id`. */
  predicate Listed(devs: seq<Device>, id: string) {
    exists i :: 0 <= i < |devs| && devs[i].id == id
  }

  /** No two listed devices share an id. */
  predicate DistinctIds(devs: seq<Device>) {
    forall i, j :: 0 <= i < j < |devs| ==> devs[i].id != devs[j].id
  }

  /** `devs.map(d => d.id === id ? { ...d, status: st, progress: p } : d)`. */
  function SetState(devs: seq<Device>, id: string, st: Status, p: int): (r: seq<Device>)
    ensures |r| == |devs|
    ensures forall i :: 0 <= i < |devs| ==>
      r[i] == if devs[i].id == id then devs[i].(status := st, progress := p) else devs[i]
  {
    seq(|devs|, i requires 0 <= i < |devs| => if devs[i].id == id then devs[i].(status := st, progress := p) else devs[i])
  }

  /** `devs.map(d => d.id === id ? { ...d, progress: p } : d)`. */
  function SetProgress(devs: seq<Device>, id: string, p: int): (r: seq<Device>)
    ensures |r| == |devs|
    ensures forall i :: 0 <= i < |devs| ==>
      r[i] == if devs[i].id == id then devs[i].(progress := p) else devs[i]
  {
    seq(|devs|, i requires 0 <= i < |devs| => if devs[i].id == id then devs[i].(progress := p) else devs[i])
  }

  /** The device list after a tick that brought the transfer of `id` to
      progress `p`: completed at exactly 100 once `p` reaches 100, otherwise
      only the progress moves. */
  function TickedDevices(devs: seq<Device>, id: string, p: int): (r: seq<Device>)
    ensures |r| == |devs|
    ensures forall i :: 0 <= i < |devs| && devs[i].id != id ==> r[i] == devs[i]
    ensures forall i :: 0 <= i < |devs| && devs[i].id == id ==>
      Base(r[i]) == Base(devs[i]) &&
      (if p >= 100 then r[i].status == Completed && r[i].progress == 100
       else r[i].status == devs[i].status && r[i].progress == p)
  {
    if p >= 100 then SetState(devs, id, Completed, 100) else SetProgress(devs, id, p)
  }

  /** Status and progress updates keep every device's base, so they keep
      every id in place, the ids distinct and the list a scanned prefix. */
  lemma SameBasesKeepScan(devs: seq<Device>, r: seq<Device>)
    requires |r| == |devs| && forall i :: 0 <= i < |devs| ==> Base(r[i]) == Base(devs[i])
    ensures forall i :: 0 <= i < |devs| ==> r[i].id == devs[i].id
    ensures DistinctIds(devs) ==> DistinctIds(r)
    ensures ScannedPrefix(devs) ==> ScannedPrefix(r)
  {
    assert forall i :: 0 <= i < |devs| ==> r[i].id == Base(r[i]).id;
  }

  /** A list with the same ids in the same places lists every id in `xs`
      the old list did. */
  lemma ListedKept(devs: seq<Device>, r: seq<Device>, xs: seq<string>)
    requires |r| == |devs| && forall i :: 0 <= i < |devs| ==> r[i].id == devs[i].id
    requires forall k :: 0 <= k < |xs| ==> Listed(devs, xs[k])
    ensures forall k :: 0 <= k < |xs| ==> Listed(r, xs[k])
  {
    forall k | 0 <= k < |xs| ensures Listed(r, xs[k]) {
      var i :| 0 <= i < |devs| && devs[i].id == xs[k];
      assert r[i].id == xs[k];
    }
  }

  /** The listed devices are, apart from status and progress, the first ones
      the scan finds. */
  predicate ScannedPrefix(devs: seq<Device>) {
    |devs| <= |FoundDevices| && forall i :: 0 <= i < |devs| ==> Base(devs[i]) == FoundDevices[i]
  }

  /** The scan finds devices with different ids. */
  lemma FoundIdsDistinct()
    ensures forall i, j :: 0 <= i < j < |FoundDevices| ==> FoundDevices[i].id != FoundDevices[j].id
  {
  }

  /** So no two listed devices share an id, and the next device the scan
      finds has an id not listed yet. */
  lemma ScannedIds(devs: seq<Device>)
    requires ScannedPrefix(devs)
    ensures DistinctIds(devs)
    ensures |devs| < |FoundDevices| ==> !Listed(devs, FoundDevices[|devs|].id)
  {
    FoundIdsDistinct();
    assert forall i :: 0 <= i < |devs| ==> devs[i].id == FoundDevices[i].id;
  }

  /** The application's transfer state: the device list, the queue of device
      ids, the active transfer, the transfer intervals still running and the
      pending 2-second cool-down timers, oldest first (equal delays fire in
      order). */
  datatype Board = Board(devices: seq<Device>, queue: seq<string>, active: Option<string>,
                         tickers: seq<Transfer>, cooldowns: seq<string>)

  /** Nothing found, queued, active or pending. */
  const EmptyBoard: Board := Board([], [], None, [], [])

  /** A discovery timer firing: the next device of the scan's list appears. */
  function Discovered(b: Board): Board
    requires |b.devices| < |FoundDevices|
  {
    b.(devices := b.devices + [FoundDevices[|b.devices|]])
  }

  /** addToQueue for the `k`-th listed device. */
  function Enqueued(b: Board, k: nat): Board
    requires k < |b.devices|
  {
    var id := b.devices[k].id;
    b.(devices := SetState(b.devices, id, Queued, 0), queue := b.queue + [id])
  }

  /** The queue effect followed by performTransfer for the head of the queue. */
  function Started(b: Board): Board
    requires b.queue != []
  {
    var id := b.queue[0];
    b.(queue := b.queue[1..], active := Some(id), devices := SetState(b.devices, id, Sending, 0),
       tickers := [Transfer(id, 0)])
  }

  /** One tick of the running interval; at 100 the interval stops, the active
      transfer is released and the cool-down is scheduled. */
  function AfterTick(b: Board): Board
    requires b.tickers != []
  {
    var t := b.tickers[0];
    var p := t.progress + Step;
    var devs := TickedDevices(b.devices, t.deviceId, p);
    if p >= 100 then b.(devices := devs, tickers := [], active := None, cooldowns := b.cooldowns + [t.deviceId])
    else b.(devices := devs, tickers := [Transfer(t.deviceId, p)])
  }

  /** The oldest cool-down timer firing: its device goes back to idle at 0,
      whatever it is doing now. */
  function CooledDown(b: Board): Board
    requires b.cooldowns != []
  {
    b.(devices := SetState(b.devices, b.cooldowns[0], Idle, 0), cooldowns := b.cooldowns[1..])
  }

  /** The scan effect when the scan stops, as written: the list, the queue
      and the active transfer are cleared, running intervals and cool-down
      timers are not. */
  function Cleared(b: Board): Board {
    b.(devices := [], queue := [], active := None)
  }

  /** The scan effect when the scan restarts: the list is cleared and the
      discovery timers are scheduled again. */
  function Rescanned(b: Board): Board {
    b.(devices := [])
  }

  /** What every step keeps as written, while the scan is `searching` or not:
      the devices are a scanned prefix with progress in [0, 100], nothing is
      listed, queued or active while the scan is off, at most one interval
      runs and it stands at a multiple of 5 below 100, the active transfer is
      that interval's, no interval outlives its transfer once devices are
      listed, and every queued id is listed. */
  ghost predicate ValidState(searching: bool, b: Board) {
    ScannedPrefix(b.devices) &&
    (forall i :: 0 <= i < |b.devices| ==> 0 <= b.devices[i].progress <= 100) &&
    (!searching ==> b.devices == [] && b.queue == [] && b.active.None?) &&
    |b.tickers| <= 1 &&
    (b.tickers != [] ==> 0 <= b.tickers[0].progress < 100 && b.tickers[0].progress % Step == 0) &&
    (b.active.Some? ==> b.tickers != [] && b.tickers[0].deviceId == b.active.value) &&
    (b.devices != [] ==> b.tickers == [] || b.active.Some?) &&
    (forall k :: 0 <= k < |b.queue| ==> Listed(b.devices, b.queue[k]))
  }

  /** The status cycle idle -> queued -> sending -> completed -> idle: a
      device is sending exactly when it is the active transfer, queued exactly
      when it is in the queue, completed exactly when its cool-down is
      pending, and never failed. */
  ghost predicate StatusCycle(b: Board) {
    var devs := b.devices;
    (forall i :: 0 <= i < |devs| ==> devs[i].status != Failed) &&
    (forall i :: 0 <= i < |devs| ==> (devs[i].status == Sending <==> b.active == Some(devs[i].id))) &&
    (forall i :: 0 <= i < |devs| ==> (devs[i].status == Queued <==> devs[i].id in b.queue)) &&
    (forall i :: 0 <= i < |devs| ==> (devs[i].status == Completed <==> devs[i].id in b.cooldowns))
  }

  /** Idle and queued devices stand at 0, completed ones at 100, the sending
      one at its interval's progress. */
  ghost predicate ProgressByStatus(b: Board) {
    var devs := b.devices;
    (forall i :: 0 <= i < |devs| && (devs[i].status == Idle || devs[i].status == Queued) ==> devs[i].progress == 0) &&
    (forall i :: 0 <= i < |devs| && devs[i].status == Completed ==> devs[i].progress == 100) &&
    (forall i :: 0 <= i < |devs| && devs[i].status == Sending ==> b.tickers != [] && devs[i].progress == b.tickers[0].progress)
  }

  /** No id is queued or cooling down twice, every active or cooling-down id
      is listed, and every running interval belongs to the active transfer. */
  ghost predicate Bookkeeping(b: Board) {
    Seqs.Distinct(b.queue) && Seqs.Distinct(b.cooldowns) &&
    (forall k :: 0 <= k < |b.cooldowns| ==> Listed(b.devices, b.cooldowns[k])) &&
    (b.active.Some? ==> Listed(b.devices, b.active.value)) &&
    (b.tickers == [] || b.active.Some?)
  }

  /** The whole status cycle with its progress and bookkeeping. */
  ghost predicate OrderlyState(b: Board) {
    StatusCycle(b) && ProgressByStatus(b) && Bookkeeping(b)
  }

  /** In an orderly state at most one device is sending, and it is the active
      transfer. */
  lemma AtMostOneSending(b: Board)
    requires DistinctIds(b.devices) && OrderlyState(b)
    ensures forall i, j ::
      0 <= i < |b.devices| && 0 <= j < |b.devices| && b.devices[i].status == Sending && b.devices[j].status == Sending ==> i == j
    ensures forall i :: 0 <= i < |b.devices| && b.devices[i].status == Sending ==> b.active == Some(b.devices[i].id)
  {
  }

  /** A discovery appends the next scanned device, idle at 0. Discovery comes
      1.5 seconds after the scan starts, later than the one second an earlier
      transfer needs to finish, hence the second requirement. */
  lemma DiscoverValid(b: Board)
    requires ValidState(true, b) && |b.devices| < |FoundDevices|
    requires b.tickers == [] || b.active.Some?
    ensures ValidState(true, Discovered(b))
  {
    var r := Discovered(b).devices;
    ListedKept(b.devices, r[..|b.devices|], b.queue);
    forall k | 0 <= k < |b.queue| ensures Listed(r, b.queue[k]) {
      var i :| 0 <= i < |b.devices| && r[..|b.devices|][i].id == b.queue[k];
      assert r[i].id == b.queue[k];
    }
  }

  /** Appending a device keeps every listed id listed. */
  lemma ListedAppend(devs: seq<Device>, d: Device, x: string)
    requires Listed(devs, x)
    ensures Listed(devs + [d], x)
  {
    var i :| 0 <= i < |devs| && devs[i].id == x;
    assert (devs + [d])[i].id == x;
  }

  /** The device a discovery adds is idle under an id nothing refers to, so
      the statuses still match the lists. */
  lemma DiscoverCycle(b: Board)
    requires StatusCycle(b) && |b.devices| < |FoundDevices| && !Listed(b.devices, FoundDevices[|b.devices|].id)
    requires forall k :: 0 <= k < |b.queue| ==> Listed(b.devices, b.queue[k])
    requires forall k :: 0 <= k < |b.cooldowns| ==> Listed(b.devices, b.cooldowns[k])
    requires b.active.Some? ==> Listed(b.devices, b.active.value)
    ensures StatusCycle(Discovered(b))
  {
    var d := FoundDevices[|b.devices|];
    assert forall k :: 0 <= k < |b.queue| ==> b.queue[k] != d.id;
    assert forall k :: 0 <= k < |b.cooldowns| ==> b.cooldowns[k] != d.id;
  }

  /** The device a discovery adds stands at 0. */
  lemma DiscoverProgress(b: Board)
    requires ProgressByStatus(b) && |b.devices| < |FoundDevices|
    ensures ProgressByStatus(Discovered(b))
  {
  }

  /** A discovery keeps every id listed. */
  lemma DiscoverBookkeeping(b: Board)
    requires Bookkeeping(b) && |b.devices| < |FoundDevices|
    ensures Bookkeeping(Discovered(b))
  {
    var d := FoundDevices[|b.devices|];
    forall k | 0 <= k < |b.cooldowns| ensures Listed(b.devices + [d], b.cooldowns[k]) {
      ListedAppend(b.devices, d, b.cooldowns[k]);
    }
    if b.active.Some? {
      ListedAppend(b.devices, d, b.active.value);
    }
  }

  /** A discovery keeps the status cycle. */
  lemma DiscoverOrderly(b: Board)
    requires ValidState(true, b) && |b.devices| < |FoundDevices| && OrderlyState(b)
    ensures OrderlyState(Discovered(b))
  {
    ScannedIds(b.devices);
    DiscoverCycle(b);
    DiscoverProgress(b);
    DiscoverBookkeeping(b);
  }

  /** addToQueue: the device becomes queued at 0 and goes to the back of the
      queue. */
  lemma EnqueueValid(searching: bool, b: Board, k: nat)
    requires ValidState(searching, b) && k < |b.devices|
    ensures ValidState(searching, Enqueued(b, k))
  {
    var id := b.devices[k].id;
    SameBasesKeepScan(b.devices, SetState(b.devices, id, Queued, 0));
    assert Listed(b.devices, id);
    ListedKept(b.devices, Enqueued(b, k).devices, b.queue + [id]);
  }

  /** Queueing an idle device: it was neither sending nor cooling down, and
      it is queued now. */
  lemma EnqueueCycle(b: Board, k: nat)
    requires StatusCycle(b) && k < |b.devices| && b.devices[k].status == Idle
    ensures StatusCycle(Enqueued(b, k))
  {
  }

  /** A queued device stands at 0. */
  lemma EnqueueProgress(b: Board, k: nat)
    requires ProgressByStatus(b) && k < |b.devices|
    ensures ProgressByStatus(Enqueued(b, k))
  {
  }

  /** An idle device was not queued, so the queue stays free of repeats. */
  lemma EnqueueBookkeeping(b: Board, k: nat)
    requires Bookkeeping(b) && StatusCycle(b) && k < |b.devices| && b.devices[k].status == Idle
    ensures Bookkeeping(Enqueued(b, k))
  {
    var id := b.devices[k].id;
    var r := Enqueued(b, k).devices;
    SameBasesKeepScan(b.devices, r);
    Seqs.AppendDistinct(b.queue, id);
    ListedKept(b.devices, r, b.cooldowns);
    if b.active.Some? {
      ListedKept(b.devices, r, [b.active.value]);
    }
  }

  /** When the device was idle, queueing it keeps the status cycle. */
  lemma EnqueueOrderly(searching: bool, b: Board, k: nat)
    requires ValidState(searching, b) && OrderlyState(b)
    requires k < |b.devices| && b.devices[k].status == Idle
    ensures OrderlyState(Enqueued(b, k))
  {
    EnqueueCycle(b, k);
    EnqueueProgress(b, k);
    EnqueueBookkeeping(b, k);
  }

  /** The queue effect with no active transfer: the head leaves the queue,
      becomes the active transfer, is sending at 0, and its interval starts;
      at that point no earlier interval is running. */
  lemma StartValid(searching: bool, b: Board)
    requires ValidState(searching, b) && b.active.None? && b.queue != []
    ensures b.tickers == [] && searching
    ensures ValidState(searching, Started(b))
  {
    SameBasesKeepScan(b.devices, SetState(b.devices, b.queue[0], Sending, 0));
    assert forall k :: 0 <= k < |b.queue[1..]| ==> b.queue[1..][k] == b.queue[k + 1];
    ListedKept(b.devices, Started(b).devices, b.queue[1..]);
  }

  /** Starting the head of the queue: with no active transfer nothing was
      sending; the head, queued once and listed, is now the one sending. */
  lemma StartCycle(b: Board)
    requires StatusCycle(b) && b.active.None? && b.queue != [] && Seqs.Distinct(b.queue)
    requires Listed(b.devices, b.queue[0])
    ensures StatusCycle(Started(b))
  {
    var id := b.queue[0];
    var r := Started(b).devices;
    Seqs.TailDistinct(b.queue);
    forall i | 0 <= i < |r| ensures r[i].status == Queued <==> r[i].id in b.queue[1..] {
      if b.devices[i].id != id {
        assert b.devices[i].id in b.queue <==> b.devices[i].id in b.queue[1..];
      }
    }
  }

  /** The device that starts stands at 0, like its new interval. */
  lemma StartProgress(b: Board)
    requires StatusCycle(b) && ProgressByStatus(b) && b.active.None? && b.queue != []
    ensures ProgressByStatus(Started(b))
  {
  }

  /** The head leaves the queue and becomes the active transfer, still
      listed. */
  lemma StartBookkeeping(b: Board)
    requires Bookkeeping(b) && b.queue != [] && Listed(b.devices, b.queue[0])
    ensures Bookkeeping(Started(b))
  {
    var id := b.queue[0];
    var r := Started(b).devices;
    SameBasesKeepScan(b.devices, r);
    Seqs.TailDistinct(b.queue);
    ListedKept(b.devices, r, b.cooldowns);
    ListedKept(b.devices, r, [id]);
  }

  /** Starting the head of the queue keeps the status cycle. */
  lemma StartOrderly(searching: bool, b: Board)
    requires ValidState(searching, b) && OrderlyState(b) && b.active.None? && b.queue != []
    ensures OrderlyState(Started(b))
  {
    assert Listed(b.devices, b.queue[0]);
    StartCycle(b);
    StartProgress(b);
    StartBookkeeping(b);
  }

  /** One tick of the running interval. */
  lemma TickValid(searching: bool, b: Board)
    requires ValidState(searching, b) && b.tickers != []
    ensures ValidState(searching, AfterTick(b))
  {
    var t := b.tickers[0];
    SameBasesKeepScan(b.devices, TickedDevices(b.devices, t.deviceId, t.progress + Step));
    ListedKept(b.devices, AfterTick(b).devices, b.queue);
  }

  /** A tick below 100 changes no status and none of the lists. */
  lemma TickOnCycle(b: Board)
    requires StatusCycle(b) && b.tickers != [] && b.tickers[0].progress + Step < 100
    ensures StatusCycle(AfterTick(b))
  {
  }

  /** A tick below 100 moves exactly the devices of the active transfer, which
      are the sending ones, to the interval's new progress. */
  lemma TickOnProgress(b: Board)
    requires StatusCycle(b) && ProgressByStatus(b) && b.tickers != [] && b.tickers[0].progress + Step < 100
    requires b.active == Some(b.tickers[0].deviceId)
    ensures ProgressByStatus(AfterTick(b))
  {
  }

  /** A tick below 100 keeps the ids in place, so every id is still listed. */
  lemma TickOnBookkeeping(b: Board)
    requires Bookkeeping(b) && b.tickers != [] && b.tickers[0].progress + Step < 100
    ensures Bookkeeping(AfterTick(b))
  {
    var r := AfterTick(b).devices;
    SameBasesKeepScan(b.devices, r);
    ListedKept(b.devices, r, b.cooldowns);
    if b.active.Some? {
      ListedKept(b.devices, r, [b.active.value]);
    }
  }

  /** A tick below 100 only moves the sending device's progress, so it
      keeps the status cycle. */
  lemma TickOnOrderly(searching: bool, b: Board)
    requires ValidState(searching, b) && OrderlyState(b) && b.tickers != []
    requires b.tickers[0].progress + Step < 100
    ensures OrderlyState(AfterTick(b))
  {
    TickOnCycle(b);
    TickOnProgress(b);
    TickOnBookkeeping(b);
  }

  /** The tick that reaches 100 completes the sending device and leaves only
      its cool-down pending. */
  lemma TickDoneStatus(b: Board)
    requires StatusCycle(b) && b.tickers != [] && b.tickers[0].progress + Step >= 100
    requires b.active == Some(b.tickers[0].deviceId) && Listed(b.devices, b.tickers[0].deviceId)
    ensures b.tickers[0].deviceId !in b.cooldowns && b.tickers[0].deviceId !in b.queue
    ensures StatusCycle(AfterTick(b))
  {
    var t := b.tickers[0];
    var i :| 0 <= i < |b.devices| && b.devices[i].id == t.deviceId;
    assert b.devices[i].status == Sending;
  }

  /** The completed device stands at exactly 100, and nothing is left
      sending without an interval. */
  lemma TickDoneProgress(b: Board)
    requires StatusCycle(b) && ProgressByStatus(b) && b.tickers != [] && b.tickers[0].progress + Step >= 100
    requires b.active == Some(b.tickers[0].deviceId)
    ensures ProgressByStatus(AfterTick(b))
  {
  }

  /** The completed device goes to the back of the cool-downs, where it was
      not yet. */
  lemma TickDoneBookkeeping(b: Board)
    requires Bookkeeping(b) && b.tickers != [] && b.tickers[0].progress + Step >= 100
    requires Listed(b.devices, b.tickers[0].deviceId) && b.tickers[0].deviceId !in b.cooldowns
    ensures Bookkeeping(AfterTick(b))
  {
    var t := b.tickers[0];
    var r := AfterTick(b).devices;
    SameBasesKeepScan(b.devices, r);
    Seqs.AppendDistinct(b.cooldowns, t.deviceId);
    ListedKept(b.devices, r, b.cooldowns + [t.deviceId]);
  }

  /** The tick that reaches 100 keeps the status cycle. */
  lemma TickDoneOrderly(searching: bool, b: Board)
    requires ValidState(searching, b) && OrderlyState(b) && b.tickers != []
    requires b.tickers[0].progress + Step >= 100
    ensures OrderlyState(AfterTick(b))
  {
    assert Listed(b.devices, b.tickers[0].deviceId);
    TickDoneStatus(b);
    TickDoneProgress(b);
    TickDoneBookkeeping(b);
  }

  /** A cool-down firing keeps every step's invariant. */
  lemma CooldownValid(searching: bool, b: Board)
    requires ValidState(searching, b) && b.cooldowns != []
    ensures ValidState(searching, CooledDown(b))
  {
    SameBasesKeepScan(b.devices, SetState(b.devices, b.cooldowns[0], Idle, 0));
    ListedKept(b.devices, CooledDown(b).devices, b.queue);
  }

  /** The oldest cool-down firing makes its completed device idle and drops
      it from the pending cool-downs. */
  lemma CooldownStatus(b: Board)
    requires StatusCycle(b) && b.cooldowns != [] && Seqs.Distinct(b.cooldowns)
    requires Listed(b.devices, b.cooldowns[0])
    ensures StatusCycle(CooledDown(b))
  {
    var id := b.cooldowns[0];
    var r := CooledDown(b).devices;
    var rest := b.cooldowns[1..];
    Seqs.TailDistinct(b.cooldowns);
    var j :| 0 <= j < |b.devices| && b.devices[j].id == id;
    assert b.devices[j].status == Completed;
    forall i | 0 <= i < |r| ensures r[i].status == Completed <==> r[i].id in rest {
      if b.devices[i].id != id {
        assert b.devices[i].id in b.cooldowns <==> b.devices[i].id in rest;
      }
    }
  }

  /** The device the cool-down makes idle stands at 0. */
  lemma CooldownProgress(b: Board)
    requires ProgressByStatus(b) && b.cooldowns != []
    ensures ProgressByStatus(CooledDown(b))
  {
  }

  /** The rest of the cool-downs stay free of repeats and listed. */
  lemma CooldownBookkeeping(b: Board)
    requires Bookkeeping(b) && b.cooldowns != []
    ensures Bookkeeping(CooledDown(b))
  {
    var r := CooledDown(b).devices;
    var rest := b.cooldowns[1..];
    SameBasesKeepScan(b.devices, r);
    Seqs.TailDistinct(b.cooldowns);
    assert forall k :: 0 <= k < |rest| ==> rest[k] == b.cooldowns[k + 1];
    ListedKept(b.devices, r, rest);
    if b.active.Some? {
      ListedKept(b.devices, r, [b.active.value]);
    }
  }

  /** The oldest cool-down firing keeps the status cycle. */
  lemma CooldownOrderly(searching: bool, b: Board)
    requires ValidState(searching, b) && OrderlyState(b) && b.cooldowns != []
    ensures OrderlyState(CooledDown(b))
  {
    CooldownStatus(b);
    CooldownProgress(b);
    CooldownBookkeeping(b);
  }

  /** Stopping and restarting the scan keep every step's invariant. */
  lemma ClearValid(searching: bool, b: Board)
    requires ValidState(searching, b)
    ensures ValidState(false, Cleared(b)) && ValidState(true, Rescanned(Cleared(b)))
    ensures !searching ==> ValidState(true, Rescanned(b))
  {
  }

  /** As written, stopping the scan in the middle of a transfer's cool-down
      and finding the same device again lets the stale cool-down reset it to
      idle while it is being sent: the active transfer is still "1" but no
      device is sending. */
  lemma StaleCooldownBreaksCycle()
    ensures var b0 := AfterTick(Board([FoundDevices[0].(status := Sending, progress := 95)], [], Some("1"),
                                      [Transfer("1", 95)], []));
      b0.cooldowns == ["1"] && OrderlyState(b0) &&
      var b1 := Started(Enqueued(Discovered(Rescanned(Cleared(b0))), 0));
      b1.devices[0].status == Sending && b1.active == Some("1") &&
      var b2 := CooledDown(b1);
      b2.active == Some("1") && b2.devices[0].status == Idle && !OrderlyState(b2)
  {
    var b0 := AfterTick(Board([FoundDevices[0].(status := Sending, progress := 95)], [], Some("1"),
                              [Transfer("1", 95)], []));
    assert b0.devices[0].id == "1";
    assert Listed(b0.devices, "1");
    var b1 := Started(Enqueued(Discovered(Rescanned(Cleared(b0))), 0));
    assert b1.devices[0].id == "1" && b1.devices[0].status == Sending;
    assert Listed(b1.devices, "1");
    var b2 := CooledDown(b1);
    assert b2.devices[0].status == Idle;
  }

  /** With the timers cancelled when the scan stops, the same sequence
      starts from an empty board: the device found again is being sent, no
      cool-down is pending that could interrupt it, and the status cycle
      holds. */
  lemma CancelledRescanKeepsCycle()
    ensures var b1 := Started(Enqueued(Discovered(Rescanned(EmptyBoard)), 0));
      b1.devices[0].status == Sending && b1.active == Some("1") && b1.cooldowns == [] && OrderlyState(b1)
  {
    var b0 := Rescanned(EmptyBoard);
    DiscoverValid(b0);
    DiscoverOrderly(b0);
    var b2 := Enqueued(Discovered(b0), 0);
    EnqueueValid(true, Discovered(b0), 0);
    EnqueueOrderly(true, Discovered(b0), 0);
    StartValid(true, b2);
    StartOrderly(true, b2);
  }

  /** The board after `n` more ticks of the interval, if it runs that long. */
  function Run(b: Board, n: nat): Board
    decreases n
  {
    if n == 0 || b.tickers == [] then b else Run(AfterTick(b), n - 1)
  }

  /** A transfer at progress `p` completes after exactly (100 - p) / 5 more
      ticks: until then its interval keeps running, and then the interval is
      gone, the active transfer is released, the device is completed at
      exactly 100, its cool-down is pending, and nothing else has changed. */
  lemma {:induction false} RunCompletes(searching: bool, b: Board, n: nat)
    requires ValidState(searching, b) && b.tickers != []
    requires n == (100 - b.tickers[0].progress) / Step
    ensures forall m :: 0 <= m < n ==> Run(b, m).tickers != []
    ensures var r := Run(b, n); var id := b.tickers[0].deviceId;
      r.tickers == [] && r.active.None? && r.queue == b.queue && r.cooldowns == b.cooldowns + [id] &&
      |r.devices| == |b.devices| &&
      (forall i :: 0 <= i < |b.devices| && b.devices[i].id != id ==> r.devices[i] == b.devices[i]) &&
      (forall i :: 0 <= i < |b.devices| && b.devices[i].id == id ==>
        r.devices[i] == b.devices[i].(status := Completed, progress := 100))
    ensures ValidState(searching, Run(b, n))
    decreases n
  {
    var t := b.tickers[0];
    var b' := AfterTick(b);
    TickValid(searching, b);
    if t.progress + Step >= 100 {
      assert n == 1;
      assert Run(b, 0) == b;
      assert Run(b, 1) == Run(b', 0) == b';
    } else {
      assert n - 1 == (100 - b'.tickers[0].progress) / Step;
      RunCompletes(searching, b', n - 1);
      assert Run(b, n) == Run(b', n - 1);
      forall m | 0 <= m < n ensures Run(b, m).tickers != [] {
        if m > 0 {
          assert Run(b, m) == Run(b', m - 1);
        }
      }
    }
  }

  /** And the status cycle still holds once it has completed. */
  lemma {:induction false} RunOrderly(searching: bool, b: Board, n: nat)
    requires ValidState(searching, b) && OrderlyState(b)
    ensures OrderlyState(Run(b, n))
    decreases n
  {
    if n > 0 && b.tickers != [] {
      TickValid(searching, b);
      if b.tickers[0].progress + Step < 100 {
        TickOnOrderly(searching, b);
      } else {
        TickDoneOrderly(searching, b);
      }
      RunOrderly(searching, AfterTick(b), n - 1);
    }
  }

  /** A discovery keeps the step invariant, and the status cycle when it
      held. */
  lemma DiscoverKeeps(b: Board)
    requires ValidState(true, b) && |b.devices| < |FoundDevices|
    requires b.tickers == [] || b.active.Some?
    ensures ValidState(true, Discovered(b))
    ensures OrderlyState(b) ==> OrderlyState(Discovered(b))
  {
    DiscoverValid(b);
    if OrderlyState(b) {
      DiscoverOrderly(b);
    }
  }

  /** Queueing the `k`-th device keeps the step invariant, and the status
      cycle when it held and the device was idle. */
  lemma EnqueueKeeps(searching: bool, b: Board, k: nat)
    requires ValidState(searching, b) && k < |b.devices|
    ensures ValidState(searching, Enqueued(b, k))
    ensures OrderlyState(b) && b.devices[k].status == Idle ==> OrderlyState(Enqueued(b, k))
  {
    EnqueueValid(searching, b, k);
    if OrderlyState(b) && b.devices[k].status == Idle {
      EnqueueOrderly(searching, b, k);
    }
  }

  /** Starting the head of the queue keeps the step invariant, and the
      status cycle when it held. */
  lemma StartKeeps(searching: bool, b: Board)
    requires ValidState(searching, b) && b.active.None? && b.queue != []
    ensures ValidState(searching, Started(b))
    ensures OrderlyState(b) ==> OrderlyState(Started(b))
  {
    StartValid(searching, b);
    if OrderlyState(b) {
      StartOrderly(searching, b);
    }
  }

  /** A tick keeps the step invariant, and the status cycle when it held. */
  lemma TickKeeps(searching: bool, b: Board)
    requires ValidState(searching, b) && b.tickers != []
    ensures ValidState(searching, AfterTick(b))
    ensures OrderlyState(b) ==> OrderlyState(AfterTick(b))
  {
    TickValid(searching, b);
    if OrderlyState(b) && b.tickers[0].progress + Step < 100 {
      TickOnOrderly(searching, b);
    } else if OrderlyState(b) {
      TickDoneOrderly(searching, b);
    }
  }

  /** A cool-down keeps the step invariant, and the status cycle when it
      held. */
  lemma CooldownKeeps(searching: bool, b: Board)
    requires ValidState(searching, b) && b.cooldowns != []
    ensures ValidState(searching, CooledDown(b))
    ensures OrderlyState(b) ==> OrderlyState(CooledDown(b))
  {
    CooldownValid(searching, b);
    if OrderlyState(b) {
      CooldownOrderly(searching, b);
    }
  }

  /** From start-up, finding the first device, queueing it and starting
      it gives the board where "1" is sending at 0 and nothing else is
      pending. */
  lemma FirstTransferStarts()
    ensures Started(Enqueued(Discovered(EmptyBoard), 0)) ==
      Board([FoundDevices[0].(status := Sending)], [], Some("1"), [Transfer("1", 0)], [])
  {
  }

  /** That board keeps the invariant and the status cycle. */
  lemma FirstTransferBoardOrderly()
    ensures var b := Board([FoundDevices[0].(status := Sending)], [], Some("1"), [Transfer("1", 0)], []);
      ValidState(true, b) && OrderlyState(b)
  {
    var b := Board([FoundDevices[0].(status := Sending)], [], Some("1"), [Transfer("1", 0)], []);
    assert b.devices[0].id == "1";
    assert Listed(b.devices, "1");
  }

  /** From start-up: the first device found, queued and started is sent in
      20 ticks, and is still being sent after 19. */
  lemma FirstTransferTakesTwentyTicks()
    ensures var b := Started(Enqueued(Discovered(EmptyBoard), 0));
      Run(b, 19).tickers != [] &&
      Run(b, 20).tickers == [] && Run(b, 20).devices == [FoundDevices[0].(status := Completed, progress := 100)] &&
      Run(b, 20).cooldowns == ["1"] && OrderlyState(Run(b, 20))
  {
    FirstTransferStarts();
    FirstTransferBoardOrderly();
    var b := Board([FoundDevices[0].(status := Sending)], [], Some("1"), [Transfer("1", 0)], []);
    RunCompletes(true, b, 20);
    RunOrderly(true, b, 20);
    assert Run(b, 20).devices[0] == FoundDevices[0].(status := Completed, progress := 100);
  }

  class Share {
    var isDiscoverable: bool
    /** Set once and never changed by the application. */
    var scanning: bool
    var devices: seq<Device>
    var transferQueue: seq<string>
    var activeTransferId: Option<string>
    /** The transfer intervals still running. */
    var tickers: seq<Transfer>
    /** The pending cool-down timers, oldest first. */
    var cooldowns: seq<string>

    /** Whether the scan effect is running (and its discovery timers are
        pending for the devices not found yet). */
    predicate Searching()
      reads this
    {
      scanning && isDiscoverable
    }

    function State(): Board
      reads this
    {
      Board(devices, transferQueue, activeTransferId, tickers, cooldowns)
    }

    ghost predicate Valid()
      reads this
    {
      ValidState(Searching(), State())
    }

    ghost predicate Orderly()
      reads this
    {
      OrderlyState(State())
    }

    /** The initial state: discoverable and scanning, with nothing found. */
    constructor ()
      ensures isDiscoverable && scanning && State() == EmptyBoard
      ensures Valid() && Orderly()
    {
      isDiscoverable, scanning := true, true;
      devices, transferQueue, activeTransferId := [], [], None;
      tickers, cooldowns := [], [];
    }

    /** The next discovery timer of the scan effect. */
    method FireDiscovery()
      requires Valid() && Searching() && |devices| < |FoundDevices|
      requires tickers == [] || activeTransferId.Some?
      modifies this`devices
      ensures State() == Discovered(old(State()))
      ensures Valid() && (old(Orderly()) ==> Orderly())
    {
      DiscoverKeeps(State());
      devices := devices + [FoundDevices[|devices|]];
    }

    /** The visibility switch as written: flipping it re-runs the scan
        effect, which clears the list and, when the scan stops, the queue and
        the active transfer, but leaves running intervals and cool-down timers
        in place. */
    method ToggleDiscoverable()
      requires Valid()
      modifies this`isDiscoverable, this`devices, this`transferQueue, this`activeTransferId
      ensures isDiscoverable == !old(isDiscoverable)
      ensures State() == if Searching() then Rescanned(old(State())) else Cleared(old(State()))
      ensures Valid()
    {
      ClearValid(Searching(), State());
      isDiscoverable := !isDiscoverable;
      if !Searching() {
        devices, transferQueue, activeTransferId := [], [], None;
      } else {
        devices := [];
      }
    }

    /** The visibility switch with the transfer intervals and cool-down
        timers cancelled when the scan stops: then nothing is left at all. */
    method ToggleDiscoverableCancelling()
      requires Valid() && Orderly()
      modifies this`isDiscoverable, this`devices, this`transferQueue, this`activeTransferId,
               this`tickers, this`cooldowns
      ensures isDiscoverable == !old(isDiscoverable)
      ensures State() == if Searching() then Rescanned(old(State())) else EmptyBoard
      ensures Valid() && Orderly()
    {
      isDiscoverable := !isDiscoverable;
      if !Searching() {
        devices, transferQueue, activeTransferId := [], [], None;
        tickers, cooldowns := [], [];
      } else {
        devices := [];
      }
    }

    /** A click on the `k`-th device: only an idle device is handed to
        addToQueue. */
    method SelectDevice(k: nat)
      requires Valid() && k < |devices|
      modifies this`devices, this`transferQueue
      ensures State() == if old(devices)[k].status == Idle then Enqueued(old(State()), k) else old(State())
      ensures Valid() && (old(Orderly()) ==> Orderly())
    {
      if devices[k].status == Idle {
        EnqueueKeeps(Searching(), State(), k);
        var id := devices[k].id;
        devices := SetState(devices, id, Queued, 0);
        transferQueue := transferQueue + [id];
      }
    }

    /** The queue effect: with no active transfer and a non-empty queue, the
        head leaves the queue and performTransfer makes it the active
        transfer, sending at 0, with its interval started. */
    method Promote()
      requires Valid() && activeTransferId.None? && transferQueue != []
      modifies this`transferQueue, this`activeTransferId, this`devices, this`tickers
      ensures State() == Started(old(State()))
      ensures Valid() && (old(Orderly()) ==> Orderly())
    {
      StartKeeps(Searching(), State());
      var next := transferQueue[0];
      transferQueue := transferQueue[1..];
      activeTransferId := Some(next);
      devices := SetState(devices, next, Sending, 0);
      tickers := [Transfer(next, 0)];
    }

    /** One tick of the running interval. */
    method Tick()
      requires Valid() && tickers != []
      modifies this`devices, this`tickers, this`activeTransferId, this`cooldowns
      ensures State() == AfterTick(old(State()))
      ensures Valid() && (old(Orderly()) ==> Orderly())
    {
      TickKeeps(Searching(), State());
      var b := AfterTick(State());
      devices, activeTransferId, tickers, cooldowns := b.devices, b.active, b.tickers, b.cooldowns;
    }

    /** The oldest cool-down timer firing. */
    method FireCooldown()
      requires Valid() && cooldowns != []
      modifies this`devices, this`cooldowns
      ensures State() == CooledDown(old(State()))
      ensures Valid() && (old(Orderly()) ==> Orderly())
    {
      CooldownKeeps(Searching(), State());
      devices := SetState(devices, cooldowns[0], Idle, 0);
      cooldowns := cooldowns[1..];
    }

  }

}
