/**
 * The select variant of the event loop (adbd/src/fdevent.c): the fd table, the three
 * select sets, the high-water mark and the pending list, and what keeps them in step.
 */
module FdEvent {
  import opened Common
  import opened Fifo

  /** The bits of FDE_EVENTMASK that have names. */
  datatype Event = READ | WRITE | ERROR | TIMEOUT | DONT_CLOSE

  /** An fdevent; `want` are the event bits of its state, `events` what has been reported. */
  datatype Fde = Fde(fd: nat, active: bool, pending: bool, want: set<Event>, events: set<Event>)

  /** The ways the code can call FATAL. */
  datatype Fatal = HugeFd | OutOfRange | OutOfSync | MissingFde

  datatype Loop = Loop(
    fdes: map<nat, Fde>, table: seq<Option<nat>>,
    readFds: set<nat>, writeFds: set<nat>, errorFds: set<nat>,
    selectN: nat, pending: seq<nat>, fatal: Option<Fatal>)

  const EMPTY := Loop(map[], [], {}, {}, {}, 0, [], None)

  /** fd_table_max after it has grown to hold fd. */
  function Doubled(max: nat, fd: nat): nat
    requires max > 0
    decreases fd + 1 - max
  {
    if max > fd then max else Doubled(2 * max, fd)
  }

  function Grown(max: nat, fd: nat): nat {
    if fd < max then max else Doubled(if max == 0 then 256 else max, fd)
  }

  /** The largest registered index below n, or 0. */
  function HighWater(table: seq<Option<nat>>, n: nat): nat
    requires n <= |table|
  {
    if n == 0 then 0 else if table[n - 1].Some? then n - 1 else HighWater(table, n - 1)
  }

  function Padded(table: seq<Option<nat>>, max: nat): seq<Option<nat>>
    requires |table| <= max
  {
    table + seq(max - |table|, _ => None)
  }

  lemma {:induction false} DoubledGrows(max: nat, fd: nat)
    requires max > 0
    ensures Doubled(max, fd) > fd && Doubled(max, fd) >= max
    decreases fd + 1 - max
  {
    if max <= fd { DoubledGrows(2 * max, fd); }
  }

  /** fdevent_install: register, connect.  The fde starts with no interest and no events. */
  function Install(l: Loop, id: nat, fd: nat): Loop {
    if fd >= |l.table| && fd > 32000 then l.(fatal := Some(HugeFd))
    else
      var max := Grown(|l.table|, fd);
      GrownFits(|l.table|, fd);
      var table := Padded(l.table, max)[fd := Some(id)];
      l.(fdes := l.fdes[id := Fde(fd, true, false, {}, {})],
         table := table,
         selectN := if fd >= l.selectN then fd + 1 else l.selectN)
  }

  lemma GrownFits(max: nat, fd: nat)
    ensures max <= Grown(max, fd) && fd < Grown(max, fd)
  {
    if fd >= max { DoubledGrows(if max == 0 then 256 else max, fd); }
  }

  /** fdevent_remove: off the pending list, disconnect, unregister. */
  function Remove(l: Loop, id: nat): Loop
    requires id in l.fdes && l.selectN <= |l.table|
  {
    var fde := l.fdes[id];
    var pending := if fde.pending then Without(l.pending, id) else l.pending;
    var gone := l.fdes[id := fde.(active := false, pending := false, want := {}, events := {})];
    if !fde.active then l.(fdes := gone, pending := pending)
    else if fde.fd >= |l.table| then l.(fatal := Some(OutOfRange))
    else if l.table[fde.fd] != Some(id) then l.(fatal := Some(OutOfSync))
    else
      l.(fdes := gone, pending := pending,
         readFds := l.readFds - {fde.fd}, writeFds := l.writeFds - {fde.fd}, errorFds := l.errorFds - {fde.fd},
         selectN := HighWater(l.table, l.selectN) + 1,
         table := l.table[fde.fd := None])
  }

  function Flag(fds: set<nat>, fd: nat, on: bool): set<nat> {
    if on then fds + {fd} else fds - {fd}
  }

  lemma FlagIs(was: set<nat>, now: set<nat>, fd: nat, on: bool)
    requires forall i :: i in now <==> if i == fd then on else i in was
    ensures now == Flag(was, fd, on)
  {
  }

  /** fdevent_set */
  function Set(l: Loop, id: nat, ev: set<Event>): Loop
    requires id in l.fdes
  {
    var fde := l.fdes[id];
    if fde.want == ev then l
    else
      var l1 := if fde.active then
          l.(readFds := Flag(l.readFds, fde.fd, READ in ev),
             writeFds := Flag(l.writeFds, fde.fd, WRITE in ev),
             errorFds := Flag(l.errorFds, fde.fd, ERROR in ev))
        else l;
      if !fde.pending then l1.(fdes := l1.fdes[id := fde.(want := ev)])
      else
        var left := fde.events - ev;
        if left == {} then
          l1.(fdes := l1.fdes[id := fde.(want := ev, events := {}, pending := false)],
              pending := Without(l1.pending, id))
        else l1.(fdes := l1.fdes[id := fde.(want := ev, events := left)])
  }

  /** fdevent_add and fdevent_del */
  function Add(l: Loop, id: nat, ev: set<Event>): Loop
    requires id in l.fdes
  {
    Set(l, id, l.fdes[id].want + ev)
  }

  function Del(l: Loop, id: nat, ev: set<Event>): Loop
    requires id in l.fdes
  {
    Set(l, id, l.fdes[id].want - ev)
  }

  // ---- the invariant ----

  ghost predicate TableOk(l: Loop) {
    && |l.table| in {0, 256, 512, 1024, 2048, 4096, 8192, 16384, 32768}
    && l.selectN <= |l.table|
    && (forall i :: 0 <= i < |l.table| && l.table[i].Some? ==>
          i < l.selectN && l.table[i].value in l.fdes
          && l.fdes[l.table[i].value].active && l.fdes[l.table[i].value].fd == i)
    && (forall id :: id in l.fdes && l.fdes[id].active ==>
          l.fdes[id].fd < |l.table| && l.table[l.fdes[id].fd] == Some(id))
  }

  predicate Wants(l: Loop, i: nat, ev: Event) {
    i < |l.table| && l.table[i].Some? && l.table[i].value in l.fdes && ev in l.fdes[l.table[i].value].want
  }

  ghost predicate SetsOk(l: Loop) {
    && (forall i :: i in l.readFds <==> Wants(l, i, READ))
    && (forall i :: i in l.writeFds <==> Wants(l, i, WRITE))
    && (forall i :: i in l.errorFds <==> Wants(l, i, ERROR))
  }

  ghost predicate PendingOk(l: Loop) {
    && Distinct(l.pending)
    && (forall id :: id in l.pending <==> id in l.fdes && l.fdes[id].pending)
    && (forall id :: id in l.fdes && l.fdes[id].pending ==> l.fdes[id].active && l.fdes[id].events != {})
    && (forall id :: id in l.fdes && !l.fdes[id].pending ==> l.fdes[id].events == {})
  }

  /** Table entry i is the active fde with fd i, select sets equal armed bits, PENDING iff listed. */
  ghost predicate Ok(l: Loop) { TableOk(l) && SetsOk(l) && PendingOk(l) }

  lemma {:induction false} HighWaterBound(table: seq<Option<nat>>, n: nat)
    requires n <= |table|
    ensures n > 0 ==> HighWater(table, n) < n
    ensures forall i :: 0 <= i < n && table[i].Some? ==> i <= HighWater(table, n)
    ensures HighWater(table, n) > 0 ==> table[HighWater(table, n)].Some?
  {
    if n > 0 && table[n - 1].None? { HighWaterBound(table, n - 1); }
  }

  lemma {:induction false} DoubledBound(max: nat, fd: nat)
    requires max in {256, 512, 1024, 2048, 4096, 8192, 16384, 32768} && fd <= 32000
    ensures Doubled(max, fd) in {256, 512, 1024, 2048, 4096, 8192, 16384, 32768}
    decreases fd + 1 - max
  {
    if max <= fd { DoubledBound(2 * max, fd); }
  }

  lemma InstallOk(l: Loop, id: nat, fd: nat)
    requires Ok(l) && (id in l.fdes ==> !l.fdes[id].active)
    requires fd < |l.table| ==> l.table[fd].None?
    ensures var l' := Install(l, id, fd);
      if fd > 32000 && fd >= |l.table| then l'.fatal == Some(HugeFd) else Ok(l') && l'.fatal == l.fatal
  {
    if !(fd > 32000 && fd >= |l.table|) {
      GrownFits(|l.table|, fd);
      if fd >= |l.table| { DoubledBound(if |l.table| == 0 then 256 else |l.table|, fd); }
      var l' := Install(l, id, fd);
      InstallTable(l, id, fd);
      assert SetsOk(l') by { InstallSets(l, id, fd); }
      assert PendingOk(l');
    }
  }

  lemma InstallTable(l: Loop, id: nat, fd: nat)
    requires Ok(l) && (id in l.fdes ==> !l.fdes[id].active)
    requires fd < |l.table| ==> l.table[fd].None?
    requires !(fd > 32000 && fd >= |l.table|)
    requires Grown(|l.table|, fd) in {256, 512, 1024, 2048, 4096, 8192, 16384, 32768}
    ensures TableOk(Install(l, id, fd))
  {
    GrownFits(|l.table|, fd);
  }

  lemma InstallSets(l: Loop, id: nat, fd: nat)
    requires Ok(l) && (id in l.fdes ==> !l.fdes[id].active)
    requires fd < |l.table| ==> l.table[fd].None?
    requires !(fd > 32000 && fd >= |l.table|)
    ensures SetsOk(Install(l, id, fd))
  {
    GrownFits(|l.table|, fd);
    var l' := Install(l, id, fd);
    forall i: nat, ev: Event ensures Wants(l', i, ev) <==> Wants(l, i, ev) {
    }
  }

  lemma RemoveTable(l: Loop, id: nat)
    requires TableOk(l) && id in l.fdes
    ensures TableOk(Remove(l, id)) && Remove(l, id).fatal == l.fatal
  {
    HighWaterBound(l.table, l.selectN);
  }

  lemma RemoveSets(l: Loop, id: nat)
    requires TableOk(l) && SetsOk(l) && id in l.fdes
    ensures SetsOk(Remove(l, id))
  {
    var l' := Remove(l, id);
    forall i: nat, ev: Event
      ensures Wants(l', i, ev) <==> Wants(l, i, ev) && !(l.fdes[id].active && i == l.fdes[id].fd)
    {
    }
  }

  lemma RemovePending(l: Loop, id: nat)
    requires TableOk(l) && PendingOk(l) && id in l.fdes
    ensures PendingOk(Remove(l, id))
  {
    UnpendOk(l, Remove(l, id), id, Remove(l, id).fdes[id]);
  }

  /** The out-of-range and out-of-sync FATALs of fdevent_unregister cannot happen. */
  lemma RemoveOk(l: Loop, id: nat)
    requires Ok(l) && id in l.fdes
    ensures Ok(Remove(l, id)) && Remove(l, id).fatal == l.fatal
  {
    RemoveTable(l, id);
    RemoveSets(l, id);
    RemovePending(l, id);
  }

  /** The table part does not depend on interest, reports or the pending list. */
  lemma TableFrame(l: Loop, l': Loop)
    requires TableOk(l) && l'.table == l.table && l'.selectN == l.selectN && l'.fdes.Keys == l.fdes.Keys
    requires forall id :: id in l.fdes ==> l'.fdes[id].active == l.fdes[id].active && l'.fdes[id].fd == l.fdes[id].fd
    ensures TableOk(l')
  {
  }

  lemma SetTable(l: Loop, id: nat, ev: set<Event>)
    requires TableOk(l) && id in l.fdes
    ensures TableOk(Set(l, id, ev)) && Set(l, id, ev).fatal == l.fatal
  {
    TableFrame(l, Set(l, id, ev));
  }

  lemma SetSets(l: Loop, id: nat, ev: set<Event>)
    requires TableOk(l) && SetsOk(l) && id in l.fdes
    ensures SetsOk(Set(l, id, ev))
  {
    var l', fd := Set(l, id, ev), l.fdes[id].fd;
    forall i: nat, e: Event
      ensures Wants(l', i, e) <==> if l.fdes[id].active && i == fd then e in ev else Wants(l, i, e)
    {
      if l.fdes[id].active && i == fd { assert l.table[i] == Some(id); }
    }
  }

  lemma SetPending(l: Loop, id: nat, ev: set<Event>)
    requires PendingOk(l) && id in l.fdes
    ensures PendingOk(Set(l, id, ev))
  {
    var l', fde := Set(l, id, ev), l.fdes[id];
    if fde.want != ev {
      if fde.pending && fde.events - ev == {} {
        UnpendOk(l, l', id, l'.fdes[id]);
      } else {
        RependOk(l, l', id, l'.fdes[id]);
      }
    }
  }

  /** Taking one fde off the pending list together with its flag and its events. */
  lemma UnpendOk(l: Loop, l': Loop, id: nat, fde: Fde)
    requires PendingOk(l) && id in l.fdes && !fde.pending && fde.events == {}
    requires l'.fdes == l.fdes[id := fde] && l'.pending == Without(l.pending, id)
    ensures PendingOk(l')
  {
    WithoutDistinct(l.pending, id);
  }

  /** Changing an fde without changing whether it is pending or active. */
  lemma RependOk(l: Loop, l': Loop, id: nat, fde: Fde)
    requires PendingOk(l) && id in l.fdes
    requires fde.pending == l.fdes[id].pending && fde.active == l.fdes[id].active
    requires fde.pending <==> fde.events != {}
    requires l'.fdes == l.fdes[id := fde] && l'.pending == l.pending
    ensures PendingOk(l')
  {
  }

  lemma SetOk(l: Loop, id: nat, ev: set<Event>)
    requires Ok(l) && id in l.fdes
    ensures Ok(Set(l, id, ev)) && Set(l, id, ev).fatal == l.fatal
  {
    SetTable(l, id, ev);
    SetSets(l, id, ev);
    SetPending(l, id, ev);
  }

  /**
   * What fdevent_set really does to a pending report: it removes the bits that are wanted
   * from now on and keeps the others, so a bit that has just been disarmed survives to
   * dispatch and a wanted one has to be reported again.
   */
  lemma SetDropsWantedEvents(l: Loop, id: nat, ev: set<Event>)
    requires Ok(l) && id in l.fdes && l.fdes[id].want != ev
    ensures Set(l, id, ev).fdes[id].events == l.fdes[id].events - ev
    ensures id in Set(l, id, ev).pending <==> !(l.fdes[id].events <= ev)
  {
    SetPending(l, id, ev);
    var left := l.fdes[id].events - ev;
    if left == {} {
      forall e | e in l.fdes[id].events ensures e in ev { assert e !in left; }
    }
  }

  // ---- fdevent_process: reporting what select found ----

  function Found(r: set<nat>, w: set<nat>, e: set<nat>, i: nat): set<Event> {
    (if i in r then {READ} else {}) + (if i in w then {WRITE} else {}) + (if i in e then {ERROR} else {})
  }

  predicate Registered(l: Loop, i: nat) {
    i < l.selectN && i < |l.table| && l.table[i].Some? && l.table[i].value in l.fdes
  }

  /** One turn of the loop over fds. */
  function Report(l: Loop, i: nat, ev: set<Event>): Loop {
    if ev == {} then l
    else if !Registered(l, i) then l.(fatal := Some(MissingFde))
    else
      var id := l.table[i].value;
      var fde := l.fdes[id].(events := l.fdes[id].events + ev, pending := true);
      l.(fdes := l.fdes[id := fde], pending := if l.fdes[id].pending then l.pending else l.pending + [id])
  }

  /** Reports for the fds from i up, in ascending order, with no early exit. */
  function ReportFrom(l: Loop, r: set<nat>, w: set<nat>, e: set<nat>, i: nat): Loop
    decreases l.selectN - i
  {
    if i >= l.selectN then l else ReportFrom(Report(l, i, Found(r, w, e, i)), r, w, e, i + 1)
  }

  /** select only reports registered fds. */
  ghost predicate Sound(l: Loop, r: set<nat>, w: set<nat>, e: set<nat>) {
    forall i :: i in r || i in w || i in e ==> Registered(l, i)
  }

  lemma ReportOk(l: Loop, i: nat, ev: set<Event>)
    requires Ok(l) && (ev != {} ==> Registered(l, i))
    ensures Ok(Report(l, i, ev)) && Report(l, i, ev).fatal == l.fatal
    ensures Report(l, i, ev).table == l.table && Report(l, i, ev).selectN == l.selectN
    ensures Report(l, i, ev).fdes.Keys == l.fdes.Keys
  {
    if ev != {} {
      var l', id := Report(l, i, ev), l.table[i].value;
      TableFrame(l, l');
      forall k: nat, e: Event ensures Wants(l', k, e) <==> Wants(l, k, e) {}
      ReportPending(l, l', id);
    }
  }

  lemma ReportPending(l: Loop, l': Loop, id: nat)
    requires PendingOk(l) && id in l.fdes && l.fdes[id].active
    requires l'.pending == if l.fdes[id].pending then l.pending else l.pending + [id]
    requires exists fde: Fde :: l'.fdes == l.fdes[id := fde] && fde.pending && fde.active && fde.events != {}
    ensures PendingOk(l')
  {
  }

  /** The fdes newly queued for the fds from i up: those found and not pending yet, in fd order. */
  function Queued(l: Loop, r: set<nat>, w: set<nat>, e: set<nat>, i: nat): seq<nat>
    decreases l.selectN - i
  {
    if i >= l.selectN then [] else QueuedAt(l, r, w, e, i) + Queued(l, r, w, e, i + 1)
  }

  /** Reporting one fd does not change what is queued for larger ones. */
  lemma {:induction false} QueuedFrame(l: Loop, l': Loop, r: set<nat>, w: set<nat>, e: set<nat>, i: nat)
    requires TableOk(l) && l'.table == l.table && l'.selectN == l.selectN && l'.fdes.Keys == l.fdes.Keys
    requires forall id :: id in l.fdes && l.fdes[id].active && l.fdes[id].fd >= i ==> l'.fdes[id].pending == l.fdes[id].pending
    ensures Queued(l', r, w, e, i) == Queued(l, r, w, e, i)
    decreases l.selectN - i
  {
    if i < l.selectN { QueuedFrame(l, l', r, w, e, i + 1); }
  }

  function QueuedAt(l: Loop, r: set<nat>, w: set<nat>, e: set<nat>, i: nat): seq<nat> {
    if Found(r, w, e, i) != {} && Registered(l, i) && !l.fdes[l.table[i].value].pending
    then [l.table[i].value] else []
  }

  lemma ReportStep(l: Loop, r: set<nat>, w: set<nat>, e: set<nat>, i: nat)
    requires Ok(l) && Sound(l, r, w, e) && i < l.selectN
    ensures var l1 := Report(l, i, Found(r, w, e, i));
      && Ok(l1) && Sound(l1, r, w, e) && l1.fatal == l.fatal && l1.table == l.table && l1.selectN == l.selectN
      && l1.pending == l.pending + QueuedAt(l, r, w, e, i)
      && Queued(l1, r, w, e, i + 1) == Queued(l, r, w, e, i + 1)
  {
    var l1 := Report(l, i, Found(r, w, e, i));
    ReportOk(l, i, Found(r, w, e, i));
    QueuedFrame(l, l1, r, w, e, i + 1);
  }

  /**
   * Complete dispatch: every reported fd is queued, in ascending fd order, behind what was
   * pending before; the missing-fde FATAL is not reached.
   */
  lemma {:induction false} ReportsAll(l: Loop, r: set<nat>, w: set<nat>, e: set<nat>, i: nat)
    requires Ok(l) && Sound(l, r, w, e)
    ensures var l' := ReportFrom(l, r, w, e, i);
      && Ok(l') && l'.fatal == l.fatal && l'.table == l.table
      && l'.pending == l.pending + Queued(l, r, w, e, i)
    decreases l.selectN - i
  {
    if i < l.selectN {
      var l1 := Report(l, i, Found(r, w, e, i));
      ReportStep(l, r, w, e, i);
      ReportsAll(l1, r, w, e, i + 1);
      Regroup(l.pending, QueuedAt(l, r, w, e, i), Queued(l, r, w, e, i + 1));
    } else {
      assert l.pending + [] == l.pending;
    }
  }

  // ---- callbacks ----

  /** What a callback may do to the loop. */
  datatype Op =
    | DoInstall(id: nat, fd: nat)
    | DoRemove(id: nat)
    | DoSet(id: nat, ev: set<Event>)
    | DoAdd(id: nat, ev: set<Event>)
    | DoDel(id: nat, ev: set<Event>)
    | DoSubproc(id: nat)  // fdevent_subproc_event_func: a read is forced on a subprocess fd

  /** Fds are installed only when unregistered and below the abort limit; other calls name an existing fde. */
  function Apply(l: Loop, op: Op): Loop
    requires l.selectN <= |l.table|
  {
    match op
    case DoInstall(id, fd) =>
      if (id in l.fdes && l.fdes[id].active) || (if fd < |l.table| then l.table[fd].Some? else fd > 32000) then l
      else Install(l, id, fd)
    case DoRemove(id) => if id in l.fdes then Remove(l, id) else l
    case DoSet(id, ev) => if id in l.fdes then Set(l, id, ev) else l
    case DoAdd(id, ev) => if id in l.fdes then Add(l, id, ev) else l
    case DoDel(id, ev) => if id in l.fdes then Del(l, id, ev) else l
    case DoSubproc(id) =>
      if id in l.fdes && l.fdes[id].pending
      then l.(fdes := l.fdes[id := l.fdes[id].(events := l.fdes[id].events + {READ})]) else l
  }

  /** No callback operation adds to the pending list or changes its order. */
  ghost predicate Shrinks(p: seq<nat>, p': seq<nat>) {
    p' == p || exists id :: id in p && p' == Without(p, id)
  }

  lemma ApplyOk(l: Loop, op: Op)
    requires Ok(l)
    ensures Ok(Apply(l, op)) && Apply(l, op).fatal == l.fatal && Shrinks(l.pending, Apply(l, op).pending)
    ensures op.DoRemove? ==> op.id !in Apply(l, op).pending
  {
    match op
    case DoInstall(id, fd) => if Apply(l, op) != l { InstallOk(l, id, fd); }
    case DoRemove(id) =>
      if id in l.fdes {
        RemoveOk(l, id);
        WithoutDistinct(l.pending, id);
      }
    case DoSet(id, ev) => if id in l.fdes { SetOk(l, id, ev); }
    case DoAdd(id, ev) => if id in l.fdes { SetOk(l, id, l.fdes[id].want + ev); }
    case DoDel(id, ev) => if id in l.fdes { SetOk(l, id, l.fdes[id].want - ev); }
    case DoSubproc(id) => SubprocOk(l, id);
  }

  lemma SubprocOk(l: Loop, id: nat)
    requires Ok(l)
    ensures Ok(Apply(l, DoSubproc(id))) && Apply(l, DoSubproc(id)).fatal == l.fatal
    ensures Apply(l, DoSubproc(id)).pending == l.pending
  {
    if id in l.fdes && l.fdes[id].pending {
      var l' := Apply(l, DoSubproc(id));
      TableFrame(l, l');
      forall i: nat, e: Event ensures Wants(l', i, e) <==> Wants(l, i, e) {}
      RependOk(l, l', id, l'.fdes[id]);
    }
  }

  function ApplyAll(l: Loop, ops: seq<Op>): Loop
    requires Ok(l)
    decreases ops
  {
    if ops == [] then l else ApplyOk(l, ops[0]); ApplyAll(Apply(l, ops[0]), ops[1..])
  }

  predicate Removes(ops: seq<Op>, id: nat) {
    exists i :: 0 <= i < |ops| && ops[i] == DoRemove(id)
  }

  lemma RemovesHead(ops: seq<Op>, id: nat)
    requires ops != []
    ensures Removes(ops, id) <==> ops[0] == DoRemove(id) || Removes(ops[1..], id)
  {
    if i :| 0 <= i < |ops| && ops[i] == DoRemove(id) {
      if i > 0 { assert ops[1..][i - 1] == DoRemove(id); }
    }
    if j :| 0 <= j < |ops[1..]| && ops[1..][j] == DoRemove(id) {
      assert ops[j + 1] == DoRemove(id);
    }
  }

  lemma {:induction false} ApplyAllOk(l: Loop, ops: seq<Op>)
    requires Ok(l)
    ensures var l' := ApplyAll(l, ops);
      && Ok(l') && l'.fatal == l.fatal && |l'.pending| <= |l.pending|
      && (forall id :: id in l'.pending ==> id in l.pending && !Removes(ops, id))
    decreases ops
  {
    if ops != [] {
      ApplyOk(l, ops[0]);
      var l1, rest := Apply(l, ops[0]), ops[1..];
      ApplyAllOk(l1, rest);
      forall id | id in ApplyAll(l1, rest).pending ensures id in l.pending && !Removes(ops, id) {
        RemovesHead(ops, id);
      }
    }
  }

  /** fdevent_plist_dequeue and the clearing of flags in fdevent_call_fdfunc. */
  function Dispatch(l: Loop): Loop
    requires l.pending != [] && l.pending[0] in l.fdes
  {
    var id := l.pending[0];
    l.(pending := l.pending[1..], fdes := l.fdes[id := l.fdes[id].(events := {}, pending := false)])
  }

  lemma DispatchOk(l: Loop)
    requires Ok(l) && l.pending != []
    ensures l.pending[0] in l.fdes && l.fdes[l.pending[0]].active && l.fdes[l.pending[0]].events != {}
    ensures Ok(Dispatch(l)) && Dispatch(l).fatal == l.fatal
  {
    var l', id := Dispatch(l), l.pending[0];
    assert id in l.pending;
    TableFrame(l, l');
    forall i: nat, e: Event ensures Wants(l', i, e) <==> Wants(l, i, e) {}
    WithoutHead(l.pending);
    UnpendOk(l, l', id, l'.fdes[id]);
  }

  // ---- draining the pending list ----

  /** What the k-th callback of a drain does. */
  function Ops(script: seq<seq<Op>>, k: nat): seq<Op> { if k < |script| then script[k] else [] }

  /** One round of the dispatch loop: the head is called and its callback runs. */
  ghost function Called(l: Loop, ops: seq<Op>): (r: Loop)
    requires Ok(l) && l.pending != []
    ensures Ok(r) && |r.pending| < |l.pending|
    ensures forall id :: id in r.pending ==> id in l.pending && id != l.pending[0]
  {
    DispatchOk(l);
    ApplyAllOk(Dispatch(l), ops);
    assert l.pending[0] !in l.pending[1..];
    ApplyAll(Dispatch(l), ops)
  }

  /** The dispatch loop: the state it ends in and the calls it makes, in order. */
  ghost function Drained(l: Loop, script: seq<seq<Op>>, k: nat): (r: (Loop, seq<(nat, set<Event>)>))
    requires Ok(l)
    ensures Ok(r.0) && r.0.pending == []
    decreases |l.pending|
  {
    if l.pending == [] then (l, [])
    else
      DispatchOk(l);
      var more := Drained(Called(l, Ops(script, k)), script, k + 1);
      (more.0, [(l.pending[0], l.fdes[l.pending[0]].events)] + more.1)
  }

  predicate Untouched(ops: seq<Op>, id: nat) {
    forall i :: 0 <= i < |ops| ==> ops[i].id != id
  }

  lemma ApplyUntouched(l: Loop, op: Op, id: nat)
    requires Ok(l) && id in l.pending && op.id != id && id in l.fdes
    ensures id in Apply(l, op).pending && id in Apply(l, op).fdes && Apply(l, op).fdes[id] == l.fdes[id]
  {
  }

  lemma {:induction false} ApplyAllUntouched(l: Loop, ops: seq<Op>, id: nat)
    requires Ok(l) && id in l.pending && Untouched(ops, id) && id in l.fdes
    ensures var l' := ApplyAll(l, ops); id in l'.pending && id in l'.fdes && l'.fdes[id] == l.fdes[id]
    decreases ops
  {
    if ops != [] {
      ApplyUntouched(l, ops[0], id);
      ApplyOk(l, ops[0]);
      ApplyAllUntouched(Apply(l, ops[0]), ops[1..], id);
    }
  }

  lemma CalledUntouched(l: Loop, ops: seq<Op>, id: nat)
    requires Ok(l) && id in l.pending && id != l.pending[0] && Untouched(ops, id) && id in l.fdes
    ensures var l' := Called(l, ops); id in l'.pending && id in l'.fdes && l'.fdes[id] == l.fdes[id]
  {
    DispatchOk(l);
    ApplyAllUntouched(Dispatch(l), ops, id);
  }

  lemma DrainedUnfolds(l: Loop, script: seq<seq<Op>>, k: nat)
    requires Ok(l) && l.pending != []
    ensures l.pending[0] in l.fdes && l.fdes[l.pending[0]].events != {}
    ensures Drained(l, script, k).1
      == [(l.pending[0], l.fdes[l.pending[0]].events)] + Drained(Called(l, Ops(script, k)), script, k + 1).1
  {
    DispatchOk(l);
  }

  /** An fde that no callback touches is called, with all the events it had. */
  lemma {:induction false} DrainCallsEach(l: Loop, script: seq<seq<Op>>, k: nat, id: nat)
    requires Ok(l) && id in l.pending && id in l.fdes && forall j :: 0 <= j < |script| ==> Untouched(script[j], id)
    ensures (id, l.fdes[id].events) in Drained(l, script, k).1
    decreases |l.pending|
  {
    var ops := Ops(script, k);
    DrainedUnfolds(l, script, k);
    if id != l.pending[0] {
      CalledUntouched(l, ops, id);
      var l2 := Called(l, ops);
      DrainCallsEach(l2, script, k + 1, id);
      assert (id, l.fdes[id].events) in Drained(l2, script, k + 1).1;
    }
  }

  ghost predicate CallsOnly(log: seq<(nat, set<Event>)>, ids: seq<nat>) {
    forall i :: 0 <= i < |log| ==> log[i].0 in ids && log[i].1 != {}
  }

  ghost predicate CallsOnce(log: seq<(nat, set<Event>)>) {
    forall i, j :: 0 <= i < j < |log| ==> log[i].0 != log[j].0
  }

  lemma CallsMore(was: seq<nat>, left: seq<nat>, log: seq<(nat, set<Event>)>, events: set<Event>)
    requires was != [] && events != {} && forall id :: id in left ==> id in was && id != was[0]
    requires CallsOnly(log, left) && CallsOnce(log)
    ensures CallsOnly([(was[0], events)] + log, was) && CallsOnce([(was[0], events)] + log)
  {
    var log' := [(was[0], events)] + log;
    forall i, j | 0 <= i < j < |log'| ensures log'[i].0 != log'[j].0 {
      assert log'[j] == log[j - 1] && log[j - 1].0 in left;
      if i > 0 { assert log'[i] == log[i - 1]; }
    }
  }

  /** Only what was pending is called, with some event, and each at most once. */
  lemma {:induction false} DrainCallsOnce(l: Loop, script: seq<seq<Op>>, k: nat)
    requires Ok(l)
    ensures CallsOnly(Drained(l, script, k).1, l.pending) && CallsOnce(Drained(l, script, k).1)
    decreases |l.pending|
  {
    if l.pending != [] {
      var l2 := Called(l, Ops(script, k));
      DrainCallsOnce(l2, script, k + 1);
      DrainedUnfolds(l, script, k);
      CallsMore(l.pending, l2.pending, Drained(l2, script, k + 1).1, l.fdes[l.pending[0]].events);
    }
  }

  lemma CalledForgets(l: Loop, ops: seq<Op>, id: nat)
    requires Ok(l) && l.pending != [] && Removes(ops, id)
    ensures id !in Called(l, ops).pending
  {
    DispatchOk(l);
    ApplyAllOk(Dispatch(l), ops);
  }

  /** With callbacks that make no calls, the pending fdes are called one after the other, in order. */
  lemma {:induction false} DrainInOrder(l: Loop, k: nat)
    requires Ok(l)
    ensures var log := Drained(l, [], k).1;
      |log| == |l.pending| && forall i :: 0 <= i < |log| ==> log[i].0 == l.pending[i]
    decreases |l.pending|
  {
    if l.pending != [] {
      var l2 := Called(l, Ops([], k));
      DrainedUnfolds(l, [], k);
      DrainInOrder(l2, k + 1);
      assert l2.pending == l.pending[1..];
    }
  }

  predicate NotCalled(log: seq<(nat, set<Event>)>, ops: seq<Op>) {
    forall i :: 0 <= i < |log| ==> !Removes(ops, log[i].0)
  }

  lemma RestSpared(l: Loop, script: seq<seq<Op>>, k: nat)
    requires Ok(l) && l.pending != []
    ensures NotCalled(Drained(Called(l, Ops(script, k)), script, k + 1).1, Ops(script, k))
  {
    var ops := Ops(script, k);
    var l2 := Called(l, ops);
    var log := Drained(l2, script, k + 1).1;
    DrainCallsOnce(l2, script, k + 1);
    forall i | 0 <= i < |log| ensures !Removes(ops, log[i].0) {
      if Removes(ops, log[i].0) { CalledForgets(l, ops, log[i].0); }
    }
  }

  /** The callback of each call (script[k] for the first) removes no fde that is called later. */
  predicate NoCallAfterRemoval(log: seq<(nat, set<Event>)>, script: seq<seq<Op>>, k: nat) {
    log == [] || (NotCalled(log[1..], Ops(script, k)) && NoCallAfterRemoval(log[1..], script, k + 1))
  }

  lemma {:induction false} DrainHonoursRemoval(l: Loop, script: seq<seq<Op>>, k: nat)
    requires Ok(l)
    ensures NoCallAfterRemoval(Drained(l, script, k).1, script, k)
    decreases |l.pending|
  {
    if l.pending != [] {
      DrainedUnfolds(l, script, k);
      RestSpared(l, script, k);
      DrainHonoursRemoval(Called(l, Ops(script, k)), script, k + 1);
      assert Drained(l, script, k).1[1..] == Drained(Called(l, Ops(script, k)), script, k + 1).1;
    }
  }

  // ---- the count-down of fdevent_process ----

  ghost function From(fds: set<nat>, i: nat): set<nat> { set x | x in fds && x >= i }

  lemma FromStep(fds: set<nat>, i: nat)
    ensures |From(fds, i)| == |From(fds, i + 1)| + (if i in fds then 1 else 0)
  {
    if i in fds {
      assert From(fds, i) == From(fds, i + 1) + {i};
    } else {
      assert From(fds, i) == From(fds, i + 1);
    }
  }

  lemma FromAll(fds: set<nat>)
    ensures From(fds, 0) == fds
  {
  }

  /** Once all reported bits have been counted there is nothing left to report. */
  lemma {:induction false} NothingLeft(l: Loop, r: set<nat>, w: set<nat>, e: set<nat>, i: nat)
    requires From(r, i) == {} && From(w, i) == {} && From(e, i) == {}
    ensures ReportFrom(l, r, w, e, i) == l
    decreases l.selectN - i
  {
    if i < l.selectN {
      assert i !in From(r, i) && i !in From(w, i) && i !in From(e, i);
      assert From(r, i + 1) <= From(r, i) && From(w, i + 1) <= From(w, i) && From(e, i + 1) <= From(e, i);
      NothingLeft(l, r, w, e, i + 1);
    }
  }

  /** n is the number of reported bits for the fds from i up. */
  ghost predicate Counting(l: Loop, r: set<nat>, w: set<nat>, e: set<nat>, i: nat, n: int) {
    Ok(l) && Sound(l, r, w, e) && n == |From(r, i)| + |From(w, i)| + |From(e, i)|
  }

  lemma CountStart(l: Loop, r: set<nat>, w: set<nat>, e: set<nat>)
    requires Ok(l) && Sound(l, r, w, e)
    ensures Counting(l, r, w, e, 0, |r| + |w| + |e|)
  {
    FromAll(r);
    FromAll(w);
    FromAll(e);
  }

  lemma CountStep(l: Loop, r: set<nat>, w: set<nat>, e: set<nat>, i: nat, n: int)
    requires Counting(l, r, w, e, i, n) && i < l.selectN
    ensures Found(r, w, e, i) != {} ==> Registered(l, i)
    ensures Counting(Report(l, i, Found(r, w, e, i)), r, w, e, i + 1,
      n - (if i in r then 1 else 0) - (if i in w then 1 else 0) - (if i in e then 1 else 0))
    ensures ReportFrom(l, r, w, e, i) == ReportFrom(Report(l, i, Found(r, w, e, i)), r, w, e, i + 1)
    ensures Report(l, i, {}) == l
  {
    ReportStep(l, r, w, e, i);
    FromStep(r, i);
    FromStep(w, i);
    FromStep(e, i);
  }

  lemma CountEnd(l: Loop, r: set<nat>, w: set<nat>, e: set<nat>, i: nat, n: int)
    requires Counting(l, r, w, e, i, n) && (i >= l.selectN || n <= 0)
    ensures ReportFrom(l, r, w, e, i) == l
  {
    if i < l.selectN { NothingLeft(l, r, w, e, i); }
  }

  /** A drain that has made the calls in `log` and stands at l. */
  ghost predicate Resumes(start: Loop, script: seq<seq<Op>>, log: seq<(nat, set<Event>)>, l: Loop) {
    && Ok(start) && Ok(l)
    && Drained(start, script, 0) == (Drained(l, script, |log|).0, log + Drained(l, script, |log|).1)
  }

  lemma ResumeStart(l: Loop, script: seq<seq<Op>>)
    requires Ok(l)
    ensures Resumes(l, script, [], l)
  {
    assert [] + Drained(l, script, 0).1 == Drained(l, script, 0).1;
  }

  lemma ResumeEnd(start: Loop, script: seq<seq<Op>>, log: seq<(nat, set<Event>)>, l: Loop)
    requires Resumes(start, script, log, l) && l.pending == []
    ensures Drained(start, script, 0) == (l, log)
  {
    assert log + [] == log;
  }

  lemma ResumeStep(start: Loop, script: seq<seq<Op>>, log: seq<(nat, set<Event>)>, l: Loop)
    requires Resumes(start, script, log, l) && l.pending != [] && l.pending[0] in l.fdes
    ensures Resumes(start, script, log + [(l.pending[0], l.fdes[l.pending[0]].events)], Called(l, Ops(script, |log|)))
  {
    var l2 := Called(l, Ops(script, |log|));
    Regroup(log, [(l.pending[0], l.fdes[l.pending[0]].events)], Drained(l2, script, |log| + 1).1);
  }

  // ---- whole runs of the loop ----

  /** What select() returned: ready sets, EINTR or another error, or EBADF. */
  datatype Select = Ready(r: set<nat>, w: set<nat>, e: set<nat>) | Interrupted | BadFd

  /** What fdevent_fd_check finds when fcntl fails for the fds `bad`. */
  function BadFds(l: Loop, bad: set<nat>): set<nat> {
    set i | i in bad && i < l.selectN && i < |l.table| && l.table[i].Some?
  }

  /** fdevent_process: a full report of what select found, or of the bad fds when it found nothing. */
  function Processed(l: Loop, sel: Select, bad: set<nat>): Loop {
    if sel.Interrupted? then l
    else if sel.Ready? && sel.r + sel.w + sel.e != {} then ReportFrom(l, sel.r, sel.w, sel.e, 0)
    else ReportFrom(l, BadFds(l, bad), {}, {}, 0)
  }

  /** select reports only what it was asked for. */
  predicate Asked(l: Loop, sel: Select) {
    sel.Ready? ==> sel.r <= l.readFds && sel.w <= l.writeFds && sel.e <= l.errorFds
  }

  lemma ProcessedOk(l: Loop, sel: Select, bad: set<nat>)
    requires Ok(l) && Asked(l, sel)
    ensures Ok(Processed(l, sel, bad)) && Processed(l, sel, bad).fatal == l.fatal
  {
    if sel.Ready? {
      assert Sound(l, sel.r, sel.w, sel.e);
      ReportsAll(l, sel.r, sel.w, sel.e, 0);
    }
    assert Sound(l, BadFds(l, bad), {}, {});
    ReportsAll(l, BadFds(l, bad), {}, {}, 0);
  }

  /** The fde at fd k keeps its place and its wants and has the events `more` added. */
  ghost predicate Gains(l: Loop, l': Loop, k: nat, more: set<Event>)
    requires Registered(l, k)
  {
    var id := l.table[k].value;
    && Registered(l', k) && l'.table[k].value == id
    && l'.fdes[id].want == l.fdes[id].want && l'.fdes[id].events == l.fdes[id].events + more
  }

  lemma GainsTwice(l: Loop, l1: Loop, l2: Loop, k: nat, a: set<Event>, b: set<Event>)
    requires Registered(l, k) && Gains(l, l1, k, a) && Gains(l1, l2, k, b)
    ensures Gains(l, l2, k, a + b)
  {
  }

  lemma {:induction false} ReportFromAt(l: Loop, r: set<nat>, w: set<nat>, e: set<nat>, i: nat, k: nat)
    requires Ok(l) && Sound(l, r, w, e) && Registered(l, k)
    ensures Gains(l, ReportFrom(l, r, w, e, i), k, if k >= i then Found(r, w, e, k) else {})
    decreases l.selectN - i
  {
    if i < l.selectN {
      var l1 := Report(l, i, Found(r, w, e, i));
      ReportStep(l, r, w, e, i);
      ReportAt(l, i, Found(r, w, e, i), k);
      ReportFromAt(l1, r, w, e, i + 1, k);
      GainsTwice(l, l1, ReportFrom(l1, r, w, e, i + 1), k,
                 if k == i then Found(r, w, e, i) else {}, if k >= i + 1 then Found(r, w, e, k) else {});
    } else {
      BelowHighWater(l, k);
    }
  }

  lemma BelowHighWater(l: Loop, k: nat)
    requires TableOk(l) && Registered(l, k)
    ensures k < l.selectN
  {
  }

  lemma ReportAt(l: Loop, i: nat, ev: set<Event>, k: nat)
    requires Ok(l) && Registered(l, k) && (ev != {} ==> Registered(l, i))
    ensures Gains(l, Report(l, i, ev), k, if k == i then ev else {})
  {
  }

  /** Select found something, so the bad fds are not looked for. */
  predicate FoundSome(sel: Select) { sel.Ready? && sel.r + sel.w + sel.e != {} }

  /**
   * What a readable, writable or failing fd is reported as, for an fde that had nothing reported:
   * READ iff select returned it in the read set, WRITE iff in the write set, ERROR iff in the
   * error set; after EBADF, or when select returned nothing, READ iff its fd is bad.
   */
  lemma ReportedAs(l: Loop, sel: Select, bad: set<nat>, k: nat)
    requires Ok(l) && Asked(l, sel) && Registered(l, k) && l.fdes[l.table[k].value].events == {}
    ensures var l', id := Processed(l, sel, bad), l.table[k].value;
      && id in l'.fdes && l'.fdes[id].want == l.fdes[id].want
      && (sel.Interrupted? ==> l' == l)
      && (FoundSome(sel) ==>
            && (READ in l'.fdes[id].events <==> k in sel.r)
            && (WRITE in l'.fdes[id].events <==> k in sel.w)
            && (ERROR in l'.fdes[id].events <==> k in sel.e)
            && l'.fdes[id].events <= {READ, WRITE, ERROR})
      && (!sel.Interrupted? && !FoundSome(sel) ==>
            l'.fdes[id].events == if k in bad then {READ} else {})
  {
    if FoundSome(sel) {
      assert Sound(l, sel.r, sel.w, sel.e);
      ReportFromAt(l, sel.r, sel.w, sel.e, 0, k);
    } else if !sel.Interrupted? {
      assert Sound(l, BadFds(l, bad), {}, {});
      ReportFromAt(l, BadFds(l, bad), {}, {}, 0, k);
      BelowHighWater(l, k);
    }
  }

  /**
   * An fde with nothing reported before, which no callback touches, is called only with events
   * it wants, or with READ because its fd is bad.
   */
  lemma CalledAsWanted(l: Loop, sel: Select, bad: set<nat>, script: seq<seq<Op>>, k: nat, ev: set<Event>)
    requires Ok(l) && Asked(l, sel) && Registered(l, k) && l.fdes[l.table[k].value].events == {}
    requires forall j :: 0 <= j < |script| ==> Untouched(script[j], l.table[k].value)
    requires Ok(Processed(l, sel, bad)) && (l.table[k].value, ev) in Drained(Processed(l, sel, bad), script, 0).1
    ensures ev <= l.fdes[l.table[k].value].want || (ev == {READ} && k in bad && !FoundSome(sel))
  {
    var l', id := Processed(l, sel, bad), l.table[k].value;
    var log := Drained(l', script, 0).1;
    ReportedAs(l, sel, bad, k);
    DrainCallsOnce(l', script, 0);
    CallsPending(log, l'.pending, id, ev);
    DrainCallsEach(l', script, 0, id);
    OneCall(log, id, ev, l'.fdes[id].events);
    ReportedIsWanted(l, sel, bad, k);
  }

  lemma CallsPending(log: seq<(nat, set<Event>)>, ids: seq<nat>, id: nat, ev: set<Event>)
    requires CallsOnly(log, ids) && (id, ev) in log
    ensures id in ids
  {
  }

  lemma OneCall(log: seq<(nat, set<Event>)>, id: nat, a: set<Event>, b: set<Event>)
    requires CallsOnce(log) && (id, a) in log && (id, b) in log
    ensures a == b
  {
    var i :| 0 <= i < |log| && log[i] == (id, a);
    var j :| 0 <= j < |log| && log[j] == (id, b);
  }

  lemma ReportedIsWanted(l: Loop, sel: Select, bad: set<nat>, k: nat)
    requires Ok(l) && Asked(l, sel) && Registered(l, k) && l.fdes[l.table[k].value].events == {}
    ensures var id := l.table[k].value;
      && id in Processed(l, sel, bad).fdes
      && (Processed(l, sel, bad).fdes[id].events <= l.fdes[id].want
          || (Processed(l, sel, bad).fdes[id].events == {READ} && k in bad && !FoundSome(sel)))
  {
    ReportedAs(l, sel, bad, k);
    if sel.Ready? {
      assert k in l.readFds ==> Wants(l, k, READ);
      assert k in l.writeFds ==> Wants(l, k, WRITE);
      assert k in l.errorFds ==> Wants(l, k, ERROR);
    }
  }

  // ---- what each call changes, and nothing else ----

  /** Every fde but id, and every table entry but fd, is as it was. */
  ghost predicate OnlyChanges(l: Loop, l': Loop, id: nat, fd: nat) {
    && l'.fdes.Keys == l.fdes.Keys + {id}
    && (forall j :: j in l.fdes && j != id ==> l'.fdes[j] == l.fdes[j])
    && |l.table| <= |l'.table|
    && (forall i :: 0 <= i < |l'.table| && i != fd ==> l'.table[i] == if i < |l.table| then l.table[i] else None)
    && (forall j :: j != id ==> (j in l'.pending <==> j in l.pending))
  }

  /** Installing registers the fde at its fd, with no interest and nothing pending. */
  lemma InstallIsExact(l: Loop, id: nat, fd: nat)
    requires Ok(l) && (id in l.fdes ==> !l.fdes[id].active) && (fd < |l.table| ==> l.table[fd].None?)
    requires fd < |l.table| || fd <= 32000
    ensures var l' := Install(l, id, fd);
      && OnlyChanges(l, l', id, fd) && fd < |l'.table| && l'.table[fd] == Some(id)
      && l'.fdes[id].active && l'.fdes[id].fd == fd && l'.fdes[id].want == {} && id !in l'.pending
  {
    GrownFits(|l.table|, fd);
    InstallOk(l, id, fd);
  }

  /** Removing takes the fde out of the table, the select sets and the pending list. */
  lemma RemoveIsExact(l: Loop, id: nat)
    requires Ok(l) && id in l.fdes && l.fdes[id].active
    ensures var l', fd := Remove(l, id), l.fdes[id].fd;
      && OnlyChanges(l, l', id, fd) && fd < |l'.table| && l'.table[fd] == None
      && !l'.fdes[id].active && id !in l'.pending
      && fd !in l'.readFds && fd !in l'.writeFds && fd !in l'.errorFds
  {
    RemovedPending(l, id);
    RemoveChanges(l, id);
  }

  lemma RemoveChanges(l: Loop, id: nat)
    requires id in l.fdes && l.fdes[id].active && l.selectN <= |l.table|
    requires l.fdes[id].fd < |l.table| && l.table[l.fdes[id].fd] == Some(id)
    requires var p := if l.fdes[id].pending then Without(l.pending, id) else l.pending;
      id !in p && forall j :: j != id ==> (j in p <==> j in l.pending)
    ensures var l', fd := Remove(l, id), l.fdes[id].fd;
      && OnlyChanges(l, l', id, fd) && l'.table == l.table[fd := None]
      && !l'.fdes[id].active && id !in l'.pending
      && fd !in l'.readFds && fd !in l'.writeFds && fd !in l'.errorFds
  {
  }

  lemma RemovedPending(l: Loop, id: nat)
    requires Ok(l) && id in l.fdes
    ensures var p := if l.fdes[id].pending then Without(l.pending, id) else l.pending;
      id !in p && forall j :: j != id ==> (j in p <==> j in l.pending)
  {
    WithoutDistinct(l.pending, id);
  }

  /** fdevent_set makes exactly `ev` wanted; fdevent_add and fdevent_del add to and take from it. */
  lemma SetIsExact(l: Loop, id: nat, ev: set<Event>)
    requires id in l.fdes
    ensures OnlyChanges(l, Set(l, id, ev), id, l.fdes[id].fd) && Set(l, id, ev).table == l.table
    ensures Set(l, id, ev).fdes[id].want == ev
    ensures Add(l, id, ev).fdes[id].want == l.fdes[id].want + ev
    ensures Del(l, id, ev).fdes[id].want == l.fdes[id].want - ev
  {
  }

  /** An active fde is in a select set exactly if the event was asked for. */
  lemma SetArms(l: Loop, id: nat, ev: set<Event>)
    requires Ok(l) && id in l.fdes && l.fdes[id].active
    ensures var l', fd := Set(l, id, ev), l.fdes[id].fd;
      (fd in l'.readFds <==> READ in ev) && (fd in l'.writeFds <==> WRITE in ev) && (fd in l'.errorFds <==> ERROR in ev)
  {
    var l', fd := Set(l, id, ev), l.fdes[id].fd;
    assert fd in l.readFds <==> Wants(l, fd, READ);
    assert fd in l.writeFds <==> Wants(l, fd, WRITE);
    assert fd in l.errorFds <==> Wants(l, fd, ERROR);
  }

  /** The aborts, which no consistent loop reaches, where the code has them. */
  lemma AbortsWhenOutOfStep(l: Loop, id: nat, i: nat, ev: set<Event>)
    requires l.selectN <= |l.table|
    ensures ev != {} && !Registered(l, i) ==> Report(l, i, ev).fatal == Some(MissingFde)
    ensures id in l.fdes && l.fdes[id].active && l.fdes[id].fd >= |l.table| ==> Remove(l, id).fatal == Some(OutOfRange)
    ensures id in l.fdes && l.fdes[id].active && l.fdes[id].fd < |l.table| && l.table[l.fdes[id].fd] != Some(id) ==>
      Remove(l, id).fatal == Some(OutOfSync)
    ensures i >= |l.table| && i > 32000 ==> Install(l, id, i).fatal == Some(HugeFd)
  {
  }

  /** A finished subprocess makes a pending fde readable as well. */
  lemma SubprocForcesRead(l: Loop, id: nat)
    requires Ok(l) && id in l.fdes && l.fdes[id].pending
    ensures var l' := Apply(l, DoSubproc(id));
      OnlyChanges(l, l', id, l.fdes[id].fd) && l'.fdes[id] == l.fdes[id].(events := l.fdes[id].events + {READ})
  {
  }

  /** One round: calls from outside the loop, select and its result, the callbacks. */
  datatype Round = Round(before: seq<Op>, sel: Select, bad: set<nat>, script: seq<seq<Op>>)

  ghost function AfterRound(l: Loop, round: Round): (r: Loop)
    requires Ok(l)
    ensures Ok(r)
  {
    ApplyAllOk(l, round.before);
    var l1 := ApplyAll(l, round.before);
    if !Asked(l1, round.sel) then l1
    else
      ProcessedOk(l1, round.sel, round.bad);
      Drained(Processed(l1, round.sel, round.bad), round.script, 0).0
  }

  ghost function Run(l: Loop, rounds: seq<Round>): (r: Loop)
    requires Ok(l)
    ensures Ok(r)
    decreases |rounds|
  {
    if rounds == [] then l else Run(AfterRound(l, rounds[0]), rounds[1..])
  }

  /** A call that the rules of use allow is carried out. */
  lemma CallsTakeEffect(l: Loop, id: nat, fd: nat, ev: set<Event>)
    requires Ok(l)
    ensures (id in l.fdes ==> !l.fdes[id].active) && (if fd < |l.table| then l.table[fd].None? else fd <= 32000) ==>
      Apply(l, DoInstall(id, fd)) == Install(l, id, fd)
    ensures id in l.fdes ==>
      && Apply(l, DoRemove(id)) == Remove(l, id) && Apply(l, DoSet(id, ev)) == Set(l, id, ev)
      && Apply(l, DoAdd(id, ev)) == Add(l, id, ev) && Apply(l, DoDel(id, ev)) == Del(l, id, ev)
  {
  }

  /** A round with an answer from select leaves nothing pending: all that was found has been called or withdrawn. */
  lemma RoundLeavesNothing(l: Loop, round: Round)
    requires Ok(l) && Asked(ApplyAll(l, round.before), round.sel)
    ensures AfterRound(l, round).pending == []
  {
    ApplyAllOk(l, round.before);
    ProcessedOk(ApplyAll(l, round.before), round.sel, round.bad);
  }

  lemma {:induction false} DrainedFatal(l: Loop, script: seq<seq<Op>>, k: nat)
    requires Ok(l)
    ensures Drained(l, script, k).0.fatal == l.fatal
    decreases |l.pending|
  {
    if l.pending != [] {
      CalledFatal(l, Ops(script, k));
      DrainedFatal(Called(l, Ops(script, k)), script, k + 1);
    }
  }

  lemma CalledFatal(l: Loop, ops: seq<Op>)
    requires Ok(l) && l.pending != []
    ensures Called(l, ops).fatal == l.fatal
  {
    DispatchOk(l);
    ApplyAllOk(Dispatch(l), ops);
  }

  lemma AfterRoundFatal(l: Loop, round: Round)
    requires Ok(l)
    ensures AfterRound(l, round).fatal == l.fatal
  {
    ApplyAllOk(l, round.before);
    var l1 := ApplyAll(l, round.before);
    if Asked(l1, round.sel) {
      ProcessedOk(l1, round.sel, round.bad);
      DrainedFatal(Processed(l1, round.sel, round.bad), round.script, 0);
    }
  }

  lemma {:induction false} RunKeepsFatal(l: Loop, rounds: seq<Round>)
    requires Ok(l)
    ensures Run(l, rounds).fatal == l.fatal
    decreases |rounds|
  {
    if rounds != [] {
      AfterRoundFatal(l, rounds[0]);
      RunKeepsFatal(AfterRound(l, rounds[0]), rounds[1..]);
    }
  }

  lemma EmptyOk()
    ensures Ok(EMPTY)
  {
  }

  /** After every run of the loop from the start: everything agrees and no abort was reached. */
  lemma RunOk(rounds: seq<Round>)
    ensures Ok(EMPTY) && Ok(Run(EMPTY, rounds)) && Run(EMPTY, rounds).fatal == None
  {
    EmptyOk();
    RunKeepsFatal(EMPTY, rounds);
  }

  /**
   * Disarming never withdraws a pending event: whatever is pending, the event that fdevent_del
   * takes out of the wanted ones stays, and a drain whose callbacks leave the fde alone calls
   * it with that event.
   */
  lemma DisarmedEventIsCalled(l: Loop, id: nat, e: Event, script: seq<seq<Op>>)
    requires Ok(l) && id in l.pending && id in l.fdes && e in l.fdes[id].events && e in l.fdes[id].want
    requires forall j :: 0 <= j < |script| ==> Untouched(script[j], id)
    ensures var l' := Del(l, id, {e});
      && Ok(l') && id in l'.pending && id in l'.fdes && e !in l'.fdes[id].want && e in l'.fdes[id].events
      && (id, l'.fdes[id].events) in Drained(l', script, 0).1
  {
    var ev := l.fdes[id].want - {e};
    SetOk(l, id, ev);
    SetDropsWantedEvents(l, id, ev);
    DrainCallsEach(Del(l, id, {e}), script, 0, id);
  }

  /** Such a state is reachable: fd 5 armed for both directions and then found readable. */
  lemma PendingArmedReadIsReachable()
    ensures Ok(EMPTY)
    ensures var l := Report(Set(Install(EMPTY, 1, 5), 1, {READ, WRITE}), 5, {READ});
      Ok(l) && l.pending == [1] && l.fdes[1] == Fde(5, true, true, {READ, WRITE}, {READ})
  {
    EmptyOk();
    InstallOk(EMPTY, 1, 5);
    var l1 := Install(EMPTY, 1, 5);
    assert l1.fdes[1] == Fde(5, true, false, {}, {});
    SetOk(l1, 1, {READ, WRITE});
    var l2 := Set(l1, 1, {READ, WRITE});
    assert l2.fdes[1] == Fde(5, true, false, {READ, WRITE}, {}) && l2.pending == [];
    ReportOk(l2, 5, {READ});
  }

  class EventLoop {
    var fdes: map<nat, Fde>
    var table: seq<Option<nat>>
    var readFds: set<nat>
    var writeFds: set<nat>
    var errorFds: set<nat>
    var selectN: nat
    var pending: seq<nat>

    function Value(): Loop
      reads this
    {
      Loop(fdes, table, readFds, writeFds, errorFds, selectN, pending, None)
    }

    constructor ()
      ensures Value() == EMPTY && Ok(Value())
    {
      fdes, table, readFds, writeFds, errorFds, selectN, pending := map[], [], {}, {}, {}, 0, [];
    }

    /** fdevent_install of an fd that is not registered; ok is false where the code aborts. */
    method InstallFd(id: nat, fd: nat) returns (ok: bool)
      requires Ok(Value()) && (id in fdes ==> !fdes[id].active) && (fd < |table| ==> table[fd].None?)
      modifies this
      ensures ok <==> (fd < old(|table|) || fd <= 32000)
      ensures ok ==> Value() == Install(old(Value()), id, fd) && Ok(Value()) && |table| <= 32768
      ensures !ok ==> Value() == old(Value())
    {
      InstallOk(Value(), id, fd);
      GrownFits(|table|, fd);
      ok := true;
      var max := |table|;
      if fd >= max {
        if fd > 32000 { return false; }
        if max == 0 { max := 256; }
        ghost var start := max;
        while max <= fd
          invariant max > 0 && Doubled(start, fd) == Doubled(max, fd)
          decreases fd + 1 - max
        {
          max := 2 * max;
        }
      }
      table := Padded(table, max)[fd := Some(id)];
      if fd >= selectN { selectN := fd + 1; }
      fdes := fdes[id := Fde(fd, true, false, {}, {})];
    }

    /** fdevent_disconnect and fdevent_unregister of an fd that is in the table. */
    method Unregister(fd: nat)
      requires selectN <= |table| && fd < |table|
      modifies this`readFds, this`writeFds, this`errorFds, this`selectN, this`table
      ensures readFds == old(readFds) - {fd} && writeFds == old(writeFds) - {fd} && errorFds == old(errorFds) - {fd}
      ensures selectN == HighWater(old(table), old(selectN)) + 1 && table == old(table)[fd := None]
    {
      readFds, writeFds, errorFds := readFds - {fd}, writeFds - {fd}, errorFds - {fd};
      var n, i := 0, 0;
      while i < selectN
        invariant 0 <= i <= selectN && n == HighWater(table, i)
      {
        if table[i].Some? { n := i; }
        i := i + 1;
      }
      selectN := n + 1;
      table := table[fd := None];
    }

    /** fdevent_remove: the table is found in sync, so it never aborts. */
    method RemoveFd(id: nat)
      requires Ok(Value()) && id in fdes
      modifies this
      ensures Value() == Remove(old(Value()), id) && Ok(Value())
    {
      RemoveOk(Value(), id);
      var fde := fdes[id];
      if fde.pending { pending := Without(pending, id); }
      if fde.active { Unregister(fde.fd); }
      fdes := fdes[id := fde.(active := false, pending := false, want := {}, events := {})];
    }

    /** fdevent_update: the three select sets. */
    method Update(fd: nat, ev: set<Event>)
      modifies this`readFds, this`writeFds, this`errorFds
      ensures forall i :: i in readFds <==> if i == fd then READ in ev else i in old(readFds)
      ensures forall i :: i in writeFds <==> if i == fd then WRITE in ev else i in old(writeFds)
      ensures forall i :: i in errorFds <==> if i == fd then ERROR in ev else i in old(errorFds)
    {
      readFds := if READ in ev then readFds + {fd} else readFds - {fd};
      writeFds := if WRITE in ev then writeFds + {fd} else writeFds - {fd};
      errorFds := if ERROR in ev then errorFds + {fd} else errorFds - {fd};
    }

    /** fdevent_set */
    method SetEvents(id: nat, ev: set<Event>)
      requires Ok(Value()) && id in fdes
      modifies this
      ensures Value() == Set(old(Value()), id, ev) && Ok(Value())
    {
      SetOk(Value(), id, ev);
      var fde := fdes[id];
      if fde.want == ev { return; }
      if fde.active {
        Update(fde.fd, ev);
        FlagIs(old(readFds), readFds, fde.fd, READ in ev);
        FlagIs(old(writeFds), writeFds, fde.fd, WRITE in ev);
        FlagIs(old(errorFds), errorFds, fde.fd, ERROR in ev);
      }
      fde := fde.(want := ev);
      if fde.pending {
        fde := fde.(events := fde.events - ev);
        if fde.events == {} {
          pending := Without(pending, id);
          fde := fde.(pending := false);
        }
      }
      fdes := fdes[id := fde];
    }

    method AddEvents(id: nat, ev: set<Event>)
      requires Ok(Value()) && id in fdes
      modifies this
      ensures Value() == Add(old(Value()), id, ev) && Ok(Value())
    {
      SetEvents(id, fdes[id].want + ev);
    }

    method DelEvents(id: nat, ev: set<Event>)
      requires Ok(Value()) && id in fdes
      modifies this
      ensures Value() == Del(old(Value()), id, ev) && Ok(Value())
    {
      SetEvents(id, fdes[id].want - ev);
    }

    /** fdevent_fd_check: the registered fds for which fcntl fails (`bad`). */
    method FdCheck(bad: set<nat>) returns (r: set<nat>, n: nat)
      requires Ok(Value())
      ensures n == |r|
      ensures forall i :: i in r <==> i in bad && i < selectN && table[i].Some?
    {
      r, n := {}, 0;
      var i := 0;
      while i < selectN
        invariant 0 <= i <= selectN && n == |r|
        invariant forall k :: k in r <==> k in bad && k < i && table[k].Some?
      {
        if table[i].Some? && i in bad {
          r, n := r + {i}, n + 1;
        }
        i := i + 1;
      }
    }

    /** fdevent_process after select: the loop with its early exit. */
    method Process(sel: Select, bad: set<nat>)
      requires Ok(Value())
      requires sel.Ready? ==> sel.r <= readFds && sel.w <= writeFds && sel.e <= errorFds
      modifies this`fdes, this`pending
      ensures Ok(Value())
      ensures Value() == Processed(old(Value()), sel, bad)
    {
      var r, w, e := {}, {}, {};
      var n := 0;
      if sel.Interrupted? { return; }
      if sel.Ready? {
        r, w, e := sel.r, sel.w, sel.e;
        n := |r| + |w| + |e|;
      }
      if n == 0 {
        r, n := FdCheck(bad);
        w, e := {}, {};
        assert r == BadFds(Value(), bad);
      }
      ReportsAll(Value(), r, w, e, 0);
      CountDown(r, w, e, n);
    }

    /** Record events for fd i, queueing its fde unless it is pending already. */
    method ReportFd(i: nat, events: set<Event>)
      requires Registered(Value(), i) && events != {}
      modifies this`fdes, this`pending
      ensures Value() == Report(old(Value()), i, events)
    {
      var id := table[i].value;
      var was := fdes[id];
      fdes := fdes[id := was.(events := was.events + events, pending := true)];
      if was.pending { return; }
      pending := pending + [id];
    }

    /** The three FD_ISSET tests of one turn. */
    static method Collect(r: set<nat>, w: set<nat>, e: set<nat>, i: nat, n: int) returns (events: set<Event>, n': int)
      ensures events == Found(r, w, e, i)
      ensures n' == n - (if i in r then 1 else 0) - (if i in w then 1 else 0) - (if i in e then 1 else 0)
    {
      events, n' := {}, n;
      if i in r { events := events + {READ}; n' := n' - 1; }
      if i in w { events := events + {WRITE}; n' := n' - 1; }
      if i in e { events := events + {ERROR}; n' := n' - 1; }
    }

    method CountDown(r: set<nat>, w: set<nat>, e: set<nat>, n0: nat)
      requires Ok(Value()) && Sound(Value(), r, w, e) && n0 == |r| + |w| + |e|
      modifies this`fdes, this`pending
      ensures Value() == ReportFrom(old(Value()), r, w, e, 0)
    {
      var i, n := 0, n0;
      CountStart(Value(), r, w, e);
      while i < selectN && n > 0
        invariant Counting(Value(), r, w, e, i, n)
        invariant ReportFrom(old(Value()), r, w, e, 0) == ReportFrom(Value(), r, w, e, i)
      {
        CountStep(Value(), r, w, e, i, n);
        var events;
        events, n := Collect(r, w, e, i, n);
        if events != {} {
          ReportFd(i, events);
        }
        i := i + 1;
      }
      CountEnd(Value(), r, w, e, i, n);
    }

    /** fdevent_plist_dequeue, then the part of fdevent_call_fdfunc before the callback. */
    method Dequeue() returns (id: nat, events: set<Event>)
      requires Ok(Value()) && pending != []
      modifies this`fdes, this`pending
      ensures Ok(Value()) && Value() == Dispatch(old(Value()))
      ensures id == old(pending)[0] && id in old(fdes) && events == old(fdes)[id].events != {}
      ensures pending == old(pending)[1..]
    {
      DispatchOk(Value());
      id := pending[0];
      events := fdes[id].events;
      pending := pending[1..];
      fdes := fdes[id := fdes[id].(events := {}, pending := false)];
    }

    /**
     * The dispatch loop of fdevent_loop; script[k] is what the k-th callback does.  It ends
     * because callbacks never add to the pending list.
     */
    method Drain(script: seq<seq<Op>>) returns (log: seq<(nat, set<Event>)>)
      requires Ok(Value())
      modifies this
      ensures Ok(Value()) && pending == []
      ensures (Value(), log) == Drained(old(Value()), script, 0)
    {
      log := [];
      ResumeStart(Value(), script);
      while pending != []
        invariant Ok(Value())
        invariant Resumes(old(Value()), script, log, Value())
        decreases |pending|
      {
        ghost var before := Value();
        var id, events := CallHead(Ops(script, |log|));
        ResumeStep(old(Value()), script, log, before);
        log := log + [(id, events)];
      }
      ResumeEnd(old(Value()), script, log, Value());
    }

    /** One round: the head of the pending list is called, and its callback does `ops`. */
    method CallHead(ops: seq<Op>) returns (id: nat, events: set<Event>)
      requires Ok(Value()) && pending != []
      modifies this
      ensures Ok(Value()) && Value() == Called(old(Value()), ops)
      ensures id == old(pending)[0] && id in old(fdes) && events == old(fdes)[id].events != {}
      ensures |pending| < |old(pending)|
    {
      id, events := Dequeue();
      Callback(ops);
    }

    /** fdevent_loop, for any number of rounds. */
    method RunLoop(rounds: seq<Round>)
      requires Ok(Value())
      modifies this
      ensures Ok(Value()) && Value() == Run(old(Value()), rounds)
    {
      var i := 0;
      assert rounds[0..] == rounds;
      while i < |rounds|
        invariant 0 <= i <= |rounds| && Ok(Value())
        invariant Run(old(Value()), rounds) == Run(Value(), rounds[i..])
      {
        assert rounds[i..][1..] == rounds[i + 1..];
        OneRound(rounds[i]);
        i := i + 1;
      }
    }

    method OneRound(round: Round)
      requires Ok(Value())
      modifies this
      ensures Ok(Value()) && Value() == AfterRound(old(Value()), round)
    {
      Callback(round.before);
      if Asked(Value(), round.sel) {
        ProcessedOk(Value(), round.sel, round.bad);
        Process(round.sel, round.bad);
        var _ := Drain(round.script);
      }
    }

    /** A callback is any sequence of calls into the loop. */
    method Callback(ops: seq<Op>)
      requires Ok(Value())
      modifies this
      ensures Ok(Value()) && Value() == ApplyAll(old(Value()), ops)
      ensures |pending| <= |old(pending)|
      ensures forall id :: id in pending ==> id in old(pending) && !Removes(ops, id)
    {
      ApplyAllOk(Value(), ops);
      var i := 0;
      assert ops[0..] == ops;
      while i < |ops|
        invariant 0 <= i <= |ops| && Ok(Value())
        invariant ApplyAll(old(Value()), ops) == ApplyAll(Value(), ops[i..])
      {
        assert ops[i..][1..] == ops[i + 1..];
        ApplyOp(ops[i]);
        i := i + 1;
      }
    }

    /** One call into the loop. */
    method ApplyOp(op: Op)
      requires Ok(Value())
      modifies this
      ensures Ok(Value()) && Value() == Apply(old(Value()), op)
    {
      match op {
        case DoInstall(id, fd) =>
          if !((id in fdes && fdes[id].active) || (if fd < |table| then table[fd].Some? else fd > 32000)) {
            var _ := InstallFd(id, fd);
          }
        case DoRemove(id) => if id in fdes { RemoveFd(id); }
        case DoSet(id, ev) => if id in fdes { SetEvents(id, ev); }
        case DoAdd(id, ev) => if id in fdes { AddEvents(id, ev); }
        case DoDel(id, ev) => if id in fdes { DelEvents(id, ev); }
        case DoSubproc(id) =>
          ApplyOk(Value(), op);
          if id in fdes && fdes[id].pending {
            fdes := fdes[id := fdes[id].(events := fdes[id].events + {READ})];
          }
      }
    }
  }
}
