/** The table that gives each thread its implicit producer: linear probing, no removal, a chain of ever
    larger tables behind the current one, lazy migration into the current one, and one shared count that
    decides when a table has room.  Every load, store, fetch_add, compare_exchange and test_and_set is a
    step.  Memory allocation succeeds; capacities are powers of two, so & (capacity - 1) is % cap. */
module ProducerHash {
  import opened Modular

  type Tid = nat

  datatype Key = Free | Taken(t: Tid)            // Free is invalid_thread_id
  datatype Value = Nothing | Producer(v: nat)
  datatype Entry = Entry(key: Key, value: Value)
  datatype Table = Table(entries: seq<Entry>)

  /** Local variables: main is mainHash, h the table being searched, i the index before masking, n newCount. */
  datatype Pc =
    | Idle(result: Value)
    | LoadMain
    | Search(main: nat, h: nat, i: nat)          // load the key of slot i of table h
    | MoveProbe(main: nat, v: nat, i: nat)       // found in an older table: look for a free slot in main
    | MoveCas(main: nat, v: nat, i: nat)         //   compare_exchange of the key
    | MoveStore(main: nat, v: nat, i: nat)       //   store the value
    | AddCount(main: nat)                        // implicitProducerHashCount.fetch_add
    | TryLock(main: nat, n: nat)                 // half full: test_and_set of the resize flag
    | Reload(n: nat)                             //   mainHash again, now under the lock
    | Publish(main: nat, n: nat)                 //   store the bigger table
    | Unlock(main: nat, n: nat)                  //   clear the flag
    | CheckRoom(main: nat, n: nat)               // less than three quarters full?
    | Await(n: nat)                              //   no: load mainHash and try again
    | LinkLoad(main: nat, n: nat)                // create a producer; add_producer: load producerListTail
    | LinkCas(main: nat, n: nat, seen: nat)      //   compare_exchange of producerListTail
    | AddProbe(main: nat, v: nat, i: nat)        // look for a free slot in main
    | AddCas(main: nat, v: nat, i: nat)
    | AddStore(main: nat, v: nat, i: nat)

  /** tables: all tables, each one the prev of the next; the last is implicitProducerHash.  producers: the
      producer list, oldest first, each with the thread that created it; the pointer producerListTail is
      represented by the length, which says the same since the list only grows.  hash: hash_thread_id. */
  datatype State = State(tables: seq<Table>, count: nat, locked: bool, producers: seq<Tid>, hash: seq<nat>, pcs: seq<Pc>)

  datatype Op = Call(t: Tid) | Continue(t: Tid)

  function Cap(tables: seq<Table>, h: nat): nat
    requires h < |tables|
  { |tables[h].entries| }

  /** newCapacity: doubled until newCount is below half of it */
  function Grown(cap: nat, n: nat): (c: nat)
    requires cap > 0
    ensures c >= cap && n < c / 2 && (c > cap ==> c / 4 <= n)
    decreases n + 1 - cap / 2
  { if n >= cap / 2 then Grown(2 * cap, n) else cap }

  /** The test for room: (capacity >> 1) + (capacity >> 2) */
  function Limit(cap: nat): nat { cap / 2 + cap / 4 }

  function EntryAt(tables: seq<Table>, h: nat, i: nat): Entry {
    if h < |tables| && Cap(tables, h) > 0 then tables[h].entries[i % Cap(tables, h)] else Entry(Free, Nothing)
  }

  function WithEntry(tables: seq<Table>, h: nat, i: nat, e: Entry): seq<Table> {
    if h < |tables| && Cap(tables, h) > 0 then tables[h := Table(tables[h].entries[i % Cap(tables, h) := e])] else tables
  }

  predicate Enabled(s: State, op: Op) {
    && op.t < |s.pcs| == |s.hash| && |s.tables| > 0
    && match op
       case Call(t) => s.pcs[t].Idle?
       case Continue(t) => !s.pcs[t].Idle?
  }

  function Next(s: State, op: Op): State
    requires Enabled(s, op)
  {
    match op
    case Call(t) => s.(pcs := s.pcs[t := LoadMain])
    case Continue(t) => Perform(s, t)
  }

  function Perform(s: State, t: Tid): State
    requires t < |s.pcs| == |s.hash| && !s.pcs[t].Idle? && |s.tables| > 0
  {
    var last := |s.tables| - 1;
    match s.pcs[t]
    case LoadMain => s.(pcs := s.pcs[t := Search(last, last, s.hash[t])])
    case Search(main, h, i) =>
      var e := EntryAt(s.tables, h, i);
      if e.key == Taken(t) then
        if e.value.Nothing? then s.(pcs := s.pcs[t := Idle(Nothing)])
        else if h != main then s.(pcs := s.pcs[t := MoveProbe(main, e.value.v, s.hash[t])])
        else s.(pcs := s.pcs[t := Idle(e.value)])
      else if e.key.Free? then s.(pcs := s.pcs[t := if h > 0 then Search(main, h - 1, s.hash[t]) else AddCount(main)])
      else s.(pcs := s.pcs[t := Search(main, h, i + 1)])
    case MoveProbe(main, v, i) =>
      s.(pcs := s.pcs[t := if EntryAt(s.tables, main, i).key.Free? then MoveCas(main, v, i) else MoveProbe(main, v, i + 1)])
    case MoveCas(main, v, i) =>
      var e := EntryAt(s.tables, main, i);
      if e.key.Free? then s.(tables := WithEntry(s.tables, main, i, e.(key := Taken(t))), pcs := s.pcs[t := MoveStore(main, v, i)])
      else s.(pcs := s.pcs[t := MoveProbe(main, v, i + 1)])
    case MoveStore(main, v, i) =>
      s.(tables := WithEntry(s.tables, main, i, EntryAt(s.tables, main, i).(value := Producer(v))), pcs := s.pcs[t := Idle(Producer(v))])
    case AddCount(main) => s.(count := s.count + 1, pcs := s.pcs[t := TryLock(main, s.count + 1)])
    case TryLock(main, n) =>
      if main < |s.tables| && n >= Cap(s.tables, main) / 2 && !s.locked then s.(locked := true, pcs := s.pcs[t := Reload(n)])
      else s.(pcs := s.pcs[t := CheckRoom(main, n)])
    case Reload(n) => s.(pcs := s.pcs[t := if n >= Cap(s.tables, last) / 2 then Publish(last, n) else Unlock(last, n)])
    case Publish(main, n) =>
      var cap := if main < |s.tables| && Cap(s.tables, main) > 0 then Grown(2 * Cap(s.tables, main), n) else 1;
      s.(tables := s.tables + [Table(seq(cap, _ => Entry(Free, Nothing)))], pcs := s.pcs[t := Unlock(|s.tables|, n)])
    case Unlock(main, n) => s.(locked := false, pcs := s.pcs[t := CheckRoom(main, n)])
    case CheckRoom(main, n) =>
      s.(pcs := s.pcs[t := if main < |s.tables| && n < Limit(Cap(s.tables, main)) then LinkLoad(main, n) else Await(n)])
    case Await(n) => s.(pcs := s.pcs[t := TryLock(last, n)])
    case LinkLoad(main, n) => s.(pcs := s.pcs[t := LinkCas(main, n, |s.producers|)])
    case LinkCas(main, n, seen) =>
      if |s.producers| == seen then s.(producers := s.producers + [t], pcs := s.pcs[t := AddProbe(main, seen, s.hash[t])])
      else s.(pcs := s.pcs[t := LinkCas(main, n, |s.producers|)])
    case AddProbe(main, v, i) =>
      s.(pcs := s.pcs[t := if EntryAt(s.tables, main, i).key.Free? then AddCas(main, v, i) else AddProbe(main, v, i + 1)])
    case AddCas(main, v, i) =>
      var e := EntryAt(s.tables, main, i);
      if e.key.Free? then s.(tables := WithEntry(s.tables, main, i, e.(key := Taken(t))), pcs := s.pcs[t := AddStore(main, v, i)])
      else s.(pcs := s.pcs[t := AddProbe(main, v, i + 1)])
    case AddStore(main, v, i) =>
      s.(tables := WithEntry(s.tables, main, i, EntryAt(s.tables, main, i).(value := Producer(v))), pcs := s.pcs[t := Idle(Producer(v))])
  }

  // ---------------------------------------------------------------------------------------------
  // The invariant
  // ---------------------------------------------------------------------------------------------

  /** History.  ticket: the newCount each thread got, or 0.  pos: for each table the unmasked index at
      which each resident sits.  home: the table a thread was first added to. */
  datatype View = View(ticket: seq<nat>, pos: seq<map<Tid, nat>>, home: map<Tid, nat>)

  /** Slot k of table h holds the key of another thread. */
  predicate Passed(tables: seq<Table>, h: nat, k: nat, t: Tid) {
    EntryAt(tables, h, k).key.Taken? && EntryAt(tables, h, k).key.t != t
  }

  /** The probe of thread t has come to index i: all slots from its first choice on are taken by others. */
  predicate Probed(tables: seq<Table>, h: nat, from: nat, i: nat, t: Tid) {
    from <= i && forall k :: from <= k < i ==> Passed(tables, h, k, t)
  }

  /** t is resident in table h, and a probe for it gets there. */
  predicate Resident(tables: seq<Table>, pos: map<Tid, nat>, h: nat, from: nat, t: Tid)
    requires t in pos
  { EntryAt(tables, h, pos[t]).key == Taken(t) && Probed(tables, h, from, pos[t], t) }

  /** The slot whose value t is about to store. */
  predicate Storing(pc: Pc, h: nat) { (pc.MoveStore? || pc.AddStore?) && pc.main == h }

  predicate Owns(producers: seq<Tid>, v: nat, t: Tid) { v < |producers| && producers[v] == t }

  predicate Settled(tables: seq<Table>, pos: map<Tid, nat>, h: nat, producers: seq<Tid>, pc: Pc, t: Tid)
    requires t in pos
  {
    var value := EntryAt(tables, h, pos[t]).value;
    Storing(pc, h) || (value.Producer? && Owns(producers, value.v, t))
  }

  /** Resident t of table h: found by its probe, with its own producer, and with a count that fits. */
  predicate MemberOk(s: State, v: View, h: nat, t: Tid) {
    var holds :=
      && h < |s.tables| && h < |v.pos| && t in v.pos[h] && t < |s.pcs| && t < |s.hash| && t < |v.ticket|
      && Resident(s.tables, v.pos[h], h, s.hash[t], t)
      && Settled(s.tables, v.pos[h], h, s.producers, s.pcs[t], t)
      && 0 < v.ticket[t] < Limit(Cap(s.tables, h))
      && t in v.home && v.home[t] <= h;
    holds
  }

  /** A taken slot is taken by a resident. */
  predicate SlotOk(tables: seq<Table>, pos: seq<map<Tid, nat>>, h: nat, j: nat) {
    && h < |tables| && h < |pos| && j < |tables[h].entries|
    && (tables[h].entries[j].key.Taken? ==>
          var u := tables[h].entries[j].key.t; u in pos[h] && pos[h][u] % |tables[h].entries| == j)
  }

  predicate Absent(pos: seq<map<Tid, nat>>, h: nat, t: Tid) { h < |pos| ==> t !in pos[h] }

  predicate AbsentFrom(pos: seq<map<Tid, nat>>, a: nat, b: nat, t: Tid) { forall h :: a <= h < b ==> Absent(pos, h, t) }

  predicate Known(v: View, t: Tid) { t in v.home }

  predicate PcOk(s: State, v: View, t: Tid)
    requires t < |s.pcs| == |s.hash| == |v.ticket|
  {
    var holds :=
      match s.pcs[t]
      case Idle(result) => if Known(v, t) then result.Producer? && Owns(s.producers, result.v, t) else result.Nothing? && v.ticket[t] == 0
      case LoadMain => Known(v, t) || v.ticket[t] == 0
      case Search(main, h, i) =>
        && h <= main < |s.tables| && Probed(s.tables, h, s.hash[t], i, t) && AbsentFrom(v.pos, h + 1, main + 1, t)
        && (if Known(v, t) then v.home[t] <= h else v.ticket[t] == 0)
      case MoveProbe(main, w, i) =>
        && main < |s.tables| && Known(v, t) && v.home[t] < main && Absent(v.pos, main, t) && Owns(s.producers, w, t)
        && Probed(s.tables, main, s.hash[t], i, t)
      case MoveCas(main, w, i) =>
        && main < |s.tables| && Known(v, t) && v.home[t] < main && Absent(v.pos, main, t) && Owns(s.producers, w, t)
        && Probed(s.tables, main, s.hash[t], i, t)
      case MoveStore(main, w, i) =>
        main < |s.tables| && Known(v, t) && Owns(s.producers, w, t) && main < |v.pos| && t in v.pos[main] && v.pos[main][t] == i
      case AddCount(main) => main < |s.tables| && !Known(v, t) && v.ticket[t] == 0
      case TryLock(main, n) => main < |s.tables| && !Known(v, t) && v.ticket[t] == n > 0
      case Reload(n) => s.locked && !Known(v, t) && v.ticket[t] == n > 0
      case Publish(main, n) =>
        s.locked && main + 1 == |s.tables| && !Known(v, t) && v.ticket[t] == n > 0 && n >= Cap(s.tables, main) / 2
      case Unlock(main, n) => s.locked && main < |s.tables| && !Known(v, t) && v.ticket[t] == n > 0
      case CheckRoom(main, n) => main < |s.tables| && !Known(v, t) && v.ticket[t] == n > 0
      case Await(n) => !Known(v, t) && v.ticket[t] == n > 0
      case LinkLoad(main, n) => main < |s.tables| && !Known(v, t) && v.ticket[t] == n > 0 && n < Limit(Cap(s.tables, main))
      case LinkCas(main, n, seen) =>
        main < |s.tables| && !Known(v, t) && v.ticket[t] == n > 0 && n < Limit(Cap(s.tables, main)) && seen <= |s.producers|
      case AddProbe(main, w, i) =>
        && main < |s.tables| && !Known(v, t) && 0 < v.ticket[t] < Limit(Cap(s.tables, main)) && Owns(s.producers, w, t)
        && Probed(s.tables, main, s.hash[t], i, t)
      case AddCas(main, w, i) =>
        && main < |s.tables| && !Known(v, t) && 0 < v.ticket[t] < Limit(Cap(s.tables, main)) && Owns(s.producers, w, t)
        && Probed(s.tables, main, s.hash[t], i, t)
      case AddStore(main, w, i) =>
        main < |s.tables| && Known(v, t) && Owns(s.producers, w, t) && main < |v.pos| && t in v.pos[main] && v.pos[main][t] == i;
    holds
  }

  /** Inside the resize lock. */
  predicate Resizing(pc: Pc) { pc.Reload? || pc.Publish? || pc.Unlock? }

  /** A thread has created its producer when it is known, or about to be. */
  predicate Creator(pc: Pc, v: View, t: Tid) { Known(v, t) || pc.AddProbe? || pc.AddCas? }

  predicate Shapes(s: State, v: View) {
    && |s.tables| == |v.pos| > 0 && |s.pcs| == |s.hash| == |v.ticket|
    && (forall h :: 0 <= h < |s.tables| ==> Cap(s.tables, h) > 0)
    && (forall g, h :: 0 <= g < h < |s.tables| ==> Cap(s.tables, g) <= Cap(s.tables, h))
  }

  predicate Homes(s: State, v: View) {
    forall t {:trigger v.home[t]} :: t in v.home ==> t < |s.pcs| && v.home[t] < |v.pos| && t in v.pos[v.home[t]]
  }

  predicate AllMembers(s: State, v: View) {
    forall h, t {:trigger MemberOk(s, v, h, t)} :: 0 <= h < |v.pos| && t in v.pos[h] ==> MemberOk(s, v, h, t)
  }

  predicate AllSlots(s: State, v: View) {
    forall h, j {:trigger SlotOk(s.tables, v.pos, h, j)} ::
      0 <= h < |s.tables| && 0 <= j < |s.tables[h].entries| ==> SlotOk(s.tables, v.pos, h, j)
  }

  predicate Tickets(s: State, v: View) {
    && (forall t :: 0 <= t < |v.ticket| ==> v.ticket[t] <= s.count)
    && (forall t, u :: 0 <= t < u < |v.ticket| ==> v.ticket[t] != v.ticket[u] || v.ticket[t] == 0)
  }

  predicate OneResizer(s: State) {
    forall t, u :: 0 <= t < u < |s.pcs| ==> !(Resizing(s.pcs[t]) && Resizing(s.pcs[u]))
  }

  predicate Producers(s: State, v: View) {
    && (forall w :: 0 <= w < |s.producers| ==> s.producers[w] < |s.pcs| && Creator(s.pcs[s.producers[w]], v, s.producers[w]))
    && (forall w, x :: 0 <= w < x < |s.producers| ==> s.producers[w] != s.producers[x])
  }

  predicate AllPcs(s: State, v: View)
    requires |s.pcs| == |s.hash| == |v.ticket|
  { forall t {:trigger PcOk(s, v, t)} :: 0 <= t < |s.pcs| ==> PcOk(s, v, t) }

  ghost predicate Inv(s: State, v: View) {
    && Shapes(s, v) && Homes(s, v) && AllMembers(s, v) && AllSlots(s, v) && Tickets(s, v) && OneResizer(s) && Producers(s, v)
    && AllPcs(s, v)
  }

  // ---------------------------------------------------------------------------------------------
  // A table is never full
  // ---------------------------------------------------------------------------------------------

  predicate Distinct(s: seq<nat>) { forall i, j :: 0 <= i < j < |s| ==> s[i] != s[j] }

  /** More than m - 1 distinct numbers do not fit between 1 and m - 1. */
  lemma {:induction false} Pigeonhole(s: seq<nat>, m: nat)
    requires Distinct(s) && (forall i :: 0 <= i < |s| ==> 0 < s[i] < m)
    ensures |s| < m || m == |s| == 0
    decreases m
  {
    if s != [] {
      assert 0 < s[0] < m;
      if i :| 0 <= i < |s| && s[i] == m - 1 {
        var r := s[..i] + s[i + 1..];
        forall a, b | 0 <= a < b < |r| ensures r[a] != r[b] {
          assert r[a] == s[if a < i then a else a + 1] && r[b] == s[if b < i then b else b + 1];
        }
        Pigeonhole(r, m - 1);
      } else {
        Pigeonhole(s, m - 1);
      }
    }
  }

  /** The residents of a table have distinct counts below three quarters of its capacity, so no more than
      three quarters of its slots are taken at any time. */
  lemma LoadFactor(s: State, v: View, h: nat, js: seq<nat>)
    requires Shapes(s, v) && AllMembers(s, v) && AllSlots(s, v) && Tickets(s, v) && h < |s.tables| && Distinct(js)
    requires forall i :: 0 <= i < |js| ==> js[i] < Cap(s.tables, h) && s.tables[h].entries[js[i]].key.Taken?
    ensures 4 * |js| <= 3 * Cap(s.tables, h)
  {
    var es, cap := s.tables[h].entries, Cap(s.tables, h);
    forall i | 0 <= i < |js| ensures MemberOk(s, v, h, es[js[i]].key.t) && v.pos[h][es[js[i]].key.t] % cap == js[i] {
      assert SlotOk(s.tables, v.pos, h, js[i]);
    }
    var counts := seq(|js|, i requires 0 <= i < |js| => v.ticket[es[js[i]].key.t]);
    forall i, j | 0 <= i < j < |js| ensures counts[i] != counts[j] {
      var t, u := es[js[i]].key.t, es[js[j]].key.t;
      assert MemberOk(s, v, h, t) && MemberOk(s, v, h, u);
      assert t != u;
    }
    Pigeonhole(counts, Limit(cap));
  }

  lemma SomeSlotIsFree(s: State, v: View, h: nat)
    requires Shapes(s, v) && AllMembers(s, v) && AllSlots(s, v) && Tickets(s, v) && h < |s.tables|
    ensures exists j :: 0 <= j < Cap(s.tables, h) && s.tables[h].entries[j].key.Free?
  {
    if forall j :: 0 <= j < Cap(s.tables, h) ==> s.tables[h].entries[j].key.Taken? {
      LoadFactor(s, v, h, seq(Cap(s.tables, h), j => j));
    }
  }

  /** So every probe comes to its end before it has gone once around. */
  lemma ProbeIsShort(s: State, v: View, h: nat, from: nat, i: nat, t: Tid)
    requires Shapes(s, v) && AllMembers(s, v) && AllSlots(s, v) && Tickets(s, v) && h < |s.tables|
    requires Probed(s.tables, h, from, i, t)
    ensures i < from + Cap(s.tables, h)
  {
    var cap := Cap(s.tables, h);
    SomeSlotIsFree(s, v, h);
    var j :| 0 <= j < cap && s.tables[h].entries[j].key.Free?;
    SlotHit(from, j, cap);
    assert !Passed(s.tables, h, from + (j - from) % cap, t);
  }

  lemma SlotHit(from: nat, j: nat, cap: nat)
    requires j < cap
    ensures (from + (j - from) % cap) % cap == j
  {
    var q := (j - from) / cap;
    assert from + (j - from) % cap == j - cap * q;
    DivModUnique(from + (j - from) % cap, cap, -q, j);
  }

  // ---------------------------------------------------------------------------------------------
  // What other threads cannot disturb
  // ---------------------------------------------------------------------------------------------

  /** Everything thread t relies on is still there. */
  ghost predicate Later(s: State, v: View, s': State, v': View, t: Tid) {
    && |s.pcs| == |s.hash| == |v.ticket| && |s'.pcs| == |s.pcs| && s'.hash == s.hash && |v'.ticket| == |v.ticket| && t < |s.pcs|
    && s'.pcs[t] == s.pcs[t] && v'.ticket[t] == v.ticket[t]
    && |s.tables| == |v.pos| <= |s'.tables| == |v'.pos|
    && (forall h :: 0 <= h < |s.tables| ==> Cap(s'.tables, h) == Cap(s.tables, h))
    && (forall h: nat, k: nat {:trigger Passed(s'.tables, h, k, t)} :: Passed(s.tables, h, k, t) ==> Passed(s'.tables, h, k, t))
    && (forall h :: 0 <= h < |v.pos| ==> (t in v'.pos[h] <==> t in v.pos[h]) && (t in v.pos[h] ==> v'.pos[h][t] == v.pos[h][t]))
    && (forall h :: |v.pos| <= h < |v'.pos| ==> t !in v'.pos[h])
    && (t in v'.home <==> t in v.home) && (t in v.home ==> v'.home[t] == v.home[t])
    && s.producers <= s'.producers
    && (Resizing(s.pcs[t]) ==> s'.locked == s.locked && |s'.tables| == |s.tables|)
  }

  lemma ProbedStays(tables: seq<Table>, tables': seq<Table>, h: nat, from: nat, i: nat, t: Tid)
    requires Probed(tables, h, from, i, t)
    requires forall h: nat, k: nat {:trigger Passed(tables', h, k, t)} :: Passed(tables, h, k, t) ==> Passed(tables', h, k, t)
    ensures Probed(tables', h, from, i, t)
  {
    forall k | from <= k < i ensures Passed(tables', h, k, t) { assert Passed(tables, h, k, t); }
  }

  lemma PcStays(s: State, v: View, s': State, v': View, t: Tid)
    requires Later(s, v, s', v', t) && PcOk(s, v, t)
    ensures PcOk(s', v', t)
  {
    match s.pcs[t] {
      case Search(main, h, i) =>
        ProbedStays(s.tables, s'.tables, h, s.hash[t], i, t);
        forall g | h + 1 <= g < main + 1 ensures Absent(v'.pos, g, t) { assert Absent(v.pos, g, t); }
      case MoveProbe(main, _, i) => ProbedStays(s.tables, s'.tables, main, s.hash[t], i, t);
      case MoveCas(main, _, i) => ProbedStays(s.tables, s'.tables, main, s.hash[t], i, t);
      case AddProbe(main, _, i) => ProbedStays(s.tables, s'.tables, main, s.hash[t], i, t);
      case AddCas(main, _, i) => ProbedStays(s.tables, s'.tables, main, s.hash[t], i, t);
      case _ =>
    }
  }

  lemma PcsStay(s: State, v: View, s': State, v': View, t: Tid)
    requires |s.pcs| == |s.hash| == |v.ticket| && AllPcs(s, v) && |s'.pcs| == |s'.hash| == |v'.ticket| == |s.pcs| && t < |s.pcs|
    requires forall u :: 0 <= u < |s.pcs| && u != t ==> Later(s, v, s', v', u)
    requires PcOk(s', v', t)
    ensures AllPcs(s', v')
  {
    forall u | 0 <= u < |s.pcs| ensures PcOk(s', v', u) {
      if u != t {
        assert PcOk(s, v, u);
        PcStays(s, v, s', v', u);
      }
    }
  }

  // ---------------------------------------------------------------------------------------------
  // Steps that change no table
  // ---------------------------------------------------------------------------------------------

  predicate Stores(pc: Pc) { pc.MoveStore? || pc.AddStore? }

  lemma MembersStay(s: State, v: View, s': State, v': View, t: Tid)
    requires AllMembers(s, v) && t < |s.pcs| && |s'.pcs| == |s.pcs| && s'.pcs == s.pcs[t := s'.pcs[t]]
    requires s'.tables == s.tables && s'.hash == s.hash && s.producers <= s'.producers && v'.pos == v.pos && v'.home == v.home
    requires |v'.ticket| == |v.ticket| && !Stores(s.pcs[t]) && !Stores(s'.pcs[t])
    requires forall u :: 0 <= u < |v.ticket| ==> v'.ticket[u] == v.ticket[u] || v.ticket[u] == 0
    ensures AllMembers(s', v')
  {
    forall h, u | 0 <= h < |v'.pos| && u in v'.pos[h] ensures MemberOk(s', v', h, u) { assert MemberOk(s, v, h, u); }
  }

  lemma PlainStep(s: State, v: View, t: Tid, pc: Pc)
    requires Inv(s, v) && t < |s.pcs| && !Stores(s.pcs[t]) && !Stores(pc) && (Resizing(pc) ==> Resizing(s.pcs[t]))
    requires Creator(s.pcs[t], v, t) ==> Creator(pc, v, t)
    requires PcOk(s.(pcs := s.pcs[t := pc]), v, t)
    ensures Inv(s.(pcs := s.pcs[t := pc]), v)
  {
    var s' := s.(pcs := s.pcs[t := pc]);
    MembersStay(s, v, s', v, t);
    PcsStay(s, v, s', v, t);
  }

  lemma CountStep(s: State, v: View, t: Tid, main: nat)
    requires Inv(s, v) && t < |s.pcs| && s.pcs[t] == AddCount(main)
    ensures Inv(Perform(s, t), v.(ticket := v.ticket[t := s.count + 1]))
  {
    var s', v' := Perform(s, t), v.(ticket := v.ticket[t := s.count + 1]);
    assert PcOk(s, v, t);
    MembersStay(s, v, s', v', t);
    PcsStay(s, v, s', v', t);
  }

  /** Acquiring and releasing the resize flag. */
  lemma LockStep(s: State, v: View, t: Tid, main: nat, n: nat)
    requires Inv(s, v) && t < |s.pcs| && s.pcs[t] == TryLock(main, n) && !s.locked
    ensures Inv(s.(locked := true, pcs := s.pcs[t := Reload(n)]), v)
  {
    var s' := s.(locked := true, pcs := s.pcs[t := Reload(n)]);
    assert PcOk(s, v, t);
    forall u | 0 <= u < |s.pcs| ensures !Resizing(s.pcs[u]) { assert PcOk(s, v, u); }
    MembersStay(s, v, s', v, t);
    PcsStay(s, v, s', v, t);
  }

  lemma UnlockStep(s: State, v: View, t: Tid, main: nat, n: nat)
    requires Inv(s, v) && t < |s.pcs| && s.pcs[t] == Unlock(main, n)
    ensures Inv(Perform(s, t), v)
  {
    var s' := Perform(s, t);
    assert PcOk(s, v, t);
    MembersStay(s, v, s', v, t);
    PcsStay(s, v, s', v, t);
  }

  lemma LinkStep(s: State, v: View, t: Tid, main: nat, n: nat)
    requires Inv(s, v) && t < |s.pcs| && s.pcs[t] == LinkCas(main, n, |s.producers|)
    ensures Inv(Perform(s, t), v)
  {
    var s' := Perform(s, t);
    assert PcOk(s, v, t);
    forall w | 0 <= w < |s.producers| ensures s.producers[w] != t { assert Creator(s.pcs[s.producers[w]], v, s.producers[w]); }
    MembersStay(s, v, s', v, t);
    PcsStay(s, v, s', v, t);
  }

  // ---------------------------------------------------------------------------------------------
  // A thread takes a free slot
  // ---------------------------------------------------------------------------------------------

  /** t is now resident in table h, at index i. */
  function TakenView(v: View, h: nat, t: Tid, i: nat): View
    requires h < |v.pos|
  {
    var here: map<Tid, nat> := v.pos[h][t := i];
    v.(pos := v.pos[h := here], home := if t in v.home then v.home else v.home[t := h])
  }

  function TakenTables(tables: seq<Table>, h: nat, t: Tid, i: nat): seq<Table> {
    WithEntry(tables, h, i, EntryAt(tables, h, i).(key := Taken(t)))
  }

  lemma TakenEntries(tables: seq<Table>, h: nat, t: Tid, i: nat)
    requires h < |tables| && Cap(tables, h) > 0 && EntryAt(tables, h, i).key.Free?
    ensures var tables' := TakenTables(tables, h, t, i);
      && |tables'| == |tables| && (forall g :: 0 <= g < |tables| ==> Cap(tables', g) == Cap(tables, g))
      && EntryAt(tables', h, i) == EntryAt(tables, h, i).(key := Taken(t))
      && (forall g: nat, k: nat :: EntryAt(tables, g, k).key.Taken? ==> EntryAt(tables', g, k) == EntryAt(tables, g, k))
      && (forall g: nat, k: nat, u: Tid {:trigger Passed(tables', g, k, u)} :: Passed(tables, g, k, u) ==> Passed(tables', g, k, u))
  {
  }

  lemma TakenMembers(s: State, v: View, t: Tid, h: nat, i: nat, pc: Pc)
    requires Shapes(s, v) && AllMembers(s, v) && t < |s.pcs| && h < |s.tables| && EntryAt(s.tables, h, i).key.Free?
    requires !Stores(s.pcs[t]) && Storing(pc, h) && t !in v.pos[h] && Probed(s.tables, h, s.hash[t], i, t)
    requires 0 < v.ticket[t] < Limit(Cap(s.tables, h)) && (t in v.home ==> v.home[t] <= h)
    ensures AllMembers(s.(tables := TakenTables(s.tables, h, t, i), pcs := s.pcs[t := pc]), TakenView(v, h, t, i))
  {
    var s', v' := s.(tables := TakenTables(s.tables, h, t, i), pcs := s.pcs[t := pc]), TakenView(v, h, t, i);
    TakenEntries(s.tables, h, t, i);
    forall g, u | 0 <= g < |v'.pos| && u in v'.pos[g] ensures MemberOk(s', v', g, u) {
      if g == h && u == t {
        ProbedStays(s.tables, s'.tables, h, s.hash[t], i, t);
      } else {
        assert MemberOk(s, v, g, u);
        ProbedStays(s.tables, s'.tables, g, s.hash[u], v.pos[g][u], u);
      }
    }
  }

  lemma TakenSlots(s: State, v: View, t: Tid, h: nat, i: nat, s': State)
    requires Shapes(s, v) && AllSlots(s, v) && h < |s.tables| && EntryAt(s.tables, h, i).key.Free? && t !in v.pos[h]
    requires s'.tables == TakenTables(s.tables, h, t, i)
    ensures AllSlots(s', TakenView(v, h, t, i))
  {
    var v' := TakenView(v, h, t, i);
    forall g, j | 0 <= g < |s'.tables| && 0 <= j < |s'.tables[g].entries| ensures SlotOk(s'.tables, v'.pos, g, j) {
      assert SlotOk(s.tables, v.pos, g, j);
    }
  }

  lemma TakenOthers(s: State, v: View, t: Tid, h: nat, i: nat, s': State, v': View)
    requires Shapes(s, v) && t < |s.pcs| && h < |s.tables| && EntryAt(s.tables, h, i).key.Free? && v' == TakenView(v, h, t, i)
    requires s' == s.(tables := TakenTables(s.tables, h, t, i), pcs := s'.pcs) && |s'.pcs| == |s.pcs| && s'.pcs == s.pcs[t := s'.pcs[t]]
    ensures forall u :: 0 <= u < |s.pcs| && u != t ==> Later(s, v, s', v', u)
  {
    TakenEntries(s.tables, h, t, i);
  }

  lemma TakeStep(s: State, v: View, t: Tid, h: nat, i: nat, pc: Pc)
    requires Inv(s, v) && t < |s.pcs| && h < |s.tables| && EntryAt(s.tables, h, i).key.Free?
    requires !Stores(s.pcs[t]) && Storing(pc, h) && !Resizing(pc) && t !in v.pos[h] && Probed(s.tables, h, s.hash[t], i, t)
    requires 0 < v.ticket[t] < Limit(Cap(s.tables, h)) && (t in v.home ==> v.home[t] <= h)
    requires PcOk(s.(tables := TakenTables(s.tables, h, t, i), pcs := s.pcs[t := pc]), TakenView(v, h, t, i), t)
    ensures Inv(s.(tables := TakenTables(s.tables, h, t, i), pcs := s.pcs[t := pc]), TakenView(v, h, t, i))
  {
    var s', v' := s.(tables := TakenTables(s.tables, h, t, i), pcs := s.pcs[t := pc]), TakenView(v, h, t, i);
    TakenEntries(s.tables, h, t, i);
    TakenMembers(s, v, t, h, i, pc);
    TakenSlots(s, v, t, h, i, s');
    TakenOthers(s, v, t, h, i, s', v');
    PcsStay(s, v, s', v', t);
  }

  // ---------------------------------------------------------------------------------------------
  // A thread stores its value, and a bigger table is published
  // ---------------------------------------------------------------------------------------------

  function StoredTables(tables: seq<Table>, h: nat, i: nat, w: nat): seq<Table> {
    WithEntry(tables, h, i, EntryAt(tables, h, i).(value := Producer(w)))
  }

  lemma StoredEntries(tables: seq<Table>, h: nat, i: nat, w: nat)
    requires h < |tables| && Cap(tables, h) > 0
    ensures var tables' := StoredTables(tables, h, i, w);
      && |tables'| == |tables| && (forall g :: 0 <= g < |tables| ==> Cap(tables', g) == Cap(tables, g))
      && (forall g: nat, k: nat {:trigger EntryAt(tables', g, k)} :: EntryAt(tables', g, k) ==
            if g == h && k % Cap(tables, h) == i % Cap(tables, h) then EntryAt(tables, g, k).(value := Producer(w)) else EntryAt(tables, g, k))
      && (forall g: nat, k: nat, u: Tid {:trigger Passed(tables', g, k, u)} :: Passed(tables, g, k, u) ==> Passed(tables', g, k, u))
  {
  }

  lemma StoredMembers(s: State, v: View, t: Tid, h: nat, i: nat, w: nat, pc: Pc)
    requires Shapes(s, v) && AllMembers(s, v) && t < |s.pcs| && h < |s.tables| && t in v.pos[h] && v.pos[h][t] == i
    requires Stores(s.pcs[t]) && Storing(s.pcs[t], h) && !Stores(pc) && Owns(s.producers, w, t)
    ensures AllMembers(s.(tables := StoredTables(s.tables, h, i, w), pcs := s.pcs[t := pc]), v)
  {
    var s' := s.(tables := StoredTables(s.tables, h, i, w), pcs := s.pcs[t := pc]);
    StoredEntries(s.tables, h, i, w);
    assert MemberOk(s, v, h, t);
    forall g, u | 0 <= g < |v.pos| && u in v.pos[g] ensures MemberOk(s', v, g, u) {
      assert MemberOk(s, v, g, u);
      ProbedStays(s.tables, s'.tables, g, s.hash[u], v.pos[g][u], u);
    }
  }

  lemma StoreStep(s: State, v: View, t: Tid, h: nat, i: nat, w: nat)
    requires Inv(s, v) && t < |s.pcs| && (s.pcs[t] == MoveStore(h, w, i) || s.pcs[t] == AddStore(h, w, i))
    ensures Inv(s.(tables := StoredTables(s.tables, h, i, w), pcs := s.pcs[t := Idle(Producer(w))]), v)
  {
    var s' := s.(tables := StoredTables(s.tables, h, i, w), pcs := s.pcs[t := Idle(Producer(w))]);
    assert PcOk(s, v, t);
    StoredEntries(s.tables, h, i, w);
    StoredMembers(s, v, t, h, i, w, Idle(Producer(w)));
    forall g, j | 0 <= g < |s'.tables| && 0 <= j < |s'.tables[g].entries| ensures SlotOk(s'.tables, v.pos, g, j) {
      assert SlotOk(s.tables, v.pos, g, j);
    }
    PcsStay(s, v, s', v, t);
  }

  function PublishedView(v: View): View { v.(pos := v.pos + [map[]]) }

  lemma PublishStep(s: State, v: View, t: Tid, main: nat, n: nat)
    requires Inv(s, v) && t < |s.pcs| && s.pcs[t] == Publish(main, n)
    ensures Inv(Perform(s, t), PublishedView(v))
  {
    var s', v' := Perform(s, t), PublishedView(v);
    assert PcOk(s, v, t);
    BiggerTable(s, t, main, n);
    PublishedShapes(s, v, s', main);
    PublishedMembers(s, v, s', t);
    forall g, j | 0 <= g < |s'.tables| && 0 <= j < |s'.tables[g].entries| ensures SlotOk(s'.tables, v'.pos, g, j) {
      if g < |s.tables| { assert SlotOk(s.tables, v.pos, g, j); }
    }
    PcsStay(s, v, s', v', t);
  }

  lemma PublishedShapes(s: State, v: View, s': State, main: nat)
    requires Shapes(s, v) && main + 1 == |s.tables| && |s'.tables| == |s.tables| + 1 && |s'.pcs| == |s.pcs| && s'.hash == s.hash
    requires Cap(s'.tables, |s.tables|) >= Cap(s.tables, main) && forall h :: 0 <= h < |s.tables| ==> Cap(s'.tables, h) == Cap(s.tables, h)
    ensures Shapes(s', PublishedView(v))
  {
    forall g, h | 0 <= g < h < |s'.tables| ensures Cap(s'.tables, g) <= Cap(s'.tables, h) {
      if h == |s.tables| { assert Cap(s.tables, g) <= Cap(s.tables, main); }
    }
  }

  lemma BiggerTable(s: State, t: Tid, main: nat, n: nat)
    requires t < |s.pcs| == |s.hash| && s.pcs[t] == Publish(main, n) && main + 1 == |s.tables| && Cap(s.tables, main) > 0
    ensures var tables' := Perform(s, t).tables;
      && |tables'| == |s.tables| + 1 && tables'[..|s.tables|] == s.tables && Cap(tables', |s.tables|) >= 2 * Cap(s.tables, main)
      && (forall h :: 0 <= h < |s.tables| ==> Cap(tables', h) == Cap(s.tables, h))
      && (forall j :: 0 <= j < Cap(tables', |s.tables|) ==> tables'[|s.tables|].entries[j].key.Free?)
  {
    var tables' := Perform(s, t).tables;
    forall h | 0 <= h < |s.tables| ensures Cap(tables', h) == Cap(s.tables, h) { assert tables'[h] == tables'[..|s.tables|][h]; }
  }

  lemma PublishedMembers(s: State, v: View, s': State, t: Tid)
    requires AllMembers(s, v) && t < |s.pcs| && !Stores(s.pcs[t]) && |s.tables| == |v.pos|
    requires |s'.tables| == |s.tables| + 1 && s'.tables[..|s.tables|] == s.tables && s'.hash == s.hash && s'.producers == s.producers
    requires |s'.pcs| == |s.pcs| && s'.pcs == s.pcs[t := s'.pcs[t]]
    ensures AllMembers(s', PublishedView(v))
  {
    var v' := PublishedView(v);
    forall h, u | 0 <= h < |v'.pos| && u in v'.pos[h] ensures MemberOk(s', v', h, u) {
      assert MemberOk(s, v, h, u);
      forall k | s.hash[u] <= k < v.pos[h][u] ensures Passed(s'.tables, h, k, u) { assert Passed(s.tables, h, k, u); }
    }
  }

  // ---------------------------------------------------------------------------------------------
  // Every step
  // ---------------------------------------------------------------------------------------------

  /** A resident is never missed: its probe meets no free slot before its own. */
  lemma ResidentFound(s: State, v: View, t: Tid, h: nat, i: nat)
    requires Shapes(s, v) && AllMembers(s, v) && AllSlots(s, v) && h < |s.tables| && t < |s.pcs| && Probed(s.tables, h, s.hash[t], i, t)
    ensures EntryAt(s.tables, h, i).key == Taken(t) ==> MemberOk(s, v, h, t) && EntryAt(s.tables, h, i) == EntryAt(s.tables, h, v.pos[h][t])
    ensures EntryAt(s.tables, h, i).key.Free? ==> t !in v.pos[h]
  {
    var e := EntryAt(s.tables, h, i);
    assert SlotOk(s.tables, v.pos, h, i % Cap(s.tables, h));
    if t in v.pos[h] {
      assert MemberOk(s, v, h, t);
      assert i > v.pos[h][t] ==> Passed(s.tables, h, v.pos[h][t], t);
      assert i < v.pos[h][t] ==> Passed(s.tables, h, i, t);
    }
  }

  lemma SearchPcOk(s: State, v: View, t: Tid, main: nat, h: nat, i: nat) returns (pc: Pc)
    requires Shapes(s, v) && Homes(s, v) && AllMembers(s, v) && AllSlots(s, v)
    requires t < |s.pcs| && s.pcs[t] == Search(main, h, i) && PcOk(s, v, t)
    ensures Perform(s, t) == s.(pcs := s.pcs[t := pc]) && !Stores(pc) && !Resizing(pc) && !pc.AddProbe?
    ensures PcOk(s.(pcs := s.pcs[t := pc]), v, t)
  {
    var e := EntryAt(s.tables, h, i);
    ResidentFound(s, v, t, h, i);
    if e.key.Free? && h > 0 {
      forall g | h <= g < main + 1 ensures Absent(v.pos, g, t) { assert g > h ==> Absent(v.pos, g, t); }
    }
    if e.key == Taken(t) && h != main { assert Absent(v.pos, main, t); }
    if e.key.Taken? && e.key != Taken(t) { assert Passed(s.tables, h, i, t); }
    assert Known(v, t) ==> t in v.pos[v.home[t]];
    pc := Perform(s, t).pcs[t];
  }

  lemma SearchStep(s: State, v: View, t: Tid, main: nat, h: nat, i: nat)
    requires Inv(s, v) && t < |s.pcs| && s.pcs[t] == Search(main, h, i)
    ensures Inv(Perform(s, t), v)
  {
    assert PcOk(s, v, t);
    var pc := SearchPcOk(s, v, t, main, h, i);
    PlainStep(s, v, t, pc);
  }

  lemma StepMoveCas(s: State, v: View, t: Tid, main: nat, w: nat, i: nat) returns (v': View)
    requires Inv(s, v) && t < |s.pcs| && s.pcs[t] == MoveCas(main, w, i)
    ensures Inv(Perform(s, t), v')
  {
    assert PcOk(s, v, t);
    v' := v;
    if EntryAt(s.tables, main, i).key.Free? {
      assert MemberOk(s, v, v.home[t], t);
      v' := TakenView(v, main, t, i);
      TakeStep(s, v, t, main, i, MoveStore(main, w, i));
    } else {
      PassStep(s, v, t, main, i, MoveProbe(main, w, i + 1));
    }
  }

  lemma StepAddCas(s: State, v: View, t: Tid, main: nat, w: nat, i: nat) returns (v': View)
    requires Inv(s, v) && t < |s.pcs| && s.pcs[t] == AddCas(main, w, i)
    ensures Inv(Perform(s, t), v')
  {
    assert PcOk(s, v, t);
    v' := v;
    if EntryAt(s.tables, main, i).key.Free? {
      NotYetResident(s, v, t, main);
      v' := TakenView(v, main, t, i);
      TakeStep(s, v, t, main, i, AddStore(main, w, i));
    } else {
      PassStep(s, v, t, main, i, AddProbe(main, w, i + 1));
    }
  }

  lemma NotYetResident(s: State, v: View, t: Tid, h: nat)
    requires AllMembers(s, v) && h < |v.pos| && !Known(v, t)
    ensures t !in v.pos[h]
  {
    assert t in v.pos[h] ==> MemberOk(s, v, h, t);
  }

  /** The slot is taken by another thread: on to the next. */
  lemma PassStep(s: State, v: View, t: Tid, h: nat, i: nat, pc: Pc)
    requires Inv(s, v) && t < |s.pcs| && h < |s.tables| && EntryAt(s.tables, h, i).key.Taken?
    requires match s.pcs[t]
      case MoveProbe(main, w, k) => main == h && k == i && pc == MoveProbe(h, w, i + 1)
      case MoveCas(main, w, k) => main == h && k == i && pc == MoveProbe(h, w, i + 1)
      case AddProbe(main, w, k) => main == h && k == i && pc == AddProbe(h, w, i + 1)
      case AddCas(main, w, k) => main == h && k == i && pc == AddProbe(h, w, i + 1)
      case _ => false
    ensures Inv(s.(pcs := s.pcs[t := pc]), v)
  {
    assert PcOk(s, v, t);
    assert SlotOk(s.tables, v.pos, h, i % Cap(s.tables, h));
    if !Known(v, t) { NotYetResident(s, v, t, h); }
    assert Passed(s.tables, h, i, t);
    PlainStep(s, v, t, pc);
  }

  lemma StepProbe(s: State, v: View, t: Tid)
    requires Inv(s, v) && t < |s.pcs| && (s.pcs[t].MoveProbe? || s.pcs[t].AddProbe?)
    ensures Inv(Perform(s, t), v)
  {
    assert PcOk(s, v, t);
    var main, i := s.pcs[t].main, s.pcs[t].i;
    if EntryAt(s.tables, main, i).key.Free? { PlainStep(s, v, t, Perform(s, t).pcs[t]); } else { PassStep(s, v, t, main, i, Perform(s, t).pcs[t]); }
  }

  lemma StepPlain(s: State, v: View, t: Tid)
    requires Inv(s, v) && t < |s.pcs|
    requires var pc := s.pcs[t]; pc.LoadMain? || pc.Reload? || pc.CheckRoom? || pc.Await? || pc.LinkLoad?
    ensures Inv(Perform(s, t), v)
  {
    assert PcOk(s, v, t);
    match s.pcs[t] {
      case LoadMain => PlainStep(s, v, t, Search(|s.tables| - 1, |s.tables| - 1, s.hash[t]));
      case Reload(_) => PlainStep(s, v, t, Perform(s, t).pcs[t]);
      case CheckRoom(_, _) => PlainStep(s, v, t, Perform(s, t).pcs[t]);
      case Await(n) => PlainStep(s, v, t, TryLock(|s.tables| - 1, n));
      case LinkLoad(main, n) => PlainStep(s, v, t, LinkCas(main, n, |s.producers|));
    }
  }

  lemma StepLock(s: State, v: View, t: Tid, main: nat, n: nat)
    requires Inv(s, v) && t < |s.pcs| && s.pcs[t] == TryLock(main, n)
    ensures Inv(Perform(s, t), v)
  {
    assert PcOk(s, v, t);
    if n >= Cap(s.tables, main) / 2 && !s.locked { LockStep(s, v, t, main, n); } else { PlainStep(s, v, t, CheckRoom(main, n)); }
  }

  lemma StepLink(s: State, v: View, t: Tid, main: nat, n: nat, seen: nat)
    requires Inv(s, v) && t < |s.pcs| && s.pcs[t] == LinkCas(main, n, seen)
    ensures Inv(Perform(s, t), v)
  {
    assert PcOk(s, v, t);
    if |s.producers| == seen { LinkStep(s, v, t, main, n); } else { PlainStep(s, v, t, LinkCas(main, n, |s.producers|)); }
  }

  lemma StepContinue(s: State, v: View, t: Tid) returns (v': View)
    requires Inv(s, v) && Enabled(s, Continue(t))
    ensures Inv(Perform(s, t), v')
  {
    v' := v;
    match s.pcs[t] {
      case Search(main, h, i) => SearchStep(s, v, t, main, h, i);
      case MoveProbe(_, _, _) => StepProbe(s, v, t);
      case AddProbe(_, _, _) => StepProbe(s, v, t);
      case MoveCas(main, w, i) => v' := StepMoveCas(s, v, t, main, w, i);
      case AddCas(main, w, i) => v' := StepAddCas(s, v, t, main, w, i);
      case MoveStore(main, w, i) =>
        assert PcOk(s, v, t);
        StoreStep(s, v, t, main, i, w);
      case AddStore(main, w, i) =>
        assert PcOk(s, v, t);
        StoreStep(s, v, t, main, i, w);
      case AddCount(main) =>
        CountStep(s, v, t, main);
        v' := v.(ticket := v.ticket[t := s.count + 1]);
      case TryLock(main, n) => StepLock(s, v, t, main, n);
      case Publish(main, n) =>
        PublishStep(s, v, t, main, n);
        v' := PublishedView(v);
      case Unlock(main, n) => UnlockStep(s, v, t, main, n);
      case LinkCas(main, n, seen) => StepLink(s, v, t, main, n, seen);
      case LoadMain => StepPlain(s, v, t);
      case Reload(_) => StepPlain(s, v, t);
      case CheckRoom(_, _) => StepPlain(s, v, t);
      case Await(_) => StepPlain(s, v, t);
      case LinkLoad(_, _) => StepPlain(s, v, t);
    }
  }

  lemma StepKeepsInv(s: State, v: View, op: Op) returns (v': View)
    requires Inv(s, v) && Enabled(s, op)
    ensures Inv(Next(s, op), v')
  {
    if op.Call? {
      assert PcOk(s, v, op.t);
      PlainStep(s, v, op.t, LoadMain);
      v' := v;
    } else {
      v' := StepContinue(s, v, op.t);
    }
  }

  // ---------------------------------------------------------------------------------------------
  // Runs
  // ---------------------------------------------------------------------------------------------

  /** One empty table, and no thread has called yet. */
  predicate Initial(s: State) {
    && |s.tables| == 1 && Cap(s.tables, 0) > 0 && (forall j :: 0 <= j < Cap(s.tables, 0) ==> s.tables[0].entries[j].key.Free?)
    && s.count == 0 && !s.locked && s.producers == [] && |s.hash| == |s.pcs|
    && forall t :: 0 <= t < |s.pcs| ==> s.pcs[t] == Idle(Nothing)
  }

  predicate Step(s: State, op: Op, s': State) { Enabled(s, op) && s' == Next(s, op) }

  ghost predicate Run(b: seq<State>, ops: seq<Op>) {
    && |b| == |ops| + 1 && Initial(b[0])
    && forall i {:trigger ops[i]} :: 0 <= i < |ops| ==> Step(b[i], ops[i], b[i + 1])
  }

  lemma InitialInv(s: State) returns (v: View)
    requires Initial(s)
    ensures Inv(s, v)
  {
    v := View(seq(|s.pcs|, _ => 0), [map[]], map[]);
    forall h, j | 0 <= h < |s.tables| && 0 <= j < |s.tables[h].entries| ensures SlotOk(s.tables, v.pos, h, j) {}
    forall t | 0 <= t < |s.pcs| ensures PcOk(s, v, t) {}
  }

  lemma RunStep(b: seq<State>, ops: seq<Op>, n: nat, v: View) returns (v': View)
    requires Run(b, ops) && 0 < n < |b| && Inv(b[n - 1], v)
    ensures Inv(b[n], v')
  {
    assert Step(b[n - 1], ops[n - 1], b[n]);
    v' := StepKeepsInv(b[n - 1], v, ops[n - 1]);
  }

  lemma RunKeepsInv(b: seq<State>, ops: seq<Op>, n: nat) returns (v: View)
    requires Run(b, ops) && n < |b|
    ensures Inv(b[n], v)
  {
    v := InitialInv(b[0]);
    for k := 0 to n
      invariant Inv(b[k], v)
    {
      v := RunStep(b, ops, k + 1, v);
    }
  }

  /** Every table always keeps a free slot, and no more than three quarters of its slots are ever taken. */
  lemma TablesNeverFull(b: seq<State>, ops: seq<Op>, n: nat, h: nat, js: seq<nat>)
    requires Run(b, ops) && n < |b| && h < |b[n].tables| && Distinct(js)
    requires forall i :: 0 <= i < |js| ==> js[i] < Cap(b[n].tables, h) && b[n].tables[h].entries[js[i]].key.Taken?
    ensures 4 * |js| <= 3 * Cap(b[n].tables, h)
    ensures exists j :: 0 <= j < Cap(b[n].tables, h) && b[n].tables[h].entries[j].key.Free?
  {
    var v := RunKeepsInv(b, ops, n);
    LoadFactor(b[n], v, h, js);
    SomeSlotIsFree(b[n], v, h);
  }

  lemma OnlyPublishGrows(s: State, op: Op)
    requires Enabled(s, op) && |Next(s, op).tables| != |s.tables|
    ensures op.Continue? && s.pcs[op.t].Publish?
  {
  }

  /** A new table is published only when the calls counted so far would fill half of the current one, and
      it is doubled no more often than they need. */
  lemma GrowsWhenHalfFull(b: seq<State>, ops: seq<Op>, n: nat)
    requires Run(b, ops) && n < |ops| && |b[n + 1].tables| != |b[n].tables| > 0
    ensures var last := |b[n].tables| - 1; var cap := Cap(b[n].tables, last);
      && |b[n + 1].tables| == last + 2 && cap / 2 <= b[n].count
      && 2 * cap <= Cap(b[n + 1].tables, last + 1) && (2 * cap < Cap(b[n + 1].tables, last + 1) ==> Cap(b[n + 1].tables, last + 1) / 4 <= b[n].count)
  {
    var v := RunKeepsInv(b, ops, n);
    var t := ops[n].t;
    assert Step(b[n], ops[n], b[n + 1]);
    OnlyPublishGrows(b[n], ops[n]);
    assert PcOk(b[n], v, t);
    BiggerTable(b[n], t, b[n].pcs[t].main, b[n].pcs[t].n);
  }

  /** The table and the unmasked index of a thread that is probing. */
  predicate Probes(pc: Pc) { pc.Search? || pc.MoveProbe? || pc.MoveCas? || pc.AddProbe? || pc.AddCas? }

  function ProbedTable(pc: Pc): nat
    requires Probes(pc)
  { if pc.Search? then pc.h else pc.main }

  /** No probe loop goes once around its table. */
  lemma ProbesEnd(b: seq<State>, ops: seq<Op>, n: nat, t: Tid)
    requires Run(b, ops) && n < |b| && t < |b[n].pcs| && Probes(b[n].pcs[t])
    ensures var h := ProbedTable(b[n].pcs[t]);
      h < |b[n].tables| && t < |b[n].hash| && b[n].hash[t] <= b[n].pcs[t].i < b[n].hash[t] + Cap(b[n].tables, h)
  {
    var v := RunKeepsInv(b, ops, n);
    assert PcOk(b[n], v, t);
    ProbeIsShort(b[n], v, ProbedTable(b[n].pcs[t]), b[n].hash[t], b[n].pcs[t].i, t);
  }

  /** What a finished call has returned is the one producer that the thread has created. */
  lemma ResultIsOwn(b: seq<State>, ops: seq<Op>, n: nat, t: Tid)
    requires Run(b, ops) && n < |b| && t < |b[n].pcs| && b[n].pcs[t].Idle? && b[n].pcs[t].result.Producer?
    ensures Owns(b[n].producers, b[n].pcs[t].result.v, t)
    ensures forall w :: 0 <= w < |b[n].producers| && b[n].producers[w] == t ==> w == b[n].pcs[t].result.v
  {
    var v := RunKeepsInv(b, ops, n);
    assert PcOk(b[n], v, t);
  }

  lemma {:induction false} ProducersGrow(b: seq<State>, ops: seq<Op>, i: nat, j: nat)
    requires Run(b, ops) && i <= j < |b|
    ensures b[i].producers <= b[j].producers && |b[i].pcs| == |b[j].pcs|
    decreases j
  {
    if i < j {
      ProducersGrow(b, ops, i, j - 1);
      assert Step(b[j - 1], ops[j - 1], b[j]);
    }
  }

  /** A thread always gets back the same producer, across resizes and migrations, and different threads
      get different producers. */
  lemma SameThreadSameProducer(b: seq<State>, ops: seq<Op>, i: nat, j: nat, t: Tid, u: Tid)
    requires Run(b, ops) && i <= j < |b| && t < |b[i].pcs| && u < |b[j].pcs| && b[i].pcs[t].Idle? && b[j].pcs[u].Idle?
    requires b[i].pcs[t].result.Producer? && b[j].pcs[u].result.Producer?
    ensures b[i].pcs[t].result == b[j].pcs[u].result <==> t == u
  {
    ResultIsOwn(b, ops, i, t);
    ResultIsOwn(b, ops, j, u);
    ProducersGrow(b, ops, i, j);
  }

  /** A call that ends has found or made a producer. */
  lemma CallSucceeds(b: seq<State>, ops: seq<Op>, n: nat, t: Tid)
    requires Run(b, ops) && n + 1 < |b| && t < |b[n].pcs| && !b[n].pcs[t].Idle? && t < |b[n + 1].pcs| && b[n + 1].pcs[t].Idle?
    ensures b[n + 1].pcs[t].result.Producer?
  {
    var v := RunKeepsInv(b, ops, n);
    assert Step(b[n], ops[n], b[n + 1]) && PcOk(b[n], v, t);
    EndsWithProducer(b[n], v, ops[n], t);
  }

  lemma EndsWithProducer(s: State, v: View, op: Op, t: Tid)
    requires Shapes(s, v) && AllMembers(s, v) && AllSlots(s, v) && t < |s.pcs| && PcOk(s, v, t)
    requires Enabled(s, op) && !s.pcs[t].Idle? && t < |Next(s, op).pcs| && Next(s, op).pcs[t].Idle?
    ensures Next(s, op).pcs[t].result.Producer?
  {
    if op.t != t { OthersRest(s, op, t); }
    EndingPc(s, t);
    EndingStep(s, op, t);
    if s.pcs[t].Search? { ResidentFound(s, v, t, s.pcs[t].h, s.pcs[t].i); }
  }

  lemma OthersRest(s: State, op: Op, t: Tid)
    requires Enabled(s, op) && t < |s.pcs| && op.t != t
    ensures t < |Next(s, op).pcs| && Next(s, op).pcs[t] == s.pcs[t]
  {
  }

  lemma EndingPc(s: State, t: Tid)
    requires Enabled(s, Continue(t)) && t < |Perform(s, t).pcs| && Perform(s, t).pcs[t].Idle?
    ensures s.pcs[t].Search? || s.pcs[t].MoveStore? || s.pcs[t].AddStore?
  {
  }

  lemma EndingStep(s: State, op: Op, t: Tid)
    requires Enabled(s, op) && op == Continue(t) && t < |Next(s, op).pcs| && Next(s, op).pcs[t].Idle?
    requires s.pcs[t].Search? || s.pcs[t].MoveStore? || s.pcs[t].AddStore?
    ensures match s.pcs[t]
      case Search(_, h, i) => var e := EntryAt(s.tables, h, i); e.key == Taken(t) && Next(s, op).pcs[t] == Idle(e.value)
      case MoveStore(_, v, _) => Next(s, op).pcs[t] == Idle(Producer(v))
      case AddStore(_, v, _) => Next(s, op).pcs[t] == Idle(Producer(v))
      case _ => true
  {
  }

  // ---------------------------------------------------------------------------------------------
  // Every call ends
  // ---------------------------------------------------------------------------------------------

  /** The slots of the tables below h, and one more for each table. */
  function Slots(tables: seq<Table>, h: nat): nat
    requires h <= |tables|
  { if h == 0 then 0 else Slots(tables, h - 1) + Cap(tables, h - 1) + 1 }

  /** The slots a probe that has come to index i of table h has not seen yet. */
  function Unseen(s: State, t: Tid, h: nat, i: nat): nat {
    if h < |s.tables| && t < |s.hash| && i < s.hash[t] + Cap(s.tables, h) then s.hash[t] + Cap(s.tables, h) - i else 0
  }

  /** The capacity that the current table would grow to for count n. */
  function Bigger(s: State, n: nat): nat {
    if |s.tables| > 0 && Cap(s.tables, |s.tables| - 1) > 0 then Grown(2 * Cap(s.tables, |s.tables| - 1), n) else 0
  }

  function RoomRank(s: State, main: nat, n: nat): nat {
    if main < |s.tables| && n < Limit(Cap(s.tables, main)) then 2 * Cap(s.tables, main) + 4 else 2 * Bigger(s, n) + 10
  }

  /** The most instructions that a call started in s can take alone: growing the table, and one look at
      every slot of every table. */
  function CallRank(s: State): nat { 2 * Bigger(s, s.count + 1) + 13 + Slots(s.tables, |s.tables|) }

  /** An upper bound on the instructions that thread t still needs when it runs alone. */
  function Rank(s: State, t: Tid): nat
    requires t < |s.pcs|
  {
    match s.pcs[t]
    case Idle(_) => 0
    case LoadMain => CallRank(s)
    case Search(main, h, i) =>
      2 * Bigger(s, s.count + 1) + 13 + (if h <= |s.tables| then Slots(s.tables, h) else 0) + Unseen(s, t, h, i)
    case MoveProbe(main, v, i) => 2 * Unseen(s, t, main, i) + 1
    case MoveCas(main, v, i) => 2 * Unseen(s, t, main, i)
    case MoveStore(main, v, i) => 1
    case AddCount(main) => 2 * Bigger(s, s.count + 1) + 12
    case TryLock(main, n) => 2 * Bigger(s, n) + (if main + 1 == |s.tables| then 8 else 11)
    case Reload(n) => 2 * Bigger(s, n) + 7
    case Publish(main, n) => 2 * Bigger(s, n) + 6
    case Unlock(main, n) => RoomRank(s, main, n) + 1
    case CheckRoom(main, n) => RoomRank(s, main, n)
    case Await(n) => 2 * Bigger(s, n) + 9
    case LinkLoad(main, n) => if main < |s.tables| then 2 * Cap(s.tables, main) + 3 else 0
    case LinkCas(main, n, seen) =>
      if main < |s.tables| then 2 * Cap(s.tables, main) + (if seen == |s.producers| then 2 else 3) else 0
    case AddProbe(main, v, i) => 2 * Unseen(s, t, main, i) + 1
    case AddCas(main, v, i) => 2 * Unseen(s, t, main, i)
    case AddStore(main, v, i) => 1
  }

  /** No other thread holds the resize flag. */
  predicate Alone(s: State, t: Tid) { t < |s.pcs| && (s.locked ==> Resizing(s.pcs[t])) }

  /** What the bound needs to know about the state and about where t is. */
  predicate Ranked(s: State, t: Tid) {
    && t < |s.pcs| == |s.hash| && |s.tables| > 0
    && (forall h :: 0 <= h < |s.tables| ==> 0 < Cap(s.tables, h) <= Cap(s.tables, |s.tables| - 1))
    && match s.pcs[t]
       case Search(main, h, i) => h <= main < |s.tables| && Unseen(s, t, h, i) > 0
       case MoveProbe(main, v, i) => Unseen(s, t, main, i) > 0
       case MoveCas(main, v, i) => Unseen(s, t, main, i) > 0
       case AddCount(main) => main < |s.tables|
       case TryLock(main, n) => main < |s.tables|
       case Publish(main, n) => main + 1 == |s.tables|
       case Unlock(main, n) => main < |s.tables|
       case CheckRoom(main, n) => main < |s.tables|
       case LinkLoad(main, n) => main < |s.tables|
       case LinkCas(main, n, seen) => main < |s.tables|
       case AddProbe(main, v, i) => Unseen(s, t, main, i) > 0
       case AddCas(main, v, i) => Unseen(s, t, main, i) > 0
       case _ => true
  }

  lemma InvRanked(s: State, v: View, t: Tid)
    requires Inv(s, v) && t < |s.pcs|
    ensures Ranked(s, t)
  {
    assert PcOk(s, v, t);
    if Probes(s.pcs[t]) { ProbeIsShort(s, v, ProbedTable(s.pcs[t]), s.hash[t], s.pcs[t].i, t); }
  }

  lemma FoundLowers(s: State, t: Tid, main: nat, h: nat, i: nat)
    requires Ranked(s, t) && s.pcs[t] == Search(main, h, i) && EntryAt(s.tables, h, i).key == Taken(t)
    ensures var s' := Perform(s, t); t < |s'.pcs| && Rank(s', t) < Rank(s, t)
  {
    assert Cap(s.tables, main) <= Bigger(s, s.count + 1);
  }

  lemma SearchLowers(s: State, t: Tid, main: nat, h: nat, i: nat)
    requires Ranked(s, t) && s.pcs[t] == Search(main, h, i) && EntryAt(s.tables, h, i).key != Taken(t)
    ensures var s' := Perform(s, t); t < |s'.pcs| && Rank(s', t) < Rank(s, t)
  {
  }

  lemma CountLowers(s: State, t: Tid)
    requires Ranked(s, t) && (s.pcs[t].LoadMain? || s.pcs[t].AddCount?)
    ensures var s' := Perform(s, t); t < |s'.pcs| && Rank(s', t) < Rank(s, t)
  {
  }

  lemma SlotLowers(s: State, t: Tid)
    requires Ranked(s, t) && !s.pcs[t].Search? && (Probes(s.pcs[t]) || Stores(s.pcs[t]))
    ensures var s' := Perform(s, t); t < |s'.pcs| && Rank(s', t) < Rank(s, t)
  {
  }

  lemma LockLowers(s: State, t: Tid)
    requires Ranked(s, t) && Alone(s, t) && s.pcs[t].TryLock?
    ensures var s' := Perform(s, t); t < |s'.pcs| && Rank(s', t) < Rank(s, t)
  {
  }

  lemma ReloadLowers(s: State, t: Tid)
    requires Ranked(s, t) && (s.pcs[t].Reload? || s.pcs[t].Unlock?)
    ensures var s' := Perform(s, t); t < |s'.pcs| && Rank(s', t) < Rank(s, t)
  {
  }

  lemma RoomLowers(s: State, t: Tid)
    requires Ranked(s, t) && (s.pcs[t].CheckRoom? || s.pcs[t].Await?)
    ensures var s' := Perform(s, t); t < |s'.pcs| && Rank(s', t) < Rank(s, t)
  {
  }

  lemma LinkLowers(s: State, t: Tid)
    requires Ranked(s, t) && (s.pcs[t].LinkLoad? || s.pcs[t].LinkCas?)
    ensures var s' := Perform(s, t); t < |s'.pcs| && Rank(s', t) < Rank(s, t)
  {
  }

  lemma PublishLowers(s: State, t: Tid)
    requires Ranked(s, t) && s.pcs[t].Publish?
    ensures var s' := Perform(s, t); t < |s'.pcs| && Rank(s', t) < Rank(s, t)
  {
  }

  lemma OwnLowers(s: State, t: Tid)
    requires Ranked(s, t) && Alone(s, t) && !s.pcs[t].Idle?
    ensures var s' := Perform(s, t); t < |s'.pcs| && Rank(s', t) < Rank(s, t) && Alone(s', t)
  {
    var pc := s.pcs[t];
    AloneStays(s, t);
    if pc.Search? {
      if EntryAt(s.tables, pc.h, pc.i).key == Taken(t) { FoundLowers(s, t, pc.main, pc.h, pc.i); } else { SearchLowers(s, t, pc.main, pc.h, pc.i); }
    }
    else if pc.LoadMain? || pc.AddCount? { CountLowers(s, t); }
    else if Probes(pc) || Stores(pc) { SlotLowers(s, t); }
    else if pc.Publish? { PublishLowers(s, t); }
    else if pc.TryLock? { LockLowers(s, t); }
    else if pc.Reload? || pc.Unlock? { ReloadLowers(s, t); }
    else if pc.LinkLoad? || pc.LinkCas? { LinkLowers(s, t); }
    else { RoomLowers(s, t); }
  }

  lemma AloneStays(s: State, t: Tid)
    requires Ranked(s, t) && Alone(s, t) && !s.pcs[t].Idle?
    ensures Alone(Perform(s, t), t)
  {
  }

  lemma RunExtends(b: seq<State>, ops: seq<Op>, op: Op)
    requires Run(b, ops) && Enabled(b[|ops|], op)
    ensures Run(b + [Next(b[|ops|], op)], ops + [op])
  {
    var b', ops' := b + [Next(b[|ops|], op)], ops + [op];
    forall i {:trigger ops'[i]} | 0 <= i < |ops'| ensures Step(b'[i], ops'[i], b'[i + 1]) {
      if i < |ops| { assert ops'[i] == ops[i] && b'[i] == b[i] && b'[i + 1] == b[i + 1]; }
    }
  }

  /** Where thread t, running alone since it loaded the current table, leads: to an entry of that table. */
  predicate Aims(s: State, t: Tid)
    requires t < |s.pcs|
  {
    var last := |s.tables| - 1;
    match s.pcs[t]
    case Idle(result) => last >= 0 && Entry(Taken(t), result) in s.tables[last].entries
    case LoadMain => true
    case Search(main, h, i) => main == last
    case MoveProbe(main, v, i) => main == last
    case MoveCas(main, v, i) => main == last
    case MoveStore(main, v, i) => main == last
    case AddCount(main) => main == last
    case TryLock(main, n) => main == last
    case Reload(n) => true
    case Publish(main, n) => main == last
    case Unlock(main, n) => main == last
    case CheckRoom(main, n) => main == last
    case Await(n) => true
    case LinkLoad(main, n) => main == last
    case LinkCas(main, n, seen) => main == last
    case AddProbe(main, v, i) => main == last
    case AddCas(main, v, i) => main == last
    case AddStore(main, v, i) => main == last
  }

  lemma StoresOwnSlot(s: State, v: View, t: Tid)
    requires Inv(s, v) && t < |s.pcs| && Stores(s.pcs[t])
    ensures EntryAt(s.tables, s.pcs[t].main, s.pcs[t].i).key == Taken(t)
  {
    assert PcOk(s, v, t);
    assert MemberOk(s, v, s.pcs[t].main, t);
  }

  lemma StoreAims(s: State, t: Tid)
    requires Ranked(s, t) && Aims(s, t) && Stores(s.pcs[t])
    requires EntryAt(s.tables, s.pcs[t].main, s.pcs[t].i).key == Taken(t)
    ensures t < |Perform(s, t).pcs| && Aims(Perform(s, t), t)
  {
    var last := |s.tables| - 1;
    assert Perform(s, t).tables[last].entries[s.pcs[t].i % Cap(s.tables, last)] == Entry(Taken(t), Producer(s.pcs[t].v));
  }

  lemma SearchAims(s: State, t: Tid)
    requires Ranked(s, t) && Aims(s, t) && s.pcs[t].Search?
    requires t < |Perform(s, t).pcs| && (Perform(s, t).pcs[t].Idle? ==> Perform(s, t).pcs[t].result.Producer?)
    ensures Aims(Perform(s, t), t)
  {
    assert EntryAt(s.tables, |s.tables| - 1, s.pcs[t].i) in s.tables[|s.tables| - 1].entries;
  }

  lemma OtherAims(s: State, t: Tid)
    requires Ranked(s, t) && Aims(s, t) && !s.pcs[t].Idle? && !s.pcs[t].Search? && !Stores(s.pcs[t])
    ensures t < |Perform(s, t).pcs| && Aims(Perform(s, t), t)
  {
  }

  lemma AimStays(s: State, v: View, t: Tid)
    requires Inv(s, v) && Ranked(s, t) && Aims(s, t) && !s.pcs[t].Idle?
    requires t < |Perform(s, t).pcs| && (Perform(s, t).pcs[t].Idle? ==> Perform(s, t).pcs[t].result.Producer?)
    ensures Aims(Perform(s, t), t)
  {
    if Stores(s.pcs[t]) {
      StoresOwnSlot(s, v, t);
      StoreAims(s, t);
    } else if s.pcs[t].Search? {
      SearchAims(s, t);
    } else {
      OtherAims(s, t);
    }
  }

  lemma RunOwnStep(b: seq<State>, ops: seq<Op>, t: Tid) returns (s: State)
    requires Run(b, ops) && Alone(b[|ops|], t) && !b[|ops|].pcs[t].Idle?
    ensures Run(b + [s], ops + [Continue(t)])
    ensures Alone(s, t) && Rank(s, t) < Rank(b[|ops|], t) && (s.pcs[t].Idle? ==> s.pcs[t].result.Producer?)
    ensures Aims(b[|ops|], t) ==> Aims(s, t)
  {
    var v := RunKeepsInv(b, ops, |ops|);
    InvRanked(b[|ops|], v, t);
    OwnLowers(b[|ops|], t);
    s := Perform(b[|ops|], t);
    RunExtends(b, ops, Continue(t));
    if s.pcs[t].Idle? { CallSucceeds(b + [s], ops + [Continue(t)], |ops|, t); }
    if Aims(b[|ops|], t) { AimStays(b[|ops|], v, t); }
  }

  /** The steps ops' are ops and then only instructions of thread t. */
  predicate OnlyThen(ops: seq<Op>, ops': seq<Op>, t: Tid) {
    ops <= ops' && forall i :: |ops| <= i < |ops'| ==> ops'[i] == Continue(t)
  }

  /** From any state of any run, whatever the tables, the counts and the position of every thread, a thread
      that goes on alone ends its call, unless another thread holds the resize flag, and has its own producer. */
  lemma AloneEnds(b: seq<State>, ops: seq<Op>, t: Tid) returns (b': seq<State>, ops': seq<Op>)
    requires Run(b, ops) && Alone(b[|ops|], t) && !b[|ops|].pcs[t].Idle?
    ensures Run(b', ops') && b <= b' && OnlyThen(ops, ops', t) && |ops'| <= |ops| + Rank(b[|ops|], t)
    ensures var s := b'[|ops'|]; t < |s.pcs| && s.pcs[t].Idle? && s.pcs[t].result.Producer? && Owns(s.producers, s.pcs[t].result.v, t)
    ensures Aims(b[|ops|], t) ==> Aims(b'[|ops'|], t)
  {
    b', ops' := b, ops;
    while !b'[|ops'|].pcs[t].Idle?
      invariant Run(b', ops') && b <= b' && OnlyThen(ops, ops', t) && Alone(b'[|ops'|], t)
      invariant |ops'| + Rank(b'[|ops'|], t) <= |ops| + Rank(b[|ops|], t)
      invariant b'[|ops'|].pcs[t].Idle? ==> b'[|ops'|].pcs[t].result.Producer?
      invariant Aims(b[|ops|], t) ==> Aims(b'[|ops'|], t)
      decreases Rank(b'[|ops'|], t)
    {
      var s := RunOwnStep(b', ops', t);
      b', ops' := b' + [s], ops' + [Continue(t)];
    }
    ResultIsOwn(b', ops', |ops'|, t);
  }

  /** A call that runs alone ends with the thread's own producer, whether or not the table has to grow, and
      then the current table has it: it was there, has moved there, or has been added there. */
  lemma CallEnds(b: seq<State>, ops: seq<Op>, t: Tid) returns (b': seq<State>, ops': seq<Op>)
    requires Run(b, ops) && Enabled(b[|ops|], Call(t)) && !b[|ops|].locked
    ensures Run(b', ops') && b <= b' && OnlyThen(ops + [Call(t)], ops', t) && |ops'| <= |ops| + 1 + CallRank(b[|ops|])
    ensures var s := b'[|ops'|]; t < |s.pcs| && s.pcs[t].Idle? && s.pcs[t].result.Producer? && Owns(s.producers, s.pcs[t].result.v, t)
    ensures var s := b'[|ops'|]; |s.tables| > 0 && Entry(Taken(t), s.pcs[t].result) in s.tables[|s.tables| - 1].entries
  {
    var s := Next(b[|ops|], Call(t));
    RunExtends(b, ops, Call(t));
    b', ops' := AloneEnds(b + [s], ops + [Call(t)], t);
  }

  // ---------------------------------------------------------------------------------------------
  // The tables in place
  // ---------------------------------------------------------------------------------------------

  class ProducerTable {
    var tables: seq<Table>
    var count: nat
    var locked: bool
    var producers: seq<Tid>
    const hash: seq<nat>
    var pcs: seq<Pc>

    ghost function Snapshot(): State
      reads this
    { State(tables, count, locked, producers, hash, pcs) }

    constructor (hash: seq<nat>, capacity: nat)
      requires capacity > 0
      ensures Initial(Snapshot()) && this.hash == hash && Cap(tables, 0) == capacity
    {
      this.hash := hash;
      tables := [Table(seq(capacity, _ => Entry(Free, Nothing)))];
      count, locked, producers := 0, false, [];
      pcs := seq(|hash|, _ => Idle(Nothing));
    }

    method Take(t: Tid, main: nat, i: nat, taken: Pc, passed: Pc)
      requires t < |pcs|
      modifies this`tables, this`pcs
      ensures if EntryAt(old(tables), main, i).key.Free?
              then tables == TakenTables(old(tables), main, t, i) && pcs == old(pcs)[t := taken]
              else tables == old(tables) && pcs == old(pcs)[t := passed]
    {
      var e := EntryAt(tables, main, i);
      if e.key.Free? {
        tables := WithEntry(tables, main, i, e.(key := Taken(t)));
        pcs := pcs[t := taken];
      } else {
        pcs := pcs[t := passed];
      }
    }

    method Store(t: Tid, main: nat, i: nat, v: nat)
      requires t < |pcs|
      modifies this`tables, this`pcs
      ensures tables == StoredTables(old(tables), main, i, v) && pcs == old(pcs)[t := Idle(Producer(v))]
    {
      tables := WithEntry(tables, main, i, EntryAt(tables, main, i).(value := Producer(v)));
      pcs := pcs[t := Idle(Producer(v))];
    }

    method Look(t: Tid, main: nat, h: nat, i: nat)
      requires Enabled(Snapshot(), Continue(t)) && pcs[t] == Search(main, h, i)
      modifies this`pcs
      ensures Snapshot() == Perform(old(Snapshot()), t)
    {
      var e := EntryAt(tables, h, i);
      if e.key == Taken(t) {
        if e.value.Producer? && h != main { pcs := pcs[t := MoveProbe(main, e.value.v, hash[t])]; } else { pcs := pcs[t := Idle(e.value)]; }
      } else if e.key.Free? {
        pcs := pcs[t := if h > 0 then Search(main, h - 1, hash[t]) else AddCount(main)];
      } else {
        pcs := pcs[t := Search(main, h, i + 1)];
      }
    }

    method Lock(t: Tid, main: nat, n: nat)
      requires Enabled(Snapshot(), Continue(t)) && pcs[t] == TryLock(main, n)
      modifies this`pcs, this`locked
      ensures Snapshot() == Perform(old(Snapshot()), t)
    {
      if main < |tables| && n >= Cap(tables, main) / 2 && !locked {
        locked := true;
        pcs := pcs[t := Reload(n)];
      } else {
        pcs := pcs[t := CheckRoom(main, n)];
      }
    }

    method Resize(t: Tid, main: nat, n: nat)
      requires Enabled(Snapshot(), Continue(t)) && pcs[t] == Publish(main, n)
      modifies this`pcs, this`tables
      ensures Snapshot() == Perform(old(Snapshot()), t)
    {
      var cap := if main < |tables| && Cap(tables, main) > 0 then Grown(2 * Cap(tables, main), n) else 1;
      pcs := pcs[t := Unlock(|tables|, n)];
      tables := tables + [Table(seq(cap, _ => Entry(Free, Nothing)))];
    }

    /** One instruction of a thread. */
    method Execute(op: Op)
      requires Enabled(Snapshot(), op)
      modifies this
      ensures Step(old(Snapshot()), op, Snapshot())
    {
      var t, last := op.t, |tables| - 1;
      match pcs[t] {
        case Idle(_) => pcs := pcs[t := LoadMain];
        case LoadMain => pcs := pcs[t := Search(last, last, hash[t])];
        case Search(main, h, i) => Look(t, main, h, i);
        case MoveProbe(main, v, i) =>
          pcs := pcs[t := if EntryAt(tables, main, i).key.Free? then MoveCas(main, v, i) else MoveProbe(main, v, i + 1)];
        case MoveCas(main, v, i) => Take(t, main, i, MoveStore(main, v, i), MoveProbe(main, v, i + 1));
        case MoveStore(main, v, i) => Store(t, main, i, v);
        case AddCount(main) =>
          count := count + 1;
          pcs := pcs[t := TryLock(main, count)];
        case TryLock(main, n) => Lock(t, main, n);
        case Reload(n) => pcs := pcs[t := if n >= Cap(tables, last) / 2 then Publish(last, n) else Unlock(last, n)];
        case Publish(main, n) => Resize(t, main, n);
        case Unlock(main, n) =>
          locked := false;
          pcs := pcs[t := CheckRoom(main, n)];
        case CheckRoom(main, n) =>
          pcs := pcs[t := if main < |tables| && n < Limit(Cap(tables, main)) then LinkLoad(main, n) else Await(n)];
        case Await(n) => pcs := pcs[t := TryLock(last, n)];
        case LinkLoad(main, n) => pcs := pcs[t := LinkCas(main, n, |producers|)];
        case LinkCas(main, n, seen) =>
          if |producers| == seen {
            producers := producers + [t];
            pcs := pcs[t := AddProbe(main, seen, hash[t])];
          } else {
            pcs := pcs[t := LinkCas(main, n, |producers|)];
          }
        case AddProbe(main, v, i) =>
          pcs := pcs[t := if EntryAt(tables, main, i).key.Free? then AddCas(main, v, i) else AddProbe(main, v, i + 1)];
        case AddCas(main, v, i) => Take(t, main, i, AddStore(main, v, i), AddProbe(main, v, i + 1));
        case AddStore(main, v, i) => Store(t, main, i, v);
      }
    }
  }
}
