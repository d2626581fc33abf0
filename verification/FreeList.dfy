/** The lock-free free list, one atomic instruction per step.

    A node's word packs a reference count (low 31 bits) and a "should be on the free list" flag
    (bit 31).  Every load, store, fetch_add and compare_exchange of the source is one step of a
    sequentially consistent interleaving; the values a thread has already read stay in its program
    counter, so they may be stale when they are used. */
module FreeList {

  type Node = nat
  type Tid = nat

  const FLAG: int := 0x8000_0000    // SHOULD_BE_ON_FREELIST; REFS_MASK keeps the value below it
  const WORD: int := 0x1_0000_0000  // the word is a 32-bit unsigned integer

  /** Unsigned 32-bit addition of d, |d| < 2^32, to a word. */
  function Wrap(x: int): int {
    if x >= WORD then x - WORD else if x < 0 then x + WORD else x
  }

  /** refs & REFS_MASK */
  function Masked(w: int): int { if w >= FLAG then w - FLAG else w }

  datatype Ptr = Null | At(node: Node)

  /** What a thread does after add_knowing_refcount_is_zero: return from add, or go on with the
      loop of try_get whose local variable head holds the given pointer. */
  datatype Cont = Return | Resume(head: Ptr)

  /** The next atomic instruction of a thread together with its local variables. */
  datatype Pc =
    | Idle
    | AddFlag(n: Node)                       // add: fetch_add of the flag
    | LinkLoad(n: Node, k: Cont)             // add_knowing_refcount_is_zero: load the head
    | LinkNext(n: Node, h: Ptr, k: Cont)     //   store freeListNext
    | LinkRefs(n: Node, h: Ptr, k: Cont)     //   store 1 into freeListRefs
    | LinkCas(n: Node, h: Ptr, k: Cont)      //   compare_exchange of the head
    | LinkUndo(n: Node, h: Ptr, k: Cont)     //   fetch_add(FLAG - 1)
    | GetLoad                                // try_get: load the head
    | GetRefs(n: Node)                       //   load the head node's freeListRefs
    | GetAcquire(n: Node, refs: int)         //   compare_exchange refs -> refs + 1
    | GetNext(n: Node)                       //   load freeListNext
    | GetCas(n: Node, nx: Ptr)               //   compare_exchange of the head
    | GetRelease(n: Node)                    //   fetch_sub(2), then return the node
    | GetDrop(n: Node, cur: Ptr)             //   fetch_sub(1) after a failed compare_exchange

  /** What an idle thread may start; Continue performs the pending instruction. */
  datatype Op = StartAdd(n: Node) | StartGet | Continue

  /** The shared memory, the program counters, and the nodes that belong to the callers. */
  datatype State = State(
    head: Ptr, refs: map<Node, int>, next: map<Node, Ptr>, pcs: map<Tid, Pc>, out: set<Node>)

  predicate PtrIn(p: Ptr, nodes: set<Node>) { p.Null? || p.node in nodes }

  predicate ContIn(k: Cont, nodes: set<Node>) { k.Return? || PtrIn(k.head, nodes) }

  predicate PcIn(pc: Pc, nodes: set<Node>) {
    match pc
    case Idle => true
    case GetLoad => true
    case AddFlag(n) => n in nodes
    case LinkLoad(n, k) => n in nodes && ContIn(k, nodes)
    case LinkNext(n, h, k) => n in nodes && PtrIn(h, nodes) && ContIn(k, nodes)
    case LinkRefs(n, h, k) => n in nodes && PtrIn(h, nodes) && ContIn(k, nodes)
    case LinkCas(n, h, k) => n in nodes && PtrIn(h, nodes) && ContIn(k, nodes)
    case LinkUndo(n, h, k) => n in nodes && PtrIn(h, nodes) && ContIn(k, nodes)
    case GetRefs(n) => n in nodes
    case GetAcquire(n, _) => n in nodes
    case GetNext(n) => n in nodes
    case GetCas(n, nx) => n in nodes && PtrIn(nx, nodes)
    case GetRelease(n) => n in nodes
    case GetDrop(n, cur) => n in nodes && PtrIn(cur, nodes)
  }

  /** Every pointer in memory or in a thread points at a node of the block pool. */
  ghost predicate WellFormed(s: State) {
    && s.refs.Keys == s.next.Keys
    && PtrIn(s.head, s.refs.Keys)
    && s.out <= s.refs.Keys
    && (forall n {:trigger s.next[n]} :: n in s.next ==> PtrIn(s.next[n], s.refs.Keys))
    && (forall t :: t in s.pcs ==> PcIn(s.pcs[t], s.refs.Keys))
  }

  /** A caller starts an operation only when its thread is idle, and adds only a node it owns. */
  predicate Enabled(s: State, t: Tid, op: Op) {
    && t in s.pcs
    && match op
       case StartAdd(n) => s.pcs[t].Idle? && n in s.out
       case StartGet => s.pcs[t].Idle?
       case Continue => !s.pcs[t].Idle?
  }

  /** The head of try_get's loop with local variable head == p. */
  function LoopHead(p: Ptr): Pc { if p.Null? then Idle else GetRefs(p.node) }

  function Finish(k: Cont): Pc { if k.Return? then Idle else LoopHead(k.head) }

  /** One atomic instruction of thread t. */
  function Next(s: State, t: Tid, op: Op): State
    requires Ready(s, t) && Enabled(s, t, op)
  {
    match op
    case StartAdd(n) => s.(pcs := s.pcs[t := AddFlag(n)], out := s.out - {n})
    case StartGet => s.(pcs := s.pcs[t := GetLoad])
    case Continue => Perform(s, t)
  }

  /** The nodes thread t works with exist. */
  predicate Ready(s: State, t: Tid) {
    t in s.pcs && s.refs.Keys == s.next.Keys && PcIn(s.pcs[t], s.refs.Keys)
  }

  function Perform(s: State, t: Tid): State
    requires Ready(s, t) && !s.pcs[t].Idle?
  {
    match s.pcs[t]
    case AddFlag(n) =>
      s.(refs := s.refs[n := Wrap(s.refs[n] + FLAG)],
         pcs := s.pcs[t := if s.refs[n] == 0 then LinkLoad(n, Return) else Idle])
    case LinkLoad(n, k) => s.(pcs := s.pcs[t := LinkNext(n, s.head, k)])
    case LinkNext(n, h, k) =>
      s.(next := s.next[n := h], pcs := s.pcs[t := LinkRefs(n, h, k)])
    case LinkRefs(n, h, k) =>
      s.(refs := s.refs[n := 1], pcs := s.pcs[t := LinkCas(n, h, k)])
    case LinkCas(n, h, k) =>
      if s.head == h then s.(head := At(n), pcs := s.pcs[t := Finish(k)])
      else s.(pcs := s.pcs[t := LinkUndo(n, s.head, k)])
    case LinkUndo(n, h, k) =>
      s.(refs := s.refs[n := Wrap(s.refs[n] + FLAG - 1)],
         pcs := s.pcs[t := if s.refs[n] == 1 then LinkNext(n, h, k) else Finish(k)])
    case GetLoad => s.(pcs := s.pcs[t := LoopHead(s.head)])
    case GetRefs(n) =>
      s.(pcs := s.pcs[t := if Masked(s.refs[n]) == 0 then GetLoad else GetAcquire(n, s.refs[n])])
    case GetAcquire(n, refs) =>
      if s.refs[n] == refs then
        s.(refs := s.refs[n := Wrap(refs + 1)], pcs := s.pcs[t := GetNext(n)])
      else s.(pcs := s.pcs[t := GetLoad])
    case GetNext(n) => s.(pcs := s.pcs[t := GetCas(n, s.next[n])])
    case GetCas(n, nx) =>
      if s.head == At(n) then s.(head := nx, pcs := s.pcs[t := GetRelease(n)])
      else s.(pcs := s.pcs[t := GetDrop(n, s.head)])
    case GetRelease(n) =>
      s.(refs := s.refs[n := Wrap(s.refs[n] - 2)], pcs := s.pcs[t := Idle], out := s.out + {n})
    case GetDrop(n, cur) =>
      s.(refs := s.refs[n := Wrap(s.refs[n] - 1)],
         pcs := s.pcs[t := if s.refs[n] == FLAG + 1 then LinkLoad(n, Resume(cur)) else LoopHead(cur)])
  }

  // ---------------------------------------------------------------------------------------------
  // The invariant
  // ---------------------------------------------------------------------------------------------

  /** Where a node is in its life cycle. */
  datatype Loc =
    | Out                // owned by a caller
    | Pending(t: Tid)    // t is about to set the flag
    | Flagged            // flag set, references outstanding: the last holder will link it
    | Zero(t: Tid)       // flag set, no references: t alone may touch it
    | InFlight(t: Tid)   // refcount back to one: t is trying to link it
    | Listed             // on the list
    | Taken(t: Tid)      // t has unlinked it and still holds two references

  /** A history view of a state: the life cycle of each node and the list reachable from the head. */
  datatype View = View(loc: map<Node, Loc>, list: seq<Node>)

  predicate Holds(pc: Pc, n: Node) {
    (pc.GetNext? || pc.GetCas? || pc.GetRelease? || pc.GetDrop?) && pc.n == n
  }

  /** The threads that hold a try_get reference to n. */
  function Holders(pcs: map<Tid, Pc>, n: Node): set<Tid> {
    set t | t in pcs && Holds(pcs[t], n)
  }

  predicate HasFlag(l: Loc) { l.Flagged? || l.Zero? }

  /** The reference owned by the list, or by the thread that is linking or has just unlinked. */
  function Base(l: Loc): int { if l.InFlight? || l.Listed? || l.Taken? then 1 else 0 }

  /** Thread positions that rely on something about the node they name. */
  predicate Focused(pc: Pc) { !pc.Idle? && !pc.GetLoad? && !pc.GetRefs? }

  /** What thread t may rely on about the node it works on: its life cycle and its next pointer. */
  predicate PcOk(pc: Pc, t: Tid, loc: Loc, next: Ptr) {
    match pc
    case AddFlag(_) => loc == Pending(t)
    case LinkLoad(_, _) => loc == Zero(t)
    case LinkNext(_, _, _) => loc == Zero(t)
    case LinkRefs(_, h, _) => loc == Zero(t) && next == h
    case LinkCas(_, h, _) => loc == InFlight(t) && next == h
    case LinkUndo(_, _, _) => loc == InFlight(t)
    case GetAcquire(_, refs) => Masked(refs) != 0
    case GetCas(_, nx) => next == nx
    case GetRelease(_) => loc == Taken(t)
    case _ => true
  }

  /** The thread that alone decides what becomes of a node at l. */
  datatype Claimant = Nobody | Thread(t: Tid)

  function ClaimantOf(l: Loc): Claimant {
    match l
    case Pending(t) => Thread(t)
    case Zero(t) => Thread(t)
    case InFlight(t) => Thread(t)
    case Taken(t) => Thread(t)
    case _ => Nobody
  }

  /** Where that thread must be. */
  predicate ClaimOk(l: Loc, n: Node, pc: Pc) {
    match l
    case Pending(_) => pc == AddFlag(n)
    case Zero(_) => (pc.LinkLoad? || pc.LinkNext? || pc.LinkRefs?) && pc.n == n
    case InFlight(_) => (pc.LinkCas? || pc.LinkUndo?) && pc.n == n
    case Taken(_) => pc == GetRelease(n)
    case _ => true
  }

  predicate Owned(pcs: map<Tid, Pc>, l: Loc, n: Node) {
    var c := ClaimantOf(l);
    c.Thread? ==> c.t in pcs && ClaimOk(l, n, pcs[c.t])
  }

  /** The word of a node at l with the given holders: flag, base reference, holders' references. */
  predicate WordFits(word: int, l: Loc, holders: set<Tid>) {
    && word == (if HasFlag(l) then FLAG else 0) + Base(l) + |holders|
    && (l.Zero? ==> holders == {})
    && (l.Flagged? ==> holders != {})
  }

  /** Following freeListNext from p visits exactly list, without repetition, and then ends. */
  predicate Chain(p: Ptr, next: map<Node, Ptr>, list: seq<Node>)
    decreases list
  {
    if list == [] then p.Null?
    else
      && p == At(list[0]) && list[0] in next && list[0] !in list[1..]
      && Chain(next[list[0]], next, list[1..])
  }

  /** The word of every node says exactly where it is and how many threads refer to it. */
  ghost predicate Words(s: State, v: View)
    requires v.loc.Keys == s.refs.Keys
  { forall n :: n in s.refs ==> WordFits(s.refs[n], v.loc[n], Holders(s.pcs, n)) }

  ghost predicate Threads(s: State, v: View)
    requires v.loc.Keys == s.refs.Keys == s.next.Keys
  {
    forall t :: t in s.pcs && Focused(s.pcs[t]) ==>
      && s.pcs[t].n in s.refs
      && PcOk(s.pcs[t], t, v.loc[s.pcs[t].n], s.next[s.pcs[t].n])
  }

  ghost predicate Locs(s: State, v: View)
    requires v.loc.Keys == s.refs.Keys
  {
    forall n :: n in s.refs ==>
      && Owned(s.pcs, v.loc[n], n)
      && (n in s.out <==> v.loc[n].Out?)
      && (n in v.list <==> v.loc[n].Listed?)
  }

  ghost predicate Inv(s: State, v: View) {
    && WellFormed(s)
    && v.loc.Keys == s.refs.Keys
    && |s.pcs| < FLAG - 1
    && Words(s, v)
    && Threads(s, v)
    && Locs(s, v)
    && Chain(s.head, s.next, v.list)
  }

  // ---------------------------------------------------------------------------------------------
  // Preservation
  // ---------------------------------------------------------------------------------------------

  ghost predicate SameBut<V>(a: map<Node, V>, b: map<Node, V>, n: Node) {
    a.Keys == b.Keys && forall m :: m in a && m != n ==> a[m] == b[m]
  }

  /** Thread t has moved, and apart from that at most node n has changed. */
  ghost predicate Frame(s: State, v: View, s': State, v': View, t: Tid, n: Node) {
    && t in s.pcs && n in s.refs && n in s.next && n in v.loc
    && t in s'.pcs && s'.pcs == s.pcs[t := s'.pcs[t]]
    && SameBut(s.refs, s'.refs, n) && SameBut(s.next, s'.next, n) && SameBut(v.loc, v'.loc, n)
    && (forall m :: m != n ==> (m in s'.out <==> m in s.out) && (m in v'.list <==> m in v.list))
    && On(s.pcs[t], n) && On(s'.pcs[t], n)
  }

  /** The part of the invariant that speaks about node n and thread t, after the step. */
  ghost predicate Local(s: State, v: View, s': State, v': View, t: Tid, n: Node)
    requires n in s.next && n in v.loc
    requires n in s'.refs && n in s'.next && n in v'.loc && t in s'.pcs
  {
    var l, l', pc' := v.loc[n], v'.loc[n], s'.pcs[t];
    && WordFits(s'.refs[n], l', HoldersAfter(s.pcs, t, pc', n))
    && (Focused(pc') ==> PcOk(pc', t, l', s'.next[n]))
    && (l == l' || ClaimantOf(l) == Nobody || ClaimantOf(l) == Thread(t))
    && (s.next[n] == s'.next[n] || l == Zero(t))
    && (n in s'.out <==> l'.Out?) && (n in v'.list <==> l'.Listed?)
    && (if ClaimantOf(l') == Thread(t) then ClaimOk(l', n, pc') else l' == l || ClaimantOf(l') == Nobody)
  }

  function HoldersAfter(pcs: map<Tid, Pc>, t: Tid, pc: Pc, n: Node): set<Tid> {
    if Holds(pc, n) then Holders(pcs, n) + {t} else Holders(pcs, n) - {t}
  }

  predicate On(pc: Pc, n: Node) { Focused(pc) ==> pc.n == n }

  lemma SubsetSize<T>(a: set<T>, b: set<T>)
    requires a <= b
    ensures |a| <= |b|
  {
    assert b == a + (b - a);
  }

  /** Changing one program counter changes the holders of n by at most that thread. */
  lemma HoldersUpdate(pcs: map<Tid, Pc>, t: Tid, pc: Pc, n: Node)
    requires t in pcs
    ensures Holders(pcs[t := pc], n) == HoldersAfter(pcs, t, pc, n)
  {
  }

  lemma KeepsWords(s: State, v: View, s': State, v': View, t: Tid, n: Node)
    requires v.loc.Keys == s.refs.Keys && Words(s, v)
    requires Frame(s, v, s', v', t, n) && Local(s, v, s', v', t, n)
    ensures Words(s', v')
  {
    forall m | m in s'.refs ensures WordFits(s'.refs[m], v'.loc[m], Holders(s'.pcs, m)) {
      HoldersUpdate(s.pcs, t, s'.pcs[t], m);
      if m != n { assert Holders(s'.pcs, m) == Holders(s.pcs, m); }
    }
  }

  lemma KeepsThreads(s: State, v: View, s': State, v': View, t: Tid, n: Node)
    requires v.loc.Keys == s.refs.Keys == s.next.Keys && Threads(s, v) && Words(s, v)
    requires Frame(s, v, s', v', t, n) && Local(s, v, s', v', t, n)
    ensures Threads(s', v')
  {
    forall u | u in s'.pcs && Focused(s'.pcs[u])
      ensures s'.pcs[u].n in s'.refs && PcOk(s'.pcs[u], u, v'.loc[s'.pcs[u].n], s'.next[s'.pcs[u].n])
    {
      if u != t && s.pcs[u].n == n {
        assert PcOk(s.pcs[u], u, v.loc[n], s.next[n]);
        if v.loc[n] == Zero(t) { assert u !in Holders(s.pcs, n); }
      }
    }
  }

  lemma KeepsLocs(s: State, v: View, s': State, v': View, t: Tid, n: Node)
    requires v.loc.Keys == s.refs.Keys && Locs(s, v)
    requires Frame(s, v, s', v', t, n) && Local(s, v, s', v', t, n)
    ensures Locs(s', v')
  {
    forall m | m in s'.refs
      ensures Owned(s'.pcs, v'.loc[m], m) && (m in s'.out <==> v'.loc[m].Out?) && (m in v'.list <==> v'.loc[m].Listed?)
    {
      assert Owned(s.pcs, v.loc[m], m);
    }
  }

  lemma KeepsWellFormed(s: State, v: View, s': State, v': View, t: Tid, n: Node)
    requires WellFormed(s) && Frame(s, v, s', v', t, n)
    requires PcIn(s'.pcs[t], s.refs.Keys) && PtrIn(s'.next[n], s.refs.Keys) && PtrIn(s'.head, s.refs.Keys)
    ensures WellFormed(s')
  {
    forall m | m in s'.out ensures m in s'.refs {
      if m != n { assert m in s.out; }
    }
    forall u | u in s'.pcs ensures PcIn(s'.pcs[u], s'.refs.Keys) {
      if u != t { assert PcIn(s.pcs[u], s.refs.Keys); }
    }
  }

  /** A step of thread t on node n keeps the invariant when it keeps it locally. */
  lemma KeepsInv(s: State, v: View, s': State, v': View, t: Tid, n: Node)
    requires Inv(s, v) && Frame(s, v, s', v', t, n) && Local(s, v, s', v', t, n)
    requires PcIn(s'.pcs[t], s.refs.Keys) && PtrIn(s'.next[n], s.refs.Keys) && PtrIn(s'.head, s.refs.Keys)
    requires Chain(s'.head, s'.next, v'.list)
    ensures Inv(s', v')
  {
    KeepsWellFormed(s, v, s', v', t, n);
    KeepsWords(s, v, s', v', t, n);
    KeepsThreads(s, v, s', v', t, n);
    KeepsLocs(s, v, s', v', t, n);
    assert s'.pcs.Keys == s.pcs.Keys;
  }

  predicate ClaimsNothing(pc: Pc) {
    pc.Idle? || pc.GetLoad? || pc.GetRefs? || (pc.GetAcquire? && Masked(pc.refs) != 0)
  }

  lemma UnclaimedHolders(pcs: map<Tid, Pc>, t: Tid, pc: Pc, n: Node)
    requires t in pcs && ClaimsNothing(pcs[t]) && ClaimsNothing(pc)
    ensures Holders(pcs[t := pc], n) == Holders(pcs, n)
  {
  }

  lemma UnclaimedOwned(pcs: map<Tid, Pc>, t: Tid, pc: Pc, l: Loc, n: Node)
    requires t in pcs && ClaimsNothing(pcs[t]) && Owned(pcs, l, n)
    ensures Owned(pcs[t := pc], l, n)
  {
  }

  /** A step that only moves a program counter which claims nothing keeps the invariant. */
  lemma KeepsUnfocused(s: State, v: View, t: Tid, pc: Pc)
    requires Inv(s, v) && t in s.pcs && ClaimsNothing(s.pcs[t]) && ClaimsNothing(pc)
    requires PcIn(pc, s.refs.Keys)
    ensures Inv(s.(pcs := s.pcs[t := pc]), v)
  {
    var s' := s.(pcs := s.pcs[t := pc]);
    assert s'.pcs.Keys == s.pcs.Keys;
    assert WellFormed(s');
    assert Words(s', v) by {
      forall n | n in s.refs ensures Holders(s'.pcs, n) == Holders(s.pcs, n) { UnclaimedHolders(s.pcs, t, pc, n); }
    }
    assert Locs(s', v) by {
      forall n | n in s.refs ensures Owned(s'.pcs, v.loc[n], n) { UnclaimedOwned(s.pcs, t, pc, v.loc[n], n); }
    }
  }

  /** How a step moves the view. */
  function NextView(s: State, v: View, t: Tid, op: Op): View
    requires Ready(s, t) && Enabled(s, t, op) && v.loc.Keys == s.refs.Keys
  {
    match op
    case StartAdd(n) => v.(loc := v.loc[n := Pending(t)])
    case StartGet => v
    case Continue => PerformView(s, v, t)
  }

  function PerformView(s: State, v: View, t: Tid): View
    requires Ready(s, t) && v.loc.Keys == s.refs.Keys
  {
    match s.pcs[t]
    case AddFlag(n) => v.(loc := v.loc[n := if s.refs[n] == 0 then Zero(t) else Flagged])
    case LinkRefs(n, _, _) => v.(loc := v.loc[n := InFlight(t)])
    case LinkCas(n, h, _) =>
      if s.head == h then View(v.loc[n := Listed], [n] + v.list) else v
    case LinkUndo(n, _, _) => v.(loc := v.loc[n := if s.refs[n] == 1 then Zero(t) else Flagged])
    case GetCas(n, _) =>
      if s.head == At(n) && v.list != [] then View(v.loc[n := Taken(t)], v.list[1..]) else v
    case GetRelease(n) => v.(loc := v.loc[n := Out])
    case GetDrop(n, _) => if s.refs[n] == FLAG + 1 then v.(loc := v.loc[n := Zero(t)]) else v
    case _ => v
  }

  /** What the invariant says about the node a thread works on. */
  ghost predicate Focus(s: State, v: View, t: Tid, n: Node) {
    && t in s.pcs && n in s.refs && n in s.next && n in v.loc
    && s.refs.Keys == s.next.Keys == v.loc.Keys
    && PcIn(s.pcs[t], s.refs.Keys) && PtrIn(s.next[n], s.refs.Keys) && PtrIn(s.head, s.refs.Keys)
    && (Focused(s.pcs[t]) ==> PcOk(s.pcs[t], t, v.loc[n], s.next[n]))
    && WordFits(s.refs[n], v.loc[n], Holders(s.pcs, n))
    && Owned(s.pcs, v.loc[n], n)
    && (n in s.out <==> v.loc[n].Out?) && (n in v.list <==> v.loc[n].Listed?)
    && |Holders(s.pcs, n)| < FLAG - 1
    && Chain(s.head, s.next, v.list)
  }

  lemma InvFocus(s: State, v: View, t: Tid, n: Node)
    requires Inv(s, v) && t in s.pcs && (Focused(s.pcs[t]) ==> s.pcs[t].n == n) && n in s.refs
    ensures Focus(s, v, t, n)
  {
    SubsetSize(Holders(s.pcs, n), s.pcs.Keys);
  }

  /** The step of t on n is local and keeps the list linked. */
  ghost predicate Good(s: State, v: View, s': State, v': View, t: Tid, n: Node) {
    && Frame(s, v, s', v', t, n) && Local(s, v, s', v', t, n)
    && PcIn(s'.pcs[t], s.refs.Keys) && PtrIn(s'.next[n], s.refs.Keys) && PtrIn(s'.head, s.refs.Keys)
    && Chain(s'.head, s'.next, v'.list)
  }

  /** How the holders of n change when t starts, keeps or ends its reference. */
  lemma Counted(pcs: map<Tid, Pc>, t: Tid, pc: Pc, n: Node)
    requires t in pcs
    ensures Holds(pcs[t], n) && Holds(pc, n) ==> HoldersAfter(pcs, t, pc, n) == Holders(pcs, n) != {}
    ensures !Holds(pcs[t], n) && !Holds(pc, n) ==> HoldersAfter(pcs, t, pc, n) == Holders(pcs, n)
    ensures Holds(pcs[t], n) && !Holds(pc, n) ==>
              |HoldersAfter(pcs, t, pc, n)| == |Holders(pcs, n)| - 1 && Holders(pcs, n) != {}
    ensures !Holds(pcs[t], n) && Holds(pc, n) ==>
              HoldersAfter(pcs, t, pc, n) != {} && |HoldersAfter(pcs, t, pc, n)| == |Holders(pcs, n)| + 1
    ensures |HoldersAfter(pcs, t, pc, n)| == 0 ==> HoldersAfter(pcs, t, pc, n) == {}
  {
    assert Holds(pcs[t], n) ==> t in Holders(pcs, n);
    assert !Holds(pcs[t], n) ==> Holders(pcs, n) - {t} == Holders(pcs, n);
    assert Holds(pcs[t], n) ==> Holders(pcs, n) + {t} == Holders(pcs, n);
  }

  /** The next pointers of nodes off the list do not matter to it. */
  lemma ChainFrame(p: Ptr, next: map<Node, Ptr>, list: seq<Node>, n: Node, nx: Ptr)
    requires Chain(p, next, list) && n !in list
    ensures Chain(p, next[n := nx], list)
    decreases list
  {
    if list != [] { ChainFrame(next[list[0]], next, list[1..], n, nx); }
  }

  lemma StepAddFlag(s: State, v: View, t: Tid, n: Node)
    requires Focus(s, v, t, n) && s.pcs[t] == AddFlag(n)
    ensures Good(s, v, Perform(s, t), PerformView(s, v, t), t, n)
  {
    Counted(s.pcs, t, Perform(s, t).pcs[t], n);
  }

  lemma StepLinkLoad(s: State, v: View, t: Tid, n: Node, k: Cont)
    requires Focus(s, v, t, n) && s.pcs[t] == LinkLoad(n, k)
    ensures Good(s, v, Perform(s, t), PerformView(s, v, t), t, n)
  {
    Counted(s.pcs, t, Perform(s, t).pcs[t], n);
  }

  lemma StepLinkNext(s: State, v: View, t: Tid, n: Node, h: Ptr, k: Cont)
    requires Focus(s, v, t, n) && s.pcs[t] == LinkNext(n, h, k)
    ensures Good(s, v, Perform(s, t), PerformView(s, v, t), t, n)
  {
    Counted(s.pcs, t, Perform(s, t).pcs[t], n);
    ChainFrame(s.head, s.next, v.list, n, h);
  }

  lemma StepLinkRefs(s: State, v: View, t: Tid, n: Node, h: Ptr, k: Cont)
    requires Focus(s, v, t, n) && s.pcs[t] == LinkRefs(n, h, k)
    ensures Good(s, v, Perform(s, t), PerformView(s, v, t), t, n)
  {
    Counted(s.pcs, t, Perform(s, t).pcs[t], n);
  }

  lemma StepLinkCas(s: State, v: View, t: Tid, n: Node, h: Ptr, k: Cont)
    requires Focus(s, v, t, n) && s.pcs[t] == LinkCas(n, h, k)
    ensures Good(s, v, Perform(s, t), PerformView(s, v, t), t, n)
  {
    Counted(s.pcs, t, Perform(s, t).pcs[t], n);
    if s.head == h { assert ([n] + v.list)[1..] == v.list; }
  }

  /** The last reference is gone again: t tries once more. */
  lemma StepLinkRetry(s: State, v: View, t: Tid, n: Node, h: Ptr, k: Cont)
    requires Focus(s, v, t, n) && s.pcs[t] == LinkUndo(n, h, k) && s.refs[n] == 1
    ensures Good(s, v, Perform(s, t), PerformView(s, v, t), t, n)
  {
    Counted(s.pcs, t, LinkNext(n, h, k), n);
  }

  lemma StepLinkUndo(s: State, v: View, t: Tid, n: Node, h: Ptr, k: Cont)
    requires Focus(s, v, t, n) && s.pcs[t] == LinkUndo(n, h, k) && s.refs[n] != 1
    ensures Good(s, v, Perform(s, t), PerformView(s, v, t), t, n)
  {
    Counted(s.pcs, t, Finish(k), n);
  }

  lemma StepGetAcquire(s: State, v: View, t: Tid, n: Node, refs: int)
    requires Focus(s, v, t, n) && s.pcs[t] == GetAcquire(n, refs) && s.refs[n] == refs
    ensures Good(s, v, Perform(s, t), PerformView(s, v, t), t, n)
  {
    Counted(s.pcs, t, Perform(s, t).pcs[t], n);
  }

  lemma StepGetNext(s: State, v: View, t: Tid, n: Node)
    requires Focus(s, v, t, n) && s.pcs[t] == GetNext(n)
    ensures Good(s, v, Perform(s, t), PerformView(s, v, t), t, n)
  {
    Counted(s.pcs, t, Perform(s, t).pcs[t], n);
  }

  /** The compare_exchange of try_get: no ABA, because nx is still the successor of n. */
  lemma StepGetCas(s: State, v: View, t: Tid, n: Node, nx: Ptr)
    requires Focus(s, v, t, n) && s.pcs[t] == GetCas(n, nx)
    ensures Good(s, v, Perform(s, t), PerformView(s, v, t), t, n)
  {
    Counted(s.pcs, t, Perform(s, t).pcs[t], n);
    if s.head == At(n) { assert v.list == [n] + v.list[1..]; }
  }

  lemma StepGetRelease(s: State, v: View, t: Tid, n: Node)
    requires Focus(s, v, t, n) && s.pcs[t] == GetRelease(n)
    ensures Good(s, v, Perform(s, t), PerformView(s, v, t), t, n)
  {
    Counted(s.pcs, t, Perform(s, t).pcs[t], n);
  }

  lemma StepGetDrop(s: State, v: View, t: Tid, n: Node, cur: Ptr)
    requires Focus(s, v, t, n) && s.pcs[t] == GetDrop(n, cur)
    ensures Good(s, v, Perform(s, t), PerformView(s, v, t), t, n)
  {
    Counted(s.pcs, t, Perform(s, t).pcs[t], n);
  }

  lemma StepStartAdd(s: State, v: View, t: Tid, n: Node)
    requires Focus(s, v, t, n) && Enabled(s, t, StartAdd(n))
    ensures Good(s, v, Next(s, t, StartAdd(n)), NextView(s, v, t, StartAdd(n)), t, n)
  {
    Counted(s.pcs, t, AddFlag(n), n);
  }

  /** Every atomic step of every thread keeps the invariant. */
  lemma StepKeepsInv(s: State, v: View, t: Tid, op: Op)
    requires Inv(s, v) && Enabled(s, t, op)
    ensures Ready(s, t) && Inv(Next(s, t, op), NextView(s, v, t, op))
  {
    match op
    case StartAdd(n) =>
      InvFocus(s, v, t, n);
      StepStartAdd(s, v, t, n);
      KeepsInv(s, v, Next(s, t, op), NextView(s, v, t, op), t, n);
    case StartGet => KeepsUnfocused(s, v, t, GetLoad);
    case Continue => PerformKeepsInv(s, v, t);
  }

  lemma PerformKeepsInv(s: State, v: View, t: Tid)
    requires Inv(s, v) && t in s.pcs && !s.pcs[t].Idle?
    ensures Ready(s, t) && Inv(Perform(s, t), PerformView(s, v, t))
  {
    assert PcIn(s.pcs[t], s.refs.Keys);
    if s.pcs[t].GetLoad? {
      KeepsUnfocused(s, v, t, LoopHead(s.head));
    } else if s.pcs[t].GetRefs? || (s.pcs[t].GetAcquire? && s.refs[s.pcs[t].n] != s.pcs[t].refs) {
      if s.pcs[t].GetAcquire? { assert Focused(s.pcs[t]); }
      KeepsUnfocused(s, v, t, Perform(s, t).pcs[t]);
    } else {
      FocusedKeepsInv(s, v, t, s.pcs[t].n);
    }
  }

  lemma FocusedKeepsInv(s: State, v: View, t: Tid, n: Node)
    requires Inv(s, v) && t in s.pcs && Focused(s.pcs[t]) && s.pcs[t].n == n
    requires s.pcs[t].GetAcquire? ==> n in s.refs && s.pcs[t].refs == s.refs[n]
    ensures Ready(s, t) && Inv(Perform(s, t), PerformView(s, v, t))
  {
    InvFocus(s, v, t, n);
    FocusedIsGood(s, v, t, n);
    KeepsInv(s, v, Perform(s, t), PerformView(s, v, t), t, n);
  }

  lemma FocusedIsGood(s: State, v: View, t: Tid, n: Node)
    requires Focus(s, v, t, n) && Focused(s.pcs[t]) && s.pcs[t].n == n
    requires s.pcs[t].GetAcquire? ==> s.pcs[t].refs == s.refs[n]
    ensures Good(s, v, Perform(s, t), PerformView(s, v, t), t, n)
  {
    match s.pcs[t]
    case AddFlag(_) => StepAddFlag(s, v, t, n);
    case LinkLoad(_, k) => StepLinkLoad(s, v, t, n, k);
    case LinkNext(_, h, k) => StepLinkNext(s, v, t, n, h, k);
    case LinkRefs(_, h, k) => StepLinkRefs(s, v, t, n, h, k);
    case LinkCas(_, h, k) => StepLinkCas(s, v, t, n, h, k);
    case LinkUndo(_, h, k) => if s.refs[n] == 1 { StepLinkRetry(s, v, t, n, h, k); } else { StepLinkUndo(s, v, t, n, h, k); }
    case GetAcquire(_, refs) => StepGetAcquire(s, v, t, n, refs);
    case GetNext(_) => StepGetNext(s, v, t, n);
    case GetCas(_, nx) => StepGetCas(s, v, t, n, nx);
    case GetRelease(_) => StepGetRelease(s, v, t, n);
    case GetDrop(_, cur) => StepGetDrop(s, v, t, n, cur);
  }

  // ---------------------------------------------------------------------------------------------
  // Runs
  // ---------------------------------------------------------------------------------------------

  datatype Event = Event(t: Tid, op: Op)

  /** The empty free list: every node belongs to a caller and no thread is inside an operation. */
  ghost predicate Initial(s: State) {
    && s.head == Null && s.refs.Keys == s.next.Keys == s.out && |s.pcs| < FLAG - 1
    && (forall n :: n in s.refs ==> s.refs[n] == 0 && s.next[n] == Null)
    && (forall t :: t in s.pcs ==> s.pcs[t] == Idle)
  }

  predicate Step(s: State, e: Event, s': State) {
    Ready(s, e.t) && Enabled(s, e.t, e.op) && s' == Next(s, e.t, e.op)
  }

  /** A run: the states b[0], b[1], ... that the events es lead through. */
  ghost predicate Run(b: seq<State>, es: seq<Event>) {
    && |b| == |es| + 1 && Initial(b[0])
    && forall i {:trigger es[i]} :: 0 <= i < |es| ==> Step(b[i], es[i], b[i + 1])
  }

  lemma InitialInv(s: State) returns (v: View)
    requires Initial(s)
    ensures Inv(s, v)
  {
    v := View(map n | n in s.refs :: Out, []);
    forall n | n in s.refs ensures Holders(s.pcs, n) == {} {}
  }

  lemma EventKeepsInv(s: State, v: View, e: Event, s': State) returns (v': View)
    requires Inv(s, v) && Step(s, e, s')
    ensures Inv(s', v')
  {
    StepKeepsInv(s, v, e.t, e.op);
    v' := NextView(s, v, e.t, e.op);
  }

  lemma RunStep(b: seq<State>, es: seq<Event>, i: nat, v: View) returns (v': View)
    requires Run(b, es) && 0 < i < |b| && Inv(b[i - 1], v)
    ensures Inv(b[i], v')
  {
    v' := EventKeepsInv(b[i - 1], v, es[i - 1], b[i]);
  }

  /** Every state of every run satisfies the invariant. */
  lemma RunKeepsInv(b: seq<State>, es: seq<Event>, i: nat) returns (v: View)
    requires Run(b, es) && i < |b|
    ensures Inv(b[i], v)
  {
    v := InitialInv(b[0]);
    for k := 0 to i
      invariant Inv(b[k], v)
    {
      v := RunStep(b, es, k + 1, v);
    }
  }

  /** Some thread is between storing the refcount one and giving up or completing the link, or has
      unlinked n and not yet subtracted its two references. */
  ghost predicate CarriesReference(s: State, n: Node) {
    exists t :: Carries(s, n, t)
  }

  predicate Carries(s: State, n: Node, t: Tid) {
    t in s.pcs && (s.pcs[t].LinkCas? || s.pcs[t].LinkUndo? || s.pcs[t].GetRelease?) && s.pcs[t].n == n
  }

  /** The masked count of n is the list's or an operation's reference plus one per holder. */
  ghost predicate CountExact(s: State, list: seq<Node>, n: Node)
    requires n in s.refs
  {
    Masked(s.refs[n]) == |Holders(s.pcs, n)| + (if n in list || CarriesReference(s, n) then 1 else 0)
  }

  predicate Adding(pc: Pc) {
    pc.AddFlag? || pc.LinkLoad? || pc.LinkNext? || pc.LinkRefs? || pc.LinkCas? || pc.LinkUndo?
  }

  predicate InAdd(s: State, n: Node, t: Tid) { t in s.pcs && Adding(s.pcs[t]) && s.pcs[t].n == n }

  predicate Taking(s: State, n: Node, t: Tid) { t in s.pcs && s.pcs[t] == GetRelease(n) }

  /** An added node that no try_get has taken is on the list, or flagged with a holder that will add
      it, or in the hands of exactly one thread that is adding it. */
  ghost predicate NotLost(s: State, list: seq<Node>, n: Node)
    requires n in s.refs
  {
    || n in list
    || (s.refs[n] >= FLAG && Holders(s.pcs, n) != {})
    || exists t :: InAdd(s, n, t) && forall u :: InAdd(s, n, u) ==> u == t
  }

  lemma ClaimIsUnique(s: State, v: View, n: Node, t: Tid)
    requires v.loc.Keys == s.refs.Keys == s.next.Keys && Threads(s, v)
    requires InAdd(s, n, t) || Taking(s, n, t)
    ensures n in s.refs && ClaimantOf(v.loc[n]) == Thread(t)
    ensures Taking(s, n, t) ==> v.loc[n] == Taken(t)
    ensures Carries(s, n, t) ==> Base(v.loc[n]) == 1
  {
    assert Focused(s.pcs[t]);
  }

  lemma CountIsExact(s: State, v: View, n: Node)
    requires v.loc.Keys == s.refs.Keys == s.next.Keys && Threads(s, v) && |s.pcs| < FLAG - 1
    requires n in s.refs && WordFits(s.refs[n], v.loc[n], Holders(s.pcs, n)) && Owned(s.pcs, v.loc[n], n)
    requires n in v.list <==> v.loc[n].Listed?
    ensures CountExact(s, v.list, n)
  {
    SubsetSize(Holders(s.pcs, n), s.pcs.Keys);
    var c := ClaimantOf(v.loc[n]);
    if v.loc[n].InFlight? || v.loc[n].Taken? {
      assert Carries(s, n, c.t);
    } else if CarriesReference(s, n) {
      var t :| Carries(s, n, t);
      ClaimIsUnique(s, v, n, t);
    }
  }

  lemma NodeNotLost(s: State, v: View, n: Node)
    requires Inv(s, v) && n in s.refs && n !in s.out
    requires forall t :: !Taking(s, n, t)
    ensures NotLost(s, v.list, n)
  {
    var c := ClaimantOf(v.loc[n]);
    if c.Thread? {
      assert !Taking(s, n, c.t);
      assert InAdd(s, n, c.t);
      forall u | InAdd(s, n, u) ensures u == c.t { ClaimIsUnique(s, v, n, u); }
    }
  }

  lemma TakenOnce(s: State, v: View, n: Node, t: Tid)
    requires Inv(s, v) && Taking(s, n, t)
    ensures n in s.refs && s.refs[n] < FLAG && n !in s.out && n !in v.list
    ensures forall u :: Taking(s, n, u) || InAdd(s, n, u) ==> u == t
  {
    ClaimIsUnique(s, v, n, t);
    SubsetSize(Holders(s.pcs, n), s.pcs.Keys);
    assert WordFits(s.refs[n], v.loc[n], Holders(s.pcs, n));
    forall u | Taking(s, n, u) || InAdd(s, n, u) ensures u == t { ClaimIsUnique(s, v, n, u); }
  }

  /** A node that try_get is about to return: its flag bit is clear (the assertion in the source),
      it is off the list, no caller owns it and no other operation works on it. */
  ghost predicate TakenSafely(s: State, list: seq<Node>, n: Node, t: Tid) {
    && n in s.refs && s.refs[n] < FLAG && n !in s.out && n !in list
    && (forall u :: Taking(s, n, u) || InAdd(s, n, u) ==> u == t)
  }

  /** Safety of the free list in every reachable state: the list from the head is finite and without
      repetition, every reference count is exact, no added node is lost, and a node that a try_get
      is about to return is in the hands of that try_get alone. */
  lemma Safety(b: seq<State>, es: seq<Event>, i: nat) returns (list: seq<Node>)
    requires Run(b, es) && i < |b|
    ensures Chain(b[i].head, b[i].next, list)
    ensures forall n :: n in b[i].refs ==> CountExact(b[i], list, n)
    ensures forall n :: n in b[i].refs && n !in b[i].out && (forall t :: !Taking(b[i], n, t)) ==> NotLost(b[i], list, n)
    ensures forall n, t :: Taking(b[i], n, t) ==> TakenSafely(b[i], list, n, t)
  {
    var v := RunKeepsInv(b, es, i);
    list := v.list;
    forall n | n in b[i].refs ensures CountExact(b[i], list, n) { CountIsExact(b[i], v, n); }
    forall n | n in b[i].refs && n !in b[i].out && (forall t :: !Taking(b[i], n, t)) ensures NotLost(b[i], list, n) {
      NodeNotLost(b[i], v, n);
    }
    forall n, t | Taking(b[i], n, t) ensures TakenSafely(b[i], list, n, t) { TakenOnce(b[i], v, n, t); }
  }

  ghost predicate AllIdle(s: State) { forall t :: t in s.pcs ==> s.pcs[t].Idle? }

  lemma IdleLoc(s: State, v: View, n: Node)
    requires Inv(s, v) && AllIdle(s) && n in s.refs
    ensures v.loc[n].Out? || v.loc[n].Listed?
  {
    assert Holders(s.pcs, n) == {};
    assert Owned(s.pcs, v.loc[n], n) && WordFits(s.refs[n], v.loc[n], {});
  }

  lemma ChainInMemory(p: Ptr, next: map<Node, Ptr>, list: seq<Node>)
    requires Chain(p, next, list)
    ensures forall n :: n in list ==> n in next
    decreases list
  {
    if list != [] {
      ChainInMemory(next[list[0]], next, list[1..]);
      assert list == [list[0]] + list[1..];
    }
  }

  /** When no operation is in flight, the nodes reachable from the head are exactly the free ones. */
  lemma Quiescent(b: seq<State>, es: seq<Event>, i: nat) returns (list: seq<Node>)
    requires Run(b, es) && i < |b| && AllIdle(b[i])
    ensures Chain(b[i].head, b[i].next, list)
    ensures forall n :: n in list <==> n in b[i].refs && n !in b[i].out
  {
    var v := RunKeepsInv(b, es, i);
    list := v.list;
    ChainInMemory(b[i].head, b[i].next, list);
    forall n ensures n in list <==> n in b[i].refs && n !in b[i].out {
      if n in b[i].refs { IdleLoc(b[i], v, n); }
    }
  }

  /** freeListNext of a node never changes while a try_get holds a reference to it. */
  lemma NextIsStable(b: seq<State>, es: seq<Event>, i: nat, n: Node)
    requires Run(b, es) && i < |es| && n in b[i].next && Holders(b[i].pcs, n) != {}
    ensures n in b[i + 1].next && b[i + 1].next[n] == b[i].next[n]
  {
    var v := RunKeepsInv(b, es, i);
    var s, t, op := b[i], es[i].t, es[i].op;
    assert Step(b[i], es[i], b[i + 1]);
    if op.Continue? && s.pcs[t].LinkNext? {
      assert Focused(s.pcs[t]) && WordFits(s.refs[n], v.loc[n], Holders(s.pcs, n));
    }
  }

  /** The event in which a try_get returns n, and the event in which add(n) starts. */
  predicate Returns(s: State, e: Event, n: Node) { Taking(s, n, e.t) && e.op == Continue }

  predicate Adds(e: Event, n: Node) { e.op == StartAdd(n) }

  lemma {:induction false} StaysOut(b: seq<State>, es: seq<Event>, n: Node, i: nat, j: nat)
    requires Run(b, es) && i <= j < |b| && n in b[i].out
    requires forall k :: i <= k < j ==> !Adds(es[k], n)
    ensures n in b[j].out
    decreases j
  {
    if i < j {
      StaysOut(b, es, n, i, j - 1);
      assert Step(b[j - 1], es[j - 1], b[j]) && !Adds(es[j - 1], n);
    }
  }

  /** Over every run: between two try_gets that return the same node there is an add of it. */
  lemma AlternateGetAdd(b: seq<State>, es: seq<Event>, n: Node, i: nat, j: nat)
    requires Run(b, es) && i < j < |es|
    requires Returns(b[i], es[i], n) && Returns(b[j], es[j], n)
    ensures exists k :: i < k < j && Adds(es[k], n)
  {
    assert Step(b[i], es[i], b[i + 1]);
    if forall k :: i + 1 <= k < j ==> !Adds(es[k], n) {
      StaysOut(b, es, n, i + 1, j);
      var v := RunKeepsInv(b, es, j);
      TakenOnce(b[j], v, n, es[j].t);
      assert false;
    }
  }

  // ---------------------------------------------------------------------------------------------
  // What a try_get returns
  // ---------------------------------------------------------------------------------------------

  /** Inside a try_get, which may be linking a node for somebody else. */
  predicate Getting(pc: Pc) {
    match pc
    case Idle => false
    case AddFlag(_) => false
    case LinkLoad(_, k) => k.Resume?
    case LinkNext(_, _, k) => k.Resume?
    case LinkRefs(_, _, k) => k.Resume?
    case LinkCas(_, _, k) => k.Resume?
    case LinkUndo(_, _, k) => k.Resume?
    case _ => true
  }

  /** The local variable head of try_get is null, read earlier. */
  predicate KnowsNull(pc: Pc) {
    match pc
    case LinkLoad(_, k) => k == Resume(Null)
    case LinkNext(_, _, k) => k == Resume(Null)
    case LinkRefs(_, _, k) => k == Resume(Null)
    case LinkCas(_, _, k) => k == Resume(Null)
    case LinkUndo(_, _, k) => k == Resume(Null)
    case GetDrop(_, cur) => cur.Null?
    case _ => false
  }

  /** Step j of thread t reads the head as null, and t stays inside its try_get until state i. */
  predicate ReadsNull(b: seq<State>, es: seq<Event>, t: Tid, j: nat, i: nat)
    requires |b| == |es| + 1
  {
    && j <= i < |es| && es[j] == Event(t, Continue) && b[j].head.Null?
    && (forall k :: j <= k <= i ==> t in b[k].pcs && Getting(b[k].pcs[t]))
    && (b[j].pcs[t].GetLoad? || b[j].pcs[t].GetCas?)
  }

  lemma NullStep(s: State, e: Event, s': State, t: Tid)
    requires Step(s, e, s') && t in s'.pcs && KnowsNull(s'.pcs[t])
    ensures t in s.pcs && Getting(s.pcs[t])
    ensures KnowsNull(s.pcs[t]) || (e == Event(t, Continue) && s.head.Null? && s.pcs[t].GetCas?)
  {
  }

  lemma {:induction false} NullWasRead(b: seq<State>, es: seq<Event>, t: Tid, i: nat) returns (j: nat)
    requires Run(b, es) && i < |es| && t in b[i].pcs && KnowsNull(b[i].pcs[t])
    ensures ReadsNull(b, es, t, j, i)
    decreases i
  {
    assert i > 0;
    assert Step(b[i - 1], es[i - 1], b[i]);
    NullStep(b[i - 1], es[i - 1], b[i], t);
    j := i - 1;
    if KnowsNull(b[i - 1].pcs[t]) { j := NullWasRead(b, es, t, i - 1); }
  }

  lemma EmptyStep(s: State, t: Tid, s': State)
    requires Step(s, Event(t, Continue), s') && Getting(s.pcs[t]) && !s.pcs[t].GetRelease? && s'.pcs[t].Idle?
    ensures KnowsNull(s.pcs[t]) || (s.pcs[t].GetLoad? && s.head.Null?)
    ensures s'.out == s.out
  {
  }

  /** In every run, a try_get that ends without a node has read the head as null while it ran. */
  lemma EmptyMeansNull(b: seq<State>, es: seq<Event>, t: Tid, i: nat) returns (j: nat)
    requires Run(b, es) && i < |es| && es[i] == Event(t, Continue) && Getting(b[i].pcs[t])
    requires b[i + 1].pcs[t].Idle? && b[i + 1].out == b[i].out
    ensures ReadsNull(b, es, t, j, i)
  {
    var v := RunKeepsInv(b, es, i);
    assert Step(b[i], es[i], b[i + 1]);
    if b[i].pcs[t].GetRelease? { TakenOnce(b[i], v, b[i].pcs[t].n, t); }
    EmptyStep(b[i], t, b[i + 1]);
    j := i;
    if KnowsNull(b[i].pcs[t]) { j := NullWasRead(b, es, t, i); }
  }

  // ---------------------------------------------------------------------------------------------
  // One thread alone
  // ---------------------------------------------------------------------------------------------

  /** Thread t alone performs up to k instructions. */
  function Solo(s: State, t: Tid, k: nat): State
    decreases k
  { if k == 0 || !Ready(s, t) || s.pcs[t].Idle? then s else Solo(Perform(s, t), t, k - 1) }

  /** The state s with thread t at pc. */
  function Having(s: State, t: Tid, pc: Pc): State { s.(pcs := s.pcs[t := pc]) }

  lemma OneStep(s: State, t: Tid, pc: Pc, s': State, pc': Pc, k: nat)
    requires t in s.pcs && s'.pcs == s.pcs && Ready(Having(s, t, pc), t) && !pc.Idle?
    requires Perform(Having(s, t, pc), t) == s'.(pcs := s.pcs[t := pc][t := pc'])
    ensures Solo(Having(s, t, pc), t, k + 1) == Solo(Having(s', t, pc'), t, k)
  {
    assert s.pcs[t := pc][t := pc'] == s.pcs[t := pc'];
  }

  lemma IdleAgain(s: State, t: Tid, k: nat)
    requires t in s.pcs && s.pcs[t].Idle?
    ensures Solo(Having(s, t, Idle), t, k) == s
  {
    assert s.pcs[t := Idle] == s.pcs;
  }

  lemma HeadIsListed(s: State, v: View, n: Node)
    requires Inv(s, v) && s.head == At(n)
    ensures n in s.refs && v.loc[n].Listed? && 1 <= s.refs[n] == 1 + |Holders(s.pcs, n)| < FLAG
  {
    SubsetSize(Holders(s.pcs, n), s.pcs.Keys);
  }

  /** The head, its count, and the reference. */
  lemma GetAcquires(s: State, t: Tid, n: Node, k: nat)
    requires Ready(s, t) && s.head == At(n) && n in s.refs && 0 < s.refs[n] < FLAG
    ensures Solo(Having(s, t, GetLoad), t, k + 3) == Solo(Having(s.(refs := s.refs[n := s.refs[n] + 1]), t, GetNext(n)), t, k)
  {
    OneStep(s, t, GetLoad, s, GetRefs(n), k + 2);
    OneStep(s, t, GetRefs(n), s, GetAcquire(n, s.refs[n]), k + 1);
    OneStep(s, t, GetAcquire(n, s.refs[n]), s.(refs := s.refs[n := s.refs[n] + 1]), GetNext(n), k);
  }

  /** The successor, the compare_exchange of the head, and the return. */
  lemma GetUnlinks(s: State, t: Tid, n: Node, k: nat)
    requires Ready(s, t) && s.head == At(n) && n in s.refs && 1 < s.refs[n] <= FLAG && PtrIn(s.next[n], s.refs.Keys)
    ensures Solo(Having(s, t, GetNext(n)), t, k + 3) ==
            Solo(Having(s.(head := s.next[n], refs := s.refs[n := s.refs[n] - 2], out := s.out + {n}), t, Idle), t, k)
  {
    OneStep(s, t, GetNext(n), s, GetCas(n, s.next[n]), k + 2);
    var s' := s.(head := s.next[n]);
    OneStep(s, t, GetCas(n, s.next[n]), s', GetRelease(n), k + 1);
    OneStep(s', t, GetRelease(n), s'.(refs := s.refs[n := s.refs[n] - 2], out := s.out + {n}), Idle, k);
  }

  lemma GetRuns(s: State, t: Tid, n: Node, k: nat)
    requires Ready(s, t) && s.pcs[t].Idle? && s.head == At(n) && n in s.refs && 0 < s.refs[n] < FLAG
    requires PtrIn(s.next[n], s.refs.Keys) && k >= 6
    ensures Solo(Having(s, t, GetLoad), t, k) ==
            s.(head := s.next[n], refs := s.refs[n := s.refs[n] - 1], out := s.out + {n})
  {
    var s1 := s.(refs := s.refs[n := s.refs[n] + 1]);
    var refs := s.refs[n := s.refs[n] - 1];
    assert s1.refs[n := s1.refs[n] - 2] == refs;
    GetAcquires(s, t, n, k - 3);
    GetUnlinks(s1, t, n, k - 6);
    IdleAgain(s.(head := s.next[n], refs := refs, out := s.out + {n}), t, k - 6);
  }

  /** A try_get that runs alone, whatever the other threads are in the middle of, takes the node at the
      head, and leaves its successor there. */
  lemma GetAlone(s: State, v: View, t: Tid, n: Node, k: nat)
    requires Inv(s, v) && Enabled(s, t, StartGet) && s.head == At(n) && k >= 6
    ensures Ready(s, t) && n in s.next
    ensures Solo(Next(s, t, StartGet), t, k) ==
            s.(head := s.next[n], refs := s.refs[n := s.refs[n] - 1], out := s.out + {n})
  {
    HeadIsListed(s, v, n);
    GetRuns(s, t, n, k);
  }

  /** On an empty list it changes nothing. */
  lemma GetAloneFromEmpty(s: State, v: View, t: Tid, k: nat)
    requires Inv(s, v) && Enabled(s, t, StartGet) && s.head.Null? && k >= 1
    ensures Ready(s, t) && Solo(Next(s, t, StartGet), t, k) == s
  {
    OneStep(s, t, GetLoad, s, Idle, k - 1);
    IdleAgain(s, t, k - 1);
  }

  /** add_knowing_refcount_is_zero without interference. */
  lemma LinkAlone(s: State, t: Tid, n: Node, k: nat)
    requires Ready(s, t) && n in s.refs && PtrIn(s.head, s.refs.Keys)
    ensures Solo(Having(s, t, LinkLoad(n, Return)), t, k + 4) ==
            Solo(Having(s.(head := At(n), next := s.next[n := s.head], refs := s.refs[n := 1]), t, Idle), t, k)
  {
    var s1 := s.(next := s.next[n := s.head]);
    var s2 := s1.(refs := s.refs[n := 1]);
    OneStep(s, t, LinkLoad(n, Return), s, LinkNext(n, s.head, Return), k + 3);
    OneStep(s, t, LinkNext(n, s.head, Return), s1, LinkRefs(n, s.head, Return), k + 2);
    OneStep(s1, t, LinkRefs(n, s.head, Return), s2, LinkCas(n, s.head, Return), k + 1);
    OneStep(s2, t, LinkCas(n, s.head, Return), s2.(head := At(n)), Idle, k);
  }

  lemma CallersNode(s: State, v: View, n: Node)
    requires Inv(s, v) && n in s.out
    ensures n in s.refs && s.refs[n] == |Holders(s.pcs, n)| < FLAG - 1 && PtrIn(s.head, s.refs.Keys)
  {
    SubsetSize(Holders(s.pcs, n), s.pcs.Keys);
    assert WordFits(s.refs[n], v.loc[n], Holders(s.pcs, n));
  }

  /** What an add that runs alone leaves behind. */
  function Added(s: State, n: Node): State
    requires n in s.refs
  {
    if s.refs[n] == 0 then s.(head := At(n), next := s.next[n := s.head], refs := s.refs[n := 1], out := s.out - {n})
    else s.(refs := s.refs[n := s.refs[n] + FLAG], out := s.out - {n})
  }

  lemma AddRuns(s: State, t: Tid, n: Node, k: nat)
    requires Ready(s, t) && s.pcs[t].Idle? && n in s.refs && 0 <= s.refs[n] < FLAG && PtrIn(s.head, s.refs.Keys) && k >= 5
    ensures Solo(Having(s.(out := s.out - {n}), t, AddFlag(n)), t, k) == Added(s, n)
  {
    var s0 := s.(out := s.out - {n});
    var s1 := s0.(refs := s.refs[n := s.refs[n] + FLAG]);
    OneStep(s0, t, AddFlag(n), s1, if s.refs[n] == 0 then LinkLoad(n, Return) else Idle, k - 1);
    if s.refs[n] == 0 {
      LinkAlone(s1, t, n, k - 5);
      assert s1.refs[n := 1] == s.refs[n := 1];
      IdleAgain(Added(s, n), t, k - 5);
    } else {
      IdleAgain(s1, t, k - 1);
    }
  }

  /** An add that runs alone puts the node at the head, or, if a try_get holds a reference to it, sets the
      flag that makes the last of them add it. */
  lemma AddAlone(s: State, v: View, t: Tid, n: Node, k: nat)
    requires Inv(s, v) && Enabled(s, t, StartAdd(n)) && k >= 5
    ensures Ready(s, t) && n in s.refs
    ensures Solo(Next(s, t, StartAdd(n)), t, k) == Added(s, n)
  {
    CallersNode(s, v, n);
    AddRuns(s, t, n, k);
  }

  predicate Low(s: State, n: Node) { n in s.refs && s.refs[n] < FLAG }

  /** How many instructions a try_get that resumes at p may still need after n has been linked. */
  function ResumeRank(s: State, n: Node, k: Cont): nat {
    if k.Return? || k.head.Null? then 0
    else if k.head.node != n && Low(s, k.head.node) then 10 else 19
  }

  /** The same for a try_get that works on n: it succeeds when n is still the head. */
  function HeadRank(s: State, n: Node): nat {
    if s.head == At(n) then 0 else if Low(s, n) then 5 else 14
  }

  /** An upper bound on the instructions a thread at pc needs when it runs alone. */
  function Rank(s: State, pc: Pc): nat {
    match pc
    case Idle => 0
    case AddFlag(_) => 5
    case LinkLoad(n, k) => 4 + ResumeRank(s, n, k)
    case LinkNext(n, h, k) => (if h == s.head then 3 else 7) + ResumeRank(s, n, k)
    case LinkRefs(n, h, k) => (if h == s.head then 2 else 6) + ResumeRank(s, n, k)
    case LinkCas(n, h, k) => (if h == s.head then 1 else 5) + ResumeRank(s, n, k)
    case LinkUndo(n, h, k) => (if h == s.head then 4 else 8) + ResumeRank(s, n, k)
    case GetLoad => 6
    case GetRefs(n) => 5 + HeadRank(s, n)
    case GetAcquire(n, refs) => if n in s.refs && s.refs[n] == refs then 4 + HeadRank(s, n) else 7
    case GetNext(n) => 3 + HeadRank(s, n)
    case GetCas(n, _) => 2 + HeadRank(s, n)
    case GetRelease(_) => 1
    case GetDrop(n, cur) => if cur != s.head then 24 else if Low(s, n) then 6 else 15
  }

  /** The head is a referenced node without flag, and the word a thread is about to increment has room. */
  predicate Roomy(s: State, t: Tid)
    requires Ready(s, t)
  {
    var pc := s.pcs[t];
    && (s.head.At? ==> s.head.node in s.refs && 1 <= s.refs[s.head.node] < FLAG)
    && (pc.GetAcquire? ==> 0 <= s.refs[pc.n] < FLAG - 1 || FLAG <= s.refs[pc.n] < WORD - 1)
  }

  lemma InvRoomy(s: State, v: View, t: Tid)
    requires Inv(s, v) && t in s.pcs
    ensures Ready(s, t) && Roomy(s, t)
  {
    if s.head.At? { HeadIsListed(s, v, s.head.node); }
    var pc := s.pcs[t];
    if pc.GetAcquire? {
      assert t !in Holders(s.pcs, pc.n);
      SubsetSize(Holders(s.pcs, pc.n), s.pcs.Keys - {t});
      assert WordFits(s.refs[pc.n], v.loc[pc.n], Holders(s.pcs, pc.n));
    }
  }

  lemma AddLowers(s: State, t: Tid)
    requires Ready(s, t) && Roomy(s, t) && Adding(s.pcs[t])
    ensures t in Perform(s, t).pcs && Rank(Perform(s, t), Perform(s, t).pcs[t]) < Rank(s, s.pcs[t])
  {
  }

  lemma GetLowers(s: State, t: Tid)
    requires Ready(s, t) && Roomy(s, t) && !s.pcs[t].Idle? && !Adding(s.pcs[t])
    ensures t in Perform(s, t).pcs && Rank(Perform(s, t), Perform(s, t).pcs[t]) < Rank(s, s.pcs[t])
  {
  }

  lemma OwnStep(s: State, v: View, t: Tid) returns (s': State, v': View)
    requires Inv(s, v) && t in s.pcs && !s.pcs[t].Idle?
    ensures Ready(s, t) && s' == Perform(s, t) && Inv(s', v')
    ensures t in s'.pcs && Rank(s', s'.pcs[t]) < Rank(s, s.pcs[t])
  {
    InvRoomy(s, v, t);
    if Adding(s.pcs[t]) { AddLowers(s, t); } else { GetLowers(s, t); }
    s' := Perform(s, t);
    v' := EventKeepsInv(s, v, Event(t, Continue), s');
  }

  lemma RunOwnStep(b: seq<State>, es: seq<Event>, t: Tid) returns (s: State)
    requires Run(b, es) && t in b[|es|].pcs && !b[|es|].pcs[t].Idle?
    ensures Run(b + [s], es + [Event(t, Continue)])
    ensures t in s.pcs && Rank(s, s.pcs[t]) < Rank(b[|es|], b[|es|].pcs[t])
  {
    var v := RunKeepsInv(b, es, |es|);
    var v';
    s, v' := OwnStep(b[|es|], v, t);
    RunExtends(b, es, Event(t, Continue), s);
  }

  /** The events es' are es and then only instructions of thread t. */
  predicate OnlyThen(es: seq<Event>, es': seq<Event>, t: Tid) {
    es <= es' && forall i :: |es| <= i < |es'| ==> es'[i] == Event(t, Continue)
  }

  /** From every state of every run, a thread that goes on alone ends its operation, within 27 instructions. */
  lemma AloneEnds(b: seq<State>, es: seq<Event>, t: Tid) returns (b': seq<State>, es': seq<Event>)
    requires Run(b, es) && t in b[|es|].pcs
    ensures Run(b', es') && b <= b' && OnlyThen(es, es', t) && |es'| <= |es| + 27
    ensures t in b'[|es'|].pcs && b'[|es'|].pcs[t].Idle?
  {
    b', es' := b, es;
    while !b'[|es'|].pcs[t].Idle?
      invariant Run(b', es') && b <= b' && OnlyThen(es, es', t) && t in b'[|es'|].pcs
      invariant |es'| + Rank(b'[|es'|], b'[|es'|].pcs[t]) <= |es| + 27
      decreases Rank(b'[|es'|], b'[|es'|].pcs[t])
    {
      var s := RunOwnStep(b', es', t);
      b', es' := b' + [s], es' + [Event(t, Continue)];
    }
  }

  // ---------------------------------------------------------------------------------------------
  // The free list in place
  // ---------------------------------------------------------------------------------------------

  /** The shared words and the threads' positions as mutable state.  Each method executes one atomic
      instruction of the corresponding source function; a scheduler may call them in any order. */
  class FreeListMemory {
    var freeListHead: Ptr
    var freeListRefs: map<Node, int>
    var freeListNext: map<Node, Ptr>
    var pcs: map<Tid, Pc>
    var out: set<Node>

    ghost function Snapshot(): State
      reads this
    {
      State(freeListHead, freeListRefs, freeListNext, pcs, out)
    }

    constructor (nodes: set<Node>, threads: set<Tid>)
      requires |threads| < FLAG - 1
      ensures Initial(Snapshot()) && out == nodes && pcs.Keys == threads
    {
      freeListHead := Null;
      freeListRefs := map n | n in nodes :: 0;
      freeListNext := map n | n in nodes :: Null;
      pcs := map t | t in threads :: Idle;
      out := nodes;
      new;
      assert pcs.Keys == threads && freeListRefs.Keys == freeListNext.Keys == nodes;
    }

    /** The next instruction of add and add_knowing_refcount_is_zero. */
    method AddStep(t: Tid)
      requires Ready(Snapshot(), t) && Adding(pcs[t])
      modifies this
      ensures Step(old(Snapshot()), Event(t, Continue), Snapshot())
    {
      match pcs[t] {
        case AddFlag(n) =>
          var prev := freeListRefs[n];
          freeListRefs := freeListRefs[n := Wrap(prev + FLAG)];
          pcs := pcs[t := if prev == 0 then LinkLoad(n, Return) else Idle];
        case LinkLoad(n, k) =>
          pcs := pcs[t := LinkNext(n, freeListHead, k)];
        case LinkNext(n, h, k) =>
          freeListNext := freeListNext[n := h];
          pcs := pcs[t := LinkRefs(n, h, k)];
        case LinkRefs(n, h, k) =>
          freeListRefs := freeListRefs[n := 1];
          pcs := pcs[t := LinkCas(n, h, k)];
        case LinkCas(n, h, k) =>
          if freeListHead == h {
            freeListHead := At(n);
            pcs := pcs[t := Finish(k)];
          } else {
            pcs := pcs[t := LinkUndo(n, freeListHead, k)];
          }
        case LinkUndo(n, h, k) =>
          var prev := freeListRefs[n];
          freeListRefs := freeListRefs[n := Wrap(prev + FLAG - 1)];
          pcs := pcs[t := if prev == 1 then LinkNext(n, h, k) else Finish(k)];
      }
    }

    /** The next instruction of try_get. */
    method GetStep(t: Tid)
      requires Ready(Snapshot(), t) && !pcs[t].Idle? && !Adding(pcs[t])
      modifies this
      ensures Step(old(Snapshot()), Event(t, Continue), Snapshot())
    {
      match pcs[t] {
        case GetLoad =>
          pcs := pcs[t := LoopHead(freeListHead)];
        case GetRefs(n) =>
          var refs := freeListRefs[n];
          pcs := pcs[t := if Masked(refs) == 0 then GetLoad else GetAcquire(n, refs)];
        case GetAcquire(n, refs) =>
          if freeListRefs[n] == refs {
            freeListRefs := freeListRefs[n := Wrap(refs + 1)];
            pcs := pcs[t := GetNext(n)];
          } else {
            pcs := pcs[t := GetLoad];
          }
        case GetNext(n) =>
          pcs := pcs[t := GetCas(n, freeListNext[n])];
        case GetCas(n, nx) =>
          if freeListHead == At(n) {
            freeListHead := nx;
            pcs := pcs[t := GetRelease(n)];
          } else {
            pcs := pcs[t := GetDrop(n, freeListHead)];
          }
        case GetRelease(n) =>
          freeListRefs := freeListRefs[n := Wrap(freeListRefs[n] - 2)];
          out := out + {n};
          pcs := pcs[t := Idle];
        case GetDrop(n, cur) =>
          var refs := freeListRefs[n];
          freeListRefs := freeListRefs[n := Wrap(refs - 1)];
          pcs := pcs[t := if refs == FLAG + 1 then LinkLoad(n, Resume(cur)) else LoopHead(cur)];
      }
    }

    /** One event of a schedule. */
    method Execute(e: Event)
      requires Ready(Snapshot(), e.t) && Enabled(Snapshot(), e.t, e.op)
      modifies this
      ensures Step(old(Snapshot()), e, Snapshot())
    {
      match e.op {
        case StartAdd(n) =>
          out := out - {n};
          pcs := pcs[e.t := AddFlag(n)];
        case StartGet =>
          pcs := pcs[e.t := GetLoad];
        case Continue =>
          if Adding(pcs[e.t]) { AddStep(e.t); } else { GetStep(e.t); }
      }
    }

    /** Any schedule of a fresh free list executes as a run of the protocol. */
    method Interleave(schedule: seq<Event>) returns (ghost b: seq<State>, ghost es: seq<Event>)
      requires Initial(Snapshot())
      modifies this
      ensures Run(b, es) && b[0] == old(Snapshot()) && b[|es|] == Snapshot()
    {
      b, es := [Snapshot()], [];
      for i := 0 to |schedule|
        invariant Run(b, es) && b[0] == old(Snapshot()) && b[|es|] == Snapshot()
      {
        var e := schedule[i];
        if e.t in pcs && (match e.op
          case StartAdd(n) => pcs[e.t].Idle? && n in out
          case StartGet => pcs[e.t].Idle?
          case Continue => !pcs[e.t].Idle?)
        {
          RunIsReady(b, es, e.t);
          Execute(e);
          RunExtends(b, es, e, Snapshot());
          b, es := b + [Snapshot()], es + [e];
        }
      }
    }
  }

  lemma RunIsReady(b: seq<State>, es: seq<Event>, t: Tid)
    requires Run(b, es) && t in b[|es|].pcs
    ensures Ready(b[|es|], t)
  {
    var v := RunKeepsInv(b, es, |es|);
  }

  lemma RunExtends(b: seq<State>, es: seq<Event>, e: Event, s: State)
    requires Run(b, es) && Step(b[|es|], e, s)
    ensures Run(b + [s], es + [e])
  {
    var b', es' := b + [s], es + [e];
    forall i {:trigger es'[i]} | 0 <= i < |es'| ensures Step(b'[i], es'[i], b'[i + 1]) {
      if i < |es| { assert es'[i] == es[i] && b'[i] == b[i] && b'[i + 1] == b[i + 1]; }
    }
  }
}
