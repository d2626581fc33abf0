/** The implicit producer's block index: a circular array of pointers to entries that maps block numbers
    to blocks.  The producer inserts at the tail, rewinds after a failure, and doubles the array when
    the next slot is occupied.  A consumer looks a block up through whatever header and tail it has
    read, however old they are.

    Block number q stands for the element indices q * BLOCK_SIZE .. q * BLOCK_SIZE + BLOCK_SIZE - 1;
    capacities are powers of two, so & (capacity - 1) is written % cap. */
module BlockIndex {
  import opened Modular

  type Block = nat
  type EntryId = nat

  datatype Key = Invalid | Base(q: nat)
  datatype Ptr = Null | At(b: Block)
  datatype Entry = Entry(key: Key, value: Ptr)

  /** index[i] points at an entry; entries are shared between a header and its successors. */
  datatype Header = Header(cap: nat, tail: nat, index: seq<EntryId>)

  /** All entries ever allocated and all headers ever published, the current one last. */
  datatype Index = Index(entries: seq<Entry>, headers: seq<Header>)

  predicate HeaderOk(h: Header, entries: nat) {
    h.cap > 0 && |h.index| == h.cap && h.tail < h.cap && forall i :: 0 <= i < h.cap ==> h.index[i] < entries
  }

  predicate WellFormed(ix: Index) {
    |ix.headers| > 0 && forall k :: 0 <= k < |ix.headers| ==> HeaderOk(ix.headers[k], |ix.entries|)
  }

  function Cur(ix: Index): Header
    requires |ix.headers| > 0
  { ix.headers[|ix.headers| - 1] }

  /** blockIndex->tail.store */
  function SetTail(ix: Index, tail: nat): Index
    requires |ix.headers| > 0
  {
    ix.(headers := ix.headers[|ix.headers| - 1 := Cur(ix).(tail := tail)])
  }

  /** idxEntry->key.store and idxEntry->value.store */
  function SetKey(ix: Index, e: EntryId, q: nat): Index
    requires e < |ix.entries|
  {
    ix.(entries := ix.entries[e := ix.entries[e].(key := Base(q))])
  }

  function SetValue(ix: Index, e: EntryId, value: Ptr): Index
    requires e < |ix.entries|
  {
    ix.(entries := ix.entries[e := ix.entries[e].(value := value)])
  }

  /** The slot after the tail, where insert_block_index_entry looks. */
  function NewTail(ix: Index): nat
    requires WellFormed(ix)
  { (Cur(ix).tail + 1) % Cur(ix).cap }

  predicate Vacant(ix: Index, e: EntryId)
    requires e < |ix.entries|
  { ix.entries[e].key.Invalid? || ix.entries[e].value.Null? }

  /** new_block_index: a header of twice the capacity, the old entries oldest first, then fresh ones.
      Only the key of a fresh entry is initialised; junk stands for whatever its value holds. */
  function Grow(ix: Index, junk: Ptr): Index
    requires WellFormed(ix)
  {
    var h, n := Cur(ix), |ix.entries|;
    var copied := seq(h.cap, i requires 0 <= i < h.cap => h.index[(h.tail + 1 + i) % h.cap]);
    var added := seq(h.cap, i requires 0 <= i => n + i);
    Index(ix.entries + seq(h.cap, _ => Entry(Invalid, junk)),
          ix.headers + [Header(2 * h.cap, h.cap - 1, copied + added)])
  }

  /** get_block_index_index_for_index, with the header and the tail read earlier and the key read now:
      the distance from the block at the tail is added to the tail. */
  function LookupSlot(h: Header, tail: nat, key: nat, q: nat): nat
    requires h.cap > 0
  { (tail + (q - key)) % h.cap }

  // ---------------------------------------------------------------------------------------------
  // The invariant
  // ---------------------------------------------------------------------------------------------

  /** History.  shift: a shift per header such that block q always uses slot (q + shift) % cap.
      ins: the number of blocks inserted and not rewound; the tail stands on the last of them.
      lo, hi: the blocks whose keys have been stored; of the last cap of them, those from lo on still
      stand in their slots.  ent: the entry of every block that is in use.  open: the entry, if any,
      that has been keyed and has not got its value yet. */
  datatype View = View(shift: seq<int>, ins: nat, lo: nat, hi: nat, ent: map<nat, EntryId>, open: set<EntryId>)

  function Slot(h: Header, c: int, q: int): nat
    requires h.cap > 0
  { (q + c) % h.cap }

  predicate Shaped(ix: Index, v: View) { WellFormed(ix) && |ix.headers| == |v.shift| }

  function EntryAt(ix: Index, v: View, k: nat, q: int): EntryId
    requires Shaped(ix, v) && k < |ix.headers|
  { ix.headers[k].index[Slot(ix.headers[k], v.shift[k], q)] }

  /** The entry that the current header uses for block q. */
  function CurEntry(ix: Index, v: View, q: int): EntryId
    requires Shaped(ix, v)
  { EntryAt(ix, v, |ix.headers| - 1, q) }

  /** Header k reaches the entry of block q. */
  predicate Sees(ix: Index, v: View, k: nat, q: nat)
    requires Shaped(ix, v) && k < |ix.headers| && q in v.ent
  { EntryAt(ix, v, k, q) == v.ent[q] }

  /** A key stands only where its block belongs, in every header that reaches the entry. */
  ghost predicate KeyPlaced(ix: Index, v: View, k: nat, i: nat)
    requires Shaped(ix, v) && k < |ix.headers| && i < ix.headers[k].cap
  {
    var key := ix.entries[ix.headers[k].index[i]].key;
    key.Base? ==> Cong(key.q + v.shift[k], i, ix.headers[k].cap)
  }

  /** The current header and header k agree, up to their shifts, about where an entry belongs. */
  ghost predicate Coherent(ix: Index, v: View, k: nat, i: nat, i': nat)
    requires Shaped(ix, v) && k < |ix.headers| && i < Cur(ix).cap && i' < ix.headers[k].cap
  {
    Cur(ix).index[i] == ix.headers[k].index[i'] ==>
      Cong(i - v.shift[|v.shift| - 1], i' - v.shift[k], ix.headers[k].cap)
  }

  ghost predicate AllCoherent(ix: Index, v: View)
    requires Shaped(ix, v)
  {
    && (forall k :: 0 <= k < |ix.headers| ==> Cur(ix).cap % ix.headers[k].cap == 0)
    && forall k, i, i' :: 0 <= k < |ix.headers| && 0 <= i < Cur(ix).cap && 0 <= i' < ix.headers[k].cap ==>
         Coherent(ix, v, k, i, i')
  }

  ghost predicate AllPlaced(ix: Index, v: View)
    requires Shaped(ix, v)
  {
    forall k, i :: 0 <= k < |ix.headers| && 0 <= i < ix.headers[k].cap ==> KeyPlaced(ix, v, k, i)
  }

  predicate TailKeyed(ix: Index, k: nat)
    requires WellFormed(ix) && k < |ix.headers|
  { ix.entries[ix.headers[k].index[ix.headers[k].tail]].key.Base? }

  predicate OldTailsKeyed(ix: Index)
    requires WellFormed(ix)
  { forall k :: 0 <= k < |ix.headers| - 1 ==> TailKeyed(ix, k) }

  /** The slots of the last cap blocks before hi carry exactly their own keys; the others are fresh. */
  predicate Keyed(ix: Index, v: View, q: int)
    requires Shaped(ix, v)
  { ix.entries[CurEntry(ix, v, q)].key == if q >= v.lo then Base(q) else Invalid }

  ghost predicate AllKeyed(ix: Index, v: View)
    requires Shaped(ix, v)
  { forall q :: v.hi - Cur(ix).cap <= q < v.hi ==> Keyed(ix, v, q) }

  predicate InUse(ix: Index, v: View, q: nat)
    requires Shaped(ix, v) && q in v.ent
  {
    && v.lo <= q < v.hi && v.hi - Cur(ix).cap <= q
    && CurEntry(ix, v, q) == v.ent[q] && ix.entries[v.ent[q]].value.At? && v.ent[q] !in v.open
  }

  ghost predicate AllInUse(ix: Index, v: View)
    requires Shaped(ix, v)
  { forall q :: q in v.ent ==> InUse(ix, v, q) }

  /** An entry with a key and a value belongs to a block in use. */
  ghost predicate Accounted(ix: Index, v: View, e: EntryId)
    requires e < |ix.entries|
  {
    !Vacant(ix, e) && e !in v.open ==> ix.entries[e].key.q in v.ent && v.ent[ix.entries[e].key.q] == e
  }

  ghost predicate AllAccounted(ix: Index, v: View) { forall e :: 0 <= e < |ix.entries| ==> Accounted(ix, v, e) }

  ghost predicate Inv(ix: Index, v: View) {
    && Shaped(ix, v)
    && v.lo <= v.ins <= v.hi && v.hi - Cur(ix).cap <= v.ins
    && Cur(ix).tail == Slot(Cur(ix), v.shift[|v.shift| - 1], v.ins - 1)
    && AllCoherent(ix, v)
    && AllPlaced(ix, v)
    && OldTailsKeyed(ix)
    && AllKeyed(ix, v)
    && AllInUse(ix, v)
    && AllAccounted(ix, v)
  }

  // ---------------------------------------------------------------------------------------------
  // Lookup
  // ---------------------------------------------------------------------------------------------

  /** The lookup is right whatever header the consumer holds and whichever tail it has read from it,
      as long as that header reaches the block: the slot it computes is the slot of block q. */
  lemma LookupIsRight(ix: Index, v: View, k: nat, tail: nat, q: nat)
    requires Inv(ix, v) && k < |ix.headers| && q in v.ent && Sees(ix, v, k, q)
    requires tail < ix.headers[k].cap && ix.entries[ix.headers[k].index[tail]].key.Base?
    ensures var slot := LookupSlot(ix.headers[k], tail, ix.entries[ix.headers[k].index[tail]].key.q, q);
            && slot == Slot(ix.headers[k], v.shift[k], q)
            && ix.headers[k].index[slot] == v.ent[q]
            && ix.entries[v.ent[q]].key == Base(q) && ix.entries[v.ent[q]].value.At?
  {
    var h, key := ix.headers[k], ix.entries[ix.headers[k].index[tail]].key.q;
    assert KeyPlaced(ix, v, k, tail) && InUse(ix, v, q) && Keyed(ix, v, q);
    CongSym(key + v.shift[k], tail, h.cap);
    CongAdd(tail, key + v.shift[k], q - key, h.cap);
    CongSameMod(tail + (q - key), q + v.shift[k], h.cap);
  }

  /** The tail a consumer reads while an inserted block q is in use always carries a key. */
  lemma TailIsKeyed(ix: Index, v: View, k: nat, q: nat)
    requires Inv(ix, v) && k < |ix.headers| && q in v.ent && q < v.ins
    ensures TailKeyed(ix, k)
  {
    assert InUse(ix, v, q);
    if k == |ix.headers| - 1 { assert Keyed(ix, v, v.ins - 1); }
  }

  /** A header published while q was in use, or before, keeps reaching it; the current one does. */
  lemma CurSees(ix: Index, v: View, q: nat)
    requires Inv(ix, v) && q in v.ent
    ensures Sees(ix, v, |ix.headers| - 1, q)
  {
    assert InUse(ix, v, q);
  }

  // ---------------------------------------------------------------------------------------------
  // The producer's stores
  // ---------------------------------------------------------------------------------------------

  /** Two blocks within cap of each other never share a slot. */
  lemma SlotsDiffer(h: Header, c: int, p: int, q: int)
    requires h.cap > 0 && p < q < p + h.cap
    ensures Slot(h, c, p) != Slot(h, c, q)
  {
    if Slot(h, c, p) == Slot(h, c, q) {
      CongMod(p + c, h.cap);
      CongMod(q + c, h.cap);
      CongTrans(p + c, (p + c) % h.cap, q + c, h.cap);
      CongSym(p + c, q + c, h.cap);
      var k := CongTo(q + c, p + c, h.cap);
      MulZero(h.cap, k);
    }
  }

  lemma SlotShift(h: Header, c: int, p: int)
    requires h.cap > 0
    ensures Slot(h, c, p + h.cap) == Slot(h, c, p)
    ensures (Slot(h, c, p) + 1) % h.cap == Slot(h, c, p + 1)
    ensures (Slot(h, c, p) - 1) % h.cap == Slot(h, c, p - 1)
  {
    CongFrom(p + h.cap + c, p + c, h.cap, 1);
    CongSameMod(p + h.cap + c, p + c, h.cap);
    CongMod(p + c, h.cap);
    CongAdd(Slot(h, c, p), p + c, 1, h.cap);
    CongSameMod(Slot(h, c, p) + 1, p + c + 1, h.cap);
    CongAdd(Slot(h, c, p), p + c, -1, h.cap);
    CongSameMod(Slot(h, c, p) - 1, p + c - 1, h.cap);
  }

  /** Entries of different blocks of the window differ. */
  lemma EntriesDiffer(ix: Index, v: View, p: int, q: int)
    requires Shaped(ix, v) && AllCoherent(ix, v) && p < q < p + Cur(ix).cap
    ensures CurEntry(ix, v, p) != CurEntry(ix, v, q)
  {
    var h, j, c := Cur(ix), |ix.headers| - 1, v.shift[|v.shift| - 1];
    var i, i' := Slot(h, c, p), Slot(h, c, q);
    SlotsDiffer(h, c, p, q);
    assert Coherent(ix, v, j, i, i');
    if h.index[i] == h.index[i'] {
      CongAdd(i - c, i' - c, c, h.cap);
      CongEqual(i, i', h.cap);
    }
  }

  /** insert_block_index_entry looks at the entry of block ins. */
  lemma NewTailIsNext(ix: Index, v: View)
    requires Inv(ix, v)
    ensures NewTail(ix) == Slot(Cur(ix), v.shift[|v.shift| - 1], v.ins)
    ensures Cur(ix).index[NewTail(ix)] == CurEntry(ix, v, v.ins)
  {
    SlotShift(Cur(ix), v.shift[|v.shift| - 1], v.ins - 1);
  }

  lemma KeyStaysPlaced(ix: Index, v: View, k: nat, i: nat)
    requires Inv(ix, v) && k < |ix.headers| && i < ix.headers[k].cap
    requires ix.headers[k].index[i] == CurEntry(ix, v, v.ins)
    ensures Cong(v.ins + v.shift[k], i, ix.headers[k].cap)
  {
    var h, c := Cur(ix), v.shift[|v.shift| - 1];
    var s, m := Slot(h, c, v.ins), ix.headers[k].cap;
    assert Coherent(ix, v, k, s, i);
    CongMod(v.ins + c, h.cap);
    CongDivisor(v.ins + c, s, m, h.cap);
    CongAdd(v.ins + c, s, v.shift[k] - c, m);
    CongAdd(s - c, i - v.shift[k], v.shift[k], m);
    CongTrans(v.ins + v.shift[k], s - c + v.shift[k], i, m);
  }

  function KeyView(v: View, e: EntryId): View { v.(hi := if v.ins == v.hi then v.hi + 1 else v.hi, open := {e}) }

  /** Storing the key of the next block into its vacant entry. */
  lemma StoreKeyKeepsInv(ix: Index, v: View, e: EntryId)
    requires Inv(ix, v) && v.open == {} && e == CurEntry(ix, v, v.ins) && e < |ix.entries| && Vacant(ix, e)
    ensures Inv(SetKey(ix, e, v.ins), KeyView(v, e))
  {
    var ix', v' := SetKey(ix, e, v.ins), KeyView(v, e);
    forall k, i, i' | 0 <= k < |ix'.headers| && 0 <= i < Cur(ix').cap && 0 <= i' < ix'.headers[k].cap
      ensures Coherent(ix', v', k, i, i')
    { assert Coherent(ix, v, k, i, i'); }
    forall k, i | 0 <= k < |ix'.headers| && 0 <= i < ix'.headers[k].cap ensures KeyPlaced(ix', v', k, i) {
      if ix.headers[k].index[i] == e { KeyStaysPlaced(ix, v, k, i); } else { assert KeyPlaced(ix, v, k, i); }
    }
    forall k | 0 <= k < |ix'.headers| - 1 ensures TailKeyed(ix', k) { assert TailKeyed(ix, k); }
    StoreKeyKeyed(ix, v, e);
    StoreKeyInUse(ix, v, e);
    forall x | 0 <= x < |ix'.entries| ensures Accounted(ix', v', x) { assert Accounted(ix, v, x); }
  }

  lemma StoreKeyKeyed(ix: Index, v: View, e: EntryId)
    requires Inv(ix, v) && e == CurEntry(ix, v, v.ins) && e < |ix.entries|
    ensures AllKeyed(SetKey(ix, e, v.ins), KeyView(v, e))
  {
    var ix', v', n := SetKey(ix, e, v.ins), KeyView(v, e), Cur(ix).cap;
    forall q | v'.hi - n <= q < v'.hi ensures Keyed(ix', v', q) {
      if q != v.ins {
        assert Keyed(ix, v, q);
        if q < v.ins { EntriesDiffer(ix, v, q, v.ins); } else { EntriesDiffer(ix, v, v.ins, q); }
      }
    }
  }

  lemma StoreKeyInUse(ix: Index, v: View, e: EntryId)
    requires Inv(ix, v) && v.open == {} && e == CurEntry(ix, v, v.ins) && e < |ix.entries| && Vacant(ix, e)
    ensures AllInUse(SetKey(ix, e, v.ins), KeyView(v, e))
  {
    var ix', v', n := SetKey(ix, e, v.ins), KeyView(v, e), Cur(ix).cap;
    forall q | q in v'.ent ensures InUse(ix', v', q) {
      assert InUse(ix, v, q) && Keyed(ix, v, q);
      if q == v.hi - n { SlotShift(Cur(ix), v.shift[|v.shift| - 1], q); }
    }
  }

  /** Publishing the new tail. */
  lemma StoreTailKeepsInv(ix: Index, v: View)
    requires Inv(ix, v) && v.ins < v.hi
    ensures Inv(SetTail(ix, NewTail(ix)), v.(ins := v.ins + 1))
  {
    NewTailIsNext(ix, v);
    TailKeepsInv(ix, v, NewTail(ix), v.(ins := v.ins + 1));
  }

  /** rewind_block_index_tail */
  function Rewind(ix: Index): Index
    requires WellFormed(ix)
  { SetTail(ix, (Cur(ix).tail - 1) % Cur(ix).cap) }

  lemma RewindKeepsInv(ix: Index, v: View)
    requires Inv(ix, v) && v.ins > v.lo && v.ins > v.hi - Cur(ix).cap
    ensures Inv(Rewind(ix), v.(ins := v.ins - 1))
  {
    SlotShift(Cur(ix), v.shift[|v.shift| - 1], v.ins - 1);
    TailKeepsInv(ix, v, (Cur(ix).tail - 1) % Cur(ix).cap, v.(ins := v.ins - 1));
  }

  /** Only the tail of the current header differs. */
  lemma TailShape(ix: Index, v: View, tail: nat, v': View)
    requires Shaped(ix, v) && tail < Cur(ix).cap && v' == v.(ins := v'.ins)
    ensures Shaped(SetTail(ix, tail), v') && Cur(SetTail(ix, tail)) == Cur(ix).(tail := tail)
    ensures forall k :: 0 <= k < |ix.headers| ==>
              SetTail(ix, tail).headers[k].cap == ix.headers[k].cap && SetTail(ix, tail).headers[k].index == ix.headers[k].index
    ensures forall q :: CurEntry(SetTail(ix, tail), v', q) == CurEntry(ix, v, q)
  {
    var ix' := SetTail(ix, tail);
    forall k | 0 <= k < |ix'.headers| ensures HeaderOk(ix'.headers[k], |ix'.entries|) {
      assert HeaderOk(ix.headers[k], |ix.entries|);
    }
  }

  lemma TailKeepsPlaces(ix: Index, v: View, tail: nat, v': View)
    requires Inv(ix, v) && tail < Cur(ix).cap && v' == v.(ins := v'.ins) && Shaped(SetTail(ix, tail), v')
    ensures AllCoherent(SetTail(ix, tail), v') && AllPlaced(SetTail(ix, tail), v') && OldTailsKeyed(SetTail(ix, tail))
  {
    var ix' := SetTail(ix, tail);
    TailShape(ix, v, tail, v');
    forall k, i, i' | 0 <= k < |ix'.headers| && 0 <= i < Cur(ix').cap && 0 <= i' < ix'.headers[k].cap
      ensures Coherent(ix', v', k, i, i')
    { assert Coherent(ix, v, k, i, i'); }
    forall k, i | 0 <= k < |ix'.headers| && 0 <= i < ix'.headers[k].cap ensures KeyPlaced(ix', v', k, i) {
      assert KeyPlaced(ix, v, k, i);
    }
    forall k | 0 <= k < |ix'.headers| - 1 ensures TailKeyed(ix', k) { assert TailKeyed(ix, k); }
  }

  /** Moving the tail of the current header together with ins disturbs nothing else. */
  lemma TailKeepsInv(ix: Index, v: View, tail: nat, v': View)
    requires Inv(ix, v) && tail < Cur(ix).cap && v' == v.(ins := v'.ins)
    requires v.lo <= v'.ins <= v.hi && v.hi - Cur(ix).cap <= v'.ins
    requires tail == Slot(Cur(ix), v.shift[|v.shift| - 1], v'.ins - 1)
    ensures Inv(SetTail(ix, tail), v')
  {
    var ix' := SetTail(ix, tail);
    TailShape(ix, v, tail, v');
    TailKeepsPlaces(ix, v, tail, v');
    forall q | v'.hi - Cur(ix').cap <= q < v'.hi ensures Keyed(ix', v', q) { assert Keyed(ix, v, q); }
    forall q | q in v'.ent ensures InUse(ix', v', q) { assert InUse(ix, v, q); }
    forall x | 0 <= x < |ix'.entries| ensures Accounted(ix', v', x) { assert Accounted(ix, v, x); }
  }

  function ValueView(v: View, e: EntryId, q: nat, value: Ptr): View {
    if value.At? then v.(ent := v.ent[q := e], open := v.open - {e}) else v.(ent := v.ent - {q}, open := v.open - {e})
  }

  /** idxEntry->value.store: block q comes into use, or goes out of use. */
  lemma StoreValueKeepsInv(ix: Index, v: View, e: EntryId, q: nat, value: Ptr)
    requires Inv(ix, v) && e < |ix.entries| && v.lo <= q < v.hi && v.hi - Cur(ix).cap <= q && e == CurEntry(ix, v, q)
    ensures Inv(SetValue(ix, e, value), ValueView(v, e, q, value))
  {
    var ix', v' := SetValue(ix, e, value), ValueView(v, e, q, value);
    assert Keyed(ix, v, q);
    forall k, i, i' | 0 <= k < |ix'.headers| && 0 <= i < Cur(ix').cap && 0 <= i' < ix'.headers[k].cap
      ensures Coherent(ix', v', k, i, i')
    { assert Coherent(ix, v, k, i, i'); }
    forall k, i | 0 <= k < |ix'.headers| && 0 <= i < ix'.headers[k].cap ensures KeyPlaced(ix', v', k, i) {
      assert KeyPlaced(ix, v, k, i);
    }
    forall k | 0 <= k < |ix'.headers| - 1 ensures TailKeyed(ix', k) { assert TailKeyed(ix, k); }
    forall p | v'.hi - Cur(ix').cap <= p < v'.hi ensures Keyed(ix', v', p) { assert Keyed(ix, v, p); }
    forall p | p in v'.ent ensures InUse(ix', v', p) {
      if p != q { assert InUse(ix, v, p) && Keyed(ix, v, p); }
    }
    forall x | 0 <= x < |ix'.entries| ensures Accounted(ix', v', x) { assert Accounted(ix, v, x); }
  }

  // ---------------------------------------------------------------------------------------------
  // Growth
  // ---------------------------------------------------------------------------------------------

  function GrowView(ix: Index, v: View): View
    requires |ix.headers| > 0
  {
    v.(shift := v.shift + [Cur(ix).cap - v.hi], lo := if v.lo < v.hi - Cur(ix).cap then v.hi - Cur(ix).cap else v.lo)
  }

  /** When the next slot is occupied by a block in use, nothing has been rewound: ins == hi. */
  lemma OccupiedMeansFull(ix: Index, v: View)
    requires Inv(ix, v) && v.open == {} && !Vacant(ix, CurEntry(ix, v, v.ins)) && (forall q :: q in v.ent ==> q < v.ins)
    ensures v.ins == v.hi && v.lo < v.hi
  {
    var e := CurEntry(ix, v, v.ins);
    assert Accounted(ix, v, e);
    assert v.ins < v.hi ==> Keyed(ix, v, v.ins);
    assert InUse(ix, v, ix.entries[e].key.q);
  }

  lemma GrowShape(ix: Index, v: View, junk: Ptr)
    requires Shaped(ix, v)
    ensures Shaped(Grow(ix, junk), GrowView(ix, v))
    ensures forall k :: 0 <= k < |ix.headers| ==> Grow(ix, junk).headers[k] == ix.headers[k]
    ensures forall e :: 0 <= e < |ix.entries| ==> Grow(ix, junk).entries[e] == ix.entries[e]
    ensures Cur(Grow(ix, junk)).cap == 2 * Cur(ix).cap
    ensures forall i :: 0 <= i < Cur(ix).cap ==>
              Cur(Grow(ix, junk)).index[i] == Cur(ix).index[(Cur(ix).tail + 1 + i) % Cur(ix).cap]
    ensures forall i :: Cur(ix).cap <= i < 2 * Cur(ix).cap ==>
              Cur(Grow(ix, junk)).index[i] == |ix.entries| + i - Cur(ix).cap
  {
    var ix', h := Grow(ix, junk), Cur(ix);
    forall k | 0 <= k < |ix'.headers| ensures HeaderOk(ix'.headers[k], |ix'.entries|) {
      if k < |ix.headers| { assert HeaderOk(ix.headers[k], |ix.entries|); } else { assert HeaderOk(h, |ix.entries|); }
    }
  }

  /** Where the new header puts block q: the window of the old one first, then fresh entries. */
  lemma GrownEntry(ix: Index, v: View, junk: Ptr, q: int)
    requires Inv(ix, v) && v.ins == v.hi && v.hi - 2 * Cur(ix).cap <= q < v.hi
    ensures Shaped(Grow(ix, junk), GrowView(ix, v))
    ensures q >= v.hi - Cur(ix).cap ==> CurEntry(Grow(ix, junk), GrowView(ix, v), q) == CurEntry(ix, v, q)
    ensures q < v.hi - Cur(ix).cap ==> CurEntry(Grow(ix, junk), GrowView(ix, v), q) >= |ix.entries|
  {
    GrowShape(ix, v, junk);
    var h, c, n := Cur(ix), v.shift[|v.shift| - 1], Cur(ix).cap;
    var i := q + n - v.hi;
    if i >= 0 {
      DivModUnique(i, 2 * n, 0, i);
      CongMod(v.hi - 1 + c, n);
      CongAdd(h.tail, v.hi - 1 + c, 1 + i, n);
      CongFrom(v.hi + c + i, q + c, n, 1);
      CongTrans(h.tail + 1 + i, v.hi + c + i, q + c, n);
      CongSameMod(h.tail + 1 + i, q + c, n);
    } else {
      DivModUnique(i, 2 * n, -1, i + 2 * n);
    }
  }

  lemma GrowKeyed(ix: Index, v: View, junk: Ptr)
    requires Inv(ix, v) && v.ins == v.hi && Shaped(Grow(ix, junk), GrowView(ix, v))
    ensures AllKeyed(Grow(ix, junk), GrowView(ix, v))
  {
    var ix', v' := Grow(ix, junk), GrowView(ix, v);
    GrowShape(ix, v, junk);
    forall q | v'.hi - Cur(ix').cap <= q < v'.hi ensures Keyed(ix', v', q) {
      GrownEntry(ix, v, junk, q);
      assert q >= v.hi - Cur(ix).cap ==> Keyed(ix, v, q);
    }
  }

  lemma GrowInUse(ix: Index, v: View, junk: Ptr)
    requires Inv(ix, v) && v.ins == v.hi && Shaped(Grow(ix, junk), GrowView(ix, v))
    ensures AllInUse(Grow(ix, junk), GrowView(ix, v)) && AllAccounted(Grow(ix, junk), GrowView(ix, v))
  {
    var ix', v' := Grow(ix, junk), GrowView(ix, v);
    GrowShape(ix, v, junk);
    forall q | q in v'.ent ensures InUse(ix', v', q) {
      assert InUse(ix, v, q);
      GrownEntry(ix, v, junk, q);
    }
    forall e | 0 <= e < |ix'.entries| ensures Accounted(ix', v', e) {
      if e < |ix.entries| { assert Accounted(ix, v, e); }
    }
  }

  lemma GrowPlaced(ix: Index, v: View, junk: Ptr)
    requires Inv(ix, v) && v.ins == v.hi && Shaped(Grow(ix, junk), GrowView(ix, v))
    requires AllKeyed(Grow(ix, junk), GrowView(ix, v))
    ensures AllPlaced(Grow(ix, junk), GrowView(ix, v))
  {
    var ix', v', n := Grow(ix, junk), GrowView(ix, v), Cur(ix).cap;
    GrowShape(ix, v, junk);
    forall k, i | 0 <= k < |ix'.headers| && 0 <= i < ix'.headers[k].cap ensures KeyPlaced(ix', v', k, i) {
      if k < |ix.headers| {
        assert KeyPlaced(ix, v, k, i) && HeaderOk(ix.headers[k], |ix.entries|);
      } else {
        var q := if i < n then v.hi - n + i else v.hi - 3 * n + i;
        DivModUnique(q + n - v.hi, 2 * n, if i < n then 0 else -1, i);
        assert Keyed(ix', v', q);
        CongMod(q + n - v.hi, 2 * n);
      }
    }
  }

  /** Where an entry of the old header lands, seen from any header. */
  lemma GrowMoves(ix: Index, v: View, i: nat, m: nat)
    requires Inv(ix, v) && v.ins == v.hi && i < Cur(ix).cap && m > 0 && Cur(ix).cap % m == 0
    ensures Cong(i - (Cur(ix).cap - v.hi), (Cur(ix).tail + 1 + i) % Cur(ix).cap - v.shift[|v.shift| - 1], m)
  {
    var h, c, n := Cur(ix), v.shift[|v.shift| - 1], Cur(ix).cap;
    var s := (h.tail + 1 + i) % n;
    CongMod(v.hi - 1 + c, n);
    CongSym(h.tail, v.hi - 1 + c, n);
    CongAdd(v.hi - 1 + c, h.tail, 1 + i, n);
    CongMod(h.tail + 1 + i, n);
    CongTrans(v.hi + c + i, h.tail + 1 + i, s, n);
    CongFrom(i - (n - v.hi) + c, v.hi + c + i, n, -1);
    CongTrans(i - (n - v.hi) + c, v.hi + c + i, s, n);
    CongAdd(i - (n - v.hi) + c, s, -c, n);
    CongDivisor(i - (n - v.hi), s - c, m, n);
  }

  lemma GrowCoherent(ix: Index, v: View, junk: Ptr)
    requires Inv(ix, v) && v.ins == v.hi && Shaped(Grow(ix, junk), GrowView(ix, v))
    ensures AllCoherent(Grow(ix, junk), GrowView(ix, v))
  {
    var ix', v', n := Grow(ix, junk), GrowView(ix, v), Cur(ix).cap;
    GrowShape(ix, v, junk);
    forall k | 0 <= k < |ix'.headers| ensures Cur(ix').cap % ix'.headers[k].cap == 0 {
      if k < |ix.headers| { DividesDouble(ix.headers[k].cap, n); } else { DivModUnique(2 * n, 2 * n, 1, 0); }
    }
    forall k, i, i' | 0 <= k < |ix'.headers| && 0 <= i < Cur(ix').cap && 0 <= i' < ix'.headers[k].cap
      ensures Coherent(ix', v', k, i, i')
    {
      if k < |ix.headers| { GrowCoherentOld(ix, v, junk, k, i, i'); } else { GrowCoherentNew(ix, v, junk, i, i'); }
    }
  }

  lemma GrowCoherentOld(ix: Index, v: View, junk: Ptr, k: nat, i: nat, i': nat)
    requires Inv(ix, v) && v.ins == v.hi && Shaped(Grow(ix, junk), GrowView(ix, v))
    requires k < |ix.headers| && i < Cur(Grow(ix, junk)).cap && i' < ix.headers[k].cap
    ensures Coherent(Grow(ix, junk), GrowView(ix, v), k, i, i')
  {
    var n, m := Cur(ix).cap, ix.headers[k].cap;
    GrowShape(ix, v, junk);
    assert HeaderOk(ix.headers[k], |ix.entries|);
    if i < n {
      var s := (Cur(ix).tail + 1 + i) % n;
      GrowMoves(ix, v, i, m);
      assert Coherent(ix, v, k, s, i');
      if Cur(ix).index[s] == ix.headers[k].index[i'] {
        CongTrans(i - (n - v.hi), s - v.shift[|v.shift| - 1], i' - v.shift[k], m);
      }
    }
  }

  lemma GrowCoherentNew(ix: Index, v: View, junk: Ptr, i: nat, i': nat)
    requires Inv(ix, v) && v.ins == v.hi && Shaped(Grow(ix, junk), GrowView(ix, v))
    requires i < Cur(Grow(ix, junk)).cap && i' < Cur(Grow(ix, junk)).cap
    ensures Coherent(Grow(ix, junk), GrowView(ix, v), |ix.headers|, i, i')
  {
    var n, j := Cur(ix).cap, |ix.headers| - 1;
    GrowShape(ix, v, junk);
    assert HeaderOk(Cur(ix), |ix.entries|);
    DivModUnique(0, 2 * n, 0, 0);
    if i < n && i' < n {
      var s, s' := (Cur(ix).tail + 1 + i) % n, (Cur(ix).tail + 1 + i') % n;
      DivModUnique(n, n, 1, 0);
      assert Coherent(ix, v, j, s, s');
      if Cur(ix).index[s] == Cur(ix).index[s'] {
        GrowMoves(ix, v, i, n);
        GrowMoves(ix, v, i', n);
        CongTrans(i - (n - v.hi), s - v.shift[j], s' - v.shift[j], n);
        CongSym(i' - (n - v.hi), s' - v.shift[j], n);
        CongTrans(i - (n - v.hi), s' - v.shift[j], i' - (n - v.hi), n);
        CongAdd(i - (n - v.hi), i' - (n - v.hi), n - v.hi, n);
        CongEqual(i, i', n);
      }
    }
  }

  /** Publishing a larger index keeps the invariant, every old header stays as it was, and the next
      slot is a fresh entry: the assertion after the growth holds. */
  lemma GrowKeepsInv(ix: Index, v: View, junk: Ptr)
    requires Inv(ix, v) && v.open == {} && v.lo < v.ins == v.hi
    ensures Inv(Grow(ix, junk), GrowView(ix, v))
    ensures var e := CurEntry(Grow(ix, junk), GrowView(ix, v), v.ins); Grow(ix, junk).entries[e].key.Invalid?
  {
    var ix', v', n := Grow(ix, junk), GrowView(ix, v), Cur(ix).cap;
    GrowShape(ix, v, junk);
    GrowKeyed(ix, v, junk);
    GrowInUse(ix, v, junk);
    GrowPlaced(ix, v, junk);
    GrowCoherent(ix, v, junk);
    DivModUnique(n - 1, 2 * n, 0, n - 1);
    DivModUnique(n, 2 * n, 0, n);
    assert Keyed(ix, v, v.hi - 1);
    forall k | 0 <= k < |ix'.headers| - 1 ensures TailKeyed(ix', k) {
      if k < |ix.headers| - 1 { assert TailKeyed(ix, k); }
    }
  }

  /** The index new_block_index publishes in the constructor. */
  function Fresh(cap: nat, junk: Ptr): Index {
    Index(seq(cap, _ => Entry(Invalid, junk)), [Header(cap, if cap > 0 then cap - 1 else 0, seq(cap, i requires 0 <= i => i))])
  }

  lemma FreshInv(cap: nat, junk: Ptr)
    requires cap > 0
    ensures Inv(Fresh(cap, junk), View([0], 0, 0, 0, map[], {}))
  {
    var ix, v := Fresh(cap, junk), View([0], 0, 0, 0, map[], {});
    DivModUnique(-1, cap, -1, cap - 1);
    DivModUnique(cap, cap, 1, 0);
    DivModUnique(0, cap, 0, 0);
  }
}
