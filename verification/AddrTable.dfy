/** The address table of data_structs/addr_table.c: a sorted array of 100 slots from user
    ids to sessions, refining a map. Every slot from `len` up is zero; the binary search
    relies on it, because it starts at `hi = len` and may probe the slot just past the end. */
module AddressTable {
  import opened Wire
  import opened Tallies

  const MAX_ADDR_TABLE_SIZE := 100

  // `addr` is the pointer to a session; None is NULL.
  datatype Entry<T> = Entry(userid: int, addr: Option<T>)

  function Zero<T>(): Entry<T> { Entry(0, None) }

  ghost predicate Ascending<T>(es: seq<Entry<T>>) {
    && (forall k :: 0 <= k < |es| ==> es[k].userid >= 1 && es[k].addr.Some?)
    && (forall j, k :: 0 <= j < k < |es| ==> es[j].userid < es[k].userid)
  }

  // The map a run of entries stands for; a later entry would hide an earlier one.
  ghost function ToMap<T>(es: seq<Entry<T>>): map<int, T> {
    if es == [] then map[]
    else
      var n := |es| - 1;
      if es[n].addr.None? then ToMap(es[..n]) else ToMap(es[..n])[es[n].userid := es[n].addr.value]
  }

  lemma {:induction false} ToMapEntry<T>(es: seq<Entry<T>>, k: nat)
    requires k < |es| && es[k].addr.Some?
    requires forall j :: k < j < |es| ==> es[j].userid != es[k].userid
    ensures es[k].userid in ToMap(es) && ToMap(es)[es[k].userid] == es[k].addr.value
  {
    if k < |es| - 1 {
      ToMapEntry(es[..|es| - 1], k);
    }
  }

  lemma {:induction false} ToMapKey<T>(es: seq<Entry<T>>, id: int) returns (k: nat)
    requires id in ToMap(es)
    ensures k < |es| && es[k].userid == id
  {
    var n := |es| - 1;
    if id == es[n].userid {
      k := n;
    } else {
      k := ToMapKey(es[..n], id);
    }
  }

  ghost function InsertAt<T>(es: seq<Entry<T>>, p: nat, e: Entry<T>): (r: seq<Entry<T>>)
    requires p <= |es|
    ensures |r| == |es| + 1 && r[p] == e
    ensures forall k :: 0 <= k < p ==> r[k] == es[k]
    ensures forall k :: p < k < |r| ==> r[k] == es[k - 1]
  {
    seq(|es| + 1, i requires 0 <= i <= |es| => if i < p then es[i] else if i == p then e else es[i - 1])
  }

  lemma RemovedAscending<T>(es: seq<Entry<T>>, p: nat)
    requires Ascending(es) && p < |es|
    ensures Ascending(Without(es, p))
  {
  }

  lemma InsertedAscending<T>(es: seq<Entry<T>>, p: nat, e: Entry<T>)
    requires Ascending(es) && p <= |es| && e.userid >= 1 && e.addr.Some?
    requires p > 0 ==> es[p - 1].userid < e.userid
    requires p < |es| ==> e.userid < es[p].userid
    ensures Ascending(InsertAt(es, p, e))
  {
  }

  lemma {:induction false} InsertedMap<T>(es: seq<Entry<T>>, p: nat, e: Entry<T>)
    requires p <= |es| && e.addr.Some?
    requires forall k :: p <= k < |es| ==> es[k].userid != e.userid
    ensures ToMap(InsertAt(es, p, e)) == ToMap(es)[e.userid := e.addr.value]
  {
    var n := |es|;
    if p == n {
      assert InsertAt(es, p, e)[..n] == es;
    } else {
      InsertedMap(es[..n - 1], p, e);
      assert InsertAt(es, p, e)[..n] == InsertAt(es[..n - 1], p, e);
    }
  }

  lemma {:induction false} AbsentKey<T>(es: seq<Entry<T>>, id: int)
    requires forall k :: 0 <= k < |es| ==> es[k].userid != id
    ensures id !in ToMap(es)
  {
    if id in ToMap(es) {
      var k := ToMapKey(es, id);
    }
  }

  lemma {:induction false} RemovedMap<T>(es: seq<Entry<T>>, p: nat)
    requires p < |es|
    requires forall k :: 0 <= k < |es| && k != p ==> es[k].userid != es[p].userid
    ensures ToMap(Without(es, p)) == ToMap(es) - {es[p].userid}
  {
    var n := |es| - 1;
    if p == n {
      AbsentKey(es[..n], es[n].userid);
      assert Without(es, p) == es[..n];
    } else {
      RemovedMap(es[..n], p);
      assert Without(es, p)[..n - 1] == Without(es[..n], p);
    }
  }

  lemma Inserted<T>(es: seq<Entry<T>>, p: nat, e: Entry<T>)
    requires Ascending(es) && p <= |es| && e.addr.Some? && e.userid >= 1 && e.userid !in ToMap(es)
    requires p > 0 ==> es[p - 1].userid <= e.userid
    requires p < |es| ==> es[p].userid > e.userid
    ensures Ascending(InsertAt(es, p, e))
    ensures ToMap(InsertAt(es, p, e)) == ToMap(es)[e.userid := e.addr.value]
  {
    if p > 0 { ToMapEntry(es, p - 1); }
    InsertedAscending(es, p, e);
    InsertedMap(es, p, e);
  }

  lemma InsertedExactly<T>(es: seq<Entry<T>>, p: nat, e: Entry<T>)
    requires Ascending(es) && p <= |es| && e.addr.Some?
    requires p > 0 ==> es[p - 1].userid <= e.userid
    requires p < |es| ==> es[p].userid > e.userid
    ensures forall k :: 0 <= k < |es| ==> (es[k].userid <= e.userid <==> k < p)
    ensures Ascending(InsertAt(es, p, e)) <==> e.userid >= 1 && e.userid !in ToMap(es)
    ensures Ascending(InsertAt(es, p, e)) ==> ToMap(InsertAt(es, p, e)) == ToMap(es)[e.userid := e.addr.value]
  {
    if e.userid !in ToMap(es) {
      if e.userid >= 1 { Inserted(es, p, e); }
    } else {
      var k := ToMapKey(es, e.userid);
      assert InsertAt(es, p, e)[k].userid == InsertAt(es, p, e)[p].userid;
    }
    assert InsertAt(es, p, e)[p] == e;
  }

  lemma Removed<T>(es: seq<Entry<T>>, p: nat)
    requires Ascending(es) && p < |es|
    ensures Ascending(Without(es, p))
    ensures ToMap(Without(es, p)) == ToMap(es) - {es[p].userid}
  {
    RemovedAscending(es, p);
    RemovedMap(es, p);
  }

  lemma {:induction false} ToMapSize<T>(es: seq<Entry<T>>)
    requires Ascending(es)
    ensures |ToMap(es)| == |es|
  {
    if es != [] {
      var n := |es| - 1;
      ToMapSize(es[..n]);
      AbsentKey(es[..n], es[n].userid);
    }
  }

  class AddrTable<T> {
    var len: int
    const addrs: array<Entry<T>>

    ghost predicate Valid()
      reads this, addrs
    {
      && addrs.Length == MAX_ADDR_TABLE_SIZE
      && 0 <= len <= MAX_ADDR_TABLE_SIZE
      && Ascending(addrs[..len])
      && forall k :: len <= k < MAX_ADDR_TABLE_SIZE ==> addrs[k] == Zero<T>()
    }

    ghost function Contents(): map<int, T>
      requires Valid()
      reads this, addrs
    {
      ToMap(addrs[..len])
    }

    lemma Size()
      requires Valid()
      ensures len == |Contents()|
    {
      ToMapSize(addrs[..len]);
    }

    constructor ()
      ensures Valid() && fresh(addrs)
      ensures len == 0 && Contents() == map[]
    {
      len := 0;
      addrs := new Entry<T>[MAX_ADDR_TABLE_SIZE](_ => Zero<T>());
    }

    /** Slot `len` may be probed, so the table must not be full.
        The result is the index of `key`, below `len`, exactly when the key is present. Key 0 is the one
        exception: in an empty table the probed zero slot answers for it. */
    method BinarySearch(key: int) returns (pos: int)
      requires Valid() && len < MAX_ADDR_TABLE_SIZE
      ensures key in Contents() ==> 0 <= pos < len && addrs[pos] == Entry(key, Some(Contents()[key]))
      ensures key !in Contents() && key != 0 ==> pos == -1
      ensures key == 0 ==> key !in Contents() && pos == if len == 0 then 0 else -1
    {
      hide ToMap;
      ghost var es := addrs[..len];
      if key in Contents() {
        var k := ToMapKey(es, key);
        ToMapEntry(es, k);
      }
      var low, hi := 0, len;
      if key < 0 { return -1; }
      while low <= hi
        invariant 0 <= low <= len + 1 && -1 <= hi <= len
        invariant low > 0 ==> key != 0
        invariant forall k :: 0 <= k < low && k < len ==> es[k].userid < key
        invariant forall k :: hi < k < len ==> es[k].userid > key
        invariant key == 0 && len == 0 ==> hi == 0
        decreases hi - low + 1
      {
        var mid := (low + hi) / 2;
        assert mid < len ==> addrs[mid] == es[mid];
        if addrs[mid].userid == key {
          if mid < len { ToMapEntry(es, mid); }
          return mid;
        }
        if addrs[mid].userid > key { hi := mid - 1; } else { low := mid + 1; }
      }
      return -1;
    }

    // The loop of insertion: entries with a larger id move one slot to the right.
    method OpenGap(id: int) returns (k: int)
      requires addrs.Length == MAX_ADDR_TABLE_SIZE
      requires 0 <= len < MAX_ADDR_TABLE_SIZE
      modifies addrs
      ensures -1 <= k < len
      ensures k >= 0 ==> old(addrs[k]).userid <= id
      ensures k + 1 < len ==> old(addrs[k + 1]).userid > id
      ensures forall j :: 0 <= j <= k ==> addrs[j] == old(addrs[j])
      ensures forall j :: k + 1 < j <= len ==> addrs[j] == old(addrs[j - 1])
      ensures forall j :: len < j < addrs.Length ==> addrs[j] == old(addrs[j])
    {
      k := len - 1;
      while k >= 0 && k <= MAX_ADDR_TABLE_SIZE && addrs[k].userid > id
        invariant -1 <= k < len
        invariant forall j :: 0 <= j <= k ==> addrs[j] == old(addrs[j])
        invariant forall j :: k + 1 < j <= len ==> addrs[j] == old(addrs[j - 1])
        invariant forall j :: len < j < addrs.Length ==> addrs[j] == old(addrs[j])
        invariant k + 1 < len ==> old(addrs[k + 1]).userid > id
      {
        addrs[k + 1] := addrs[k];
        k := k - 1;
      }
    }

    /** The entry goes behind all ids that are not larger, whatever the id. The table stays in
        order, and the map gains the pair, exactly when the id is at least 1 and was absent. */
    method Insert(id: int, addr: T) returns (ghost at: nat)
      requires Valid() && 0 <= id && len < MAX_ADDR_TABLE_SIZE
      modifies this, addrs
      ensures len == old(len) + 1 && at < len
      ensures addrs[..len] == InsertAt(old(addrs[..len]), at, Entry(id, Some(addr)))
      ensures forall k :: 0 <= k < old(len) ==> (old(addrs[k]).userid <= id <==> k < at)
      ensures Valid() <==> id >= 1 && id !in old(Contents())
      ensures Valid() ==> Contents() == old(Contents())[id := addr]
    {
      hide ToMap, Ascending, InsertAt;
      ghost var es := addrs[..len];
      var k := OpenGap(id);
      addrs[k + 1] := Entry(id, Some(addr));
      len := len + 1;
      at := k + 1;
      assert addrs[..len] == InsertAt(es, at, Entry(id, Some(addr)));
      InsertedExactly(es, at, Entry(id, Some(addr)));
    }

    // Any C int may be asked for: a receiver id is whatever a client put in its packet.
    method Get(id: int) returns (addr: Option<T>)
      requires Valid() && len < MAX_ADDR_TABLE_SIZE
      ensures addr == if id in Contents() then Some(Contents()[id]) else None
    {
      var ret := BinarySearch(id);
      addr := if ret >= 0 then addrs[ret].addr else None;
    }

    // The loop of removal: slots from `pos` to `len` each take their right neighbour.
    method CloseGap(pos: int)
      requires addrs.Length == MAX_ADDR_TABLE_SIZE
      requires 0 <= pos <= len <= MAX_ADDR_TABLE_SIZE - 2
      modifies addrs
      ensures forall j :: 0 <= j < pos ==> addrs[j] == old(addrs[j])
      ensures forall j :: pos <= j <= len ==> addrs[j] == old(addrs[j + 1])
      ensures forall j :: len < j < addrs.Length ==> addrs[j] == old(addrs[j])
    {
      var i := pos;
      while i <= len
        invariant pos <= i <= len + 1
        invariant forall j :: 0 <= j < pos ==> addrs[j] == old(addrs[j])
        invariant forall j :: pos <= j < i ==> addrs[j] == old(addrs[j + 1])
        invariant forall j :: i <= j < addrs.Length ==> addrs[j] == old(addrs[j])
      {
        addrs[i] := addrs[i + 1];
        i := i + 1;
      }
    }

    /** Removal reads slot `len + 1`, so it needs two zero slots when the id is present. Id 0
        on an empty table is the one call that breaks the table: the length becomes -1. */
    method Remove(id: int) returns (hold: Option<T>)
      requires Valid() && len < MAX_ADDR_TABLE_SIZE
      requires id in Contents() ==> len <= MAX_ADDR_TABLE_SIZE - 2
      modifies this, addrs
      ensures hold == if id in old(Contents()) then Some(old(Contents())[id]) else None
      ensures len <= old(len)
      ensures id == 0 && old(len) == 0 ==> len == -1
      ensures id != 0 || old(len) > 0 ==> Valid() && Contents() == old(Contents()) - {id}
    {
      var pos := BinarySearch(id);
      if pos < 0 {
        assert Contents() - {id} == Contents();
        return None;
      }
      hide ToMap, Ascending, Without;
      hold := addrs[pos].addr;
      ghost var es := addrs[..len];
      CloseGap(pos);
      len := len - 1;
      if id != 0 {
        Removed(es, pos);
        assert addrs[..len] == Without(es, pos);
      }
    }
  }
}
