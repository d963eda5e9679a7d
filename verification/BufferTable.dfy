/** The native buffer table: integer handles to growable, NUL-terminated byte strings. */
module BufferTable {
  import opened Wrappers

  function Max(a: nat, b: nat): nat { if a < b then b else a }

  /** `data` is the allocation: no bytes, or room for `cap` and a terminator. */
  class Slot {
    var data: seq<char>
    var len: nat
    var cap: nat
    var alive: bool
    /** Bytes copied by growth and the largest length, since the slot was last taken. */
    ghost var moved: nat
    ghost var peak: nat

    ghost predicate Valid() reads this {
      && |data| == (if cap == 0 then 0 else cap + 1) && len <= cap && len <= peak
      && (cap > 0 ==> data[len] == '\0' && moved < cap <= Max(64, 2 * peak)) && (cap == 0 ==> moved == 0)
    }

    ghost function Text(): string reads this requires Valid() { data[..len] }

    constructor ()
      ensures Valid() && Text() == "" && alive
    {
      data, len, cap, alive := "", 0, 0, true;
      moved, peak := 0, 0;
    }

    /** A dead slot taken again starts empty and unallocated. */
    method Retake()
      modifies this
      ensures Valid() && Text() == "" && alive
    {
      data, len, cap, alive := "", 0, 0, true;
      moved, peak := 0, 0;
    }

    method Reserve(needed: nat)
      requires Valid() && needed > 0
      modifies this
      ensures Valid() && Text() == old(Text()) && alive == old(alive) && len == old(len)
      ensures needed <= cap && peak == Max(old(peak), needed) && old(cap) <= cap
    {
      peak := Max(peak, needed);
      if needed <= cap { return; }
      var next := NextCapacity(cap, needed);
      var grown := seq(next + 1, _ => '\0');
      if cap > 0 {
        grown := data[..len + 1] + seq(next - len, _ => '\0');
        moved := moved + len;
      }
      data, cap := grown, next;
    }

    method AppendBytes(bytes: string)
      requires Valid()
      modifies this
      ensures Valid() && Text() == old(Text()) + bytes && alive == old(alive)
      ensures peak == Max(old(peak), old(len) + |bytes|) && old(cap) <= cap
    {
      if |bytes| == 0 {
        assert Text() == Text() + bytes;
        return;
      }
      Reserve(len + |bytes|);
      Copy(bytes);
    }

    /** Into reserved space, after what is there. */
    method Copy(bytes: string)
      requires Valid() && cap > 0 && len + |bytes| <= cap && len + |bytes| <= peak
      modifies this`len, this`data
      ensures Valid() && Text() == old(Text()) + bytes
    {
      for k := 0 to |bytes|
        invariant len == old(len) && |data| == cap + 1 && data[..len + k] == old(data[..len]) + bytes[..k]
      {
        data := data[len + k := bytes[k]];
        assert bytes[..k + 1] == bytes[..k] + [bytes[k]];
        assert data[..len + k + 1] == data[..len + k] + [bytes[k]];
      }
      assert bytes[..|bytes|] == bytes;
      len := len + |bytes|;
      data := data[len := '\0'];
    }

    method Clear()
      requires Valid()
      modifies this`len, this`data
      ensures Valid() && Text() == ""
    {
      len := 0;
      if cap > 0 { data := data[0 := '\0']; }
    }

    method Release()
      modifies this
      ensures Valid() && !alive
    {
      data, len, cap, alive := "", 0, 0, false;
      moved, peak := 0, 0;
    }
  }

  /** Doubling from 64 or the current capacity until there is room: at least twice the old
      capacity, and no more than twice what is needed unless the first 64 are enough. */
  method NextCapacity(cap: nat, needed: nat) returns (next: nat)
    requires needed > cap
    ensures next >= needed && next >= 2 * cap && (cap == 0 ==> next >= 64)
    ensures next <= Max(64, 2 * needed)
  {
    next := if cap > 0 then cap else 64;
    while next < needed
      invariant next > 0 && (next == cap || next >= 2 * cap) && (next <= Max(64, 2 * needed)) && (cap == 0 ==> next >= 64)
      decreases needed - next
    {
      next := next * 2;
    }
  }

  class Table {
    var slots: seq<Slot>

    ghost predicate Valid() reads this, slots {
      && (forall i, j :: 0 <= i < j < |slots| ==> slots[i] != slots[j])
      && forall i :: 0 <= i < |slots| ==> slots[i].Valid()
    }

    predicate Live(h: int) reads this, slots { 1 <= h <= |slots| && slots[h - 1].alive }

    /** Live handles and their texts; handles count from one. */
    ghost function Contents(): map<int, string>
      reads this, slots
      requires Valid()
    {
      map h | 1 <= h <= |slots| && Live(h) :: slots[h - 1].Text()
    }

    constructor ()
      ensures Valid() && Contents() == map[]
    {
      slots := [];
    }

    /** The lowest handle that is not live; its text starts empty and no other changes. */
    method NewBuffer() returns (h: int)
      requires Valid()
      modifies this, slots
      ensures Valid() && h !in old(Contents()) && Contents() == old(Contents())[h := ""]
      ensures forall g :: 1 <= g < h ==> g in old(Contents())
    {
      h := FirstDead();
      if h <= |slots| { Revive(h); } else { Extend(); }
    }

    method FirstDead() returns (h: int)
      requires Valid()
      ensures 1 <= h <= |slots| + 1 && !Live(h)
      ensures forall g :: 1 <= g < h ==> g in Contents()
    {
      h := 1;
      while h <= |slots| && slots[h - 1].alive
        invariant 1 <= h <= |slots| + 1 && forall g :: 1 <= g < h ==> Live(g)
      {
        h := h + 1;
      }
    }

    method Revive(h: int)
      requires Valid() && 1 <= h <= |slots| && !Live(h)
      modifies slots
      ensures Valid() && Contents() == old(Contents())[h := ""]
    {
      slots[h - 1].Retake();
    }

    method Extend()
      requires Valid()
      modifies this
      ensures Valid() && |slots| == old(|slots|) + 1 && Contents() == old(Contents())[|slots| := ""]
    {
      var slot := new Slot();
      slots := slots + [slot];
    }

    /** False is the reported error for a handle that is not live. */
    method Write(h: int, bytes: string) returns (ok: bool)
      requires Valid()
      modifies slots
      ensures Valid() && ok == (h in old(Contents()))
      ensures Contents() == if ok then old(Contents())[h := old(Contents())[h] + bytes] else old(Contents())
    {
      if !Live(h) { return false; }
      slots[h - 1].AppendBytes(bytes);
      ok := true;
    }

    method WriteLine(h: int, bytes: string) returns (ok: bool)
      requires Valid()
      modifies slots
      ensures Valid() && ok == (h in old(Contents()))
      ensures Contents() == if ok then old(Contents())[h := old(Contents())[h] + bytes + "\n"] else old(Contents())
    {
      ok := Write(h, bytes);
      if ok { ok := Write(h, "\n"); }
    }

    method ToStr(h: int) returns (text: Option<string>)
      requires Valid()
      ensures text == if h in Contents() then Some(Contents()[h]) else None
    {
      if !Live(h) { return None; }
      text := Some(slots[h - 1].data[..slots[h - 1].len]);
    }

    method Length(h: int) returns (n: Option<nat>)
      requires Valid()
      ensures n == if h in Contents() then Some(|Contents()[h]|) else None
    {
      n := if Live(h) then Some(slots[h - 1].len) else None;
    }

    method Clear(h: int) returns (ok: bool)
      requires Valid()
      modifies slots
      ensures Valid() && ok == (h in old(Contents()))
      ensures Contents() == if ok then old(Contents())[h := ""] else old(Contents())
    {
      if !Live(h) { return false; }
      slots[h - 1].Clear();
      ok := true;
    }

    method Free(h: int) returns (ok: bool)
      requires Valid()
      modifies slots
      ensures Valid() && ok == (h in old(Contents()))
      ensures Contents() == if ok then old(Contents()) - {h} else old(Contents())
    {
      if !Live(h) { return false; }
      slots[h - 1].Release();
      ok := true;
    }
  }
}
