/** Packed FAT entries: two FAT12 entries share three bytes, FAT16 entries are words. */
module FatEntries {
  import opened Arith
  import opened Bytes

  /** Byte offset of the word that holds entry `c`. */
  function EntryOffset(fat12: bool, c: nat): nat {
    if fat12 then c + c / 2 else c * 2
  }

  predicate Holds(fat: seq<byte>, fat12: bool, c: nat) {
    EntryOffset(fat12, c) + 2 <= |fat|
  }

  /** `nxt` of tools/fatls.py. */
  function Entry(fat: seq<byte>, fat12: bool, c: nat): (v: nat)
    requires Holds(fat, fat12, c)
    ensures v < if fat12 then 0x1000 else 0x1_0000
  {
    var w := U16(fat, EntryOffset(fat12, c));
    if !fat12 then w else if c % 2 == 1 then w / 0x10 else w % 0x1000
  }

  /** The word that `set` of tools/fatcp.py stores. */
  function NewWord(cur: nat, fat12: bool, c: nat, v: nat): (w: nat)
    requires cur < 0x1_0000
    ensures w < 0x1_0000
  {
    if !fat12 then v % 0x1_0000
    else if c % 2 == 1 then (v * 0x10 + cur % 0x10) % 0x1_0000
    else cur / 0x1000 * 0x1000 + v % 0x1000
  }

  function SetEntry(fat: seq<byte>, fat12: bool, c: nat, v: nat): (r: seq<byte>)
    requires Holds(fat, fat12, c)
    ensures |r| == |fat|
  {
    var o := EntryOffset(fat12, c);
    Splice(fat, o, LE16(NewWord(U16(fat, o), fat12, c, v)))
  }

  predicate FitsEntry(fat12: bool, v: nat) {
    v < if fat12 then 0x1000 else 0x1_0000
  }

  /** An even FAT12 entry is a byte and the low nibble of the next; an odd one the other way round. */
  function Nibbles(lo: nat, hi: nat, c: nat): nat {
    if c % 2 == 1 then lo / 0x10 + 0x10 * hi else lo + 0x100 * (hi % 0x10)
  }

  lemma EntryBytes(fat: seq<byte>, c: nat)
    requires Holds(fat, true, c)
    ensures Entry(fat, true, c) == Nibbles(fat[c + c / 2], fat[c + c / 2 + 1], c)
  {
    var lo: nat, hi: nat := fat[c + c / 2], fat[c + c / 2 + 1];
    if c % 2 == 1 {
      Parts(lo + 0x100 * hi, 0x10, lo / 0x10 + 0x10 * hi, lo % 0x10);
    } else {
      Parts(lo + 0x100 * hi, 0x1000, hi / 0x10, lo + 0x100 * (hi % 0x10));
    }
  }

  lemma NewBytesEven(lo: nat, hi: nat, v: nat)
    requires lo < 0x100 && hi < 0x100
    ensures var w := (lo + 0x100 * hi) / 0x1000 * 0x1000 + v % 0x1000;
            w % 0x100 == v % 0x100 && w / 0x100 == hi / 0x10 * 0x10 + v / 0x100 % 0x10
  {
    var q, v2, low := v / 0x1000, v / 0x100 % 0x10, v % 0x100;
    Parts(v / 0x100, 0x10, q, v2);
    Parts(lo + 0x100 * hi, 0x1000, hi / 0x10, lo + 0x100 * (hi % 0x10));
    Parts(v, 0x1000, q, v2 * 0x100 + low);
    Parts(hi / 0x10 * 0x1000 + v % 0x1000, 0x100, hi / 0x10 * 0x10 + v2, low);
  }

  lemma NewBytesOdd(lo: nat, hi: nat, v: nat)
    requires lo < 0x100 && hi < 0x100
    ensures var w := (v * 0x10 + (lo + 0x100 * hi) % 0x10) % 0x1_0000;
            w % 0x100 == lo % 0x10 + v * 0x10 % 0x100 && w / 0x100 == v / 0x10 % 0x100
  {
    var q, mid, v0, l := v / 0x1000, v / 0x10 % 0x100, v % 0x10, lo % 0x10;
    Parts(v / 0x10, 0x100, q, mid);
    Parts(lo + 0x100 * hi, 0x10, lo / 0x10 + 0x10 * hi, l);
    Parts(v * 0x10 + l, 0x1_0000, q, mid * 0x100 + v0 * 0x10 + l);
    Parts(mid * 0x100 + v0 * 0x10 + l, 0x100, mid, v0 * 0x10 + l);
    Parts(v * 0x10, 0x100, v / 0x10, v0 * 0x10);
  }

  /** The low and the high byte that the word-wise writer stores. */
  lemma NewBytes(lo: nat, hi: nat, c: nat, v: nat)
    requires lo < 0x100 && hi < 0x100
    ensures var w := NewWord(lo + 0x100 * hi, true, c, v);
            if c % 2 == 0 then
              w % 0x100 == v % 0x100 && w / 0x100 == hi / 0x10 * 0x10 + v / 0x100 % 0x10
            else
              w % 0x100 == lo % 0x10 + v * 0x10 % 0x100 && w / 0x100 == v / 0x10 % 0x100
  {
    if c % 2 == 0 {
      NewBytesEven(lo, hi, v);
    } else {
      NewBytesOdd(lo, hi, v);
    }
  }

  /** The new word holds the new entry and keeps the neighbour's nibble. */
  lemma NewNibbles(lo: nat, hi: nat, c: nat, v: nat)
    requires lo < 0x100 && hi < 0x100 && v < 0x1000
    ensures var w := NewWord(lo + 0x100 * hi, true, c, v);
            && Nibbles(w % 0x100, w / 0x100, c) == v
            && (if c % 2 == 1 then w % 0x100 % 0x10 == lo % 0x10 else w / 0x100 / 0x10 == hi / 0x10)
  {
    hide NewWord;
    NewBytes(lo, hi, c, v);
    if c % 2 == 1 {
      var v1, v0 := v / 0x10, v % 0x10;
      Parts(v1, 0x100, 0, v1);
      Parts(v * 0x10, 0x100, v1, v0 * 0x10);
      Parts(lo % 0x10 + v0 * 0x10, 0x10, v0, lo % 0x10);
    } else {
      Parts(v / 0x100, 0x10, 0, v / 0x100);
      Parts(hi / 0x10 * 0x10 + v / 0x100, 0x10, hi / 0x10, v / 0x100);
    }
  }

  lemma SetGet12(fat: seq<byte>, c: nat, v: nat, k: nat)
    requires Holds(fat, true, c) && Holds(fat, true, k) && v < 0x1000
    ensures Entry(SetEntry(fat, true, c, v), true, k) == if k == c then v else Entry(fat, true, k)
  {
    hide NewWord, Entry;
    var r, o := SetEntry(fat, true, c, v), c + c / 2;
    NewNibbles(fat[o], fat[o + 1], c, v);
    EntryBytes(fat, k);
    EntryBytes(r, k);
  }

  /** A written entry reads back, and no other entry changes although neighbours share a byte. */
  lemma SetGet(fat: seq<byte>, fat12: bool, c: nat, v: nat, k: nat)
    requires Holds(fat, fat12, c) && Holds(fat, fat12, k) && FitsEntry(fat12, v)
    ensures Entry(SetEntry(fat, fat12, c, v), fat12, k) == if k == c then v else Entry(fat, fat12, k)
  {
    if fat12 {
      SetGet12(fat, c, v, k);
    } else {
      var o := EntryOffset(fat12, c);
      CutSplice(fat, o, LE16(v));
      WordEntry(U16(fat, o), c, v);
    }
  }

  lemma WordEntry(cur: nat, c: nat, v: nat)
    requires cur < 0x1_0000 && v < 0x1_0000
    ensures NewWord(cur, false, c, v) == v
  {
  }

  /** `_fat12_set` of tools/mkfloppy.py, a byte at a time. */
  method Fat12Set(fat: array<byte>, n: nat, val: nat)
    requires Holds(fat[..], true, n)
    modifies fat
    ensures fat[..] == SetEntry(old(fat[..]), true, n, val)
  {
    hide NewWord;
    var off := n + n / 2;
    var a: byte, b: byte := fat[off], fat[off + 1];
    NewBytes(a, b, n, val);
    if n % 2 == 0 {
      fat[off] := val % 0x100;
      fat[off + 1] := b / 0x10 * 0x10 + val / 0x100 % 0x10;
    } else {
      fat[off] := a % 0x10 + val * 0x10 % 0x100;
      fat[off + 1] := val / 0x10 % 0x100;
    }
  }
}
