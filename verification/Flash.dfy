/** The NOR flash of the application processor, as the `nvmc` driver writes it.
    Programming a word can only clear bits; erasing a page sets them all. Addresses are
    32-bit and wrap; a store that falls outside the flash changes nothing. */
module Flash {
  const ADDRESS_SPACE := 0x1_0000_0000
  const FLASH_SIZE := 0x10_0000
  const FLASH_PAGE_SIZE := 4096

  type u32 = x: int | 0 <= x < 0x1_0000_0000

  /** Distance from `start` to `addr`, going upwards through the 32-bit address space. */
  function Offset(addr: int, start: int): int {
    (addr - start) % ADDRESS_SPACE
  }

  /** Flash after erasing `page`. */
  function Erased(mem: seq<bv8>, page: nat): (r: seq<bv8>)
    ensures |r| == |mem|
  {
    seq(|mem|, a requires 0 <= a < |mem| =>
      if Offset(a, page * FLASH_PAGE_SIZE) < FLASH_PAGE_SIZE then 0xFF else mem[a])
  }

  /** Flash after programming the first `words` words of `data` at `addr`. */
  function Programmed(mem: seq<bv8>, addr: int, data: seq<bv8>, words: nat): (r: seq<bv8>)
    requires 4 * words <= |data|
    ensures |r| == |mem|
  {
    seq(|mem|, a requires 0 <= a < |mem| =>
      var o := Offset(a, addr);
      if o < 4 * words then mem[a] & data[o] else mem[a])
  }

  /** `nvmc_page_erase`: one store starts the erase of the whole page. */
  method PageErase(mem: array<bv8>, page: nat)
    modifies mem
    ensures mem[..] == Erased(old(mem[..]), page)
  {
    forall a | 0 <= a < mem.Length && Offset(a, page * FLASH_PAGE_SIZE) < FLASH_PAGE_SIZE {
      mem[a] := 0xFF;
    }
  }

  /** Flash after storing at `dest` the word found at byte `from` of `data`. */
  function WordProgrammed(mem: seq<bv8>, dest: u32, data: seq<bv8>, from: nat): (r: seq<bv8>)
    requires from + 4 <= |data|
    ensures |r| == |mem|
  {
    seq(|mem|, a requires 0 <= a < |mem| =>
      if dest <= a < dest + 4 then mem[a] & data[from + (a - dest)] else mem[a])
  }

  /** One word store. */
  method ProgramWord(mem: array<bv8>, dest: u32, data: array<bv8>, from: nat)
    requires mem != data && from + 4 <= data.Length
    modifies mem
    ensures mem[..] == WordProgrammed(old(mem[..]), dest, data[..], from)
  {
    forall a | dest <= a < dest + 4 && a < mem.Length {
      mem[a] := mem[a] & data[from + (a - dest)];
    }
  }

  /** `nvmc_write`: `len >> 2` word stores; up to three trailing bytes are never written. */
  method NvmcWrite(mem: array<bv8>, addr: u32, data: array<bv8>, len: nat)
    requires mem != data && mem.Length <= ADDRESS_SPACE
    requires addr % 4 == 0 && len <= data.Length && len <= ADDRESS_SPACE
    modifies mem
    ensures mem[..] == Programmed(old(mem[..]), addr, data[..], len / 4)
  {
    ghost var was, what := mem[..], data[..];
    var dest: u32 := addr;
    for i := 0 to len / 4
      invariant dest == (addr + 4 * i) % ADDRESS_SPACE && data[..] == what
      invariant mem[..] == Programmed(was, addr, what, i)
    {
      ghost var before := mem[..];
      ProgramWord(mem, dest, data, 4 * i);
      assert mem[..] == WordProgrammed(before, dest, data[..], 4 * i);
      ProgrammedStep(was, addr, what, i);
      dest := (dest + 4) % ADDRESS_SPACE;
    }
  }

  /** Programming i words and then one more is programming i + 1 words. */
  lemma ProgrammedStep(mem: seq<bv8>, addr: u32, data: seq<bv8>, i: nat)
    requires |mem| <= ADDRESS_SPACE && addr % 4 == 0 && 4 * i + 4 <= |data| && 4 * i + 4 <= ADDRESS_SPACE
    ensures WordProgrammed(Programmed(mem, addr, data, i), (addr + 4 * i) % ADDRESS_SPACE, data, 4 * i)
         == Programmed(mem, addr, data, i + 1)
  {
    var dest := (addr + 4 * i) % ADDRESS_SPACE;
    var before := Programmed(mem, addr, data, i);
    forall a {:trigger Offset(a, addr)} | 0 <= a < |mem|
      ensures WordProgrammed(before, dest, data, 4 * i)[a] == Programmed(mem, addr, data, i + 1)[a]
    {
      WordOffset(a, addr, i);
      if dest <= a < dest + 4 {
        assert before[a] == mem[a];
      }
    }
  }

  /** The bytes at offsets 4i..4i+3 are exactly the bytes of the word stored at the i-th destination. */
  lemma WordOffset(a: int, addr: u32, i: nat)
    requires 0 <= a < ADDRESS_SPACE && addr % 4 == 0 && 4 * i + 4 <= ADDRESS_SPACE
    ensures var dest := (addr + 4 * i) % ADDRESS_SPACE;
      && (dest <= a < dest + 4 <==> 4 * i <= Offset(a, addr) < 4 * i + 4)
      && (dest <= a < dest + 4 ==> Offset(a, addr) == 4 * i + (a - dest))
  {
  }

  /** Inside the flash an address sits at its plain distance from any lower start. */
  lemma OffsetInRange(a: int, start: int)
    requires 0 <= start <= a < ADDRESS_SPACE
    ensures Offset(a, start) == a - start
  {
  }

  lemma OffsetBelow(a: int, start: int)
    requires 0 <= a < start < ADDRESS_SPACE
    ensures Offset(a, start) == a - start + ADDRESS_SPACE
  {
  }
}
