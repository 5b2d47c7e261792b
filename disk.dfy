/** getDiskUsage: the used share of a filesystem from its statvfs block
    counts. */
module Disk {

  /** Used space in percent: total and free are the block counts f_blocks and
      f_bfree scaled by the fragment size f_frsize; 0 when total is 0. */
  function DiskPercent(blocks: nat, freeBlocks: nat, frsize: nat): (r: real)
    requires freeBlocks <= blocks
    ensures blocks * frsize == 0 ==> r == 0.0
    ensures blocks * frsize > 0 ==>
      r * (blocks * frsize) as real == 100.0 * (blocks * frsize - freeBlocks * frsize) as real
  {
    var total := blocks * frsize;
    var free := freeBlocks * frsize;
    if total > 0 then (total - free) as real / total as real * 100.0 else 0.0
  }

  /** An empty filesystem or a zero fragment size gives 0. */
  lemma DiskPercentZeroTotal(blocks: nat, freeBlocks: nat, frsize: nat)
    requires freeBlocks <= blocks
    requires blocks == 0 || frsize == 0
    ensures DiskPercent(blocks, freeBlocks, frsize) == 0.0
  {
  }

  /** The fragment size cancels out: the gauge is the used share of blocks,
      and it lies in [0, 100]. */
  lemma DiskPercentOfBlocks(blocks: nat, freeBlocks: nat, frsize: nat)
    requires freeBlocks <= blocks && blocks > 0 && frsize > 0
    ensures DiskPercent(blocks, freeBlocks, frsize) == (blocks - freeBlocks) as real / blocks as real * 100.0
    ensures 0.0 <= DiskPercent(blocks, freeBlocks, frsize) <= 100.0
  {
    var b, f, z := blocks as real, freeBlocks as real, frsize as real;
    RealProduct(blocks, frsize);
    RealProduct(freeBlocks, frsize);
    assert (blocks * frsize - freeBlocks * frsize) as real == b * z - f * z;
    CancelFactor(b, f, z);
    ShareWithinOne(b - f, b);
  }

  lemma RealProduct(x: int, y: int)
    ensures (x * y) as real == x as real * y as real
  {
  }

  lemma CancelFactor(b: real, f: real, z: real)
    requires 0.0 < b && 0.0 < z
    ensures (b * z - f * z) / (b * z) == (b - f) / b
  {
    assert b * z - f * z == (b - f) * z;
  }

  lemma ShareWithinOne(part: real, whole: real)
    requires 0.0 <= part <= whole && 0.0 < whole
    ensures 0.0 <= part / whole * 100.0 <= 100.0
  {
  }

  /** 1000 blocks with 250 free: 75% used. */
  lemma DiskPercentExample()
    ensures DiskPercent(1000, 250, 1) == 75.0
  {
  }
}
