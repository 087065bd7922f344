/**
 * The completion barrier the capture loop builds for each finished clip: a
 * shared counter, the number of channels it expects, and a cleanup that
 * deletes the clip and its thumbnail. Each callback increments the counter
 * and runs the cleanup whenever the counter is at or above the expected
 * number, so the cleanup runs again on every callback past the threshold;
 * the deletions are guarded by existence checks.
 */
module Completion {
  import opened Common

  /** How many times the cleanup has run after `n` callbacks. */
  function CleanupsAfter(n: nat, expected: nat): nat {
    if n == 0 then 0 else CleanupsAfter(n - 1, expected) + (if n >= expected then 1 else 0)
  }

  /**
   * The cleanup first runs on the callback that brings the count to the
   * expected number (to 1 when nothing is expected) and then once more on
   * every later callback.
   */
  lemma {:induction false} CleanupsClosedForm(n: nat, expected: nat)
    ensures CleanupsAfter(n, expected) == if n >= Max(expected, 1) then n - Max(expected, 1) + 1 else 0
  {
    if n > 0 {
      CleanupsClosedForm(n - 1, expected);
    }
  }

  /**
   * With at least one channel expected, the cleanup runs exactly once if and
   * only if exactly the expected number of callbacks arrive; fewer callbacks
   * never run it, more run it repeatedly.
   */
  lemma CleanupOnceIffExpected(n: nat, expected: nat)
    requires expected >= 1
    ensures CleanupsAfter(n, expected) == 1 <==> n == expected
    ensures CleanupsAfter(n, expected) == 0 <==> n < expected
    ensures n > expected ==> CleanupsAfter(n, expected) > 1
  {
    CleanupsClosedForm(n, expected);
  }

  /**
   * The files left after `n` callbacks when nothing else touches the disk:
   * the clip and thumbnail are gone once the cleanup has run at least once,
   * and running it again changes nothing.
   */
  function FilesAfter(files: Files, video: Path, thumb: Path, n: nat, expected: nat): Files {
    if CleanupsAfter(n, expected) > 0 then files - {video, thumb} else files
  }

  /**
   * The files left when `k` more callbacks arrive at a barrier whose count is
   * `from`: the clip and thumbnail go as soon as one of them reaches the
   * expected number.
   */
  function Cleaned(files: Files, video: Path, thumb: Path, from: nat, k: nat, expected: nat): Files {
    if k > 0 && from + k >= expected then files - {video, thumb} else files
  }

  /** The closure `notificar_servicio_terminado` and the counter it shares. */
  class Barrier {
    const video: Path
    const thumb: Path
    const expected: nat
    var count: nat
    var cleanups: nat

    ghost predicate Valid()
      reads this
    {
      cleanups == CleanupsAfter(count, expected)
    }

    constructor (video: Path, thumb: Path, expected: nat)
      ensures Valid()
      ensures this.video == video && this.thumb == thumb && this.expected == expected
      ensures count == 0 && cleanups == 0
    {
      this.video := video;
      this.thumb := thumb;
      this.expected := expected;
      count := 0;
      cleanups := 0;
    }

    /** One channel reports that it is done with the files. */
    method Notify(disk: Disk)
      requires Valid()
      modifies this, disk
      ensures Valid()
      ensures count == old(count) + 1
      ensures cleanups == old(cleanups) + (if count >= expected then 1 else 0)
      ensures disk.files == if count >= expected then old(disk.files) - {video, thumb} else old(disk.files)
    {
      count := count + 1;
      if count >= expected {
        cleanups := cleanups + 1;
        if video in disk.files {
          disk.files := disk.files - {video};
        }
        if thumb in disk.files {
          disk.files := disk.files - {thumb};
        }
      }
    }
  }

  /**
   * Callbacks arriving one after another on a fresh barrier leave exactly the
   * count, cleanup runs and files that `CleanupsAfter` and `FilesAfter` give,
   * whatever order the channels report in.
   */
  method NotifyAll(b: Barrier, disk: Disk, n: nat)
    requires b.Valid() && b.count == 0
    modifies b, disk
    ensures b.Valid() && b.count == n
    ensures b.cleanups == CleanupsAfter(n, b.expected)
    ensures disk.files == FilesAfter(old(disk.files), b.video, b.thumb, n, b.expected)
  {
    var i := 0;
    while i < n
      invariant 0 <= i <= n
      invariant b.Valid() && b.count == i
      invariant disk.files == FilesAfter(old(disk.files), b.video, b.thumb, i, b.expected)
    {
      b.Notify(disk);
      i := i + 1;
    }
  }
}
