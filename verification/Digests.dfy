/** The buffered t-digest used by every metric. The digest itself is the multiset of the
    samples merged into it; samples are nanosecond deltas. */
module Digests {
  const BUFFER_FLUSH: nat := 1024

  datatype Digest = Digest(merged: multiset<int>, buffer: seq<int>) {
    /** Every sample pushed so far, merged or still buffered. */
    ghost function All(): multiset<int> {
      merged + multiset(buffer)
    }

    function Flush(): Digest {
      Digest(merged + multiset(buffer), [])
    }

    function Push(x: int): Digest {
      var pushed := Digest(merged, buffer + [x]);
      if |pushed.buffer| >= BUFFER_FLUSH then pushed.Flush() else pushed
    }
  }

  const EMPTY := Digest(multiset{}, [])

  /** Pushing adds exactly the sample, never leaves a buffer of 1024 behind, and does not merge
      before the buffer is full. */
  lemma PushAddsSample(d: Digest, x: int)
    ensures d.Push(x).All() == d.All() + multiset{x}
    ensures |d.buffer| < 1024 ==> |d.Push(x).buffer| < 1024
    ensures |d.buffer| < 1023 ==> d.Push(x).merged == d.merged
    ensures d.Flush().All() == d.All() == d.Flush().merged
  {
    assert multiset(d.buffer + [x]) == multiset(d.buffer) + multiset{x};
  }
}
