/**
 * The state-tracking ring buffer of TinyA6281.cpp as values: the state
 * vector (one packet per chip) and its head index. Position `head` holds the
 * packet sent most recently, which sits in the chip nearest the controller;
 * the chip k hops further down holds the packet at slot (head + k) mod n.
 * Before the first send the head is `n`, one past the last slot.
 */
module StateRing {

  datatype RingState = RingState(buf: seq<bv32>, head: nat)

  /** A non-empty buffer whose head is a slot or the one-past-the-end sentinel. */
  predicate WellFormed(r: RingState)
  {
    0 < |r.buf| && r.head <= |r.buf|
  }

  /** The head update of sendPacket: one slot back, wrapping from 0 to n - 1. */
  function Behind(head: nat, n: nat): (h: nat)
    requires 0 < n && head <= n
    ensures h < n && (head == 0 || head == n ==> h == n - 1)
  {
    if head != 0 then head - 1 else n - 1
  }

  /** The index walk of saveState: the slot `i` steps after `head`, wrapping from n to 0. */
  function Ahead(head: nat, i: nat, n: nat): (k: nat)
    requires head < n && i < n
    ensures k < n
  {
    if head + i < n then head + i else head + i - n
  }

  /**
   * Recording one sent packet: the head moves one slot back around the ring,
   * the packet is stored there, and no other slot changes.
   */
  function Record(r: RingState, p: bv32): (r': RingState)
    requires WellFormed(r)
    ensures WellFormed(r') && |r'.buf| == |r.buf| && r'.head < |r.buf|
    ensures r'.head == Behind(r.head, |r.buf|) && r'.buf[r'.head] == p
    ensures forall j :: 0 <= j < |r.buf| && j != r'.head ==> r'.buf[j] == r.buf[j]
  {
    var h := Behind(r.head, |r.buf|);
    RingState(r.buf[h := p], h)
  }

  /** Recording every packet of `ps`, first to last. */
  function RecordAll(r: RingState, ps: seq<bv32>): (r': RingState)
    requires WellFormed(r)
    ensures WellFormed(r') && |r'.buf| == |r.buf|
    ensures ps != [] ==> r'.head < |r.buf|
    ensures ps == [] ==> r' == r
  {
    if ps == [] then r else Record(RecordAll(r, ps[..|ps| - 1]), ps[|ps| - 1])
  }

  /**
   * The chain's contents in controller-to-far-end order, as saveState copies
   * them out: entry i is slot (head + i) mod n.
   */
  function Saved(r: RingState): (s: seq<bv32>)
    requires WellFormed(r) && r.head < |r.buf|
    ensures |s| == |r.buf|
    ensures forall i :: 0 <= i < |s| ==> s[i] == r.buf[Ahead(r.head, i, |r.buf|)]
  {
    seq(|r.buf|, i requires 0 <= i < |r.buf| => r.buf[Ahead(r.head, i, |r.buf|)])
  }

  function Reversed(s: seq<bv32>): (t: seq<bv32>)
    ensures |t| == |s| && forall i :: 0 <= i < |s| ==> t[i] == s[|s| - 1 - i]
  {
    seq(|s|, i requires 0 <= i < |s| => s[|s| - 1 - i])
  }

  /** A remainder below the modulus is the number itself. */
  lemma ModBelow(a: nat, n: nat)
    requires a < n
    ensures a % n == a
  {
  }

  /** A number between n and 2n - 1 leaves the remainder a - n. */
  lemma ModWrap(a: nat, n: nat)
    requires n <= a < 2 * n
    ensures a % n == a - n
  {
    assert a - n == (a - n) % n by {
      ModBelow(a - n, n);
    }
    assert (a - n) + n * 1 == a;
  }

  /** Behind moves the head one slot back modulo n: (head + n - 1) mod n. */
  lemma BehindIsMod(head: nat, n: nat)
    requires 0 < n && head <= n
    ensures Behind(head, n) == (head + n - 1) % n
  {
    if head != 0 {
      ModWrap(head + n - 1, n);
    } else {
      ModBelow(n - 1, n);
    }
  }

  /** Ahead is (head + i) mod n. */
  lemma AheadIsMod(head: nat, i: nat, n: nat)
    requires head < n && i < n
    ensures Ahead(head, i, n) == (head + i) % n
  {
    if head + i < n {
      ModBelow(head + i, n);
    } else {
      ModWrap(head + i, n);
    }
  }

  /** Saved entry i is slot (head + i) mod n. */
  lemma SavedAtMod(r: RingState)
    requires WellFormed(r) && r.head < |r.buf|
    ensures forall i :: 0 <= i < |r.buf| ==> Saved(r)[i] == r.buf[(r.head + i) % |r.buf|]
  {
    forall i | 0 <= i < |r.buf|
      ensures Saved(r)[i] == r.buf[(r.head + i) % |r.buf|]
    {
      AheadIsMod(r.head, i, |r.buf|);
    }
  }

  /** One step back and then i + 1 steps ahead is i steps ahead. */
  lemma AheadOfBehind(head: nat, i: nat, n: nat)
    requires head < n && i + 1 < n
    ensures Ahead(Behind(head, n), i + 1, n) == Ahead(head, i, n)
  {
  }

  /** Stepping back from k + 1 steps ahead gives k steps ahead; from the head itself, n - 1 steps. */
  lemma BehindOfAhead(head: nat, k: nat, n: nat)
    requires head < n && k < n
    ensures Behind(Ahead(head, k, n), n) == if k == 0 then Ahead(head, n - 1, n) else Ahead(head, k - 1, n)
  {
  }

  /**
   * Sending one packet shifts the chain: the new packet is nearest the
   * controller and the packet in the far-end chip falls off.
   */
  lemma SavedAfterRecord(r: RingState, p: bv32)
    requires WellFormed(r) && r.head < |r.buf|
    ensures Saved(Record(r, p)) == [p] + Saved(r)[..|r.buf| - 1]
  {
    var n := |r.buf|;
    var s, s' := Saved(r), Saved(Record(r, p));
    forall i | 0 <= i < n
      ensures s'[i] == ([p] + s[..n - 1])[i]
    {
      if i > 0 {
        AheadOfBehind(r.head, i - 1, n);
        assert Ahead(Behind(r.head, n), i, n) != Behind(r.head, n);
      }
    }
  }

  /** After k sends, the first k saved entries are those packets, newest first. */
  lemma {:induction false} SavedPrefixAfterRecords(r: RingState, ps: seq<bv32>)
    requires WellFormed(r) && 0 < |ps| <= |r.buf|
    ensures Saved(RecordAll(r, ps))[..|ps|] == Reversed(ps)
  {
    var n, k := |r.buf|, |ps|;
    var init, p := ps[..k - 1], ps[k - 1];
    if k == 1 {
      assert Saved(RecordAll(r, ps))[0] == p;
    } else {
      var r0 := RecordAll(r, init);
      assert RecordAll(r, ps) == Record(r0, p);
      assert Saved(r0)[..k - 1] == Reversed(init) by {
        SavedPrefixAfterRecords(r, init);
      }
      assert Saved(Record(r0, p)) == [p] + Saved(r0)[..n - 1] by {
        SavedAfterRecord(r0, p);
      }
      assert Saved(Record(r0, p))[..k] == [p] + Saved(r0)[..k - 1];
      assert [p] + Reversed(init) == Reversed(ps);
    }
  }

  /**
   * Once as many packets as there are chips have been sent, saving gives
   * exactly those packets, newest first, whatever the buffer held before.
   */
  lemma FillThenSave(r: RingState, ps: seq<bv32>)
    requires WellFormed(r) && |ps| == |r.buf|
    ensures Saved(RecordAll(r, ps)) == Reversed(ps)
  {
    SavedPrefixAfterRecords(r, ps);
    assert Saved(RecordAll(r, ps))[..|ps|] == Saved(RecordAll(r, ps));
  }

  /** Where the head is after k packets of the saved contents have been re-sent: k steps back. */
  function RestoredHead(head: nat, k: nat, n: nat): (h: nat)
    requires head < n && k <= n
    ensures h < n
  {
    if k == 0 then head else Ahead(head, n - k, n)
  }

  /**
   * Re-sending, far end first, the first k packets of a sequence whose entry j
   * is the packet already held n - 1 - j steps ahead of the head rewrites each
   * slot with the value it already holds and moves the head back k steps.
   */
  lemma {:induction false} RestorePrefix(r: RingState, order: seq<bv32>, k: nat)
    requires WellFormed(r) && r.head < |r.buf| && k <= |r.buf| && k <= |order|
    requires forall j :: 0 <= j < k ==> order[j] == r.buf[Ahead(r.head, |r.buf| - 1 - j, |r.buf|)]
    ensures RecordAll(r, order[..k]) == RingState(r.buf, RestoredHead(r.head, k, |r.buf|))
  {
    if k > 0 {
      RecordAllPrefix(r, order, k);
      RestorePrefix(r, order, k - 1);
      RestoreStep(r.buf, r.head, k, order[k - 1]);
    }
  }

  /** Recording the first k packets is recording the first k - 1, then packet k - 1. */
  lemma RecordAllPrefix(r: RingState, ps: seq<bv32>, k: nat)
    requires WellFormed(r) && 0 < k <= |ps|
    ensures RecordAll(r, ps[..k]) == Record(RecordAll(r, ps[..k - 1]), ps[k - 1])
  {
    assert ps[..k][..k - 1] == ps[..k - 1];
  }

  /** One step of RestorePrefix: the k-th re-sent packet lands on the slot that already holds it. */
  lemma RestoreStep(buf: seq<bv32>, head: nat, k: nat, p: bv32)
    requires head < |buf| && 0 < k <= |buf|
    requires p == buf[Ahead(head, |buf| - k, |buf|)]
    ensures Record(RingState(buf, RestoredHead(head, k - 1, |buf|)), p)
         == RingState(buf, RestoredHead(head, k, |buf|))
  {
    var n := |buf|;
    BehindOfAhead(head, if k == 1 then 0 else n - (k - 1), n);
    assert Behind(RestoredHead(head, k - 1, n), n) == Ahead(head, n - k, n);
    assert buf[Ahead(head, n - k, n) := p] == buf;
  }

  /**
   * Restoring the saved contents (sending them far end first) leaves the
   * buffer and its head exactly as they were.
   */
  lemma RestoreKeepsRing(r: RingState)
    requires WellFormed(r) && r.head < |r.buf|
    ensures RecordAll(r, Reversed(Saved(r))) == r
  {
    var n := |r.buf|;
    var order := Reversed(Saved(r));
    forall j | 0 <= j < n
      ensures order[j] == r.buf[Ahead(r.head, n - 1 - j, n)]
    {
      assert order[j] == Saved(r)[n - 1 - j];
    }
    RestorePrefix(r, order, n);
    assert order[..n] == order;
  }

  /** The saved contents are the buffer rotated to start at the head. */
  lemma SavedIsRotation(r: RingState)
    requires WellFormed(r) && r.head < |r.buf|
    ensures Saved(r) == r.buf[r.head..] + r.buf[..r.head]
  {
    var n := |r.buf|;
    var rot := r.buf[r.head..] + r.buf[..r.head];
    forall i | 0 <= i < n
      ensures Saved(r)[i] == rot[i]
    {
      if r.head + i < n {
        assert rot[i] == r.buf[r.head + i];
      } else {
        assert rot[i] == r.buf[r.head + i - n];
      }
    }
  }
}
