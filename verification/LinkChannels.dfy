// The two channels of datagrams, as the protocol sees them: taking datagrams out of an outbox, carrying them to the
// other inbox, losing and duplicating them. A raw datagram is one relevant packet of the pair or none (it may belong
// to another pair, fail to parse, or be a ping), so each of these is one step of the protocol's channels or none, and
// the order of the relevant packets is the order of the datagrams.

module LinkChannels {
  import opened Bytes
  import opened Message
  import opened Client
  import opened ServerSpec
  import opened Protocol
  import opened Link

  lemma TakeAMirrors<R>(w: World<R>, r: R, n: Net)
    requires Mirrors(w, r, n)
    ensures Mirrors(w.(a := w.a.(outbox := []), ab := w.ab + At(w.a.outbox, w.addressB)), r, n)
  {
    var sig := w.b.signature;
    var taken := At(w.a.outbox, w.addressB);
    PickAppend(sig, true, w.ab, taken);
    Associative(Got(sig, true, w.b.inbox, w.addressA), Pick(sig, true, w.ab), Pick(sig, true, taken));
    assert Got(sig, true, [], w.addressB) == [];
    var w' := w.(a := w.a.(outbox := []), ab := w.ab + taken);
    assert Forwards(w') == Forwards(w);
    assert Backwards(w') == Backwards(w);
  }

  lemma TakeBMirrors<R>(w: World<R>, r: R, n: Net)
    requires Mirrors(w, r, n)
    ensures Mirrors(w.(b := w.b.(outbox := []), ba := w.ba + At(w.b.outbox, w.addressA)), r, n)
  {
    var sig := w.a.signature;
    var taken := At(w.b.outbox, w.addressA);
    PickAppend(sig, false, w.ba, taken);
    Associative(Got(sig, false, w.a.inbox, w.addressB), Pick(sig, false, w.ba), Pick(sig, false, taken));
    assert Got(sig, false, [], w.addressA) == [];
    var w' := w.(b := w.b.(outbox := []), ba := w.ba + taken);
    assert Forwards(w') == Forwards(w);
    assert Backwards(w') == Backwards(w);
  }

  /** Moving the front of a channel to the end of the inbox moves nothing in the sequence of relevant packets. */
  lemma CarryFront(signature: Signature, forward: bool, inbox: seq<Datagram>, raws: seq<seq<byte>>, address: Address)
    requires raws != []
    ensures Got(signature, forward, inbox + [Datagram(address, raws[0])], address) + Pick(signature, forward, raws[1..])
            == Got(signature, forward, inbox, address) + Pick(signature, forward, raws)
  {
    var d := Datagram(address, raws[0]);
    GotAppend(signature, forward, inbox, [d], address);
    GotOne(signature, forward, d, address);
    Associative(Got(signature, forward, inbox, address), Got(signature, forward, [d], address),
                Pick(signature, forward, raws[1..]));
  }

  lemma CarryABMirrors<R>(w: World<R>, r: R, n: Net)
    requires Mirrors(w, r, n) && w.ab != []
    ensures Mirrors(w.(b := w.b.(inbox := w.b.inbox + [Datagram(w.addressA, w.ab[0])]), ab := w.ab[1..]), r, n)
  {
    CarryFront(w.b.signature, true, w.b.inbox, w.ab, w.addressA);
  }

  lemma CarryBAMirrors<R>(w: World<R>, r: R, n: Net)
    requires Mirrors(w, r, n) && w.ba != []
    ensures Mirrors(w.(a := w.a.(inbox := w.a.inbox + [Datagram(w.addressB, w.ba[0])]), ba := w.ba[1..]), r, n)
  {
    CarryFront(w.a.signature, false, w.a.inbox, w.ba, w.addressB);
  }

  lemma RemoveMiddle<T>(x: seq<T>, e: T, y: seq<T>)
    ensures RemoveAt(x + [e] + y, |x|) == x + y
  {
  }

  lemma DuplicateMiddle<T>(x: seq<T>, e: T, y: seq<T>)
    ensures DuplicateAt(x + [e] + y, |x|) == x + [e] + ([e] + y)
  {
  }

  lemma PickAround(signature: Signature, forward: bool, x: seq<seq<byte>>, raw: seq<byte>, y: seq<seq<byte>>)
    ensures var p := Parse(signature, raw);
            Pick(signature, forward, x + [raw] + y)
            == Pick(signature, forward, x)
               + (if p.Some? && Relevant(forward, p.value) then [p.value] else []) + Pick(signature, forward, y)
  {
    PickAppend(signature, forward, x + [raw], y);
    PickAppend(signature, forward, x, [raw]);
    assert [raw][1..] == [] && Pick(signature, forward, []) == [];
  }

  /** A datagram lost is a relevant packet lost, or nothing. */
  lemma PickRemove(signature: Signature, forward: bool, raws: seq<seq<byte>>, i: nat) returns (j: nat)
    ensures j <= |Pick(signature, forward, raws)|
    ensures Pick(signature, forward, RemoveAt(raws, i)) == RemoveAt(Pick(signature, forward, raws), j)
  {
    j := |Pick(signature, forward, raws)|;
    if i < |raws| {
      var x, y := raws[..i], raws[i + 1..];
      assert raws == x + [raws[i]] + y;
      PickAround(signature, forward, x, raws[i], y);
      PickAppend(signature, forward, x, y);
      var p := Parse(signature, raws[i]);
      if p.Some? && Relevant(forward, p.value) {
        j := |Pick(signature, forward, x)|;
        RemoveMiddle(Pick(signature, forward, x), p.value, Pick(signature, forward, y));
      }
    }
  }

  lemma PickDuplicate(signature: Signature, forward: bool, raws: seq<seq<byte>>, i: nat) returns (j: nat)
    ensures j <= |Pick(signature, forward, raws)|
    ensures Pick(signature, forward, DuplicateAt(raws, i)) == DuplicateAt(Pick(signature, forward, raws), j)
  {
    j := |Pick(signature, forward, raws)|;
    if i < |raws| {
      var x, y := raws[..i], raws[i + 1..];
      assert raws == x + [raws[i]] + y;
      DuplicateMiddle(x, raws[i], y);
      PickAround(signature, forward, x, raws[i], [raws[i]] + y);
      PickAround(signature, forward, [], raws[i], y);
      assert [] + [raws[i]] + y == [raws[i]] + y;
      PickAround(signature, forward, x, raws[i], y);
      var p := Parse(signature, raws[i]);
      if p.Some? && Relevant(forward, p.value) {
        j := |Pick(signature, forward, x)|;
        DuplicateMiddle(Pick(signature, forward, x), p.value, Pick(signature, forward, y));
        assert [] + [p.value] + Pick(signature, forward, y) == [p.value] + Pick(signature, forward, y);
      } else {
        assert [] + [] + Pick(signature, forward, y) == Pick(signature, forward, y);
        assert Pick(signature, forward, x) + [] == Pick(signature, forward, x);
      }
    }
  }

  lemma RemoveInside<T>(x: seq<T>, y: seq<T>, z: seq<T>, j: nat)
    requires j <= |y|
    ensures x + RemoveAt(y, j) + z == RemoveAt(x + y + z, if j < |y| then |x| + j else |x + y + z|)
  {
  }

  lemma DuplicateInside<T>(x: seq<T>, y: seq<T>, z: seq<T>, j: nat)
    requires j <= |y|
    ensures x + DuplicateAt(y, j) + z == DuplicateAt(x + y + z, if j < |y| then |x| + j else |x + y + z|)
  {
  }

  lemma PacketsRemove(xs: seq<InFlight>, i: nat)
    ensures Packets(RemoveAt(xs, i)) == RemoveAt(Packets(xs), i)
  {
  }

  lemma PacketsDuplicate(xs: seq<InFlight>, i: nat)
    ensures Packets(DuplicateAt(xs, i)) == DuplicateAt(Packets(xs), i)
  {
  }

  lemma DropABMoves<R>(w: World<R>, i: nat) returns (k: nat)
    ensures Forwards(w.(ab := RemoveAt(w.ab, i))) == RemoveAt(Forwards(w), k)
    ensures Backwards(w.(ab := RemoveAt(w.ab, i))) == Backwards(w)
  {
    var sig := w.b.signature;
    var x, z := Got(sig, true, w.b.inbox, w.addressA), Got(sig, true, w.a.outbox, w.addressB);
    var y := Pick(sig, true, w.ab);
    var j := PickRemove(sig, true, w.ab, i);
    RemoveInside(x, y, z, j);
    k := if j < |y| then |x| + j else |x + y + z|;
  }

  lemma DropABMirrors<R>(w: World<R>, r: R, n: Net, i: nat) returns (steps: seq<Step>)
    requires Mirrors(w, r, n)
    ensures Follows(w.(ab := RemoveAt(w.ab, i)), r, n, steps, 0)
  {
    var k := DropABMoves(w, i);
    PacketsRemove(n.fwd, k);
    steps := [LoseForward(k)];
    OneStep(n, LoseForward(k));
  }

  lemma DropBAMoves<R>(w: World<R>, i: nat) returns (k: nat)
    ensures Backwards(w.(ba := RemoveAt(w.ba, i))) == RemoveAt(Backwards(w), k)
    ensures Forwards(w.(ba := RemoveAt(w.ba, i))) == Forwards(w)
  {
    var sig := w.a.signature;
    var x, z := Got(sig, false, w.a.inbox, w.addressB), Got(sig, false, w.b.outbox, w.addressA);
    var y := Pick(sig, false, w.ba);
    var j := PickRemove(sig, false, w.ba, i);
    RemoveInside(x, y, z, j);
    k := if j < |y| then |x| + j else |x + y + z|;
  }

  lemma DropBAMirrors<R>(w: World<R>, r: R, n: Net, i: nat) returns (steps: seq<Step>)
    requires Mirrors(w, r, n)
    ensures Follows(w.(ba := RemoveAt(w.ba, i)), r, n, steps, 0)
  {
    var k := DropBAMoves(w, i);
    PacketsRemove(n.bwd, k);
    steps := [LoseReply(k)];
    OneStep(n, LoseReply(k));
  }

  lemma CopyABMoves<R>(w: World<R>, i: nat) returns (k: nat)
    ensures Forwards(w.(ab := DuplicateAt(w.ab, i))) == DuplicateAt(Forwards(w), k)
    ensures Backwards(w.(ab := DuplicateAt(w.ab, i))) == Backwards(w)
  {
    var sig := w.b.signature;
    var x, z := Got(sig, true, w.b.inbox, w.addressA), Got(sig, true, w.a.outbox, w.addressB);
    var y := Pick(sig, true, w.ab);
    var j := PickDuplicate(sig, true, w.ab, i);
    DuplicateInside(x, y, z, j);
    k := if j < |y| then |x| + j else |x + y + z|;
  }

  lemma CopyABMirrors<R>(w: World<R>, r: R, n: Net, i: nat) returns (steps: seq<Step>)
    requires Mirrors(w, r, n)
    ensures Follows(w.(ab := DuplicateAt(w.ab, i)), r, n, steps, 0)
  {
    var k := CopyABMoves(w, i);
    PacketsDuplicate(n.fwd, k);
    steps := [DuplicateForward(k)];
    OneStep(n, DuplicateForward(k));
  }

  lemma CopyBAMoves<R>(w: World<R>, i: nat) returns (k: nat)
    ensures Backwards(w.(ba := DuplicateAt(w.ba, i))) == DuplicateAt(Backwards(w), k)
    ensures Forwards(w.(ba := DuplicateAt(w.ba, i))) == Forwards(w)
  {
    var sig := w.a.signature;
    var x, z := Got(sig, false, w.a.inbox, w.addressB), Got(sig, false, w.b.outbox, w.addressA);
    var y := Pick(sig, false, w.ba);
    var j := PickDuplicate(sig, false, w.ba, i);
    DuplicateInside(x, y, z, j);
    k := if j < |y| then |x| + j else |x + y + z|;
  }

  lemma CopyBAMirrors<R>(w: World<R>, r: R, n: Net, i: nat) returns (steps: seq<Step>)
    requires Mirrors(w, r, n)
    ensures Follows(w.(ba := DuplicateAt(w.ba, i)), r, n, steps, 0)
  {
    var k := CopyBAMoves(w, i);
    PacketsDuplicate(n.bwd, k);
    steps := [DuplicateReply(k)];
    OneStep(n, DuplicateReply(k));
  }
}
