/**
 * The microphones that recordings on the page hold open, shared so that others can measure the newest and know of any.
 */
module Microphones {
  import opened Options

  type Stream = nat

  /** One call to share a stream, and whether it has been taken back. */
  datatype Share = Share(stream: Stream, open: bool)

  /** The streams of the shares not taken back, oldest first. */
  function Outstanding(shares: seq<Share>): seq<Stream> {
    if shares == [] then [] else Add(Outstanding(shares[..|shares| - 1]), shares[|shares| - 1])
  }

  function Add(mics: seq<Stream>, x: Share): seq<Stream> { if x.open then mics + [x.stream] else mics }

  /** The list without its last `s`. */
  function Spliced(mics: seq<Stream>, s: Stream): seq<Stream> {
    if mics == [] then []
    else if mics[|mics| - 1] == s then mics[..|mics| - 1]
    else Spliced(mics[..|mics| - 1], s) + [mics[|mics| - 1]]
  }

  lemma SplicedOnto(mics: seq<Stream>, x: Stream, s: Stream)
    ensures Spliced(mics + [x], s) == if x == s then mics else Spliced(mics, s) + [x]
  {
    assert (mics + [x])[..|mics|] == mics;
  }

  /** Share `h` taken back. */
  function TakenBack(shares: seq<Share>, h: nat): seq<Share>
    requires h < |shares|
  {
    shares[h := shares[h].(open := false)]
  }

  lemma TakenBackBefore(shares: seq<Share>, h: nat)
    requires h < |shares|
    ensures var n := |shares| - 1;
      if h < n then TakenBack(shares, h)[..n] == TakenBack(shares[..n], h) && TakenBack(shares, h)[n] == shares[n]
      else TakenBack(shares, h)[..n] == shares[..n] && !TakenBack(shares, h)[n].open
  {
  }

  lemma {:induction false} TakingBack(shares: seq<Share>, h: nat)
    requires h < |shares| && shares[h].open
    ensures multiset(Outstanding(shares)) == multiset(Outstanding(TakenBack(shares, h))) + multiset{shares[h].stream}
    decreases |shares|
  {
    var n := |shares| - 1;
    TakenBackBefore(shares, h);
    if h < n { TakingBack(shares[..n], h); }
  }

  /** After share `h` only its own stream is still shared. */
  predicate OnlyItsOwnAfter(shares: seq<Share>, h: nat)
    requires h < |shares|
  {
    forall k | h < k < |shares| && shares[k].open :: shares[k].stream == shares[h].stream
  }

  /** No share of another stream stands between `h` and a newer share of the same one. */
  predicate NoneBetween(shares: seq<Share>, h: nat)
    requires h < |shares|
  {
    forall j | h < j < |shares| && shares[j].open && shares[j].stream == shares[h].stream ::
      OnlyItsOwnAfter(shares[..j], h)
  }

  /**
   * Without it the list is the same but for one entry less at its end, exactly when all that follows is its own stream.
   */
  lemma {:induction false} ShiftsIff(shares: seq<Share>, h: nat)
    requires h < |shares| && shares[h].open
    ensures Outstanding(shares) == Outstanding(TakenBack(shares, h)) + [shares[h].stream] <==>
      OnlyItsOwnAfter(shares, h)
    decreases |shares|
  {
    var n := |shares| - 1;
    TakenBackBefore(shares, h);
    if h < n {
      var s, x := shares[h].stream, shares[n].stream;
      var f, g := Outstanding(shares[..n]), Outstanding(TakenBack(shares[..n], h));
      ShiftsIff(shares[..n], h);
      if shares[n].open {
        assert f + [x] == g + [x] + [s] <==> x == s && f == g + [s] by {
          assert (f + [x])[..|f|] == f && (g + [x] + [s])[..|g| + 1] == g + [x];
        }
      }
    }
  }

  lemma NoneBetweenOnto(shares: seq<Share>, h: nat)
    requires 0 < |shares| && h < |shares| - 1
    ensures var n := |shares| - 1;
      NoneBetween(shares, h) <==>
        NoneBetween(shares[..n], h)
        && (shares[n].open && shares[n].stream == shares[h].stream ==> OnlyItsOwnAfter(shares[..n], h))
  {
    var n := |shares| - 1;
    assert forall j | 0 <= j <= n :: shares[..n][..j] == shares[..j];
  }

  lemma OwnAfterIsNoneBetween(shares: seq<Share>, h: nat)
    requires h < |shares| && OnlyItsOwnAfter(shares, h)
    ensures NoneBetween(shares, h)
  {
  }

  /**
   * The list stays in the order of the shares exactly when no other stream was shared between this share and a newer
   * one.
   */
  lemma {:induction false} StaysInOrderIff(shares: seq<Share>, h: nat)
    requires h < |shares| && shares[h].open
    ensures Spliced(Outstanding(shares), shares[h].stream) == Outstanding(TakenBack(shares, h)) <==>
      NoneBetween(shares, h)
    decreases |shares|
  {
    var n := |shares| - 1;
    var s, last, front := shares[h].stream, shares[n], Outstanding(shares[..n]);
    TakenBackBefore(shares, h);
    if last.open { SplicedOnto(front, last.stream, s); }
    if h < n {
      NoneBetweenOnto(shares, h);
      StaysInOrderIff(shares[..n], h);
      if last.open && last.stream == s {
        ShiftsIff(shares[..n], h);
        if OnlyItsOwnAfter(shares[..n], h) { OwnAfterIsNoneBetween(shares[..n], h); }
      } else if last.open {
        var spliced, kept := Spliced(front, s), Outstanding(TakenBack(shares[..n], h));
        assert spliced + [last.stream] == kept + [last.stream] <==> spliced == kept by {
          assert (spliced + [last.stream])[..|spliced|] == spliced && (kept + [last.stream])[..|kept|] == kept;
        }
      }
    }
  }

  lemma OutstandingOnto(shares: seq<Share>, x: Share)
    ensures Outstanding(shares + [x]) == Add(Outstanding(shares), x)
  {
    assert (shares + [x])[..|shares|] == shares;
  }

  /**
   * Shared twice around another, the older share taken back: what is taken out is the newer entry, and the order is
   * lost.
   * Nothing that shares a microphone today does this: dictation shows a stream once, and a recorder shares a new one.
   */
  lemma OrderCanBeLost()
    ensures var shares := [Share(1, true), Share(2, true), Share(1, true)];
      && Spliced(Outstanding(shares), 1) == [1, 2]
      && Outstanding(TakenBack(shares, 0)) == [2, 1]
  {
    var a, b, z := Share(1, true), Share(2, true), Share(1, false);
    OutstandingOnto([a], b);
    OutstandingOnto([a, b], a);
    OutstandingOnto([z], b);
    OutstandingOnto([z, b], a);
    assert [a] + [b] == [a, b] && [a, b] + [a] == [a, b, a] && [z] + [b] == [z, b] && [z, b] + [a] == [z, b, a];
    assert TakenBack([a, b, a], 0) == [z, b, a];
    SplicedOnto([1, 2], 1, 1);
    assert [1] + [2] == [1, 2] && [1, 2] + [1] == [1, 2, 1];
  }

  lemma OneLess(a: multiset<Stream>, b: multiset<Stream>, s: Stream)
    requires a + multiset{s} == b + multiset{s}
    ensures a == b
  {
    assert a == (a + multiset{s}) - multiset{s};
    assert b == (b + multiset{s}) - multiset{s};
  }

  class OpenMics {
    var openMics: seq<Stream>
    /** What each returned closure remembers. */
    var shares: seq<Share>

    ghost predicate Valid()
      reads this
    {
      multiset(openMics) == multiset(Outstanding(shares))
    }

    constructor ()
      ensures Valid() && openMics == [] && shares == []
    {
      openMics, shares := [], [];
    }

    function Newest(): (s: Option<Stream>)
      reads this
      ensures s.Some? ==> s.value in openMics
      ensures s.None? <==> openMics == []
    {
      if openMics == [] then None else Some(openMics[|openMics| - 1])
    }

    predicate MicrophoneOpen()
      reads this
    {
      |openMics| > 0
    }

    method ShareMicrophone(s: Stream) returns (h: nat)
      requires Valid()
      modifies this
      ensures Valid() && h == |old(shares)| && shares == old(shares) + [Share(s, true)]
      ensures openMics == old(openMics) + [s] && Newest() == Some(s)
      ensures old(openMics == Outstanding(shares)) ==> openMics == Outstanding(shares)
    {
      openMics := openMics + [s];
      h := |shares|;
      shares := shares + [Share(s, true)];
      OutstandingOnto(old(shares), Share(s, true));
    }

    /** Takes out the last entry for `s`. */
    method Splice(s: Stream)
      requires s in openMics
      modifies this`openMics
      ensures openMics == Spliced(old(openMics), s)
      ensures multiset(old(openMics)) == multiset(openMics) + multiset{s}
    {
      var at := LastIndexOf(openMics, s);
      Splicing(openMics, s, at);
      openMics := openMics[..at] + openMics[at + 1..];
    }

    /** Takes share `h` back, once. */
    method Unshare(h: nat)
      requires Valid() && h < |shares|
      modifies this
      ensures Valid() && shares == TakenBack(old(shares), h)
      ensures !old(shares)[h].open ==> openMics == old(openMics)
      ensures old(shares)[h].open ==> multiset(old(openMics)) == multiset(openMics) + multiset{old(shares)[h].stream}
      ensures MicrophoneOpen() <==> Outstanding(shares) != []
      ensures old(openMics == Outstanding(shares)) && old(shares)[h].open ==>
        (openMics == Outstanding(shares) <==> NoneBetween(old(shares), h))
    {
      if shares[h].open {
        TakingBack(shares, h);
        StaysInOrderIff(shares, h);
        assert shares[h].stream in multiset(openMics);
        var s := shares[h].stream;
        Splice(s);
        shares := TakenBack(shares, h);
        OneLess(multiset(openMics), multiset(Outstanding(shares)), s);
      } else {
        assert shares == TakenBack(shares, h);
      }
      SameSize();
    }

    lemma SameSize()
      requires Valid()
      ensures openMics == [] <==> Outstanding(shares) == []
    {
      assert |multiset(openMics)| == |openMics| && |multiset(Outstanding(shares))| == |Outstanding(shares)|;
    }
  }

  method LastIndexOf(mics: seq<Stream>, s: Stream) returns (at: int)
    ensures -1 <= at < |mics|
    ensures at >= 0 ==> mics[at] == s
    ensures forall k | at < k < |mics| :: mics[k] != s
  {
    at := |mics| - 1;
    while at >= 0 && mics[at] != s
      invariant -1 <= at < |mics|
      invariant forall k | at < k < |mics| :: mics[k] != s
    {
      at := at - 1;
    }
  }

  lemma {:induction false} Splicing(mics: seq<Stream>, s: Stream, at: nat)
    requires at < |mics| && mics[at] == s && forall k | at < k < |mics| :: mics[k] != s
    ensures Spliced(mics, s) == mics[..at] + mics[at + 1..]
    ensures multiset(mics) == multiset(Spliced(mics, s)) + multiset{s}
    decreases |mics|
  {
    var n := |mics| - 1;
    assert mics == mics[..n] + [mics[n]];
    SplicedOnto(mics[..n], mics[n], s);
    if at < n {
      Splicing(mics[..n], s, at);
      assert mics[..n][..at] == mics[..at];
      assert mics[..n][at + 1..] + [mics[n]] == mics[at + 1..];
    }
  }
}
