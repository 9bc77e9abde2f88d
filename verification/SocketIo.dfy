/** The read and write loops over a non-blocking socket, for every schedule of the kernel. */
module SocketIo {
  import opened Sequences
  import opened Options

  // ---- Writing ----

  /** What one write() does: it accepts some bytes, is interrupted, or fails. */
  datatype WriteResult = Accepted(n: nat) | Interrupted | Failed

  /** The kernel's answers to a message of `left` bytes: it never accepts more than it is given. */
  predicate Honest(schedule: seq<WriteResult>, left: nat)
    decreases |schedule|
  {
    left == 0 || schedule == [] ||
    match schedule[0]
    case Accepted(n) => n <= left && Honest(schedule[1..], left - n)
    case Interrupted => Honest(schedule[1..], left)
    case Failed => true
  }

  /** How many bytes go out before the message is complete, a write fails, or the schedule ends. */
  function Written(schedule: seq<WriteResult>, left: nat): (n: nat)
    requires Honest(schedule, left)
    ensures n <= left
    decreases |schedule|
  {
    if left == 0 || schedule == [] then 0 else
    match schedule[0]
    case Accepted(n) => n + Written(schedule[1..], left - n)
    case Interrupted => Written(schedule[1..], left)
    case Failed => 0
  }

  /** The loop meets a failing write. */
  predicate Breaks(schedule: seq<WriteResult>, left: nat)
    requires Honest(schedule, left)
    decreases |schedule|
  {
    left > 0 && schedule != [] &&
    match schedule[0]
    case Accepted(n) => Breaks(schedule[1..], left - n)
    case Interrupted => Breaks(schedule[1..], left)
    case Failed => true
  }

  /** What one recv() does. */
  datatype RecvResult = Chunk(data: string) | WouldBlock | Closed | Error

  /** Appending a C string: the bytes before the first NUL. */
  function CString(s: string): (r: string)
    ensures |r| <= |s|
  {
    if s == "" || s[0] == 0 as char then "" else [s[0]] + CString(s[1..])
  }

  /** The chunks that arrive before the buffer is empty, the peer closes, or an error. */
  function Arriving(schedule: seq<RecvResult>): seq<string> {
    if schedule == [] || !schedule[0].Chunk? then [] else [schedule[0].data] + Arriving(schedule[1..])
  }

  function Kept(cs: seq<string>): string {
    if cs == [] then "" else CString(cs[0]) + Kept(cs[1..])
  }

  /** What stopped the loop; a schedule that is used up leaves it waiting in recv. */
  function Stopper(schedule: seq<RecvResult>): Option<RecvResult> {
    if schedule == [] then None
    else if schedule[0].Chunk? then Stopper(schedule[1..])
    else Some(schedule[0])
  }

  class SocketIO {
    // Everything the socket has accepted.
    var accepted: string

    constructor ()
      ensures accepted == ""
    {
      accepted := "";
    }

    /** The result is what the source returns; `pending` says that the schedule ended inside the loop. */
    method Writen(buff: string, schedule: seq<WriteResult>) returns (ret: nat, pending: bool)
      requires Honest(schedule, |buff|)
      modifies this
      ensures ret == Written(schedule, |buff|) <= |buff|
      ensures accepted == old(accepted) + buff[..ret]
      ensures pending <==> ret < |buff| && !Breaks(schedule, |buff|)
    {
      var left: nat := |buff|;
      var p: nat, k: nat := 0, 0;
      while left > 0 && k < |schedule|
        invariant 0 <= k <= |schedule| && 0 <= left && 0 <= p && p + left == |buff|
        invariant Honest(schedule[k..], left) && Written(schedule, |buff|) == p + Written(schedule[k..], left)
        invariant Breaks(schedule, |buff|) <==> Breaks(schedule[k..], left)
        invariant accepted == old(accepted) + buff[..p]
        decreases |schedule| - k
      {
        var r := schedule[k];
        assert schedule[k..][1..] == schedule[k + 1..];
        k := k + 1;
        match r {
          case Interrupted =>
          case Failed => return |buff| - left, false;
          case Accepted(n) =>
            assert buff[..p] + buff[p..p + n] == buff[..p + n];
            accepted := accepted + buff[p..p + n];
            p := p + n;
            left := left - n;
        }
      }
      ret := |buff| - left;
      pending := left > 0;
    }

    /** Reads until the socket is empty; false when the peer has closed or an error is met. */
    method Readn(buf: string, schedule: seq<RecvResult>) returns (ok: bool, buf': string)
      ensures buf' == buf + Kept(Arriving(schedule))
      ensures ok <==> Stopper(schedule) == None || Stopper(schedule) == Some(WouldBlock)
    {
      buf' := buf;
      var k := 0;
      while k < |schedule|
        invariant 0 <= k <= |schedule|
        invariant Stopper(schedule[k..]) == Stopper(schedule)
        invariant buf' + Kept(Arriving(schedule[k..])) == buf + Kept(Arriving(schedule))
      {
        var r := schedule[k];
        assert schedule[k..][1..] == schedule[k + 1..];
        match r {
          case WouldBlock => return true, buf';
          case Closed => return false, buf';
          case Error => return false, buf';
          case Chunk(data) =>
            KeptFirst(data, Arriving(schedule[k + 1..]));
            assert buf' + (CString(data) + Kept(Arriving(schedule[k + 1..])))
                == buf' + CString(data) + Kept(Arriving(schedule[k + 1..]));
            buf' := buf' + CString(data);
        }
        k := k + 1;
      }
      ok := true;
    }
  }

  /** The chunks that arrive are those before the first answer of another kind, and that answer stops the loop. */
  lemma {:induction false} ArrivingAre(schedule: seq<RecvResult>)
    ensures var n := |Arriving(schedule)|;
            n <= |schedule| && (forall k :: 0 <= k < n ==> schedule[k] == Chunk(Arriving(schedule)[k]))
            && (n < |schedule| ==> !schedule[n].Chunk?)
            && Stopper(schedule) == if n < |schedule| then Some(schedule[n]) else None
    decreases |schedule|
  {
    if schedule != [] && schedule[0].Chunk? {
      ArrivingAre(schedule[1..]);
      var more := Arriving(schedule[1..]);
      assert Arriving(schedule) == [schedule[0].data] + more;
    }
  }

  lemma KeptFirst(c: string, cs: seq<string>)
    ensures Kept([c] + cs) == CString(c) + Kept(cs)
  {
    assert ([c] + cs)[1..] == cs;
  }

  predicate NulFree(s: string) {
    0 as char !in s
  }

  lemma NulFreeIs(s: string)
    ensures NulFree(s) <==> forall k :: 0 <= k < |s| ==> s[k] as int != 0
  {
  }

  lemma {:induction false} CStringKeeps(s: string)
    ensures CString(s) == s <==> NulFree(s)
  {
    if s != "" {
      assert s == [s[0]] + s[1..];
      CStringKeeps(s[1..]);
      if s[0] != 0 as char && CString(s) == s { assert CString(s)[1..] == s[1..]; }
    }
  }

  lemma {:induction false} KeptIsShorter(cs: seq<string>)
    ensures |Kept(cs)| <= |Joined(cs)|
    ensures |Kept(cs)| == |Joined(cs)| ==> forall c <- cs :: |CString(c)| == |c|
  {
    if cs != [] {
      KeptIsShorter(cs[1..]);
      assert cs == [cs[0]] + cs[1..];
    }
  }

  lemma {:induction false} WholeLength(s: string)
    requires |CString(s)| == |s|
    ensures CString(s) == s
  {
    if s != "" { WholeLength(s[1..]); }
  }

  /** Transport, receiving: what is appended is exactly what arrived, if and only if no chunk holds
      a NUL byte. */
  lemma {:induction false} ReceivedWholeIff(cs: seq<string>)
    ensures Kept(cs) == Joined(cs) <==> forall c <- cs :: NulFree(c)
    decreases |cs|
  {
    if cs != [] {
      assert cs == [cs[0]] + cs[1..];
      ReceivedWholeIff(cs[1..]);
      CStringKeeps(cs[0]);
      KeptIsShorter(cs);
      if Kept(cs) == Joined(cs) {
        assert cs[0] in cs;
        WholeLength(cs[0]);
        assert Kept(cs)[|cs[0]|..] == Kept(cs[1..]) && Joined(cs)[|cs[0]|..] == Joined(cs[1..]);
      }
    }
  }

  /** Transport, sending: a message goes out whole exactly if no write fails before it is complete
      and the schedule is long enough; short writes and interrupts do not matter. */
  lemma {:induction false} SentWholeIff(schedule: seq<WriteResult>, left: nat)
    requires Honest(schedule, left)
    ensures Written(schedule, left) == left <==> !Breaks(schedule, left) && Total(schedule) >= left
    decreases |schedule|
  {
    if left > 0 && schedule != [] {
      match schedule[0] {
        case Accepted(n) => SentWholeIff(schedule[1..], left - n);
        case Interrupted => SentWholeIff(schedule[1..], left);
        case Failed => WrittenIsShort(schedule, left);
      }
    }
  }

  lemma WrittenIsShort(schedule: seq<WriteResult>, left: nat)
    requires left > 0 && schedule != [] && schedule[0].Failed?
    ensures Written(schedule, left) == 0
  {
  }

  /** All the bytes the schedule would accept up to its first failure. */
  function Total(schedule: seq<WriteResult>): nat {
    if schedule == [] then 0 else
    match schedule[0]
    case Accepted(n) => n + Total(schedule[1..])
    case Interrupted => Total(schedule[1..])
    case Failed => 0
  }
}
