/** The outgoing message slots of a websocket connection: an array shifted in place, and the interleavings
    of the threads that use it. */
module MsgOut {
  import opened CStrings
  import opened Types
  import opened WsSpec

  /** What `%s` copies: everything before the first NUL. */
  function CString(msg: string): (r: string)
    ensures r <= msg && NUL !in r
    ensures |r| < |msg| ==> msg[|r|] == NUL
  {
    if msg == [] || msg[0] == NUL then [] else [msg[0]] + CString(msg[1..])
  }

  /** A message without NUL is taken whole. */
  lemma {:induction false} CStringWhole(msg: string)
    ensures CString(msg) == msg <==> NUL !in msg
  {
    if msg != [] && msg[0] != NUL { CStringWhole(msg[1..]); }
  }

  function Values(s: seq<Option<string>>): seq<string>
    requires forall i :: 0 <= i < |s| ==> s[i].Some?
  {
    if s == [] then [] else [s[0].value] + Values(s[1..])
  }

  lemma {:induction false} ValuesAt(s: seq<Option<string>>)
    requires forall i :: 0 <= i < |s| ==> s[i].Some?
    ensures |Values(s)| == |s| && forall i :: 0 <= i < |s| ==> Values(s)[i] == s[i].value
  {
    if s != [] { ValuesAt(s[1..]); }
  }

  /** msg_out and msg_out_count of xrsr_state_ws_t. */
  class MsgSlots {
    const slots: array<Option<string>>
    var count: nat

    /** Slots below the count are full, the others are NULL. */
    ghost predicate Valid()
      reads this, slots
    {
      && slots.Length == MSG_OUT_MAX && count <= MSG_OUT_MAX
      && (forall i :: 0 <= i < count ==> slots[i].Some?)
      && (forall i :: count <= i < MSG_OUT_MAX ==> slots[i].None?)
    }

    ghost function Contents(): (r: seq<string>)
      requires Valid()
      reads this, slots
    {
      Values(slots[..count])
    }

    constructor ()
      ensures Valid() && Contents() == [] && fresh(slots)
    {
      slots := new Option<string>[MSG_OUT_MAX](_ => None);
      count := 0;
    }

    /** xrsr_ws_queue_msg_out. */
    method Queue(msg: string, mallocOk: bool) returns (ok: bool)
      requires Valid()
      modifies this`count, slots
      ensures Valid()
      ensures ok == (mallocOk && |old(Contents())| < MSG_OUT_MAX)
      ensures Contents() == (if ok then old(Contents()) + [CString(msg)] else old(Contents()))
    {
      ok := false;
      ValuesAt(slots[..count]);
      if count < MSG_OUT_MAX && mallocOk {
        ghost var before := slots[..count];
        slots[count] := Some(CString(msg));
        count := count + 1;
        ok := true;
        ValuesAt(slots[..count]);
        assert slots[..count] == before + [Some(CString(msg))];
      }
    }

    /** xrsr_ws_is_msg_out. */
    method IsMsgOut() returns (r: bool)
      requires Valid()
      ensures r == (Contents() != [])
    {
      ValuesAt(slots[..count]);
      r := count > 0;
    }

    /** xrsr_ws_get_msg_out: the oldest message leaves and the others move up. */
    method Get() returns (msg: Option<string>)
      requires Valid()
      modifies this`count, slots
      ensures Valid()
      ensures old(Contents()) == [] ==> msg == None && Contents() == []
      ensures old(Contents()) != [] ==> msg == Some(old(Contents())[0]) && Contents() == old(Contents())[1..]
    {
      msg := None;
      ValuesAt(slots[..count]);
      if count > 0 {
        ghost var before := slots[..];
        msg := slots[0];
        count := count - 1;
        var i := 0;
        while i < count
          invariant 0 <= i <= count == old(count) - 1 < MSG_OUT_MAX
          invariant forall k :: 0 <= k < i ==> slots[k] == before[k + 1]
          invariant forall k :: i <= k < MSG_OUT_MAX ==> slots[k] == before[k]
        {
          slots[i] := slots[i + 1];
          i := i + 1;
        }
        slots[i] := None;
        assert slots[..count] == before[1..count + 1];
        assert before[..count + 1][0] == before[0] && before[..count + 1][1..] == before[1..count + 1];
      }
    }

    /** xrsr_ws_clear_msg_out. */
    method Clear()
      requires Valid()
      modifies this`count, slots
      ensures Valid() && Contents() == []
    {
      var i := 0;
      while i < MSG_OUT_MAX
        invariant 0 <= i <= MSG_OUT_MAX == slots.Length
        invariant forall k :: 0 <= k < i ==> slots[k].None?
      {
        if slots[i].Some? {
          slots[i] := None;
        }
        i := i + 1;
      }
      count := 0;
    }
  }
}
