/** Sender threads and the main loop around the outgoing message slots.  Every step is one critical section
    or one look at the state of the machine. */
module MsgOutThreads {
  import CStrings
  import opened Types
  import opened WsSpec
  import opened MsgOut

  /** A message and the session whose established state its sender saw. */
  datatype Item = Item(text: string, session: nat)

  /** Outside xrsr_ws_send_text, or past its state check with the message not queued yet. */
  datatype Sender = Away | Checked(msg: string, session: nat)

  datatype Gone = Delivered(item: Item, during: nat) | Discarded(item: Item)

  /** `session` counts the resets of the connection; `saw` is a true answer of xrsr_ws_is_msg_out that was
      not acted on yet. */
  datatype System = System(session: nat, established: bool, slots: seq<Item>, senders: seq<Sender>, saw: bool,
                           accepted: seq<Item>, gone: seq<Gone>)

  datatype Step =
    | Check(i: nat, msg: string)          // a sender finds the machine established, or leaves
    | Enqueue(i: nat, mallocOk: bool)     // ... and calls xrsr_ws_queue_msg_out
    | Look                                // the main loop calls xrsr_ws_is_msg_out
    | Take                                // ... and, on true, xrsr_ws_get_msg_out
    | Establish                           // the machine enters an established state
    | Close                               // the machine leaves the established states
    | Reset                               // xrsr_ws_reset clears the slots

  predicate Enabled(s: System, t: Step)
  {
    match t
    case Check(i, _) => i < |s.senders| && s.senders[i].Away?
    case Enqueue(i, _) => i < |s.senders| && s.senders[i].Checked?
    case Look => true
    case Take => s.saw
    case Establish => !s.established
    case Close => s.established
    case Reset => !s.established
  }

  function Discard(items: seq<Item>): seq<Gone>
  {
    if items == [] then [] else [Discarded(items[0])] + Discard(items[1..])
  }

  function Next(s: System, t: Step): System
    requires Enabled(s, t)
  {
    match t
    case Check(i, msg) => if s.established then s.(senders := s.senders[i := Checked(msg, s.session)]) else s
    case Enqueue(i, mallocOk) =>
      var a := s.(senders := s.senders[i := Away]);
      if mallocOk && |s.slots| < MSG_OUT_MAX then
        var m := Item(CString(s.senders[i].msg), s.senders[i].session);
        a.(slots := s.slots + [m], accepted := s.accepted + [m])
      else a
    case Look => s.(saw := s.slots != [])
    case Take =>
      if s.slots == [] then s.(saw := false)
      else s.(saw := false, slots := s.slots[1..], gone := s.gone + [Delivered(s.slots[0], s.session)])
    case Establish => s.(established := true)
    case Close => s.(established := false)
    case Reset => s.(session := s.session + 1, slots := [], saw := false, gone := s.gone + Discard(s.slots))
  }

  predicate Start(s: System)
  {
    && !s.established && s.slots == [] && !s.saw && s.accepted == [] && s.gone == []
    && forall i :: 0 <= i < |s.senders| ==> s.senders[i].Away?
  }

  /** One interleaving. */
  predicate Run(s: System, steps: seq<Step>, r: System)
    decreases |steps|
  {
    if steps == [] then r == s else Enabled(s, steps[0]) && Run(Next(s, steps[0]), steps[1..], r)
  }

  // ---- first in, first out ----

  function Items(g: seq<Gone>): seq<Item>
  {
    if g == [] then [] else Items(g[..|g| - 1]) + [g[|g| - 1].item]
  }

  lemma ItemsAppend(g: seq<Gone>, x: Gone)
    ensures Items(g + [x]) == Items(g) + [x.item]
  {
    assert (g + [x])[..|g|] == g;
  }

  lemma {:induction false} ItemsDiscard(g: seq<Gone>, items: seq<Item>)
    ensures Items(g + Discard(items)) == Items(g) + items
    decreases |items|
  {
    if items == [] {
      assert g + Discard(items) == g;
    } else {
      var x := Discarded(items[0]);
      ItemsAppend(g, x);
      ItemsDiscard(g + [x], items[1..]);
      Regroup(g, x, Discard(items[1..]));
      Regroup(Items(g), x.item, items[1..]);
      assert [x.item] + items[1..] == items;
      assert Discard(items) == [x] + Discard(items[1..]);
      hide Items, Discard;
    }
  }

  lemma Regroup<T>(a: seq<T>, x: T, b: seq<T>)
    ensures a + ([x] + b) == (a + [x]) + b
  {}

  predicate Inv(s: System)
  {
    && |s.slots| <= MSG_OUT_MAX
    && s.accepted == Items(s.gone) + s.slots
    && (s.saw ==> s.slots != [])
    && (forall i :: 0 <= i < |s.senders| && s.senders[i].Checked? ==> s.senders[i].session <= s.session)
  }

  lemma NextKeeps(s: System, t: Step)
    requires Inv(s) && Enabled(s, t)
    ensures Inv(Next(s, t))
  {
    hide Items, Discard, CString;
    match t
    case Take =>
      if s.slots != [] {
        ItemsAppend(s.gone, Delivered(s.slots[0], s.session));
        assert Items(s.gone) + s.slots == (Items(s.gone) + [s.slots[0]]) + s.slots[1..];
      }
    case Reset => ItemsDiscard(s.gone, s.slots);
    case Enqueue(i, _) =>
      var m := Item(CString(s.senders[i].msg), s.senders[i].session);
      assert Items(s.gone) + s.slots + [m] == Items(s.gone) + (s.slots + [m]);
    case _ =>
  }

  lemma {:induction false} RunKeeps(s: System, steps: seq<Step>, r: System)
    requires Inv(s) && Run(s, steps, r)
    ensures Inv(r)
    decreases |steps|
  {
    if steps != [] {
      NextKeeps(s, steps[0]);
      RunKeeps(Next(s, steps[0]), steps[1..], r);
    }
  }

  /** Under every interleaving the slots are a queue: what was accepted is what has gone, in that order, and
      then what is still there; never more than five; and a get after a true is_msg_out finds a message. */
  lemma FirstInFirstOut(s: System, steps: seq<Step>, r: System)
    requires Start(s) && Run(s, steps, r)
    ensures r.accepted == Items(r.gone) + r.slots && |r.slots| <= MSG_OUT_MAX
    ensures Enabled(r, Take) ==> r.slots != [] && Next(r, Take).gone == r.gone + [Delivered(r.slots[0], r.session)]
  {
    RunKeeps(s, steps, r);
  }

  /** A message without NUL is queued whole. */
  lemma QueuedWhole(s: System, i: nat)
    requires Enabled(s, Enqueue(i, true)) && |s.slots| < MSG_OUT_MAX && CStrings.NUL !in s.senders[i].msg
    ensures Next(s, Enqueue(i, true)).slots == s.slots + [Item(s.senders[i].msg, s.senders[i].session)]
  {
    CStringWhole(s.senders[i].msg);
  }

  // ---- messages of an earlier session ----

  predicate NoReset(steps: seq<Step>) { forall i :: 0 <= i < |steps| ==> !steps[i].Reset? }

  /** Delivered in another session than the one its sender saw. */
  predicate Stale(g: Gone) { g.Delivered? && g.item.session != g.during }

  /** A run up to the next reset delivers a message of an earlier session. */
  predicate Leaks(s: System, steps: seq<Step>, r: System)
  {
    && Run(s, steps, r) && NoReset(steps) && |s.gone| <= |r.gone|
    && exists k :: |s.gone| <= k < |r.gone| && Stale(r.gone[k])
  }

  /** Everything on its way belongs to the current session. */
  predicate Fresh(s: System)
  {
    && (forall i :: 0 <= i < |s.slots| ==> s.slots[i].session == s.session)
    && (forall i :: 0 <= i < |s.senders| && s.senders[i].Checked? ==> s.senders[i].session == s.session)
  }

  lemma FreshStep(s: System, t: Step)
    requires Fresh(s) && Enabled(s, t) && !t.Reset?
    ensures var r := Next(s, t);
            && Fresh(r) && |s.gone| <= |r.gone|
            && r.gone[..|s.gone|] == s.gone
            && forall k :: |s.gone| <= k < |r.gone| ==> !Stale(r.gone[k])
  {}

  lemma {:induction false} FreshRun(s: System, steps: seq<Step>, r: System)
    requires Fresh(s) && Run(s, steps, r) && NoReset(steps)
    ensures |s.gone| <= |r.gone| && forall k :: |s.gone| <= k < |r.gone| ==> !Stale(r.gone[k])
    ensures r.gone[..|s.gone|] == s.gone
    decreases |steps|
  {
    if steps != [] {
      var m := Next(s, steps[0]);
      FreshStep(s, steps[0]);
      assert forall i :: 0 <= i < |steps| - 1 ==> steps[1..][i] == steps[i + 1];
      FreshRun(m, steps[1..], r);
      forall k | |s.gone| <= k < |r.gone| ensures !Stale(r.gone[k]) {
        if k < |m.gone| { assert r.gone[k] == r.gone[..|m.gone|][k] == m.gone[k]; }
      }
      assert r.gone[..|s.gone|] == r.gone[..|m.gone|][..|s.gone|];
    }
  }

  /** A sender caught between its check and its enqueue by the reset puts its message into the next session. */
  lemma CaughtLeaks(s: System, i: nat) returns (steps: seq<Step>, r: System)
    requires Inv(s) && Enabled(s, Reset) && i < |s.senders| && s.senders[i].Checked?
    ensures Leaks(Next(s, Reset), steps, r)
  {
    var a := Next(s, Reset);
    var b := Next(a, Enqueue(i, true));
    var c := Next(b, Establish);
    var d := Next(c, Look);
    r := Next(d, Take);
    steps := [Enqueue(i, true), Establish, Look, Take];
    assert steps[1..] == [Establish, Look, Take];
    assert steps[1..][1..] == [Look, Take];
    assert steps[1..][1..][1..] == [Take];
    assert steps[1..][1..][1..][1..] == [];
    assert Run(r, [], r);
    assert Run(d, [Take], r);
    assert Run(c, [Look, Take], r);
    assert Run(b, [Establish, Look, Take], r);
    assert Run(a, steps, r);
    assert Stale(r.gone[|a.gone|]);
  }

  /** After a reset, a message of an earlier session can be delivered in the next one exactly when some sender
      stood between its check and its enqueue while the slots were cleared. */
  lemma StaleExactly(s: System)
    requires Inv(s) && Enabled(s, Reset)
    ensures (exists steps, r :: Leaks(Next(s, Reset), steps, r))
            <==> (exists i :: 0 <= i < |s.senders| && s.senders[i].Checked?)
  {
    if i :| 0 <= i < |s.senders| && s.senders[i].Checked? {
      var steps, r := CaughtLeaks(s, i);
    } else {
      var a := Next(s, Reset);
      assert Fresh(a);
      forall steps, r ensures !Leaks(a, steps, r) {
        if Run(a, steps, r) && NoReset(steps) { FreshRun(a, steps, r); }
      }
    }
  }
}
