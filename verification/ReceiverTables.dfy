/** The shared tables of the receiver, updated in place under their locks. */
module ReceiverTables {
  import opened Workers
  import opened Receiver

  /** The table of the delayed closes. */
  class DelayedCloses {
    const slots: array<Slot>

    constructor ()
      ensures fresh(slots) && slots[..] == seq(MAX_DELAYED_CLOSES, _ => Free)
    {
      slots := new Slot[MAX_DELAYED_CLOSES](_ => Free);
    }

    method HasPending(source: Source) returns (found: bool)
      ensures found <==> Pending(slots[..], source)
    {
      found := false;
      for i := 0 to slots.Length
        invariant !found
        invariant forall k | 0 <= k < i :: !(slots[k].Active? && slots[k].source == source)
      {
        if slots[i].Active? && slots[i].source == source {
          assert slots[..][i].Active? && slots[..][i].source == source;
          return true;
        }
      }
    }

    /** 0 when the source has an active close already, -1 when the table is full, 1 otherwise. */
    method ScheduleClose(source: Source, worker: nat, stamp: nat, now: nat) returns (result: int)
      modifies slots
      ensures slots[..] == Schedule(old(slots[..]), Active(source, worker, stamp, now + CLOSE_GRACE_TIME))
      ensures result == 0 <==> Pending(old(slots[..]), source)
      ensures result == -1 <==> !Pending(old(slots[..]), source) && FirstFree(old(slots[..])) == slots.Length
      ensures result in {-1, 0, 1}
      ensures result == 1 ==>
                exists k :: 0 <= k < slots.Length
                  && (forall j | 0 <= j < k :: old(slots[j]).Active?) && old(slots[k]).Free?
                  && slots[k] == Active(source, worker, stamp, now + 2)
                  && forall j | 0 <= j < slots.Length && j != k :: slots[j] == old(slots[j])
      ensures result != 1 ==> slots[..] == old(slots[..])
      ensures result == 1 <==>
                (forall j | 0 <= j < slots.Length :: !(old(slots[j]).Active? && old(slots[j]).source == source))
                && exists k :: 0 <= k < slots.Length && old(slots[k]).Free?
    {
      var pending := HasPending(source);
      if pending {
        return 0;
      }
      var free := 0;
      while free < slots.Length && slots[free].Active?
        invariant free <= slots.Length
        invariant forall k | 0 <= k < free :: slots[k].Active?
      {
        free := free + 1;
      }
      assert forall k | 0 <= k < free :: slots[..][k].Active?;
      assert free < slots.Length ==> slots[..][free].Free?;
      assert FirstFree(slots[..]) == free;
      if free == slots.Length {
        return -1;
      }
      slots[free] := Active(source, worker, stamp, now + CLOSE_GRACE_TIME);
      result := 1;
    }

    /** The active slot with the nearest deadline, the first one among equals. */
    method SelectNearest() returns (selected: int)
      ensures selected < 0 ==> forall k | 0 <= k < slots.Length :: slots[k].Free?
      ensures 0 <= selected ==> Nearest(slots[..], selected)
    {
      selected := -1;
      for i := 0 to slots.Length
        invariant selected < i
        invariant selected < 0 ==> forall k | 0 <= k < i :: slots[k].Free?
        invariant 0 <= selected ==> Nearest(slots[..i], selected)
      {
        if slots[i].Active? && (selected < 0 || slots[i].deadline < slots[selected].deadline) {
          selected := i;
        }
        assert slots[..i + 1] == slots[..i] + [slots[i]];
      }
      assert slots[..slots.Length] == slots[..];
    }

    method Deactivate(index: nat)
      requires index < slots.Length
      modifies slots
      ensures slots[..] == old(slots[..])[index := Free]
    {
      slots[index] := Free;
    }
  }

  /** The acknowledgement the listener waits on. */
  class OpenAck {
    var serial: nat
    var waiting: nat
    var done: bool
    var success: bool

    function View(): Ack
      reads this
    {
      Ack(serial, waiting, done, success)
    }

    constructor ()
      ensures View() == Ack(0, 0, false, false)
    {
      serial, waiting, done, success := 0, 0, false, false;
    }

    method Begin() returns (token: nat)
      modifies this
      ensures View() == BeginAck(old(View()))
      ensures token == waiting > old(serial)
    {
      serial := serial + 1;
      token := serial;
      waiting := token;
      done := false;
      success := false;
    }

    method Complete(token: nat, ok: bool)
      modifies this
      ensures View() == CompleteAck(old(View()), token, ok)
    {
      if token == 0 {
        return;
      }
      if waiting == token {
        success := ok;
        done := true;
      }
    }

    /** The end of the wait, whatever ended it: completion, timeout or shutdown. */
    method Finish(token: nat) returns (ok: bool)
      modifies this
      ensures ok <==> AckSucceeded(old(View()), token)
      ensures View() == old(View()).(waiting := 0)
    {
      ok := waiting == token && done && success;
      waiting := 0;
    }
  }
}
