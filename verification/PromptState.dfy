/**
  The prompt slots of a session, changed in place: the section in which a request
  joins or opens a slot, the one that finishes a slot, the one that drops it and
  the one that hands all of them to a cancel-all.
 */
module PromptState {
  import opened Basics
  import opened PromptDispatch

  lemma ValuesWithout(m: map<string, nat>, key: string)
    requires key in m
    ensures m.Values == {m[key]} + (m - {key}).Values
  {
    forall x | x in m.Values ensures x in {m[key]} + (m - {key}).Values {
      var k :| k in m && m[k] == x;
      if k != key { assert (m - {key})[k] == x; }
    }
  }

  class SlotTable {
    var pending_prompts: map<string, nat>
    var orphan_prompt_slots: seq<nat>
    var reason_keys: map<nat, string>
    var replies: map<nat, Reply>
    var waiter_count: multiset<nat>

    ghost function Value(): Slots
      reads this
    {
      Slots(pending_prompts, (set x | x in orphan_prompt_slots), reason_keys, replies)
    }

    // A request numbered `t` opens its own slot unless an undone slot with its key and its reason
    // is pending.
    method Register(t: nat, key: string, reason: string) returns (slot: nat, created: bool)
      modifies this
      ensures Value() == Registered(old(Value()), t, key, reason)
      ensures Admitted(old(Value()), t, key, reason) == Thread(key, slot, if created then Created else AwaitSlot)
      ensures waiter_count == old(waiter_count) + multiset{slot}
    {
      ghost var before := Value();
      slot, created := t, true;
      if key in pending_prompts {
        var candidate := pending_prompts[key];
        if candidate !in replies && candidate in reason_keys && reason_keys[candidate] == reason {
          slot, created := candidate, false;
        }
      }
      if created {
        reason_keys := reason_keys[t := reason];
        if key in pending_prompts {
          orphan_prompt_slots := orphan_prompt_slots + [slot];
        } else {
          pending_prompts := pending_prompts[key := slot];
        }
      }
      waiter_count := waiter_count + multiset{slot};
      assert Value().orphans == Registered(before, t, key, reason).orphans;
    }

    method FinishPromptSlot(slot: nat, reply: Reply)
      modifies this
      ensures Value() == FinishSlot(old(Value()), slot, reply) && waiter_count == old(waiter_count)
      ensures replies == if slot in old(replies) then old(replies) else old(replies)[slot := reply]
    {
      if slot in replies { return; }
      replies := replies[slot := reply];
    }

    // Two sections of their own: the count goes down first.
    method ReleaseCount(slot: nat) returns (last: bool)
      modifies this`waiter_count
      ensures waiter_count == old(waiter_count) - multiset{slot} && (last <==> old(waiter_count)[slot] == 1)
    {
      last := waiter_count[slot] == 1;
      waiter_count := waiter_count - multiset{slot};
    }

    method EraseSlot(key: string, slot: nat)
      modifies this
      ensures Value() == Erased(old(Value()), key, slot) && waiter_count == old(waiter_count)
    {
      if key in pending_prompts && pending_prompts[key] == slot {
        pending_prompts := pending_prompts - {key};
      }
    }

    method TakeSlots() returns (slots: seq<nat>)
      modifies this
      ensures (set x | x in slots) == old(Value()).pending.Values + old(Value()).orphans
      ensures Value() == old(Value()).(pending := map[], orphans := {}) && waiter_count == old(waiter_count)
    {
      slots := [];
      ghost var all := pending_prompts.Values;
      var rest := pending_prompts;
      while rest != map[]
        invariant unchanged(this) && (set x | x in slots) + rest.Values == all
        decreases rest.Keys
      {
        var key :| key in rest;
        ValuesWithout(rest, key);
        slots := slots + [rest[key]];
        rest := rest - {key};
      }
      pending_prompts := map[];
      slots := slots + orphan_prompt_slots;
      orphan_prompt_slots := [];
    }
  }
}
