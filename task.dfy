/** The task switch of src/accessories/ElkTask.ts: a momentary HomeKit switch
    that runs a panel automation task and springs back to off a second later. */
module TaskAccessory {
  import opened ElkTypes

  /** What the set handler asks of the panel: the task runs when `${value}` is
      'true'; any other value sends nothing. */
  function TaskCommands(id: int, value: CharValue): (cs: seq<Command>)
    ensures |cs| <= 1
    ensures cs != [] <==> IsTrueText(value)
    ensures forall c :: c in cs ==> c == ActivateTask(id)
  {
    if IsTrueText(value) then [ActivateTask(id)] else []
  }

  /** The push the one-second timer makes: the switch shows off again. */
  const ResetPush := Push(On, HKBool(false))

  class ElkTask {
    const elk: PanelLink
    const id: nat
    const name: string

    /** Timers armed by the set handler and not yet fired. */
    var pendingResets: nat
    /** The HomeKit side: every value pushed to the On characteristic, in order. */
    var pushed: seq<Push>
    /** How many times this switch has run its task. */
    ghost var activations: nat

    /** Every activation is reset exactly once: by a push already made or by a
        timer still pending; and the only value ever pushed is off. */
    ghost predicate Valid()
      reads this
    {
      activations == |pushed| + pendingResets
      && forall i :: 0 <= i < |pushed| ==> pushed[i] == ResetPush
    }

    constructor (elk: PanelLink, id: nat, deviceName: Option<string>)
      ensures this.elk == elk && this.id == id && name == ItemName(deviceName, "Task ", id)
      ensures Valid() && pendingResets == 0 && pushed == [] && activations == 0
    {
      this.elk := elk;
      this.id := id;
      name := ItemName(deviceName, "Task ", id);
      pendingResets := 0;
      pushed := [];
      activations := 0;
    }

    /** The get handler always reports off. */
    method GetTaskState() returns (v: bool)
      ensures !v
    {
      v := false;
    }

    /** The set handler: a 'true' request runs the task and arms the reset timer. */
    method SetTaskState(value: CharValue)
      requires Valid()
      modifies this, elk
      ensures Valid()
      ensures elk.sent == old(elk.sent) + TaskCommands(id, value)
      ensures pendingResets == old(pendingResets) + (if IsTrueText(value) then 1 else 0)
      ensures activations == old(activations) + (if IsTrueText(value) then 1 else 0)
      ensures pushed == old(pushed)
    {
      if IsTrueText(value) {
        elk.Issue(ActivateTask(id));
        pendingResets := pendingResets + 1;
        activations := activations + 1;
      }
    }

    /** One reset timer fires. */
    method FireReset()
      requires Valid() && pendingResets > 0
      modifies this
      ensures Valid()
      ensures pendingResets == old(pendingResets) - 1 && activations == old(activations)
      ensures pushed == old(pushed) + [ResetPush]
    {
      pendingResets := pendingResets - 1;
      pushed := pushed + [ResetPush];
    }
  }
}
