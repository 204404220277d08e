/** The worker that runs a lane's turns one after the other, on the lane's inbox. */
module RuntimeWorker {
  import opened Prelude
  import opened TurnInbox

  class RuntimeWorker {
    const inbox: RuntimeInbox
    var current: Option<string>
    ghost var log: seq<Entry>

    constructor (inbox: RuntimeInbox)
      ensures this.inbox == inbox && State() == Lane(false, inbox.turns, None, [])
    {
      this.inbox := inbox;
      current, log := None, [];
    }

    ghost function State(): Lane
      reads this, inbox
    {
      Lane(false, inbox.turns, current, log)
    }

    /** The top of the loop: the next turn is marked running before anything is awaited. */
    method TakeNext(now: int) returns (taken: Option<string>)
      requires current.None?
      modifies this, inbox
      ensures taken.Some? ==> OldestPending(old(inbox.turns), taken.value)
      ensures State() == if taken.Some? then Apply(old(State()), NextTurn(taken.value, now)) else old(State())
      ensures taken.None? ==> forall id :: id in inbox.turns ==> inbox.turns[id].state != PENDING
    {
      taken := inbox.Next();
      if taken.Some? {
        log := log + [Handed(taken.value, inbox.turns[taken.value].createdAt)];
        inbox.Set(taken.value, RUNNING, None, None, None, now);
        current := taken;
      }
    }

    /** The reply went out; the conversation is saved, then the turn completed. */
    method TurnSucceeded(response: string, context: string, conversation: string,
                         workspace: string, kind: string, model: Option<string>, now: int)
      requires current.Some?
      modifies this, inbox
      ensures State() == Apply(old(State()), WorkerCompletes(response, conversation, now))
      ensures inbox.conversations == SaveConversation(old(inbox.conversations), context, conversation, workspace, kind, model, now)
      ensures Resumed(inbox.conversations, context, workspace, kind, model) == Some(conversation)
    {
      inbox.Save(context, conversation, workspace, kind, model, now);
      inbox.Set(current.value, COMPLETED, Some(response), Some(conversation), None, now);
      current := None;
    }

    method TurnFailed(code: string, now: int)
      requires current.Some?
      modifies this, inbox
      ensures State() == Apply(old(State()), WorkerFails(code, now))
    {
      inbox.Set(current.value, FAILED, None, None, Some(code), now);
      current := None;
    }
  }
}
