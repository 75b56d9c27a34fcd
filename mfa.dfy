/** The multi-factor prompt payload sent to the UI, and the process-wide table of pending responders
    (`MfaResponseMap`): terminal id -> the sending half of a one-shot channel on which the authentication
    task is waiting for the user's responses. */
module Mfa {
  import opened Common

  datatype MfaPrompt = MfaPrompt(prompt: string, echo: bool)

  datatype MfaPromptPayload = MfaPromptPayload(terminalId: string, name: string, instructions: string, prompts: seq<MfaPrompt>)

  /** The body the UI submits. */
  datatype MfaResponse = MfaResponse(terminalId: string, responses: seq<string>)

  /** What the waiting side of a one-shot channel sees when its wait ends. */
  datatype Reception = Received(responses: seq<string>) | Dropped | TimedOut

  /** The pending responders. Channels are numbered; a number is never reused. */
  class MfaChannels {
    /** terminal id -> the channel whose sender is pending. */
    var pending: map<string, nat>
    /** Responses sent into a channel and not yet taken by its receiver. */
    var delivered: map<nat, seq<string>>
    /** The number the next channel gets. */
    var nextChannel: nat

    ghost predicate Valid()
      reads this
    {
      && (forall t :: t in pending ==> pending[t] < nextChannel)
      && (forall ch :: ch in delivered ==> ch < nextChannel)
    }

    constructor ()
      ensures Valid() && pending == map[] && delivered == map[]
    {
      pending := map[];
      delivered := map[];
      nextChannel := 0;
    }

    /** Creates a fresh channel and files its sender under `terminalId`, replacing (and so dropping) any sender
        already pending for that id. */
    method Register(terminalId: string) returns (ch: nat)
      requires Valid()
      modifies this
      ensures Valid()
      ensures pending == old(pending)[terminalId := ch] && delivered == old(delivered)
      ensures ch !in old(delivered) && forall t :: t in old(pending) ==> old(pending)[t] != ch
    {
      ch := nextChannel;
      nextChannel := nextChannel + 1;
      pending := pending[terminalId := ch];
    }

    /** `submit_ssh_mfa_response`: takes the pending sender out of the table and sends the responses through it
        unchanged; without a pending sender it fails, so a second submit for the same id fails. */
    method Submit(terminalId: string, responses: seq<string>) returns (r: Result<()>)
      requires Valid()
      modifies this
      ensures Valid() && nextChannel == old(nextChannel)
      ensures terminalId in old(pending) ==>
                && r == Ok(())
                && pending == old(pending) - {terminalId}
                && delivered == old(delivered)[old(pending)[terminalId] := responses]
      ensures terminalId !in old(pending) ==>
                && r == Err("No pending MFA request for terminal: " + terminalId)
                && pending == old(pending) && delivered == old(delivered)
    {
      if terminalId !in pending {
        return Err("No pending MFA request for terminal: " + terminalId);
      }
      var ch := pending[terminalId];
      pending := pending - {terminalId};
      delivered := delivered[ch := responses];
      r := Ok(());
    }

    /** `cancel_ssh_mfa`: drops the pending sender of that id only (its receiver then sees the channel closed);
        always succeeds. */
    method Cancel(terminalId: string) returns (r: Result<()>)
      requires Valid()
      modifies this
      ensures Valid() && nextChannel == old(nextChannel)
      ensures r == Ok(()) && pending == old(pending) - {terminalId} && delivered == old(delivered)
    {
      pending := pending - {terminalId};
      r := Ok(());
    }

    /** The authentication task's wait on channel `ch` (with its 120-second timeout). Responses already sent are
        received; a sender that is gone without sending means the wait was cancelled; a sender still pending means
        the timer fired, and the task then removes the entry filed under `terminalId`. */
    method Await(terminalId: string, ch: nat) returns (o: Reception)
      requires Valid()
      modifies this
      ensures Valid() && nextChannel == old(nextChannel)
      ensures ch in old(delivered) ==>
                o == Received(old(delivered)[ch]) && delivered == old(delivered) - {ch} && pending == old(pending)
      ensures ch !in old(delivered) && (terminalId !in old(pending) || old(pending)[terminalId] != ch) ==>
                o == Dropped && delivered == old(delivered) && pending == old(pending)
      ensures ch !in old(delivered) && terminalId in old(pending) && old(pending)[terminalId] == ch ==>
                o == TimedOut && delivered == old(delivered) && pending == old(pending) - {terminalId}
    {
      if ch in delivered {
        o := Received(delivered[ch]);
        delivered := delivered - {ch};
      } else if terminalId in pending && pending[terminalId] == ch {
        o := TimedOut;
        pending := pending - {terminalId};
      } else {
        o := Dropped;
      }
    }
  }

  /** Once a response is submitted the entry is gone: submitting again for the same id fails, and the second
      responses are delivered nowhere. */
  method SubmitTwice(m: MfaChannels, terminalId: string, first: seq<string>, second: seq<string>)
    returns (r1: Result<()>, r2: Result<()>)
    requires m.Valid() && terminalId in m.pending
    modifies m
    ensures m.Valid()
    ensures r1 == Ok(()) && r2 == Err("No pending MFA request for terminal: " + terminalId)
    ensures m.pending == old(m.pending) - {terminalId}
    ensures m.delivered == old(m.delivered)[old(m.pending)[terminalId] := first]
  {
    r1 := m.Submit(terminalId, first);
    r2 := m.Submit(terminalId, second);
  }

  /** Cancelling twice is the same as cancelling once, and touches no other terminal's entry. */
  method CancelTwice(m: MfaChannels, terminalId: string) returns (r1: Result<()>, r2: Result<()>)
    requires m.Valid()
    modifies m
    ensures m.Valid() && r1 == Ok(()) && r2 == Ok(())
    ensures m.pending == old(m.pending) - {terminalId} && m.delivered == old(m.delivered)
    ensures forall t :: t != terminalId && t in old(m.pending) ==> t in m.pending && m.pending[t] == old(m.pending)[t]
  {
    r1 := m.Cancel(terminalId);
    r2 := m.Cancel(terminalId);
  }
}
