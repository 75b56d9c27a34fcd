/** Events the backend emits to the UI for a terminal: `terminal-output-<id>` with the bytes read and
    `terminal-exit-<id>` with no payload. Payloads stay bytes (the lossy UTF-8 decoding is not modelled). */
module Events {
  import opened Common

  datatype Payload = Bytes(data: seq<byte>) | Unit

  datatype Event = Event(name: string, payload: Payload)

  function OutputEvent(id: string, data: seq<byte>): Event
  {
    Event("terminal-output-" + id, Bytes(data))
  }

  function ExitEvent(id: string): Event
  {
    Event("terminal-exit-" + id, Unit)
  }

  /** The stream a terminal's UI sees: output events carrying data, then at most one exit event, which is last. */
  predicate WellFormedStream(id: string, es: seq<Event>)
  {
    forall i :: 0 <= i < |es| ==>
      || (es[i] == ExitEvent(id) && i == |es| - 1)
      || (es[i].name == "terminal-output-" + id && es[i].payload.Bytes? && es[i].payload.data != [])
  }

  /** How many exit events a stream holds. */
  function ExitCount(id: string, es: seq<Event>): nat
  {
    if es == [] then 0 else (if es[0] == ExitEvent(id) then 1 else 0) + ExitCount(id, es[1..])
  }

  /** A well-formed stream holds at most one exit event, and holds one exactly when it ends with one. */
  lemma {:induction false} AtMostOneExit(id: string, es: seq<Event>)
    requires WellFormedStream(id, es)
    ensures ExitCount(id, es) <= 1
    ensures ExitCount(id, es) == 1 <==> (es != [] && es[|es| - 1] == ExitEvent(id))
  {
    if es != [] {
      assert WellFormedStream(id, es[1..]) by {
        forall i | 0 <= i < |es[1..]|
          ensures || (es[1..][i] == ExitEvent(id) && i == |es[1..]| - 1)
                  || (es[1..][i].name == "terminal-output-" + id && es[1..][i].payload.Bytes? && es[1..][i].payload.data != [])
        {
          assert es[1..][i] == es[i + 1];
        }
      }
      AtMostOneExit(id, es[1..]);
      if es[0] == ExitEvent(id) {
        assert |es| == 1;
      }
    }
  }
}
