/** The calls of an intent and the payloads that ask for them. */
module IntentCalls {
  import opened PlayTypes
  import opened PlaySchema
  import opened IntentRequests
  import opened Intents
  import IntentWire
  import PlayWire

  /** Every call an intent makes is sent as a payload that reads back as the request that ran. */
  lemma {:induction false} EveryCallArrives(ran: Asked -> bool, eyes: Eyes, raw: Payload, sessionSpeed: Json,
                                            play: PlayInput, start: Frame, log: seq<Asked>, end: Frame, i: nat)
    requires PlayWire.ReadRequest(raw, sessionSpeed) == Ok(play)
    requires Chain(ran, start, log, end) && i < |log| && forall a :: ran(a) ==> AskRan(eyes, play, a)
    ensures var a := log[i];
            && PlayWire.ReadRequest(IntentWire.PayloadOf(play, a.ask), sessionSpeed) == Ok(RequestOf(play, a.ask))
            && Ran(eyes, RequestOf(play, a.ask), a.seen, a.before, a.after, a.advanced)
  {
    EveryCallRan(ran, start, log, end, i);
    assert AskRan(eyes, play, log[i]);
    IntentWire.ReadPlaysSend(raw, sessionSpeed);
    IntentWire.AskArrives(play, log[i].ask, sessionSpeed);
  }
}
