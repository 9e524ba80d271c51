/*
 * The Kafka producer the services publish through. Each SendMessage is
 * recorded in `sent`, whether the broker takes it or not; `accept` is
 * the broker's answer (true: delivered, false: SendMessage returns an
 * error).
 */
module Bus {
  import opened Message

  const RequestsTopic: string := "build-requests"
  const JobsTopic: string := "build-jobs"
  const StatusTopic: string := "build-status"
  const LogsTopic: string := "build-logs"
  const CompletionsTopic: string := "build-completions"

  /** The topics both generations of the builder consume. */
  const BuilderSubscriptions: set<string> := {JobsTopic}

  datatype Event = Event(topic: string, key: string, msg: Msg)

  class Producer {
    var sent: seq<Event>
    const accept: Event -> bool

    constructor (accept: Event -> bool)
      ensures sent == [] && this.accept == accept
    {
      sent := [];
      this.accept := accept;
    }

    method SendMessage(topic: string, key: string, msg: Msg) returns (ok: bool)
      modifies this
      ensures sent == old(sent) + [Event(topic, key, msg)]
      ensures ok == accept(Event(topic, key, msg))
    {
      sent := sent + [Event(topic, key, msg)];
      ok := accept(Event(topic, key, msg));
    }
  }
}
