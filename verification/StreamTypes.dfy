/** Values shared by the resource stream modules. */
module StreamTypes {
  import opened Options

  datatype Topic = Pods | Events | Workloads | Services | Ingresses | EndpointSlices | ConfigMaps | Claims

  /** A listed object: the topic of its DTO family, its namespace and the rest of its content. */
  datatype TopicObject = TopicObject(topic: Topic, namespace: string, body: string)

  datatype Kind = Snapshot | Progress | Added | Modified | Deleted | Refreshed | Heartbeat | Reset | Error

  datatype Reference = Reference(namespace: string, name: string)

  datatype StreamEvent = StreamEvent(
    kind: Kind, topic: Topic, resourceVersion: string, items: seq<TopicObject>,
    subject: Option<TopicObject>, deleted: Option<Reference>, reason: string, final: bool, chunk: nat)

  const MAX_EVENT_BYTES: nat := 65536
  const MAX_QUEUE_EVENTS: nat := 1000
  const MAX_QUEUE_BYTES: nat := 1048576
  const ENVELOPE_BYTES: nat := 64

  /** Kinds that end a stream and are never written to the replay log. */
  predicate Terminal(kind: Kind) {
    kind == Reset || kind == Error
  }

  function ResetEvent(topic: Topic, reason: string): StreamEvent {
    StreamEvent(Reset, topic, "", [], None, None, reason, false, 0)
  }

  /** An entry of the log with its position, counted from one; position zero marks a delivery
      that is not part of the log. */
  datatype Entry = Entry(position: nat, event: StreamEvent)

  /** The log as numbered entries. */
  function Numbered(log: seq<StreamEvent>): (entries: seq<Entry>)
    ensures |entries| == |log|
    ensures forall i :: 0 <= i < |log| ==> entries[i] == Entry(i + 1, log[i])
  {
    seq(|log|, i requires 0 <= i < |log| => Entry(i + 1, log[i]))
  }
}
