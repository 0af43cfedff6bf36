/** The service between the controller and the producer. */
module DroneService {
  import opened Wrappers
  import opened Exceptions
  import opened DroneData
  import opened Kafka

  const MessageKey := "message"

  /** The service bean, holding its producer. */
  datatype DroneServiceImpl = DroneServiceImpl(kafkaProducer: KafkaProducer) {

    /**
     * sendToKafka: one producer call with the same report; its text becomes the
     * only entry of the returned map, under "message"; its exception passes
     * through untouched.
     */
    function SendToKafka(droneDto: Report, send: SendCall, interruptAfter: Option<nat>): (inv: Invocation<map<string, string>>)
      ensures inv.sent == [ProducerRecord(kafkaProducer.topic, droneDto.detectedBy, droneDto)]
      ensures inv.result.Returns? ==> inv.result.value.Keys == {MessageKey} && inv.result.value[MessageKey] == Accepted
      ensures inv.result.Throws? <==> kafkaProducer.SendDroneData(droneDto, send, interruptAfter).result.Throws?
      ensures inv.result.Throws? ==> inv.result.exception == kafkaProducer.SendDroneData(droneDto, send, interruptAfter).result.exception
    {
      var call := kafkaProducer.SendDroneData(droneDto, send, interruptAfter);
      match call.result
      case Returns(result) => Invocation(call.sent, Returns(map[MessageKey := result]))
      case Throws(e) => Invocation(call.sent, Throws(e))
    }
  }
}
