/** The message that actors, workers and the timer exchange (myframe/msg.h:17-108). */
module Messages {

  datatype TransMode = Hybrid | Intra | Dds

  datatype Msg = Msg(src: string, dst: string, name: string, kind: string, mode: TransMode, payload: string)

  /** An explicit address wins over the one in the message. */
  function Address(m: Msg, dst: string): string
  {
    if dst == "" then m.dst else dst
  }

  const SUBSCRIBE := "MYFRAME_SUBSCRIBE"
  const PUBLISH := "MYFRAME_PUBLISH"
  const TIMER := "MYFRAME_TIMER"
}
